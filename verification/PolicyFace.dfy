/** What a scheduling policy can see of a machine, and what the machine's steps look like from there. */
module PolicyFace {
  import opened Tasks
  import opened TickSpec

  /** The same task to a policy: it knows threads by their parameters, by what they have left, and by being ready. */
  predicate Alike(a: Task, b: Task) {
    && b.kind == a.kind
    && (a.kind.Thread? ==>
      b.prio == a.prio && b.allot == a.allot && b.link == a.link && (b.state.Ready? <==> a.state.Ready?))
  }

  ghost predicate SameFace(m: Machine, n: Machine) {
    && n.idle == m.idle && n.tasks.Keys == m.tasks.Keys
    && forall id :: id in m.tasks ==> Alike(m.tasks[id], n.tasks[id])
  }

  lemma SameReady(m: Machine, n: Machine)
    requires SameFace(m, n)
    ensures ReadySet(n) == ReadySet(m)
  {
    forall x | x in m.tasks ensures x in ReadySet(n) <==> x in ReadySet(m) {
      assert Alike(m.tasks[x], n.tasks[x]);
    }
  }

  /** What a dispatch does outside EDF: one task becomes the running one. */
  lemma DispatchIs(cfg: Config, m: Machine, next: Id)
    requires !cfg.policy.Edf? && Wf(m) && next in m.tasks
    ensures Dispatch(cfg, m, next) ==
      Put(m, next, Popped(cfg, m.tasks[next]).(state := Running)).(running := Some(next))
  {
    assert FixupAll(cfg, m).tasks == m.tasks;
  }
}
