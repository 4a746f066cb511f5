/** Tasks, their states and the build configuration (include/workhorse/kSched/kSchedTask.h, Kconfig). */
module Tasks {
  datatype Option<+T> = None | Some(value: T)

  type Id = nat

  function Max(a: int, b: int): int { if a < b then b else a }

  datatype Kind = Thread | Lsr | Idle

  /** The live states; the prefix `Def` marks a task that still has to take the next tick. */
  datatype State =
    | Ready
    | Running
    | Throttled
    | LsrDormant
    | DefYield
    | DefThrottle
    | DefSleep
    | DefPending
    | Sleep
    | Pending
    | LsrPending
    | Failure

  predicate Activated(s: State) {
    !(s.Throttled? || s.LsrDormant? || s.Sleep? || s.Failure?)
  }

  predicate Deferred(s: State) {
    s.DefYield? || s.DefThrottle? || s.DefSleep? || s.DefPending?
  }

  /** Burst-cooldown server or deferrable server. */
  datatype Algorithm = Bcs | Ds

  datatype Policy = RoundRobin | Edf | Cyclic

  datatype Config = Config(algorithm: Algorithm, policy: Policy)

  /**
   A task as the tick machine sees it. `cool` and `nap` are the ticks left on the replenishment chain and on the
   sleep chain, zero when the task is on neither. `prio` is a thread's round-robin priority or the priority class of
   an LSR's vector. `allot` is the timeslice (round robin, cyclic) or the virtual deadline (EDF), and `link` what is
   left of it.
   */
  datatype Task = Task(
    kind: Kind,
    state: State,
    budget: nat,
    period: nat,
    current: nat,
    sleepTicks: nat,
    cool: nat,
    nap: nat,
    prio: nat,
    allot: nat,
    link: nat)
}
