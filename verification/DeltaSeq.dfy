/**
 The delta chain at the value level (include/lib/dsa/deltaChain.h).

 A chain is the list of its nodes, front first. Each node holds the time between
 its own expiry and the expiry of the node before it, so the time left before a
 node expires is the sum of the deltas up to and including its own. The module
 proves that every operation agrees with a plain list of times left.
 */
module DeltaSeq {

  /** Values of the 32-bit counters of the source wrap at this bound. */
  const WRAP: nat := 0x1_0000_0000

  datatype Node<T> = Node(id: T, delta: nat, expected: nat)

  /** A plain timed entry: who expires, and in how many ticks. */
  datatype Timed<T> = Timed(id: T, time: nat)

  /** `deltaChainInsert`: the walk stops at the first node whose delta exceeds what is left, so ties stay in front. */
  function Insert<T>(c: seq<Node<T>>, id: T, delta: nat, stamp: nat): seq<Node<T>> {
    if c == [] then [Node(id, delta, stamp)]
    else if c[0].delta > delta then [Node(id, delta, stamp), c[0].(delta := c[0].delta - delta)] + c[1..]
    else [c[0]] + Insert(c[1..], id, delta - c[0].delta, stamp)
  }

  /** `deltaChainTick`: only the first node with a non-zero delta is touched. */
  function Tick<T>(c: seq<Node<T>>): seq<Node<T>> {
    if c == [] then []
    else if c[0].delta != 0 then [c[0].(delta := c[0].delta - 1)] + c[1..]
    else [c[0]] + Tick(c[1..])
  }

  /** `deltaChainPop`: the popped delta is handed to the node behind it, with 32-bit addition. */
  function PopRest<T>(c: seq<Node<T>>): seq<Node<T>>
    requires c != []
  {
    if |c| == 1 then []
    else [c[1].(delta := (c[1].delta + c[0].delta) % WRAP)] + c[2..]
  }

  /** `deltaChainTimeUntil`: 32-bit subtraction of the current epoch from the stamp. */
  function TimeUntil(expected: nat, epoch: nat): nat {
    (expected - epoch) % WRAP
  }

  /** The plain list a chain stands for: every node with its own time left. */
  function Plain<T>(c: seq<Node<T>>, base: nat := 0): (l: seq<Timed<T>>)
    ensures |l| == |c|
  {
    if c == [] then [] else
    var t := base + c[0].delta;
    [Timed(c[0].id, t)] + Plain(c[1..], t)
  }

  /** Stable insertion into a plain list: behind every entry that expires no later. */
  function InsertPlain<T>(l: seq<Timed<T>>, e: Timed<T>): seq<Timed<T>> {
    if l == [] || l[0].time > e.time then [e] + l else [l[0]] + InsertPlain(l[1..], e)
  }

  function Dec(n: nat): nat { if n == 0 then 0 else n - 1 }

  ghost predicate Sorted<T>(l: seq<Timed<T>>) {
    forall i, j :: 0 <= i < j < |l| ==> l[i].time <= l[j].time
  }

  // ------------------------------------------------------------------------
  // Every operation on the chain is the plain one on the list it stands for.

  lemma {:induction false} PlainAt<T>(c: seq<Node<T>>, base: nat, i: nat)
    requires i < |c|
    ensures Plain(c, base)[i].id == c[i].id
    ensures Plain(c, base)[i].time >= base + c[0].delta
    ensures Plain(c, base)[i].time == (if i == 0 then base else Plain(c, base)[i - 1].time) + c[i].delta
  {
    if i > 0 {
      PlainAt(c[1..], base + c[0].delta, i - 1);
    }
  }

  lemma {:induction false} PlainSorted<T>(c: seq<Node<T>>, base: nat)
    ensures Sorted(Plain(c, base))
    ensures forall i :: 0 <= i < |c| ==> Plain(c, base)[i].time >= base
  {
    if c != [] {
      PlainSorted(c[1..], base + c[0].delta);
    }
  }

  lemma {:induction false} PlainShift<T>(c: seq<Node<T>>, a: nat, b: nat)
    requires c != []
    ensures a + c[0].delta == b ==> Plain(c, a) == [Timed(c[0].id, b)] + Plain(c[1..], b)
    ensures b <= c[0].delta ==> Plain(c, a) == Plain([c[0].(delta := c[0].delta - b)] + c[1..], a + b)
  {
  }

  lemma {:induction false} InsertRefines<T>(c: seq<Node<T>>, id: T, delta: nat, stamp: nat, base: nat)
    ensures Plain(Insert(c, id, delta, stamp), base) == InsertPlain(Plain(c, base), Timed(id, base + delta))
  {
    if c == [] {
    } else if c[0].delta > delta {
      var cut := c[0].(delta := c[0].delta - delta);
      assert Insert(c, id, delta, stamp)[1..] == [cut] + c[1..];
      PlainShift(c, base, delta);
    } else {
      InsertRefines(c[1..], id, delta - c[0].delta, stamp, base + c[0].delta);
      assert Insert(c, id, delta, stamp)[1..] == Insert(c[1..], id, delta - c[0].delta, stamp);
      assert Plain(c, base)[1..] == Plain(c[1..], base + c[0].delta);
    }
  }

  /** One tick of the chain counts every time left down at once, stopping at zero. */
  lemma {:induction false} TickRefines<T>(c: seq<Node<T>>)
    ensures |Tick(c)| == |c|
    ensures forall i :: 0 <= i < |c| ==>
      Plain(Tick(c))[i] == Timed(c[i].id, Dec(Plain(c)[i].time))
  {
    if c == [] {
    } else if c[0].delta != 0 {
      PlainLower(c[1..], c[0].delta);
      assert Tick(c)[1..] == c[1..];
      forall i | 0 <= i < |c| ensures Plain(Tick(c))[i] == Timed(c[i].id, Dec(Plain(c)[i].time)) {
        PlainAt(c, 0, i);
      }
    } else {
      TickRefines(c[1..]);
      assert Tick(c)[1..] == Tick(c[1..]);
      forall i | 0 <= i < |c| ensures Plain(Tick(c))[i] == Timed(c[i].id, Dec(Plain(c)[i].time)) {
        PlainAt(c, 0, i);
      }
    }
  }

  lemma {:induction false} PlainLower<T>(c: seq<Node<T>>, base: nat)
    requires base > 0
    ensures forall i :: 0 <= i < |c| ==>
      Plain(c, base)[i].time > 0 && Plain(c, base - 1)[i] == Timed(Plain(c, base)[i].id, Plain(c, base)[i].time - 1)
  {
    if c != [] {
      PlainLower(c[1..], base + c[0].delta);
    }
  }

  /** Popping the front leaves every other time alone, because the 32-bit addition cannot wrap. */
  lemma {:induction false} PopRefines<T>(c: seq<Node<T>>)
    requires c != []
    requires forall i :: 0 <= i < |c| ==> Plain(c)[i].time < WRAP
    ensures |c| > 1 ==> c[0].delta + c[1].delta < WRAP
    ensures Plain(PopRest(c)) == Plain(c)[1..]
    ensures forall i :: 0 <= i < |c| ==> Plain(c)[0].time <= Plain(c)[i].time
  {
    PlainSorted(c, 0);
    if |c| > 1 {
      PlainAt(c, 0, 1);
      var r := PopRest(c);
      assert r[1..] == c[2..] && c[1..][1..] == c[2..];
      assert Plain(r) == [Timed(c[1].id, c[0].delta + c[1].delta)] + Plain(c[2..], c[0].delta + c[1].delta);
      assert Plain(c)[1..] == Plain(c[1..], c[0].delta);
    }
  }

  // ------------------------------------------------------------------------
  // Lookup by identity: the view the tick machine takes of its chains.

  function Ids<T>(c: seq<Node<T>>): set<T> { set n | n in c :: n.id }

  predicate Distinct<T(==)>(c: seq<Node<T>>) {
    c == [] || (c[0].id !in Ids(c[1..]) && Distinct(c[1..]))
  }

  /** Time left before `id` expires; zero when it is not in the chain. */
  function Left<T(==)>(c: seq<Node<T>>, id: T): nat {
    if c == [] || id !in Ids(c) then 0
    else if c[0].id == id then c[0].delta
    else c[0].delta + Left(c[1..], id)
  }

  /** The epoch `id` was stamped with when it was inserted. */
  function Stamp<T(==)>(c: seq<Node<T>>, id: T): nat {
    if c == [] || id !in Ids(c) then 0
    else if c[0].id == id then c[0].expected
    else Stamp(c[1..], id)
  }

  lemma IdsCons<T>(c: seq<Node<T>>)
    requires c != []
    ensures Ids(c) == {c[0].id} + Ids(c[1..])
  {
    assert c == [c[0]] + c[1..];
  }

  lemma {:induction false} LeftIsPlain<T>(c: seq<Node<T>>, base: nat, i: nat)
    requires Distinct(c) && i < |c|
    ensures c[i].id in Ids(c) && Plain(c, base)[i].time == base + Left(c, c[i].id)
  {
    IdsCons(c);
    if i > 0 {
      LeftIsPlain(c[1..], base + c[0].delta, i - 1);
      assert Plain(c, base)[i] == Plain(c[1..], base + c[0].delta)[i - 1];
    }
  }

  lemma {:induction false} InsertIds<T>(c: seq<Node<T>>, id: T, delta: nat, stamp: nat)
    ensures Ids(Insert(c, id, delta, stamp)) == Ids(c) + {id}
    ensures Distinct(c) && id !in Ids(c) ==> Distinct(Insert(c, id, delta, stamp))
  {
    var r := Insert(c, id, delta, stamp);
    IdsCons(r);
    if c != [] {
      IdsCons(c);
      if c[0].delta > delta {
        var cut := [c[0].(delta := c[0].delta - delta)] + c[1..];
        assert r[1..] == cut && cut[1..] == c[1..];
        IdsCons(cut);
      } else {
        InsertIds(c[1..], id, delta - c[0].delta, stamp);
        assert r[1..] == Insert(c[1..], id, delta - c[0].delta, stamp);
      }
    }
  }

  /** What looking an identity up finds in a chain, by its front and its rest. */
  lemma Lookup<T>(c: seq<Node<T>>, x: T)
    requires c != []
    ensures x in Ids(c) <==> c[0].id == x || x in Ids(c[1..])
    ensures Left(c, x) ==
      if x !in Ids(c) then 0 else c[0].delta + if c[0].id == x then 0 else Left(c[1..], x)
    ensures Stamp(c, x) ==
      if x !in Ids(c) then 0 else if c[0].id == x then c[0].expected else Stamp(c[1..], x)
  {
    IdsCons(c);
  }

  lemma {:induction false} InsertAt<T>(c: seq<Node<T>>, id: T, delta: nat, stamp: nat, x: T)
    requires Distinct(c) && id !in Ids(c)
    ensures var r := Insert(c, id, delta, stamp);
      if x == id then Left(r, x) == delta && Stamp(r, x) == stamp
      else Left(r, x) == Left(c, x) && Stamp(r, x) == Stamp(c, x)
  {
    var r := Insert(c, id, delta, stamp);
    InsertIds(c, id, delta, stamp);
    Lookup(r, x);
    if c != [] {
      Lookup(c, x);
      Lookup(c, id);
      if c[0].delta > delta {
        var cut := [c[0].(delta := c[0].delta - delta)] + c[1..];
        assert r[1..] == cut && cut[1..] == c[1..];
        Lookup(cut, x);
      } else {
        InsertAt(c[1..], id, delta - c[0].delta, stamp, x);
        assert r[1..] == Insert(c[1..], id, delta - c[0].delta, stamp);
      }
    }
  }

  lemma InsertLeft<T>(c: seq<Node<T>>, id: T, delta: nat, stamp: nat)
    requires Distinct(c) && id !in Ids(c)
    ensures Ids(Insert(c, id, delta, stamp)) == Ids(c) + {id}
    ensures Distinct(Insert(c, id, delta, stamp))
    ensures Left(Insert(c, id, delta, stamp), id) == delta
    ensures forall x :: x != id ==> Left(Insert(c, id, delta, stamp), x) == Left(c, x)
    ensures Stamp(Insert(c, id, delta, stamp), id) == stamp
    ensures forall x :: x != id ==> Stamp(Insert(c, id, delta, stamp), x) == Stamp(c, x)
  {
    hide Insert, Left, Stamp, Ids, Distinct;
    InsertIds(c, id, delta, stamp);
    InsertAt(c, id, delta, stamp, id);
    forall x | x != id
      ensures Left(Insert(c, id, delta, stamp), x) == Left(c, x)
      ensures Stamp(Insert(c, id, delta, stamp), x) == Stamp(c, x)
    {
      InsertAt(c, id, delta, stamp, x);
    }
  }

  lemma {:induction false} TickLeft<T>(c: seq<Node<T>>)
    requires Distinct(c)
    ensures Ids(Tick(c)) == Ids(c) && Distinct(Tick(c))
    ensures forall x :: Left(Tick(c), x) == Dec(Left(c, x)) && Stamp(Tick(c), x) == Stamp(c, x)
  {
    if c != [] {
      IdsCons(c);
      IdsCons(Tick(c));
      if c[0].delta != 0 {
        assert Tick(c)[1..] == c[1..];
      } else {
        TickLeft(c[1..]);
        assert Tick(c)[1..] == Tick(c[1..]);
      }
    }
  }

  /** `deltaChainPopExpired` answers with the front exactly when something has expired. */
  lemma {:induction false} PopExpiredLeft<T>(c: seq<Node<T>>)
    requires Distinct(c)
    ensures c == [] || c[0].delta > 0 ==> forall x :: x in Ids(c) ==> Left(c, x) > 0
    ensures c != [] && c[0].delta == 0 ==>
      && Distinct(c[1..]) && Ids(c[1..]) == Ids(c) - {c[0].id}
      && Left(c, c[0].id) == 0
      && forall x :: x != c[0].id ==> Left(c[1..], x) == Left(c, x) && Stamp(c[1..], x) == Stamp(c, x)
  {
    if c != [] {
      IdsCons(c);
    }
  }

  /** The sum a pop makes cannot wrap while every time left fits the counter. */
  lemma PopSum<T>(c: seq<Node<T>>)
    requires |c| > 1 && Distinct(c) && Left(c, c[1].id) < WRAP
    ensures c[0].delta + c[1].delta < WRAP && c[0].id !in Ids(c[1..])
  {
    IdsCons(c);
    IdsCons(c[1..]);
  }

  lemma NoWrap(n: nat)
    requires n < WRAP
    ensures n % WRAP == n
  {
  }

  /** The chain behind a popped front, which is handed the front's delta. */
  lemma PopIs<T>(c: seq<Node<T>>)
    requires |c| > 1 && Distinct(c) && Left(c, c[1].id) < WRAP
    ensures PopRest(c) == [c[1].(delta := c[0].delta + c[1].delta)] + c[2..]
    ensures c[0].id !in Ids(c[1..])
  {
    hide Left, Ids, Distinct;
    PopSum(c);
    NoWrap(c[1].delta + c[0].delta);
  }

  lemma PopAt<T>(c: seq<Node<T>>, x: T)
    requires |c| > 1 && Distinct(c) && Left(c, c[1].id) < WRAP
    ensures x in Ids(PopRest(c)) <==> x in Ids(c) && x != c[0].id
    ensures x != c[0].id ==> Left(PopRest(c), x) == Left(c, x)
    ensures x in Ids(c) ==> Left(c, c[0].id) <= Left(c, x)
  {
    hide Left, Ids, Distinct, PopRest, Stamp;
    PopIs(c);
    var r, rest := PopRest(c), c[1..];
    assert r[1..] == c[2..] && rest[1..] == c[2..];
    Lookup(c, x);
    Lookup(c, c[0].id);
    Lookup(rest, x);
    Lookup(r, x);
  }

  lemma PopDistinct<T>(c: seq<Node<T>>)
    requires c != [] && Distinct(c)
    ensures Distinct(PopRest(c))
  {
    if |c| > 1 {
      assert PopRest(c)[1..] == c[1..][1..];
    }
  }

  lemma PopLeft<T>(c: seq<Node<T>>)
    requires c != [] && Distinct(c)
    requires forall x :: x in Ids(c) ==> Left(c, x) < WRAP
    ensures Distinct(PopRest(c)) && Ids(PopRest(c)) == Ids(c) - {c[0].id}
    ensures forall x :: x in Ids(c) ==> Left(c, c[0].id) <= Left(c, x)
    ensures forall x :: x != c[0].id ==> Left(PopRest(c), x) == Left(c, x)
  {
    PopDistinct(c);
    if |c| == 1 {
      assert c == [c[0]];
    } else {
      IdsCons(c);
      IdsCons(c[1..]);
      hide Left, Distinct, PopRest, Ids;
      forall x: T
        ensures x in Ids(PopRest(c)) <==> x in Ids(c) - {c[0].id}
        ensures x != c[0].id ==> Left(PopRest(c), x) == Left(c, x)
        ensures x in Ids(c) ==> Left(c, c[0].id) <= Left(c, x)
      {
        PopAt(c, x);
      }
    }
  }

  // ------------------------------------------------------------------------
  // Epoch stamps: the constant-time answer is the sum of the deltas.

  /** The epoch at which something expires that has so many ticks left. */
  function Expiry(epoch: nat, left: nat): nat { (epoch + left) % WRAP }

  /** Every entry is stamped with the epoch at which it expires, modulo the counter width. */
  ghost predicate Stamped<T>(c: seq<Node<T>>, epoch: nat) {
    forall x :: x in Ids(c) ==> Left(c, x) < WRAP && Stamp(c, x) == Expiry(epoch, Left(c, x))
  }

  lemma TimeUntilIsLeft<T>(c: seq<Node<T>>, epoch: nat, id: T)
    requires Stamped(c, epoch) && id in Ids(c)
    ensures TimeUntil(Stamp(c, id), epoch) == Left(c, id)
  {
  }

  lemma InsertStamped<T>(c: seq<Node<T>>, epoch: nat, id: T, delta: nat)
    requires Stamped(c, epoch) && Distinct(c) && id !in Ids(c) && delta < WRAP
    ensures Stamped(Insert(c, id, delta, (epoch + delta) % WRAP), epoch)
  {
    InsertLeft(c, id, delta, (epoch + delta) % WRAP);
  }

  /** Handing out an expired front leaves the stamps of the others right. */
  lemma PopExpiredStamped<T>(c: seq<Node<T>>, epoch: nat)
    requires Stamped(c, epoch) && Distinct(c) && c != [] && c[0].delta == 0
    ensures Stamped(c[1..], epoch)
  {
    PopExpiredLeft(c);
    hide Left, Stamp, Distinct, Ids, Expiry;
  }

  lemma PopStamp<T>(c: seq<Node<T>>, x: T)
    requires c != [] && Distinct(c) && x != c[0].id
    ensures Stamp(PopRest(c), x) == Stamp(c, x)
  {
    Lookup(c, x);
    if |c| > 1 {
      var r, rest := PopRest(c), c[1..];
      assert r[1..] == c[2..] && rest[1..] == c[2..];
      Lookup(rest, x);
      Lookup(r, x);
    }
  }

  lemma PopStampedAt<T>(c: seq<Node<T>>, epoch: nat, x: T)
    requires Stamped(c, epoch) && Distinct(c) && c != [] && x in Ids(PopRest(c))
    ensures Left(PopRest(c), x) < WRAP && Stamp(PopRest(c), x) == Expiry(epoch, Left(PopRest(c), x))
  {
    if |c| > 1 {
      IdsCons(c);
      IdsCons(c[1..]);
      hide Left, Stamp, Distinct, Ids, Expiry, PopRest;
      PopAt(c, x);
      PopStamp(c, x);
    }
  }

  /** And so does a pop of a front that has not expired. */
  lemma PopStamped<T>(c: seq<Node<T>>, epoch: nat)
    requires Stamped(c, epoch) && Distinct(c) && c != []
    ensures Stamped(PopRest(c), epoch)
  {
    hide Left, Stamp, Distinct, Ids, Expiry, PopRest;
    forall x | x in Ids(PopRest(c))
      ensures Left(PopRest(c), x) < WRAP && Stamp(PopRest(c), x) == Expiry(epoch, Left(PopRest(c), x))
    {
      PopStampedAt(c, epoch, x);
    }
  }

  /**
   A tick keeps every stamp right, across the wrap of the epoch too, exactly when nothing had expired before it: an
   entry that stays expired over a tick is 2^32 - 1 ticks away by its stamp.
   */
  lemma TickStamped<T>(c: seq<Node<T>>, epoch: nat)
    requires Stamped(c, epoch) && Distinct(c)
    ensures Stamped(Tick(c), (epoch + 1) % WRAP) <==> forall x :: x in Ids(c) ==> Left(c, x) > 0
  {
    TickLeft(c);
    hide Tick, Left, Stamp, Distinct, Ids, Expiry;
    forall x | x in Ids(c)
      ensures Left(c, x) > 0 <==> Stamp(Tick(c), x) == Expiry((epoch + 1) % WRAP, Left(Tick(c), x))
    {
      StampStep(epoch, Left(c, x), Stamp(c, x));
    }
  }

  /** The same, told by the front. */
  lemma TickStampedFront<T>(c: seq<Node<T>>, epoch: nat)
    requires Stamped(c, epoch) && Distinct(c)
    ensures Stamped(Tick(c), (epoch + 1) % WRAP) <==> c == [] || c[0].delta > 0
  {
    hide Tick, Stamped;
    TickStamped(c, epoch);
    PopExpiredLeft(c);
    if c != [] {
      IdsCons(c);
    }
  }

  lemma WrapIs(x: nat, q: nat, r: nat)
    requires x == q * WRAP + r && r < WRAP
    ensures x % WRAP == r
  {
  }

  lemma StampStep(epoch: nat, left: nat, stamp: nat)
    requires left < WRAP && stamp == Expiry(epoch, left)
    ensures left > 0 <==> stamp == Expiry((epoch + 1) % WRAP, Dec(left))
  {
    var q, e := epoch / WRAP, epoch % WRAP;
    var now := if e + 1 < WRAP then e + 1 else 0;
    assert (epoch + 1) % WRAP == now by {
      WrapIs(epoch + 1, if e + 1 < WRAP then q else q + 1, now);
    }
    assert stamp == if e + left < WRAP then e + left else e + left - WRAP by {
      WrapIs(epoch + left, if e + left < WRAP then q else q + 1, if e + left < WRAP then e + left else e + left - WRAP);
    }
    var d := now + Dec(left);
    WrapIs(d, if d < WRAP then 0 else 1, if d < WRAP then d else d - WRAP);
  }

  // ------------------------------------------------------------------------
  // Nodes by another name.

  /** The chain with every node called by its name. */
  function Renamed<T(==), U>(c: seq<Node<T>>, name: map<T, U>): (r: seq<Node<U>>)
    requires forall n :: n in c ==> n.id in name
    ensures |r| == |c|
    ensures forall i :: 0 <= i < |c| ==> r[i] == Node(name[c[i].id], c[i].delta, c[i].expected)
  {
    seq(|c|, i requires 0 <= i < |c| => Node(name[c[i].id], c[i].delta, c[i].expected))
  }

  lemma {:induction false} RenamedInsert<T, U>(c: seq<Node<T>>, name: map<T, U>, id: T, delta: nat, stamp: nat)
    requires id in name && forall n :: n in c ==> n.id in name
    ensures forall n :: n in Insert(c, id, delta, stamp) ==> n.id in name
    ensures Renamed(Insert(c, id, delta, stamp), name) == Insert(Renamed(c, name), name[id], delta, stamp)
  {
    if c != [] && c[0].delta <= delta {
      RenamedInsert(c[1..], name, id, delta - c[0].delta, stamp);
      assert Renamed(c, name)[1..] == Renamed(c[1..], name);
    }
  }

  lemma {:induction false} RenamedTick<T, U>(c: seq<Node<T>>, name: map<T, U>)
    requires forall n :: n in c ==> n.id in name
    ensures forall n :: n in Tick(c) ==> n.id in name
    ensures Renamed(Tick(c), name) == Tick(Renamed(c, name))
  {
    if c != [] && c[0].delta == 0 {
      RenamedTick(c[1..], name);
      assert Renamed(c, name)[1..] == Renamed(c[1..], name);
    }
  }

  lemma RenamedPop<T, U>(c: seq<Node<T>>, name: map<T, U>)
    requires c != [] && forall n :: n in c ==> n.id in name
    ensures forall n :: n in PopRest(c) ==> n.id in name
    ensures Renamed(PopRest(c), name) == PopRest(Renamed(c, name))
  {
    PopAtIndex(c);
    PopAtIndex(Renamed(c, name));
    hide PopRest;
    forall i | 0 <= i < |PopRest(c)| ensures PopRest(c)[i].id in name {
    }
  }

  lemma PopAtIndex<T>(c: seq<Node<T>>)
    requires c != []
    ensures |PopRest(c)| == |c| - 1
    ensures forall i :: 0 <= i < |c| - 1 ==>
      PopRest(c)[i] == if i == 0 then c[1].(delta := (c[1].delta + c[0].delta) % WRAP) else c[i + 1]
  {
  }
}
