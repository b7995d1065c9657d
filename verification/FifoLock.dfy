/** The lock service that a single leader must look like: one first in, first out queue of
    clients for each object name, whose first client holds the lock.

    This is a reference definition: it knows nothing of tickets, numbers or messages. */
module FifoLock {
  /** A client in a queue.  It gives up at `until`: the obtention timeout while it waits, the
      end of its lease, `lease` after it got the lock, once `granted`. */
  datatype Place = Place(key: string, until: int, lease: int, granted: bool)

  type Queue = seq<Place>

  /** The clients of the first `n` places that do not give up yet, in order. */
  function StayingFirst(q: Queue, n: nat, now: int): (s: Queue)
    requires n <= |q|
    ensures |s| <= n
    ensures forall p :: p in s <==> p in q[..n] && now < p.until
  {
    if n == 0 then []
    else
      var so := StayingFirst(q, n - 1, now);
      assert q[..n] == q[..n - 1] + [q[n - 1]];
      if q[n - 1].until <= now then so else so + [q[n - 1]]
  }

  function Staying(q: Queue, now: int): Queue { StayingFirst(q, |q|, now) }

  /** The first client gets the lock. */
  function Granted(q: Queue, now: int): (g: Queue)
    ensures |g| == |q|
  {
    if q == [] || q[0].granted then q else [q[0].(until := now + q[0].lease, granted := true)] + q[1..]
  }

  function Settled(q: Queue, now: int): Queue { Granted(Staying(q, now), now) }

  /** Place of a client in a queue, |q| when it has none. */
  function Find(q: Queue, key: string, i: nat := 0): (r: nat)
    requires i <= |q|
    ensures i <= r <= |q|
    ensures forall j :: i <= j < r ==> q[j].key != key
    ensures r < |q| ==> q[r].key == key
    decreases |q| - i
  {
    if i == |q| || q[i].key == key then i else Find(q, key, i + 1)
  }

  datatype Event =
    | Lock(key: string, until: int, lease: int)
    | Unlock(key: string)
    | Tick

  /** A client that waits or holds already, or that gives up at once, does not enter the queue. */
  predicate Enters(q: Queue, e: Event, now: int) {
    e.Lock? && now < e.until && Find(Settled(q, now), e.key) == |Settled(q, now)|
  }

  function Step(q: Queue, e: Event, now: int): Queue {
    match e
    case Lock(key, until, lease) =>
      var s := Settled(q, now);
      if Enters(q, e, now) then Granted(s + [Place(key, until, lease, false)], now) else s
    case Unlock(key) =>
      var i := Find(q, key);
      if i < |q| then Settled(q[..i] + q[i + 1..], now) else Settled(q, now)
    case Tick => Settled(q, now)
  }

  // ---------- what such a queue guarantees ----------

  predicate DistinctKeys(q: Queue) { forall i, j :: 0 <= i < j < |q| ==> q[i].key != q[j].key }

  predicate OthersWait(q: Queue) { forall i :: 0 < i < |q| ==> !q[i].granted }

  /** The head holds the lock, nobody else does, and nobody is in the queue twice. */
  predicate Proper(q: Queue) { DistinctKeys(q) && OthersWait(q) && (q != [] ==> q[0].granted) }

  lemma StayingAmong(q: Queue, n: nat, now: int, p: Place)
    requires n <= |q| && p in StayingFirst(q, n, now)
    ensures exists i :: 0 <= i < n && q[i] == p
  {
    assert p in q[..n];
    var i :| 0 <= i < |q[..n]| && q[..n][i] == p;
    assert q[i] == p;
  }

  lemma {:induction false} StayingDistinct(q: Queue, n: nat, now: int)
    requires n <= |q| && DistinctKeys(q)
    ensures DistinctKeys(StayingFirst(q, n, now))
  {
    if n > 0 {
      StayingDistinct(q, n - 1, now);
      var so := StayingFirst(q, n - 1, now);
      forall p | p in so ensures p.key != q[n - 1].key {
        StayingAmong(q, n - 1, now, p);
      }
    }
  }

  lemma {:induction false} StayingWait(q: Queue, n: nat, now: int)
    requires n <= |q| && OthersWait(q)
    ensures OthersWait(StayingFirst(q, n, now))
  {
    if n > 0 {
      StayingWait(q, n - 1, now);
    }
  }

  lemma SettledProper(q: Queue, now: int)
    requires DistinctKeys(q) && OthersWait(q)
    ensures Proper(Settled(q, now))
  {
    StayingDistinct(q, |q|, now);
    StayingWait(q, |q|, now);
    GrantedProper(Staying(q, now), now);
  }

  lemma GrantedProper(q: Queue, now: int)
    requires DistinctKeys(q) && OthersWait(q)
    ensures Proper(Granted(q, now))
  {
    var g := Granted(q, now);
    forall i | 0 <= i < |q| ensures g[i].key == q[i].key && (i > 0 ==> g[i] == q[i]) {
    }
  }

  /** Every event keeps the queue proper: the lock is always held by the first client alone. */
  lemma StepProper(q: Queue, e: Event, now: int)
    requires Proper(q)
    ensures Proper(Step(q, e, now))
  {
    SettledProper(q, now);
    match e
    case Lock(key, until, lease) =>
      var s := Settled(q, now);
      if Enters(q, e, now) {
        GrantedProper(s + [Place(key, until, lease, false)], now);
      }
    case Unlock(key) =>
      var i := Find(q, key);
      if i < |q| {
        SettledProper(q[..i] + q[i + 1..], now);
      }
    case Tick =>
  }

  /** The holder keeps the lock, with the same end of its lease, until it unlocks or that end. */
  lemma HolderStays(q: Queue, e: Event, now: int)
    requires Proper(q) && q != [] && now < q[0].until && e != Unlock(q[0].key)
    ensures var s := Step(q, e, now); s != [] && s[0] == q[0]
  {
    StayingHead(q, |q|, now);
    if e.Unlock? {
      var i := Find(q, e.key);
      if i < |q| {
        var rest := q[..i] + q[i + 1..];
        StayingHead(rest, |rest|, now);
      }
    }
  }

  lemma {:induction false} StayingHead(q: Queue, n: nat, now: int)
    requires 0 < n <= |q| && now < q[0].until
    ensures StayingFirst(q, n, now) != [] && StayingFirst(q, n, now)[0] == q[0]
  {
    if n > 1 {
      StayingHead(q, n - 1, now);
    }
  }

  // ---------- first in, first out ----------

  /** The clients `a` and `b` are in the queue, `a` before `b`. */
  predicate Ahead(q: Queue, a: string, b: string) {
    exists i, j :: 0 <= i < j < |q| && q[i].key == a && q[j].key == b
  }

  predicate InQueue(q: Queue, a: string) { exists i :: 0 <= i < |q| && q[i].key == a }

  /** Clients of `s` are in `q` in the same order. */
  predicate KeepsOrder(s: Queue, q: Queue) {
    && (forall x :: 0 <= x < |s| ==> InQueue(q, s[x].key))
    && (forall x, y :: 0 <= x < y < |s| ==> Ahead(q, s[x].key, s[y].key))
  }

  lemma {:induction false} InQueueMore(q: Queue, p: Place, a: string)
    requires InQueue(q, a)
    ensures InQueue(q + [p], a)
  {
    var i :| 0 <= i < |q| && q[i].key == a;
    assert (q + [p])[i] == q[i];
  }

  lemma {:induction false} AheadMore(q: Queue, p: Place, a: string, b: string)
    requires Ahead(q, a, b)
    ensures Ahead(q + [p], a, b)
  {
    var i, j :| 0 <= i < j < |q| && q[i].key == a && q[j].key == b;
    assert (q + [p])[i] == q[i] && (q + [p])[j] == q[j];
  }

  lemma {:induction false} AheadOfLast(q: Queue, p: Place, a: string)
    requires InQueue(q, a)
    ensures Ahead(q + [p], a, p.key)
  {
    var i :| 0 <= i < |q| && q[i].key == a;
    assert (q + [p])[i] == q[i] && (q + [p])[|q|] == p;
  }

  lemma {:induction false} LongerKeepsOrder(s: Queue, q: Queue, p: Place)
    requires KeepsOrder(s, q)
    ensures KeepsOrder(s, q + [p])
  {
    forall x | 0 <= x < |s| ensures InQueue(q + [p], s[x].key) {
      InQueueMore(q, p, s[x].key);
    }
    forall x, y | 0 <= x < y < |s| ensures Ahead(q + [p], s[x].key, s[y].key) {
      AheadMore(q, p, s[x].key, s[y].key);
    }
  }

  lemma {:induction false} LastKeepsOrder(s: Queue, q: Queue, p: Place)
    requires KeepsOrder(s, q)
    ensures KeepsOrder(s + [p], q + [p])
  {
    var t := s + [p];
    LongerKeepsOrder(s, q, p);
    assert (q + [p])[|q|] == p;
    forall x, y | 0 <= x < y < |t| ensures Ahead(q + [p], t[x].key, t[y].key) {
      if y == |s| {
        AheadOfLast(q, p, s[x].key);
      } else {
        assert Ahead(q + [p], s[x].key, s[y].key);
      }
    }
  }

  lemma {:induction false} NextStaying(q: Queue, n: nat, now: int)
    requires 0 < n <= |q|
    ensures StayingFirst(q, n, now)
         == if q[n - 1].until <= now then StayingFirst(q, n - 1, now) else StayingFirst(q, n - 1, now) + [q[n - 1]]
    ensures q[..n] == q[..n - 1] + [q[n - 1]]
  {
    var so := StayingFirst(q, n - 1, now);
    assert StayingFirst(q, n, now) == if q[n - 1].until <= now then so else so + [q[n - 1]];
  }

  lemma NobodyKeepsOrder(q: Queue, now: int)
    ensures KeepsOrder(StayingFirst(q, 0, now), q[..0])
  {
  }

  lemma {:induction false} StayingKeepsOrder(q: Queue, n: nat, now: int)
    requires n <= |q|
    ensures KeepsOrder(StayingFirst(q, n, now), q[..n])
  {
    hide KeepsOrder, StayingFirst;
    if n == 0 {
      NobodyKeepsOrder(q, now);
    } else {
      StayingKeepsOrder(q, n - 1, now);
      NextStaying(q, n, now);
      LongerKeepsOrder(StayingFirst(q, n - 1, now), q[..n - 1], q[n - 1]);
      LastKeepsOrder(StayingFirst(q, n - 1, now), q[..n - 1], q[n - 1]);
    }
  }

  lemma SettledKeys(q: Queue, now: int)
    ensures |Settled(q, now)| == |Staying(q, now)|
    ensures forall x :: 0 <= x < |Staying(q, now)| ==> Settled(q, now)[x].key == Staying(q, now)[x].key
  {
    hide Staying;
  }

  lemma SettledKeepsOrder(q: Queue, now: int)
    ensures KeepsOrder(Settled(q, now), q)
  {
    SettledKeys(q, now);
    StayingKeepsOrder(q, |q|, now);
    assert q[..|q|] == q;
    assert StayingFirst(q, |q|, now) == Staying(q, now);
    hide *;
    SameKeysKeepOrder(Settled(q, now), Staying(q, now), q);
  }

  lemma WithoutKeepsOrder(s: Queue, q: Queue, i: nat)
    requires i < |q| && KeepsOrder(s, q[..i] + q[i + 1..])
    ensures KeepsOrder(s, q)
  {
    var rest := q[..i] + q[i + 1..];
    forall x | 0 <= x < |s| ensures InQueue(q, s[x].key) {
      assert InQueue(rest, s[x].key);
      var k :| 0 <= k < |rest| && rest[k].key == s[x].key;
      assert q[if k < i then k else k + 1] == rest[k];
    }
    forall x, y | 0 <= x < y < |s| ensures Ahead(q, s[x].key, s[y].key) {
      assert Ahead(rest, s[x].key, s[y].key);
      var k, l :| 0 <= k < l < |rest| && rest[k].key == s[x].key && rest[l].key == s[y].key;
      assert q[if k < i then k else k + 1] == rest[k] && q[if l < i then l else l + 1] == rest[l];
    }
  }

  lemma SameKeysKeepOrder(g: Queue, s: Queue, q: Queue)
    requires |g| == |s| && (forall x :: 0 <= x < |s| ==> g[x].key == s[x].key) && KeepsOrder(s, q)
    ensures KeepsOrder(g, q)
  {
    forall x, y | 0 <= x < y < |g| ensures Ahead(q, g[x].key, g[y].key) {
      assert Ahead(q, s[x].key, s[y].key);
    }
  }

  lemma EnteringKeepsOrder(q: Queue, e: Event, now: int)
    requires Enters(q, e, now)
    ensures var s := Step(q, e, now); s != [] && s[|s| - 1].key == e.key && KeepsOrder(s[..|s| - 1], q)
  {
    SettledKeepsOrder(q, now);
    var s, g := Settled(q, now), Step(q, e, now);
    SameKeysKeepOrder(g[..|s|], s, q);
  }

  /** Nobody overtakes: two clients that are in the queue after an event were in it in the same
      order before, unless the second is the newcomer, which is last. */
  lemma NobodyOvertakes(q: Queue, e: Event, now: int)
    ensures var s := Step(q, e, now);
            if Enters(q, e, now) then s != [] && s[|s| - 1].key == e.key && KeepsOrder(s[..|s| - 1], q)
            else KeepsOrder(s, q)
  {
    if Enters(q, e, now) {
      EnteringKeepsOrder(q, e, now);
    } else if e.Unlock? && Find(q, e.key) < |q| {
      var i := Find(q, e.key);
      SettledKeepsOrder(q[..i] + q[i + 1..], now);
      WithoutKeepsOrder(Step(q, e, now), q, i);
    } else {
      SettledKeepsOrder(q, now);
    }
  }

  /** Whoever entered is in the queue at the same time again. */
  lemma {:induction false} EnteredStays(q: Queue, e: Event, now: int)
    requires Enters(q, e, now) && e.lease > 0
    ensures InQueue(Settled(Step(q, e, now), now), e.key)
  {
    var s := Settled(q, now);
    var p := Place(e.key, e.until, e.lease, false);
    var g := Granted(s + [p], now);
    assert (s + [p])[|s|] == p && g[|s|].key == e.key && now < g[|s|].until;
    assert g[..|g|] == g && g[|s|] in Staying(g, now);
    var i :| 0 <= i < |Staying(g, now)| && Staying(g, now)[i] == g[|s|];
    assert Settled(g, now)[i].key == e.key;
  }

  /** So a second LOCK of the same client is refused. */
  lemma {:induction false} SecondLock(q: Queue, e: Event, second: Event, now: int)
    requires Enters(q, e, now) && e.lease > 0 && second.Lock? && second.key == e.key
    ensures !Enters(Step(q, e, now), second, now)
  {
    EnteredStays(q, e, now);
  }

  // ---------- runs ----------

  datatype Timed = Timed(event: Event, now: int)

  function Ran(q: Queue, run: seq<Timed>): Queue
    decreases |run|
  {
    if run == [] then q else Ran(Step(q, run[0].event, run[0].now), run[1..])
  }

  lemma {:induction false} RanProper(q: Queue, run: seq<Timed>)
    requires Proper(q)
    ensures Proper(Ran(q, run))
    decreases |run|
  {
    if run != [] {
      StepProper(q, run[0].event, run[0].now);
      RanProper(Step(q, run[0].event, run[0].now), run[1..]);
    }
  }

  /** Over a whole run before the end of the lease and without an UNLOCK of the holder. */
  lemma {:induction false} LeaseSafety(q: Queue, run: seq<Timed>)
    requires Proper(q) && q != []
    requires forall i :: 0 <= i < |run| ==> run[i].now < q[0].until && run[i].event != Unlock(q[0].key)
    ensures Ran(q, run) != [] && Ran(q, run)[0] == q[0]
    decreases |run|
  {
    if run != [] {
      HolderStays(q, run[0].event, run[0].now);
      StepProper(q, run[0].event, run[0].now);
      LeaseSafety(Step(q, run[0].event, run[0].now), run[1..]);
    }
  }

  lemma StepKeepsOrder(q: Queue, e: Event, now: int, a: string, b: string)
    requires !(e.Lock? && e.key in {a, b}) && Ahead(Step(q, e, now), a, b)
    ensures Ahead(q, a, b)
  {
    var s := Step(q, e, now);
    NobodyOvertakes(q, e, now);
    var i, j :| 0 <= i < j < |s| && s[i].key == a && s[j].key == b;
    if Enters(q, e, now) {
      assert s[..|s| - 1][i] == s[i] && s[..|s| - 1][j] == s[j];
    }
  }

  lemma {:induction false} RanKeepsOrder(q: Queue, run: seq<Timed>, a: string, b: string)
    requires forall t :: t in run ==> !(t.event.Lock? && t.event.key in {a, b})
    requires Ahead(Ran(q, run), a, b)
    ensures Ahead(q, a, b)
    decreases |run|
  {
    if run != [] {
      RanKeepsOrder(Step(q, run[0].event, run[0].now), run[1..], a, b);
      StepKeepsOrder(q, run[0].event, run[0].now, a, b);
    }
  }

  /** First come, first served: of two clients in a queue, the second does not get the lock as
      long as the first stays, whatever happens (neither of them sends another LOCK). */
  lemma FirstComeFirstServed(q: Queue, run: seq<Timed>, a: string, b: string, i: nat, j: nat)
    requires Proper(q) && Ahead(q, a, b)
    requires forall t :: t in run ==> !(t.event.Lock? && t.event.key in {a, b})
    requires var s := Ran(q, run); i < |s| && s[i].key == a && j < |s| && s[j].key == b
    ensures i < j && !Ran(q, run)[j].granted
  {
    var s := Ran(q, run);
    RanProper(q, run);
    if j < i {
      assert Ahead(s, b, a);
      RanKeepsOrder(q, run, b, a);
    }
  }
}
