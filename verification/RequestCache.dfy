/** The life of f_message_cache: when a LOCK that came too early is lost. */
module RequestCache {
  import opened Requests
  import opened Basics

  /** `Early` is a LOCK that msg_lock caches, after the clean up at its start; `Clean` is any other
      clean up; `Ready` is the replay of check_lock_status, with what msg_lock does for each of the
      cached requests (Cluckd.Rulings). */
  datatype Event = Early(cached: Cached, now: int) | Clean(now: int) | Ready(outcomes: seq<Outcome>)

  /** The cache, the requests answered with LOCK_FAILED, those given back to msg_lock, in the order
      of their arrival all the requests that were ever cached, and the ones that no replay reached. */
  datatype History = History(cache: seq<Cached>, answered: seq<Reply>, replayed: seq<Cached>, arrived: seq<Cached>,
      lost: seq<Cached>)

  function Cleaned(h: History, now: int): History {
    h.(cache := Live(h.cache, now), answered := h.answered + Lost(h.cache, now))
  }

  /** The replay of the first `n` requests; the cache is cleared in any case. */
  function Replay(h: History, n: nat): History
    requires n <= |h.cache|
  {
    h.(cache := [], replayed := h.replayed + h.cache[..n], lost := h.lost + h.cache[n..])
  }

  /** How many of `n` requests msg_lock is called for, the first `i` of which went well: an
      exception is the last. */
  function Reached(outcomes: seq<Outcome>, i: nat, n: nat): (m: nat)
    requires i <= n
    ensures i <= m <= n
    decreases n - i
  {
    if i == n then n
    else if i < |outcomes| && outcomes[i] == Throws then i + 1
    else Reached(outcomes, i + 1, n)
  }

  /** All are reached unless one before the last throws. */
  lemma {:induction false} ReachedAll(outcomes: seq<Outcome>, i: nat, n: nat)
    requires i <= n
    ensures Reached(outcomes, i, n) < n <==> exists j :: i <= j && j + 1 < n && j < |outcomes| && outcomes[j] == Throws
    decreases n - i
  {
    if i < n && !(i < |outcomes| && outcomes[i] == Throws) {
      ReachedAll(outcomes, i + 1, n);
    }
  }

  /** The first exception is the last request that is reached. */
  lemma {:induction false} ReachedFirst(outcomes: seq<Outcome>, i: nat, n: nat, first: nat)
    requires i <= first < n && first < |outcomes| && outcomes[first] == Throws && Throws !in outcomes[..first]
    ensures Reached(outcomes, i, n) == first + 1
    decreases n - i
  {
    if i < first {
      assert outcomes[i] == outcomes[..first][i];
      ReachedFirst(outcomes, i + 1, n, first);
    }
  }

  lemma ReachedWhole(outcomes: seq<Outcome>, n: nat)
    requires Throws !in outcomes
    ensures Reached(outcomes, 0, n) == n
  {
    ReachedAll(outcomes, 0, n);
  }

  function Step(h: History, e: Event): History {
    match e
    case Early(c, now) => var d := Cleaned(h, now); d.(cache := d.cache + [c], arrived := h.arrived + [c])
    case Clean(now) => Cleaned(h, now)
    case Ready(outcomes) => Replay(h, Reached(outcomes, 0, |h.cache|))
  }

  /** The history after the first `n` events. */
  function After(run: seq<Event>, n: nat): History
    requires n <= |run|
  {
    if n == 0 then History([], [], [], [], []) else Step(After(run, n - 1), run[n - 1])
  }

  // ---------- nothing is lost or duplicated ----------

  /** How often a request is among the first `n`. */
  function Times(cached: seq<Cached>, n: nat, r: Request): nat
    requires n <= |cached|
  {
    if n == 0 then 0 else Times(cached, n - 1, r) + if cached[n - 1].request == r then 1 else 0
  }

  /** How many of the first `n` messages are a LOCK_FAILED with the error "timedout" for a request. */
  function TimesAnswered(replies: seq<Reply>, n: nat, r: Request): nat
    requires n <= |replies|
  {
    if n == 0 then 0 else TimesAnswered(replies, n - 1, r) + if replies[n - 1] == Refused(r, TimedOutError) then 1
        else 0
  }

  lemma {:induction false} TimesBoth(a: seq<Cached>, b: seq<Cached>, n: nat, r: Request)
    requires n <= |a| + |b|
    ensures Times(a + b, n, r) == if n <= |a| then Times(a, n, r) else Times(a, |a|, r) + Times(b, n - |a|, r)
  {
    if n > 0 {
      TimesBoth(a, b, n - 1, r);
    }
  }

  lemma {:induction false} AnsweredBoth(a: seq<Reply>, b: seq<Reply>, n: nat, r: Request)
    requires n <= |a| + |b|
    ensures TimesAnswered(a + b, n, r)
         == if n <= |a| then TimesAnswered(a, n, r) else TimesAnswered(a, |a|, r) + TimesAnswered(b, n - |a|, r)
  {
    if n > 0 {
      AnsweredBoth(a, b, n - 1, r);
    }
  }

  /** A clean up splits the cache. */
  lemma {:induction false} CleanedIsSplit(cache: seq<Cached>, n: nat, now: int, r: Request)
    requires n <= |cache|
    ensures var live, lost := LiveFirst(cache, n, now), LostFirst(cache, n, now);
            Times(cache, n, r) == Times(live, |live|, r) + TimesAnswered(lost, |lost|, r)
  {
    if n > 0 {
      CleanedIsSplit(cache, n - 1, now, r);
      var live, lost, c := LiveFirst(cache, n - 1, now), LostFirst(cache, n - 1, now), cache[n - 1];
      TimesBoth(live, [c], |live| + 1, r);
      AnsweredBoth(lost, [Refused(c.request, TimedOutError)], |lost| + 1, r);
      assert Times([c], 1, r) == (if c.request == r then 1 else 0) &&
          TimesAnswered([Refused(c.request, TimedOutError)], 1, r) == (if c.request == r then 1 else 0);
    }
  }

  lemma {:induction false} LiveIsCurrent(cache: seq<Cached>, n: nat, now: int)
    requires n <= |cache|
    ensures forall c :: c in LiveFirst(cache, n, now) ==> now < c.timeout
  {
    if n > 0 {
      LiveIsCurrent(cache, n - 1, now);
    }
  }

  /** Each time the request came, it is in one of the four places. */
  predicate Accounted(h: History, r: Request) {
    Times(h.arrived, |h.arrived|, r)
    == Times(h.cache, |h.cache|, r) + TimesAnswered(h.answered, |h.answered|, r) + Times(h.replayed, |h.replayed|, r)
       + Times(h.lost, |h.lost|, r)
  }

  /** The same without the lost ones. */
  predicate Conserved(h: History, r: Request) {
    Times(h.arrived, |h.arrived|, r)
    == Times(h.cache, |h.cache|, r) + TimesAnswered(h.answered, |h.answered|, r) + Times(h.replayed, |h.replayed|, r)
  }

  lemma CleanedAccounts(h: History, now: int, r: Request)
    requires Accounted(h, r)
    ensures Accounted(Cleaned(h, now), r)
  {
    hide Times, LiveFirst, LostFirst;
    CleanedIsSplit(h.cache, |h.cache|, now, r);
    AnsweredBoth(h.answered, Lost(h.cache, now), |h.answered| + |Lost(h.cache, now)|, r);
  }

  lemma EarlyAccounts(h: History, c: Cached, r: Request)
    requires Accounted(h, r)
    ensures Accounted(h.(cache := h.cache + [c], arrived := h.arrived + [c]), r)
  {
    TimesBoth(h.arrived, [c], |h.arrived| + 1, r);
    TimesBoth(h.cache, [c], |h.cache| + 1, r);
  }

  lemma ReplayAccounts(h: History, n: nat, r: Request)
    requires Accounted(h, r) && n <= |h.cache|
    ensures Accounted(Replay(h, n), r)
  {
    var done, left := h.cache[..n], h.cache[n..];
    assert h.cache == done + left;
    hide Times, TimesAnswered;
    TimesBoth(done, left, |h.cache|, r);
    TimesBoth(h.replayed, done, |h.replayed| + n, r);
    TimesBoth(h.lost, left, |h.lost| + |left|, r);
  }

  /** Every request that was cached is at any time in exactly one place, as often as it came: still in
      the cache, answered with one LOCK_FAILED, given back to msg_lock, or lost.  None stays past a
      clean up at or after its timeout. */
  lemma {:induction false} EveryRequestAccounted(run: seq<Event>, n: nat, r: Request)
    requires n <= |run|
    ensures Accounted(After(run, n), r)
    ensures n > 0 && run[n - 1].Clean? ==> forall c :: c in After(run, n).cache ==> run[n - 1].now < c.timeout
  {
    if n > 0 {
      EveryRequestAccounted(run, n - 1, r);
      var h := After(run, n - 1);
      match run[n - 1]
      case Early(c, now) =>
        CleanedAccounts(h, now, r);
        EarlyAccounts(Cleaned(h, now), c, r);
      case Clean(now) =>
        CleanedAccounts(h, now, r);
        LiveIsCurrent(h.cache, |h.cache|, now);
      case Ready(outcomes) => ReplayAccounts(h, Reached(outcomes, 0, |h.cache|), r);
    }
  }

  /** In a replay msg_lock throws for a request before the last one. */
  predicate Loses(h: History, e: Event) {
    e.Ready? && exists i :: 0 <= i && i + 1 < |h.cache| && i < |e.outcomes| && e.outcomes[i] == Throws
  }

  predicate LosesAt(run: seq<Event>, i: nat)
    requires i < |run|
  {
    Loses(After(run, i), run[i])
  }

  lemma StepLoses(h: History, e: Event)
    ensures Step(h, e).lost == [] <==> h.lost == [] && !Loses(h, e)
  {
    if e.Ready? {
      ReachedAll(e.outcomes, 0, |h.cache|);
    }
  }

  lemma {:induction false} LostBy(run: seq<Event>, n: nat)
    requires n <= |run|
    ensures After(run, n).lost == [] <==> forall i :: 0 <= i < n ==> !LosesAt(run, i)
  {
    if n > 0 {
      LostBy(run, n - 1);
      StepLoses(After(run, n - 1), run[n - 1]);
      assert LosesAt(run, n - 1) <==> Loses(After(run, n - 1), run[n - 1]);
    }
  }

  lemma {:induction false} TimesPositive(cached: seq<Cached>, i: nat, n: nat)
    requires i < n <= |cached|
    ensures Times(cached, n, cached[i].request) > 0
  {
    if i < n - 1 {
      TimesPositive(cached, i, n - 1);
    }
  }

  /** No request is lost, whichever it is, if and only if in no replay msg_lock threw for a request
      before the last one. */
  lemma Conservation(run: seq<Event>, n: nat)
    requires n <= |run|
    ensures (forall r :: Conserved(After(run, n), r)) <==> forall i :: 0 <= i < n ==> !LosesAt(run, i)
  {
    var h := After(run, n);
    LostBy(run, n);
    forall r ensures Accounted(h, r) {
      EveryRequestAccounted(run, n, r);
    }
    if h.lost == [] {
      forall r ensures Conserved(h, r) {
        assert Accounted(h, r);
      }
    } else {
      TimesPositive(h.lost, 0, |h.lost|);
      assert Accounted(h, h.lost[0].request);
      assert !Conserved(h, h.lost[0].request);
    }
  }

  /** The shortest run that loses a request: two wait, and msg_lock throws for the first. */
  lemma LostRequest(a: Cached, b: Cached, now: int)
    requires now < a.timeout && now < b.timeout
    ensures var h := After([Early(a, now), Early(b, now), Ready([Throws])], 3);
            h.cache == [] && h.answered == [] && h.replayed == [a] && h.lost == [b] && !Conserved(h, b.request)
  {
    var run := [Early(a, now), Early(b, now), Ready([Throws])];
    assert LiveFirst([a], 0, now) == [] && LostFirst([a], 0, now) == [];
    assert Live([a], now) == [a] && Lost([a], now) == [];
    assert After(run, 1) == History([a], [], [], [a], []);
    assert After(run, 2) == History([a, b], [], [], [a, b], []);
    assert [a, b][..1] == [a] && [a, b][1..] == [b];
    var h := After(run, 3);
    EveryRequestAccounted(run, 3, b.request);
    TimesPositive(h.lost, 0, 1);
  }

  // ---------- the order of arrival ----------

  /** `some` is found in `all` at increasing places. */
  predicate At(places: seq<nat>, some: seq<Cached>, all: seq<Cached>) {
    && |places| == |some|
    && (forall i :: 0 <= i < |places| ==> places[i] < |all| && all[places[i]] == some[i])
    && (forall i, j :: 0 <= i < j < |places| ==> places[i] < places[j])
  }

  lemma PlacesLonger(some: seq<Cached>, all: seq<Cached>, c: Cached, f: seq<nat>)
    requires At(f, some, all)
    ensures At(f, some, all + [c])
  {
  }

  /** The places in the cache of the requests that a clean up keeps. */
  lemma {:induction false} LivePlaces(cache: seq<Cached>, n: nat, now: int) returns (places: seq<nat>)
    requires n <= |cache|
    ensures At(places, LiveFirst(cache, n, now), cache[..n])
  {
    if n == 0 {
      places := [];
    } else {
      var so := LiveFirst(cache, n - 1, now);
      places := LivePlaces(cache, n - 1, now);
      assert cache[..n] == cache[..n - 1] + [cache[n - 1]];
      hide At;
      if cache[n - 1].timeout > now {
        places := PlacesMore(so, cache[n - 1], cache[..n - 1], places);
      } else {
        PlacesLonger(so, cache[..n - 1], cache[n - 1], places);
      }
    }
  }

  lemma PlacesThrough(front: seq<Cached>, cache: seq<Cached>, live: seq<Cached>, all: seq<Cached>, f: seq<nat>,
      p: seq<nat>)
    returns (g: seq<nat>)
    requires At(f, front + cache, all) && At(p, live, cache)
    ensures At(g, front + live, all)
  {
    var k := |front|;
    g := f[..k] + seq(|p|, i requires 0 <= i < |p| => f[k + p[i]]);
    forall i | 0 <= i < |g| ensures g[i] < |all| && all[g[i]] == (front + live)[i] {
      if i >= k {
        assert (front + cache)[k + p[i - k]] == cache[p[i - k]];
      } else {
        assert (front + cache)[i] == front[i];
      }
    }
  }

  lemma PlacesMore(some: seq<Cached>, c: Cached, all: seq<Cached>, f: seq<nat>) returns (g: seq<nat>)
    requires At(f, some, all)
    ensures At(g, some + [c], all + [c])
  {
    g := f + [|all|];
  }

  /** The requests given back to msg_lock, followed by those that still wait, are in their order of
      arrival. */
  lemma {:induction false} ArrivalOrder(run: seq<Event>, n: nat) returns (places: seq<nat>)
    requires n <= |run|
    ensures At(places, After(run, n).replayed + After(run, n).cache, After(run, n).arrived)
  {
    if n == 0 {
      places := [];
    } else {
      var f := ArrivalOrder(run, n - 1);
      var h := After(run, n - 1);
      match run[n - 1]
      case Early(c, now) =>
        places := CleanedInOrder(h, now, f);
        places := PlacesMore(h.replayed + Live(h.cache, now), c, h.arrived, places);
        assert h.replayed + (Live(h.cache, now) + [c]) == h.replayed + Live(h.cache, now) + [c];
      case Clean(now) => places := CleanedInOrder(h, now, f);
      case Ready(outcomes) => places := ReplayedInOrder(h, Reached(outcomes, 0, |h.cache|), f);
    }
  }

  lemma ReplayedInOrder(h: History, n: nat, f: seq<nat>) returns (g: seq<nat>)
    requires At(f, h.replayed + h.cache, h.arrived) && n <= |h.cache|
    ensures At(g, Replay(h, n).replayed + [], h.arrived)
  {
    g := f[..|h.replayed| + n];
    assert Replay(h, n).replayed + [] == (h.replayed + h.cache)[..|h.replayed| + n];
  }

  lemma CleanedInOrder(h: History, now: int, f: seq<nat>) returns (g: seq<nat>)
    requires At(f, h.replayed + h.cache, h.arrived)
    ensures At(g, h.replayed + Live(h.cache, now), h.arrived)
  {
    var p := LivePlaces(h.cache, |h.cache|, now);
    assert h.cache[..|h.cache|] == h.cache;
    g := PlacesThrough(h.replayed, h.cache, Live(h.cache, now), h.arrived, f, p);
  }
}
