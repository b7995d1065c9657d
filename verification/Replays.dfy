/** What check_lock_status does with the cached requests, as a function of the ticket table. */
module Replays {
  import opened KeyOrder
  import opened TicketProgress
  import opened TicketRecord
  import opened TicketRow
  import opened Requests
  import opened Basics
  import opened OneLeader
  import opened Verdicts
  import RequestCache

  /** The fields that decide what msg_lock does, of a daemon that is alone. */
  datatype Daemon = Daemon(serverName: ServerName, obtention: int, ready: bool, leader: bool)

  /** The table after msg_lock with this outcome. */
  function TableFor(me: ServerName, outcome: Outcome, request: Requests.Request, timeout: int, now: int,
      values: TableValues): TableValues
    requires request.pid > 0
  {
    if outcome == Entered then After(values, me, LockOf(request, timeout), now) else CleanedTable(values, me, now, true)
  }

  /** What msg_lock does with a request on this table. */
  function Ruling(d: Daemon, values: TableValues, request: Requests.Request, now: int): Outcome {
    Verdict(request, Timeout(request, d.obtention, now), now, d.ready, d.leader,
        RowAt(CleanedTable(values, d.serverName, now, true), request.objectName))
  }

  /** The table after msg_lock, and after msg_lock for the first `n` cached requests. */
  function Handled(d: Daemon, values: TableValues, request: Requests.Request, now: int): TableValues {
    if request.pid < 1 then values
    else TableFor(d.serverName, Ruling(d, values, request, now), request, Timeout(request, d.obtention, now), now,
        values)
  }

  function Replayed(d: Daemon, values: TableValues, requests: seq<Cached>, n: nat, now: int): TableValues
    requires n <= |requests|
  {
    if n == 0 then values else Handled(d, Replayed(d, values, requests, n - 1, now), requests[n - 1].request, now)
  }

  /** What msg_lock does with the `n`-th cached request, on the table that the ones before it leave. */
  function RulingAt(d: Daemon, values: TableValues, requests: seq<Cached>, n: nat, now: int): Outcome
    requires n < |requests|
  {
    Ruling(d, Replayed(d, values, requests, n, now), requests[n].request, now)
  }

  /** The messages sent up to the end of the replay of the first `n` cached requests. */
  function AnsweredFirst(sent: seq<Reply>, d: Daemon, values: TableValues, requests: seq<Cached>, n: nat,
      now: int): seq<Reply>
    requires n <= |requests|
  {
    if n == 0 then sent
    else Answered(AnsweredFirst(sent, d, values, requests, n - 1, now), requests[n - 1].request,
                  RulingAt(d, values, requests, n - 1, now))
  }

  /** What msg_lock does with each of the first `n`. */
  function Rulings(d: Daemon, values: TableValues, requests: seq<Cached>, n: nat, now: int): (rulings: seq<Outcome>)
    requires n <= |requests|
    ensures |rulings| == n
  {
    if n == 0 then [] else Rulings(d, values, requests, n - 1, now) + [RulingAt(d, values, requests, n - 1, now)]
  }

  function AllRulings(d: Daemon, values: TableValues, requests: seq<Cached>, now: int): seq<Outcome> {
    Rulings(d, values, requests, |requests|, now)
  }

  /** None of the first `n` cached requests throws. */
  predicate Survives(d: Daemon, values: TableValues, requests: seq<Cached>, n: nat, now: int)
    requires n <= |requests|
  {
    Throws !in Rulings(d, values, requests, n, now)
  }

  /** The ticket of a request that msg_lock enters is the last one of its row, with the client's key, the timeout and
      the durations of the request. */
  lemma {:induction false} EnteredAsAsked(values: TableValues, me: ServerName, request: Requests.Request, timeout: int,
      now: int)
    requires request.pid > 0 && Queues(values, me) && Sound(request, timeout, now)
    requires Accepts(RowAt(CleanedTable(values, me, now, true), request.objectName), LockOf(request, timeout), now)
    ensures var row := RowAt(After(values, me, LockOf(request, timeout), now), request.objectName);
            row != [] && var r := row[|row| - 1];
            && r.progress.entering == ClientKey(request.server, request.pid) && r.obtention == timeout
            && Bounded(r.lockDuration, request.duration)
            && if request.unlockDuration.Some? then Bounded(r.unlockDuration, request.unlockDuration.value)
               else r.unlockDuration == r.lockDuration
  {
    var e, o := LockOf(request, timeout), request.objectName;
    var clean := Cleaned(RowAt(values, o), me, now, true);
    AfterAt(values, me, e, now, o);
    CleanedAt(values, me, now, o);
    var r := Fresh(me, e.key, e.obtention, e.duration, e.unlockDuration, LastNumber(clean));
    DurationsAsAsked(me, e.key, e.obtention, e.duration, e.unlockDuration);
    FreshKeeps(me, e.key, e.obtention, e.duration, e.unlockDuration, LastNumber(clean));
    ActivationKeeps(r, me, now);
    assert HeadActivated(clean + [r], me, now, true)[|clean|] in {r, Activation(r, me, now, true)};
  }

  lemma FreshKeeps(me: ServerName, key: EnteringKey, obtention: int, duration: int, unlockDuration: int, last: nat)
    ensures var r, n := Fresh(me, key, obtention, duration, unlockDuration, last),
        NewRecord(me, key, obtention, duration, unlockDuration);
            && r.progress.entering == key && r.obtention == obtention
            && r.lockDuration == n.lockDuration && r.unlockDuration == n.unlockDuration
  {
  }

  lemma ActivationKeeps(r: Record, me: ServerName, now: int)
    ensures var a := Activation(r, me, now, true);
            && a.progress.entering == r.progress.entering && a.obtention == r.obtention
            && a.lockDuration == r.lockDuration && a.unlockDuration == r.unlockDuration
  {
  }

  /** The cache and the messages after an early LOCK, in terms of the history of the cache. */
  predicate IsEarly(cached: seq<Cached>, sent: seq<Reply>, c: Cached, now: int, cache: seq<Cached>,
      replies: seq<Reply>) {
    var h := RequestCache.Step(RequestCache.History(cached, sent, [], [], []), RequestCache.Early(c, now));
    cache == h.cache && replies == h.answered
  }

  lemma EarlyIsEarly(cached: seq<Cached>, sent: seq<Reply>, c: Cached, now: int)
    ensures IsEarly(cached, sent, c, now, Live(cached, now) + [c], sent + Lost(cached, now))
  {
  }

  lemma RulingIsVerdict(d: Daemon, values: TableValues, request: Requests.Request, now: int)
    ensures Ruling(d, values, request, now) ==
        Verdict(request, Timeout(request, d.obtention, now), now, d.ready, d.leader,
        RowAt(CleanedTable(values, d.serverName, now, true), request.objectName))
  {
  }

  /** A request is cached, or forwarded, in exactly these cases. */
  lemma CachedOrForwarded(d: Daemon, values: TableValues, request: Requests.Request, now: int)
    ensures var r, sound := Ruling(d, values, request, now), request.pid > 0 &&
        Sound(request, Timeout(request, d.obtention, now), now);
            && (r == KeptForLater <==> sound && !d.ready) && (r == SentToLeader <==> sound && d.ready && !d.leader)
            && (r == Ignored <==> request.pid < 1)
  {
    if request.pid > 0 {
      EveryVerdict(request, Timeout(request, d.obtention, now), now, d.ready, d.leader,
          RowAt(CleanedTable(values, d.serverName, now, true), request.objectName));
    }
  }

  lemma ReadyVerdict(d: Daemon, values: TableValues, request: Requests.Request, now: int)
    requires d.ready
    ensures (Ruling(d, values, request, now) == Ignored <==> request.pid < 1)
    ensures Ruling(d, values, request, now) != KeptForLater
  {
  }

  /** A request that msg_lock has just entered is refused as a duplicate when it comes again. */
  lemma {:induction false} SecondIsDuplicate(d: Daemon, values: TableValues, request: Requests.Request, now: int)
    requires Queues(values, d.serverName) && Ruling(d, values, request, now) == Entered
    ensures Ruling(d, Handled(d, values, request, now), request, now) == RefusedWith(DuplicateError)
  {
    var e := LockOf(request, Timeout(request, d.obtention, now));
    SecondIsRefused(values, d.serverName, e, e, now);
  }

  lemma {:induction false} OneMoreSurvives(d: Daemon, values: TableValues, requests: seq<Cached>, n: nat, now: int)
    requires n < |requests| && Survives(d, values, requests, n, now) && RulingAt(d, values, requests, n, now) != Throws
    ensures Survives(d, values, requests, n + 1, now)
  {
  }

  lemma OneMore(so: seq<Outcome>, o: Outcome, n: nat)
    requires n <= |so|
    ensures (so + [o])[..n] == so[..n] && (so + [o])[n] == if n < |so| then so[n] else o
  {
  }

  lemma {:induction false} NextRulings(d: Daemon, values: TableValues, requests: seq<Cached>, n: nat, now: int)
    requires n < |requests|
    ensures Rulings(d, values, requests, n + 1, now)
         == Rulings(d, values, requests, n, now) + [RulingAt(d, values, requests, n, now)]
  {
    hide RulingAt;
  }

  lemma {:induction false} RulingsGrow(d: Daemon, values: TableValues, requests: seq<Cached>, n: nat, m: nat, now: int)
    requires n <= m <= |requests|
    ensures Rulings(d, values, requests, m, now)[..n] == Rulings(d, values, requests, n, now)
    ensures n < m ==> Rulings(d, values, requests, m, now)[n] == RulingAt(d, values, requests, n, now)
  {
    hide Rulings, RulingAt;
    if n < m {
      RulingsGrow(d, values, requests, n, m - 1, now);
      NextRulings(d, values, requests, m - 1, now);
      OneMore(Rulings(d, values, requests, m - 1, now), RulingAt(d, values, requests, m - 1, now), n);
    } else {
      assert Rulings(d, values, requests, m, now)[..n] == Rulings(d, values, requests, m, now);
    }
  }

  /** The number of cached requests for which msg_lock is called. */
  function Reached(d: Daemon, values: TableValues, requests: seq<Cached>, now: int): (n: nat)
    ensures n <= |requests|
  {
    RequestCache.Reached(AllRulings(d, values, requests, now), 0, |requests|)
  }

  lemma {:induction false} ReachedUntil(d: Daemon, values: TableValues, requests: seq<Cached>, n: nat, now: int)
    requires n < |requests| && Survives(d, values, requests, n, now) && RulingAt(d, values, requests, n, now) == Throws
    ensures Reached(d, values, requests, now) == n + 1 && Throws in AllRulings(d, values, requests, now)
  {
    hide RulingAt;
    RulingsGrow(d, values, requests, n, |requests|, now);
    RequestCache.ReachedFirst(AllRulings(d, values, requests, now), 0, |requests|, n);
  }

  lemma ReachedToEnd(d: Daemon, values: TableValues, requests: seq<Cached>, now: int)
    requires Survives(d, values, requests, |requests|, now)
    ensures Reached(d, values, requests, now) == |requests|
  {
    RequestCache.ReachedWhole(AllRulings(d, values, requests, now), |requests|);
  }

  /** In the history of the cache the replay takes out what msg_lock is called for, and the rest is lost. */
  lemma ReplayInHistory(d: Daemon, values: TableValues, now: int, h: RequestCache.History)
    ensures var n, after := Reached(d, values, h.cache, now),
        RequestCache.Step(h, RequestCache.Ready(AllRulings(d, values, h.cache, now)));
            && after == h.(cache := [], replayed := h.replayed + h.cache[..n], lost := h.lost + h.cache[n..])
            && (RequestCache.Loses(h, RequestCache.Ready(AllRulings(d, values, h.cache, now))) <==> n < |h.cache|)
  {
    RequestCache.ReachedAll(AllRulings(d, values, h.cache, now), 0, |h.cache|);
  }
}
