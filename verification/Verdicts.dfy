/** What msg_lock does with a request, as a function of the request, the clock and the tables. */
module Verdicts {
  import opened KeyOrder
  import opened TicketRecord
  import opened TicketRow
  import opened Requests
  import opened Basics
  import opened OneLeader

  function Timeout(request: Requests.Request, obtention: int, now: int): int {
    if request.timeout.Some? then request.timeout.value else now + obtention
  }

  /** A request as the ticket table sees it. */
  function LockOf(request: Requests.Request, timeout: int): OneLeader.Request
    requires request.pid > 0
  {
    LockRequest(request.objectName, ClientKey(request.server, request.pid), timeout, request.duration,
        UnlockParameter(request))
  }

  /** The errors that do not depend on the tables. */
  function ParameterError(request: Requests.Request, timeout: int, now: int): Option<Error> {
    if timeout <= now then Some(TimedOutError)
    else if request.duration < MINIMUM_TIMEOUT then Some(InvalidError)
    else if request.unlockDuration.Some? &&
        request.unlockDuration.value < UNLOCK_MINIMUM_TIMEOUT then Some(InvalidError)
    else None
  }

  /** What msg_lock does with a request whose parameters are fine, on a leader that is ready. */
  function NewVerdict(request: Requests.Request, timeout: int, now: int, clean: seq<Record>): Outcome
    requires request.pid > 0
  {
    if !Accepts(clean, LockOf(request, timeout), now) then RefusedWith(DuplicateError)
    else if LastNumber(clean) + 1 >= NUMBER_LIMIT then Throws
    else Entered
  }

  /** What msg_lock does on a daemon that is alone; `clean` is the cleaned row of the object. */
  function Verdict(request: Requests.Request, timeout: int, now: int, ready: bool, leader: bool,
      clean: seq<Record>): Outcome {
    if request.pid < 1 then Ignored
    else if ParameterError(request, timeout, now).Some? then RefusedWith(ParameterError(request, timeout, now).value)
    else if !ready then KeptForLater
    else if !leader then SentToLeader
    else NewVerdict(request, timeout, now, clean)
  }

  /** The ticket would still have time, and would not get longer durations than the request asks for. */
  predicate Sound(request: Requests.Request, timeout: int, now: int) { now < timeout && Grants(request, timeout) }

  predicate Grants(request: Requests.Request, timeout: int) {
    var r := NewRecord("", "", timeout, request.duration, UnlockParameter(request));
    r.lockDuration <= request.duration &&
        (request.unlockDuration.Some? ==> r.unlockDuration <= request.unlockDuration.value)
  }

  /** A client of the row. */
  predicate Listed(row: seq<Record>, key: EnteringKey) { exists i :: 0 <= i < |row| && row[i].progress.entering == key }

  lemma ListedIsFound(row: seq<Record>, key: EnteringKey)
    ensures Listed(row, key) <==> FifoLock.Find(QueueOf(row), key) < |row|
  {
    var q := QueueOf(row);
    var i := FifoLock.Find(q, key);
    assert forall j :: 0 <= j < |row| ==> q[j].key == row[j].progress.entering;
  }

  lemma SoundIsNoError(request: Requests.Request, timeout: int, now: int)
    ensures Sound(request, timeout, now) <==> ParameterError(request, timeout, now).None?
    ensures ParameterError(request, timeout, now) == Some(TimedOutError) <==> timeout <= now
    ensures ParameterError(request, timeout, now) == Some(InvalidError) <==> now < timeout && !Grants(request, timeout)
  {
  }

  /** When msg_lock does what: a sound request is cached before the daemon is ready, whether or not it leads, forwarded
      by a daemon that is ready and no leader, and decided by the table on a leader. */
  lemma EveryVerdict(request: Requests.Request, timeout: int, now: int, ready: bool, leader: bool, clean: seq<Record>)
    requires request.pid > 0
    ensures var v, sound := Verdict(request, timeout, now, ready, leader, clean), Sound(request, timeout, now);
            var listed, last := Listed(clean, ClientKey(request.server, request.pid)), LastNumber(clean);
            && v != Ignored && (v == RefusedWith(TimedOutError) <==> timeout <= now)
            && (v == RefusedWith(InvalidError) <==> now < timeout && !Grants(request, timeout))
            && (v == KeptForLater <==> sound && !ready)
            && (v == SentToLeader <==> sound && ready && !leader)
            && (v == RefusedWith(DuplicateError) <==> sound && ready && leader && listed)
            && (v == Throws <==> sound && ready && leader && !listed && last + 1 >= NUMBER_LIMIT)
            && (v == Entered <==> sound && ready && leader && !listed && last + 1 < NUMBER_LIMIT)
  {
    ListedIsFound(clean, ClientKey(request.server, request.pid));
    SoundIsNoError(request, timeout, now);
    hide Sound, Grants, ParameterError, Listed, LastNumber;
    assert ParameterError(request, timeout, now).Some? ==>
        ParameterError(request, timeout, now).value in {TimedOutError, InvalidError} by {
      OneOfTwo(request, timeout, now);
    }
  }

  lemma OneOfTwo(request: Requests.Request, timeout: int, now: int)
    ensures ParameterError(request, timeout, now) in {None, Some(TimedOutError), Some(InvalidError)}
  {
  }

  /** The messages sent, with the one that the daemon sends when it does not enter a request. */
  function Answered(replies: seq<Reply>, request: Requests.Request, outcome: Outcome): seq<Reply> {
    match outcome
    case RefusedWith(error) => replies + [Refused(request, error)]
    case SentToLeader => replies + [Forwarded(request)]
    case _ => replies
  }

  /** msg_lock sends at most one message of its own for a request: a refusal with its error, or the request itself to a
      leader. */
  lemma OneAnswer(replies: seq<Reply>, request: Requests.Request, outcome: Outcome)
    ensures var a := Answered(replies, request, outcome);
            && replies <= a && |a| <= |replies| + 1
            && (forall e :: outcome == RefusedWith(e) <==> |a| > |replies| && a[|replies|] == Refused(request, e))
            && (outcome == SentToLeader <==> |a| > |replies| && a[|replies|] == Forwarded(request))
  {
  }

  /** A cached request stays in the cache until the timeout that it names, whenever it came, and without one for the
      obtention timeout of the daemon. */
  lemma KeptUntil(request: Requests.Request, obtention: int, now: int, later: int)
    ensures var c := Cached(Timeout(request, obtention, now), request);
            && (request.timeout.Some? ==> Live([c], later) == if later < request.timeout.value then [c] else [])
            && (request.timeout.None? ==> Live([c], later) == if later < now + obtention then [c] else [])
  {
    LiveOne(Cached(Timeout(request, obtention, now), request), later);
  }

  lemma LiveOne(c: Cached, now: int)
    ensures Live([c], now) == if now < c.timeout then [c] else []
  {
    assert LiveFirst([c], 0, now) == [];
  }

  /** The date that msg_lock compares with: the microseconds of the timer are taken for nanoseconds. */
  function TimerDate(timer: int): int { timer / SECOND * SECOND + timer % SECOND / 1000 }

  /** A timer that rings in the second of a cached request's timeout is not brought forward, unless that timeout is in
      the first thousandth of the second. */
  lemma TimerOfTheSecond(timer: int, timeout: int)
    requires timer / SECOND == timeout / SECOND && timeout % SECOND >= SECOND / 1000
    ensures TimerDate(timer) <= timeout
  {
    assert timeout == timeout / SECOND * SECOND + timeout % SECOND;
  }

  lemma NotAProcess(request: Requests.Request, timeout: int, now: int, ready: bool, leader: bool)
    requires request.pid < 1
    ensures Verdict(request, timeout, now, ready, leader, []) == Ignored
  {
  }

  /** A timer that is not after a date in this sense rings less than a second after it. */
  lemma TimerIsNear(timer: int, timeout: int)
    requires TimerDate(timer) <= timeout
    ensures timer < timeout + SECOND
  {
    assert timer == timer / SECOND * SECOND + timer % SECOND;
  }

  /** The parameter given to set_unlock_duration. */
  function UnlockParameter(request: Requests.Request): int {
    if request.unlockDuration.Some? then request.unlockDuration.value else DEFAULT_TIMEOUT
  }
}
