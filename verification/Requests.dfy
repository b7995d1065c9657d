/** LOCK requests, the answers the daemon itself gives to them, and the cache of the requests
    that came before the daemon was ready. */
module Requests {
  import opened KeyOrder
  import opened Text
  import opened NextTimeout
  import opened Basics

  /** A LOCK message.  `server` and `service` are the proxied ones when a proxy forwarded the
      message.  The durations are the optional or mandatory parameters of the message. */
  datatype Request = Request(
    objectName: string, tag: int, server: string, service: string, pid: int,
    timeout: Option<int>, duration: int, unlockDuration: Option<int>)

  /** The entering key: server name, slash, process identifier. */
  function ClientKey(server: string, pid: nat): EnteringKey { server + "/" + Decimal(pid) }

  /** The "error" parameter of LOCK_FAILED. */
  datatype Error = TimedOutError | InvalidError | DuplicateError | OverflowError

  /** What msg_lock does with a request: it ignores one with an invalid process identifier, and
      throws when the next number would wrap around. */
  datatype Outcome = Ignored | RefusedWith(error: Error) | KeptForLater | SentToLeader | Throws | Entered

  datatype Reply = Refused(request: Request, error: Error) | Forwarded(request: Request)

  datatype Cached = Cached(timeout: int, request: Request)

  /** What cluckd::cleanup keeps of the first `n` requests of the cache. */
  function LiveFirst(cache: seq<Cached>, n: nat, now: int): (kept: seq<Cached>)
    requires n <= |cache|
  {
    if n == 0 then []
    else
      var so := LiveFirst(cache, n - 1, now);
      if cache[n - 1].timeout <= now then so else so + [cache[n - 1]]
  }

  /** The LOCK_FAILED messages that cluckd::cleanup sends for the others. */
  function LostFirst(cache: seq<Cached>, n: nat, now: int): (lost: seq<Reply>)
    requires n <= |cache|
  {
    if n == 0 then []
    else
      var so := LostFirst(cache, n - 1, now);
      if cache[n - 1].timeout <= now then so + [Refused(cache[n - 1].request, TimedOutError)] else so
  }

  function Live(cache: seq<Cached>, now: int): seq<Cached> { LiveFirst(cache, |cache|, now) }

  function Lost(cache: seq<Cached>, now: int): seq<Reply> { LostFirst(cache, |cache|, now) }

  function CacheDates(cache: seq<Cached>): set<int> { set c | c in cache :: c.timeout }

  lemma CacheDatesMore(cache: seq<Cached>, c: Cached)
    ensures CacheDates(cache + [c]) == CacheDates(cache) + {c.timeout}
  {
  }

  /** Cleaning the cache again at the same time changes nothing and sends nothing. */
  lemma {:induction false} LiveAgain(cache: seq<Cached>, n: nat, now: int)
    requires n <= |cache|
    ensures var live := LiveFirst(cache, n, now); Live(live, now) == live && Lost(live, now) == []
  {
    if n > 0 {
      LiveAgain(cache, n - 1, now);
      var so, c := LiveFirst(cache, n - 1, now), cache[n - 1];
      if c.timeout > now {
        LivePrefix(so, c, |so|, now);
      }
    }
  }

  lemma {:induction false} LivePrefix(cache: seq<Cached>, c: Cached, n: nat, now: int)
    requires n <= |cache|
    ensures LiveFirst(cache + [c], n, now) == LiveFirst(cache, n, now)
        && LostFirst(cache + [c], n, now) == LostFirst(cache, n, now)
  {
    if n > 0 {
      LivePrefix(cache, c, n - 1, now);
    }
  }
}
