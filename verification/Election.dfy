/** The election of the leaders and the spreading of its result. */
module Election {
  import opened KeyOrder
  import opened Text
  import opened Computer
  import opened Requests
  import opened Basics
  import opened Sets

  /** What a daemon knows of a computer.  IP addresses are numbers in their order, 0 for the default one. */
  datatype Member = Member(name: string, id: string, priority: nat, ip: nat, connected: bool, startTime: int)

  type Members = map<string, Member>

  /** The name is the last part of an identifier. */
  function NameOf(id: string): string { Split(id, '|')[|Split(id, '|')| - 1] }

  predicate WellFormed(m: Member) { NameOf(m.id) == m.name }

  /** set_id accepted the identifier of the computer and took its name and priority from it. */
  predicate Parsed(m: Member, isAddress: string -> bool, pidMax: nat) {
    var p := ParseId(m.id, isAddress, pidMax);
    p.Good? && m.name == p.info.name && m.priority == p.info.priority
  }

  /** A computer whose identifier set_id accepts is well formed. */
  lemma ParsedIsWellFormed(m: Member, isAddress: string -> bool, pidMax: nat)
    requires Parsed(m, isAddress, pidMax)
    ensures WellFormed(m)
  {
  }

  /** A daemon's own computer. */
  function Own(c: Info, ip: nat, startTime: int): Member
    requires c.priority < 100
  {
    Member(c.name, IdText(c), c.priority, ip, true, startTime)
  }

  /** It is well formed when neither the name nor the text of the address has a bar. */
  lemma OwnIsWellFormed(c: Info, ip: nat, startTime: int)
    requires c.priority < 100 && OwnName(c.name) && '|' !in c.ip
    ensures WellFormed(Own(c, ip, startTime))
  {
    DigitsAreNoDelimiter(TwoDigits(c.priority), '|');
    DigitsAreNoDelimiter(Decimal(c.random), '|');
    DigitsAreNoDelimiter(Decimal(c.pid), '|');
    FiveParts(TwoDigits(c.priority), Decimal(c.random), c.ip, Decimal(c.pid), c.name);
  }

  /** f_computers is indexed by name. */
  predicate Indexed(computers: Members) {
    forall n :: n in computers ==> computers[n].name == n && WellFormed(computers[n])
  }

  predicate Candidate(m: Member) { m.priority != PRIORITY_OFF }

  function Candidates(computers: Members): set<string> { set n | n in computers && Candidate(computers[n]) }

  // ---------- the result of an election ----------

  /** In increasing order of identifiers. */
  predicate Ranked(computers: Members, names: seq<string>) {
    && (forall i :: 0 <= i < |names| ==> names[i] in computers)
    && forall i, j :: 0 <= i < j < |names| ==> Before(computers[names[i]].id, computers[names[j]].id)
  }

  function Min(a: nat, b: nat): nat { if a < b then a else b }

  /** The leaders are the candidates with the smallest identifiers, three of them if there are three. */
  predicate ElectedFrom(leaders: seq<string>, computers: Members) {
    && Ranked(computers, leaders) && |leaders| == Min(3, |Candidates(computers)|)
    && (forall l :: l in leaders ==> l in Candidates(computers))
    && (forall l, c :: l in leaders && c in Candidates(computers) && c !in leaders ==>
        Before(computers[l].id, computers[c].id))
  }

  lemma RankedIsDistinct(computers: Members, names: seq<string>)
    requires Ranked(computers, names)
    ensures forall i, j :: 0 <= i < j < |names| ==> names[i] != names[j]
  {
    forall i, j | 0 <= i < j < |names| ensures names[i] != names[j] {
      BeforeIrreflexive(computers[names[i]].id);
    }
  }

  /** No candidate that was not elected has a smaller priority than a leader, provided that
      every identifier writes its priority with two digits. */
  lemma LeadersHaveThePriority(leaders: seq<string>, computers: Members, l: string, c: string)
    requires ElectedFrom(leaders, computers) && l in leaders && c in Candidates(computers) && c !in leaders
    requires Padded(computers[l].id, computers[l].priority) && Padded(computers[c].id, computers[c].priority)
    ensures computers[l].priority <= computers[c].priority
  {
    if computers[c].priority < computers[l].priority {
      PaddedOrder(computers[c].id, computers[c].priority, computers[l].id, computers[l].priority);
      BeforeTransitive(computers[l].id, computers[c].id, computers[l].id);
      BeforeIrreflexive(computers[l].id);
    }
  }

  /** Two elections over the same computers give the same leaders. */
  lemma OneResult(a: seq<string>, b: seq<string>, computers: Members, i: nat)
    requires ElectedFrom(a, computers) && ElectedFrom(b, computers) && i <= |a|
    ensures |a| == |b| && a[..i] == b[..i]
  {
    if i > 0 {
      OneResult(a, b, computers, i - 1);
      var x, y := a[i - 1], b[i - 1];
      if x != y {
        NextInRank(a, b, computers, i - 1);
        NextInRank(b, a, computers, i - 1);
        BeforeTransitive(computers[x].id, computers[y].id, computers[x].id);
        BeforeIrreflexive(computers[x].id);
      }
      assert a[..i] == a[..i - 1] + [x] && b[..i] == b[..i - 1] + [y];
    }
  }

  lemma NextInRank(a: seq<string>, b: seq<string>, computers: Members, i: nat)
    requires ElectedFrom(a, computers) && ElectedFrom(b, computers) && i < |a| == |b| && a[..i] == b[..i]
        && a[i] != b[i]
    ensures Before(computers[a[i]].id, computers[b[i]].id)
  {
    RankedIsDistinct(computers, a);
    RankedIsDistinct(computers, b);
    assert forall k :: 0 <= k < i ==> a[k] == a[..i][k] && b[k] == b[..i][k];
    if b[i] in a {
      var j :| 0 <= j < |a| && a[j] == b[i];
      assert j > i;
    } else {
      assert a[i] in a && b[i] in b;
    }
  }

  // ---------- when a daemon conducts an election ----------

  /** The view that election_status decides on. */
  datatype Situation = Situation(myIp: nat, neighborsCount: nat, neighborsQuorum: nat, computers: Members,
      leaders: seq<string>)

  predicate Settled(s: Situation) {
    s.leaders != [] && (|s.leaders| == 3 || (s.neighborsCount < 3 && |s.leaders| == s.neighborsCount))
  }

  /** The quorum tests. */
  predicate HasQuorum(s: Situation) {
    && s.neighborsCount != 0
    && (s.neighborsQuorum < 3 ==> |s.computers| >= s.neighborsCount)
    && |s.computers| >= s.neighborsQuorum
  }

  predicate SmallestAddress(s: Situation) { forall n :: n in s.computers ==> s.myIp <= s.computers[n].ip }

  function Off(s: Situation): int { |s.computers| - |Candidates(s.computers)| }

  predicate TooManyOff(s: Situation) {
    |s.computers| >= s.neighborsCount && if |s.computers| <= 3 then Off(s) != 0 else |s.computers| - Off(s) < 3
  }

  predicate Elects(s: Situation) {
    && !Settled(s) && s.myIp != 0 && HasQuorum(s) && SmallestAddress(s) && !TooManyOff(s)
    && (|Candidates(s.computers)| >= 2 || |Candidates(s.computers)| == |s.computers|)
  }

  lemma CandidatesAreComputers(s: Situation)
    ensures |Candidates(s.computers)| <= |s.computers| && Off(s) >= 0
  {
    SubsetSize(Candidates(s.computers), s.computers.Keys);
  }

  /** The computers that may lead. */
  function Willing(s: Situation): set<string> { set n | n in s.computers && s.computers[n].priority != PRIORITY_OFF }

  /** When the daemon with the smallest address conducts an election, with the quorum that CLUSTER_UP computes: in a
      complete cluster when it has a candidate for each of the three places, or only candidates; in one that is not
      complete when it has at least four computers, a quorum of them is known, and two of those are candidates. */
  lemma WhoElects(s: Situation)
    requires s.neighborsQuorum == s.neighborsCount / 2 + 1
    ensures Elects(s) <==>
              && !Settled(s) && s.myIp != 0 && s.neighborsCount > 0
              && (forall n :: n in s.computers ==> s.myIp <= s.computers[n].ip)
              && if |s.computers| >= s.neighborsCount then |Willing(s)| >= Min(3, |s.computers|)
                 else s.neighborsCount >= 4 && |s.computers| > s.neighborsCount / 2 && |Willing(s)| >= 2
  {
    assert Willing(s) == Candidates(s.computers);
    CandidatesAreComputers(s);
  }

  /** A daemon that lost one of three leaders elects as if it had none. */
  lemma ElectsAnew(s: Situation)
    requires |s.leaders| < 3 && s.neighborsCount >= 3
    ensures Elects(s) <==> Elects(s.(leaders := []))
  {
  }

  // ---------- one elector ----------

  /** Two daemons of one cluster: `ip` gives the addresses of its n computers. */
  predicate ViewOf(s: Situation, me: string, ip: map<string, nat>) {
    && me in s.computers && me in ip && s.myIp == ip[me]
    && s.neighborsCount == |ip| && s.neighborsQuorum == |ip| / 2 + 1
    && s.computers.Keys <= ip.Keys
    && forall n :: n in s.computers ==> s.computers[n].ip == ip[n]
  }

  predicate DistinctAddresses(ip: map<string, nat>) {
    forall n, m :: n in ip && m in ip && n != m ==> ip[n] != ip[m]
  }

  /** Two daemons that pass the quorum tests know a common computer. */
  lemma QuorumsOverlap(s: Situation, a: string, t: Situation, b: string, ip: map<string, nat>)
    requires ViewOf(s, a, ip) && ViewOf(t, b, ip) && HasQuorum(s) && HasQuorum(t)
    ensures exists c :: c in s.computers && c in t.computers
  {
    var x, y := s.computers.Keys, t.computers.Keys;
    if x * y == {} {
      assert |x + y| == |x| + |y|;
      SubsetSize(x + y, ip.Keys);
    } else {
      var c :| c in x * y;
    }
  }

  /** In a cluster of at most three computers, and wherever the two views are the same, no two
      daemons conduct an election. */
  lemma OneElector(s: Situation, a: string, t: Situation, b: string, ip: map<string, nat>)
    requires ViewOf(s, a, ip) && ViewOf(t, b, ip) && DistinctAddresses(ip)
    requires HasQuorum(s) && SmallestAddress(s) && HasQuorum(t) && SmallestAddress(t)
    requires |ip| <= 3 || s.computers.Keys == t.computers.Keys
    ensures a == b
  {
    if |ip| <= 3 {
      SubsetSize(s.computers.Keys, ip.Keys);
      SubsetSize(t.computers.Keys, ip.Keys);
    }
    assert b in s.computers && a in t.computers;
  }

  // ---------- two electors ----------

  predicate KnownAddresses(ip: map<string, nat>) { forall n :: n in ip ==> ip[n] != 0 }

  predicate IsLeast(ip: map<string, nat>, names: set<string>, n: string)
    requires names <= ip.Keys
  {
    n in names && forall m :: m in names ==> ip[n] <= ip[m]
  }

  lemma {:induction false} LeastExists(ip: map<string, nat>, names: set<string>) returns (n: string)
    requires names != {} && names <= ip.Keys
    ensures IsLeast(ip, names, n)
    decreases |names|
  {
    n :| n in names;
    var rest := names - {n};
    if rest == {} {
      assert names == {n};
    } else {
      var least := LeastExists(ip, rest);
      if ip[least] < ip[n] {
        n := least;
      }
    }
  }

  /** The computer `me` knows all computers but `other`. */
  function AllBut(me: string, other: string, ip: map<string, nat>): (s: Situation)
    requires me in ip
    ensures s.computers.Keys == ip.Keys - {other} && forall n :: n in s.computers ==> Candidate(s.computers[n])
  {
    Situation(ip[me], |ip|, |ip| / 2 + 1, map n | n in ip && n != other :: Member(n, n, 14, ip[n], true, 0), [])
  }

  lemma {:induction false} AllButElects(me: string, other: string, ip: map<string, nat>)
    requires |ip| >= 4 && me in ip && other in ip && me != other && ip[me] != 0
    requires IsLeast(ip, ip.Keys - {other}, me)
    ensures ViewOf(AllBut(me, other, ip), me, ip) && Elects(AllBut(me, other, ip))
  {
    var s := AllBut(me, other, ip);
    assert |s.computers| == |s.computers.Keys| == |ip.Keys| - 1 && |ip| == |ip.Keys|;
    assert Candidates(s.computers) == s.computers.Keys;
  }

  /** Two daemons with views of one cluster conduct an election. */
  ghost predicate TwoElect(ip: map<string, nat>) {
    exists s, a, t, b :: a != b && ViewOf(s, a, ip) && ViewOf(t, b, ip) && Elects(s) && Elects(t)
  }

  /** Two daemons of one cluster can both conduct an election if and only if it has at least four
      computers: each of the two with the smallest addresses does not know the other one. */
  lemma TwoElectors(ip: map<string, nat>)
    requires DistinctAddresses(ip) && KnownAddresses(ip)
    ensures TwoElect(ip) <==> |ip| >= 4
  {
    if |ip| >= 4 {
      var a := LeastExists(ip, ip.Keys);
      assert |ip.Keys - {a}| == |ip.Keys| - 1 && |ip| == |ip.Keys|;
      var b := LeastExists(ip, ip.Keys - {a});
      AllButElects(a, b, ip);
      AllButElects(b, a, ip);
      assert a != b && ViewOf(AllBut(a, b, ip), a, ip) && ViewOf(AllBut(b, a, ip), b, ip);
    } else if s, a, t, b :| a != b && ViewOf(s, a, ip) && ViewOf(t, b, ip) && Elects(s) && Elects(t) {
      OneElector(s, a, t, b, ip);
    }
  }

  // ---------- spreading the result ----------

  /** f_election_date and the names of f_leaders. */
  datatype Result = Result(date: int, leaders: seq<string>)

  /** The part of LOCK_STARTED about the election, as send_lock_started fills it. */
  datatype Announcement = Announcement(date: Option<int>, leaders: seq<string>)

  /** The part of msg_lock_started about the election: the newest result wins. */
  function Hear(r: Result, a: Announcement): Result {
    var cleared := if a.date.Some? && a.date.value > r.date then Result(a.date.value, []) else r;
    if cleared.leaders == [] then cleared.(leaders := a.leaders) else cleared
  }

  /** A fresh daemon after the first `n` messages. */
  function Heard(messages: seq<Announcement>, n: nat): Result
    requires n <= |messages|
  {
    if n == 0 then Result(0, []) else Hear(Heard(messages, n - 1), messages[n - 1])
  }

  predicate Dated(a: Announcement) { if a.date.Some? then a.date.value > 0 && a.leaders != [] else a.leaders == [] }

  /** send_lock_started gives the date and the leaders together; one election, one list. */
  predicate Honest(messages: seq<Announcement>) {
    && (forall a :: a in messages ==> Dated(a))
    && forall a, b :: a in messages && b in messages && a.date == b.date ==> a.leaders == b.leaders
  }

  /** The result of the newest election that the first `n` messages tell about. */
  predicate IsNewest(r: Result, messages: seq<Announcement>, n: nat)
    requires n <= |messages|
  {
    && (forall i :: 0 <= i < n && messages[i].date.Some? ==> messages[i].date.value <= r.date)
    && (r == Result(0, []) || exists i :: 0 <= i < n && messages[i] == Announcement(Some(r.date), r.leaders))
  }

  lemma {:induction false} Convergence(messages: seq<Announcement>, n: nat)
    requires n <= |messages| && Honest(messages)
    ensures IsNewest(Heard(messages, n), messages, n)
  {
    if n > 0 {
      Convergence(messages, n - 1);
      var r, a := Heard(messages, n - 1), messages[n - 1];
      assert a in messages && Dated(a);
      if r != Result(0, []) {
        var i :| 0 <= i < n - 1 && messages[i] == Announcement(Some(r.date), r.leaders);
        assert messages[i] in messages;
      }
      if a.date.Some? && a.date.value > r.date {
        assert messages[n - 1] == Announcement(Some(a.date.value), a.leaders);
      }
    }
  }

  /** Two daemons that heard the same announcements, in any order and however often, agree. */
  lemma OrderDoesNotMatter(a: seq<Announcement>, b: seq<Announcement>)
    requires Honest(a) && forall m :: m in a <==> m in b
    ensures Heard(a, |a|) == Heard(b, |b|)
  {
    Convergence(a, |a|);
    Convergence(b, |b|);
    var r, s := Heard(a, |a|), Heard(b, |b|);
    NewestIsNotOlder(r, a, s, b);
    NewestIsNotOlder(s, b, r, a);
    if r != Result(0, []) && s != Result(0, []) {
      var i :| 0 <= i < |a| && a[i] == Announcement(Some(r.date), r.leaders);
      var j :| 0 <= j < |b| && b[j] == Announcement(Some(s.date), s.leaders);
      assert a[i] in a && b[j] in b;
    }
  }

  lemma NewestIsNotOlder(r: Result, a: seq<Announcement>, s: Result, b: seq<Announcement>)
    requires IsNewest(r, a, |a|) && IsNewest(s, b, |b|) && Honest(a) && Honest(b) && forall m :: m in a <==> m in b
    ensures r.date <= s.date && (s == Result(0, []) ==> r == s)
  {
    if r != Result(0, []) {
      var i :| 0 <= i < |a| && a[i] == Announcement(Some(r.date), r.leaders);
      assert a[i] in b;
      var j :| 0 <= j < |b| && b[j] == a[i];
      assert b[j].date.Some? && Dated(b[j]);
    } else if s != r {
      var j :| 0 <= j < |b| && b[j] == Announcement(Some(s.date), s.leaders);
      assert b[j] in b && Dated(b[j]);
    }
  }

  lemma DateNeverDecreases(r: Result, a: Announcement)
    ensures r.date <= Hear(r, a).date
    ensures Hear(r, a).date > r.date ==> Hear(r, a) == Result(a.date.value, a.leaders)
  {
  }

  // ---------- CLUSTER_DOWN ----------

  datatype News = Hears(announcement: Announcement) | ClusterDown

  /** CLUSTER_DOWN forgets the leaders and keeps the date. */
  function Take(r: Result, e: News): Result {
    match e
    case Hears(a) => Hear(r, a)
    case ClusterDown => r.(leaders := [])
  }

  /** A fresh daemon after the first `n` events. */
  function After(news: seq<News>, n: nat): Result
    requires n <= |news|
  {
    if n == 0 then Result(0, []) else Take(After(news, n - 1), news[n - 1])
  }

  /** The number of events up to the last CLUSTER_DOWN, 0 when there was none. */
  function LastDown(news: seq<News>, n: nat): (m: nat)
    requires n <= |news|
    ensures m <= n
  {
    if n == 0 then 0 else if news[n - 1].ClusterDown? then n else LastDown(news, n - 1)
  }

  /** The first list heard since. */
  function FirstList(news: seq<News>, n: nat): Option<Announcement>
    requires n <= |news|
  {
    if n == 0 || news[n - 1].ClusterDown? then None
    else if FirstList(news, n - 1).Some? || news[n - 1].announcement.leaders == [] then FirstList(news, n - 1)
    else Some(news[n - 1].announcement)
  }

  predicate HonestNews(news: seq<News>) {
    && (forall i :: 0 <= i < |news| && news[i].Hears? ==> Dated(news[i].announcement))
    && forall i, j :: 0 <= i < |news| && 0 <= j < |news| ==> SameList(news[i], news[j])
  }

  /** One date, one list. */
  predicate SameList(e: News, f: News) {
    e.Hears? && f.Hears? && e.announcement.date == f.announcement.date ==>
        e.announcement.leaders == f.announcement.leaders
  }

  /** One list, one date. */
  predicate SameDate(e: News, f: News) {
    e.Hears? && f.Hears? && e.announcement.leaders == f.announcement.leaders ==>
        e.announcement.date == f.announcement.date
  }

  /** The date of the election that an event announces, 0 when it announces none. */
  function DateOf(e: News): int { if e.Hears? && e.announcement.date.Some? then e.announcement.date.value else 0 }

  /** None of the first `n` events announces an election later than `date`. */
  predicate NoneAfter(news: seq<News>, n: nat, date: int)
    requires n <= |news|
  {
    forall i :: 0 <= i < n ==> DateOf(news[i]) <= date
  }

  /** Event `i` announces the newest election that the first `n` events tell about. */
  predicate Newest(news: seq<News>, n: nat, i: nat)
    requires n <= |news|
  {
    i < n && DateOf(news[i]) > 0 && NoneAfter(news, n, DateOf(news[i]))
  }

  /** The daemon's leaders are those of the newest election it heard of. */
  predicate Current(news: seq<News>, n: nat)
    requires n <= |news|
  {
    exists i :: 0 <= i < n && Newest(news, n, i) && news[i].announcement.leaders == After(news, n).leaders
  }

  /** Some election announced after the last CLUSTER_DOWN is newer than all announced before it. */
  predicate NewerSince(news: seq<News>, n: nat)
    requires n <= |news|
  {
    exists i :: LastDown(news, n) <= i < n && DateOf(news[i]) > 0 &&
        NoneAfter(news, LastDown(news, n), DateOf(news[i]) - 1)
  }

  /** The first list heard after the last CLUSTER_DOWN is that of the newest election announced before it. */
  predicate ListIsKept(news: seq<News>, n: nat)
    requires n <= |news|
  {
    FirstList(news, n).Some? &&
      exists j :: 0 <= j < n && Newest(news, LastDown(news, n), j) &&
          news[j].announcement.leaders == FirstList(news, n).value.leaders
  }

  /** The date is the latest one announced, whatever CLUSTER_DOWN does. */
  lemma {:induction false} DateIsNewest(news: seq<News>, n: nat)
    requires n <= |news|
    ensures After(news, n).date >= 0 && NoneAfter(news, n, After(news, n).date)
    ensures After(news, n).date == 0 || exists i :: 0 <= i < n && DateOf(news[i]) == After(news, n).date
  {
    if n > 0 {
      DateIsNewest(news, n - 1);
      assert DateOf(news[n - 1]) <= After(news, n).date;
      assert After(news, n).date == After(news, n - 1).date || After(news, n).date == DateOf(news[n - 1]);
    }
  }

  /** One of the events from `m` to `n` announced these leaders with this date. */
  predicate Announced(news: seq<News>, m: nat, n: nat, date: int, leaders: seq<string>)
    requires n <= |news|
  {
    exists i :: m <= i < n && news[i] == Hears(Announcement(Some(date), leaders))
  }

  predicate IsList(news: seq<News>, m: nat, n: nat, a: Announcement)
    requires n <= |news|
  {
    a.leaders != [] && a.date.Some? && Announced(news, m, n, a.date.value, a.leaders)
  }

  lemma AnnouncedMore(news: seq<News>, m: nat, n: nat, date: int, leaders: seq<string>)
    requires 0 < n <= |news| && Announced(news, m, n - 1, date, leaders)
    ensures Announced(news, m, n, date, leaders)
  {
    var i :| m <= i < n - 1 && news[i] == Hears(Announcement(Some(date), leaders));
    assert news[i] == Hears(Announcement(Some(date), leaders));
  }

  /** The result in terms of the date kept at the last CLUSTER_DOWN and of the first list since. */
  predicate Explained(news: seq<News>, n: nat)
    requires n <= |news|
  {
    var r, m, first := After(news, n), LastDown(news, n), FirstList(news, n);
    && After(news, m).date <= r.date
    && (r.date > After(news, m).date ==> Announced(news, m, n, r.date, r.leaders))
    && (first.Some? ==> IsList(news, m, n, first.value))
    && (r.date == After(news, m).date ==> r.leaders == if first.Some? then first.value.leaders else [])
  }

  lemma {:induction false} NewsExplained(news: seq<News>, n: nat)
    requires n <= |news| && HonestNews(news)
    ensures Explained(news, n)
  {
    if n > 0 && news[n - 1].Hears? {
      NewsExplained(news, n - 1);
      var r, m, first := After(news, n - 1), LastDown(news, n - 1), FirstList(news, n - 1);
      var a := news[n - 1].announcement;
      assert Dated(a);
      if a.date.Some? {
        assert news[n - 1] == Hears(Announcement(Some(a.date.value), a.leaders));
      }
      if r.date > After(news, m).date {
        AnnouncedMore(news, m, n, r.date, r.leaders);
      }
      if first.Some? {
        AnnouncedMore(news, m, n, first.value.date.value, first.value.leaders);
      }
    }
  }

  /** What was announced since the last CLUSTER_DOWN decides whether the date has moved. */
  lemma {:induction false} MovesWhenNewer(news: seq<News>, n: nat)
    requires n <= |news| && HonestNews(news)
    ensures NewerSince(news, n) <==> After(news, n).date > After(news, LastDown(news, n)).date
  {
    var r, m := After(news, n), LastDown(news, n);
    NewsExplained(news, n);
    DateIsNewest(news, n);
    DateIsNewest(news, m);
    if r.date > After(news, m).date {
      var i :| m <= i < n && news[i] == Hears(Announcement(Some(r.date), r.leaders));
      assert DateOf(news[i]) == r.date;
    }
  }

  /** The newest election has the date of the result, and there is one unless that is 0. */
  lemma NewestDate(news: seq<News>, n: nat, i: nat)
    requires n <= |news|
    ensures Newest(news, n, i) <==> i < n && DateOf(news[i]) == After(news, n).date > 0
  {
    DateIsNewest(news, n);
  }

  /** Two elections with one date have one list. */
  lemma OneList(news: seq<News>, i: nat, j: nat)
    requires i < |news| && j < |news| && HonestNews(news) && DateOf(news[i]) == DateOf(news[j]) > 0
    ensures news[i].announcement.leaders == news[j].announcement.leaders != []
  {
    assert SameList(news[i], news[j]) && Dated(news[i].announcement);
  }

  /** Nothing newer was announced: the leaders are the first list since. */
  lemma KeptIsCurrent(news: seq<News>, n: nat)
    requires n <= |news| && HonestNews(news) && !NewerSince(news, n) && ListIsKept(news, n)
    ensures Current(news, n)
  {
    var m := LastDown(news, n);
    MovesWhenNewer(news, n);
    NewsExplained(news, n);
    var j: nat :| j < m && Newest(news, m, j) && news[j].announcement.leaders == FirstList(news, n).value.leaders;
    NewestDate(news, m, j);
    NewestDate(news, n, j);
  }

  lemma CurrentIsKept(news: seq<News>, n: nat)
    requires n <= |news| && HonestNews(news) && !NewerSince(news, n) && Current(news, n)
    ensures ListIsKept(news, n)
  {
    var m := LastDown(news, n);
    MovesWhenNewer(news, n);
    NewsExplained(news, n);
    var i: nat :| i < n && Newest(news, n, i) && news[i].announcement.leaders == After(news, n).leaders;
    NewestDate(news, n, i);
    DateIsNewest(news, m);
    var j: nat :| j < m && DateOf(news[j]) == After(news, m).date;
    NewestDate(news, m, j);
    OneList(news, i, j);
  }

  lemma NewerIsCurrent(news: seq<News>, n: nat)
    requires n <= |news| && HonestNews(news) && NewerSince(news, n)
    ensures Current(news, n)
  {
    MovesWhenNewer(news, n);
    NewsExplained(news, n);
    DateIsNewest(news, LastDown(news, n));
    var i: nat :| i < n && news[i] == Hears(Announcement(Some(After(news, n).date), After(news, n).leaders));
    NewestDate(news, n, i);
  }

  /** Over every sequence of announcements and CLUSTER_DOWNs: the leaders are those of the newest
      election announced if and only if a newer one than all before the last CLUSTER_DOWN was
      announced since, or the first list heard since is the one of the newest before. */
  lemma StaleLeaders(news: seq<News>, n: nat)
    requires n <= |news| && HonestNews(news)
    ensures Current(news, n) <==> NewerSince(news, n) || ListIsKept(news, n)
  {
    if NewerSince(news, n) {
      NewerIsCurrent(news, n);
    } else if Current(news, n) {
      CurrentIsKept(news, n);
    } else if ListIsKept(news, n) {
      KeptIsCurrent(news, n);
    }
  }

  /** When different elections have different results: if and only if a newer one was announced
      since, or the first list heard since is not older than any before. */
  lemma StaleWhenOlder(news: seq<News>, n: nat)
    requires n <= |news| && HonestNews(news)
    requires forall i, j :: 0 <= i < n && 0 <= j < n ==> SameDate(news[i], news[j])
    ensures Current(news, n) <==>
            || NewerSince(news, n)
            || (FirstList(news, n).Some? && NoneAfter(news, LastDown(news, n), DateOf(Hears(FirstList(news, n).value))))
  {
    StaleLeaders(news, n);
    if FirstList(news, n).Some? && !NewerSince(news, n) {
      KeptIsNotOlder(news, n);
      NotOlderIsKept(news, n);
    }
  }

  lemma KeptIsNotOlder(news: seq<News>, n: nat)
    requires n <= |news| && HonestNews(news) && FirstList(news, n).Some?
    requires forall i, j :: 0 <= i < n && 0 <= j < n ==> SameDate(news[i], news[j])
    ensures ListIsKept(news, n) ==> NoneAfter(news, LastDown(news, n), DateOf(Hears(FirstList(news, n).value)))
  {
    var m, first := LastDown(news, n), FirstList(news, n).value;
    NewsExplained(news, n);
    var i: nat :| m <= i < n && news[i] == Hears(first);
    if j: nat :| j < m && Newest(news, m, j) && news[j].announcement.leaders == first.leaders {
      assert SameDate(news[i], news[j]);
    }
  }

  lemma NotOlderIsKept(news: seq<News>, n: nat)
    requires n <= |news| && HonestNews(news) && FirstList(news, n).Some? && !NewerSince(news, n)
    ensures NoneAfter(news, LastDown(news, n), DateOf(Hears(FirstList(news, n).value))) ==> ListIsKept(news, n)
  {
    var m, first := LastDown(news, n), FirstList(news, n).value;
    NewsExplained(news, n);
    var i: nat :| m <= i < n && news[i] == Hears(first);
    assert Dated(first);
    if NoneAfter(news, m, DateOf(news[i])) {
      assert !NoneAfter(news, m, DateOf(news[i]) - 1);
      var j: nat :| j < m && DateOf(news[j]) > DateOf(news[i]) - 1;
      OneList(news, i, j);
    }
  }

  /** It does happen: an election, CLUSTER_DOWN, and then an announcement of an older election.  The
      daemon takes the older leaders under the newer date. */
  lemma StaleRun(newer: seq<string>, older: seq<string>, date: int, earlier: int)
    requires newer != [] && older != [] && newer != older && 0 < earlier < date
    ensures var news := [Hears(Announcement(Some(date), newer)), ClusterDown,
        Hears(Announcement(Some(earlier), older))];
            HonestNews(news) && After(news, 3) == Result(date, older) && !Current(news, 3)
  {
    var news := [Hears(Announcement(Some(date), newer)), ClusterDown, Hears(Announcement(Some(earlier), older))];
    assert news[..] == news && After(news, 1) == Take(Result(0, []), news[0]);
    assert After(news, 2) == Result(date, []) && After(news, 3) == Take(After(news, 2), news[2]);
    if i: nat :| i < 3 && Newest(news, 3, i) && news[i].announcement.leaders == After(news, 3).leaders {
      assert DateOf(news[0]) <= DateOf(news[i]);
    }
  }
}
