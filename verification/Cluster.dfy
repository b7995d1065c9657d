/** The part of the daemon that knows the other daemons and elects the leaders. */
module Cluster {
  import opened KeyOrder
  import opened Computer
  import opened Requests
  import opened Basics
  import opened Election

  /** A LOCK_STARTED message: the computer it is about (none when its identifier is not valid) and
      the leaders of the sender, without those whose identifiers are not valid. */
  datatype Started = Started(serverName: string, computer: Option<Member>, startTime: int, date: Option<int>,
      leaders: seq<Member>)

  function Names(members: seq<Member>): (names: seq<string>)
    ensures |names| == |members| && forall i :: 0 <= i < |members| ==> names[i] == members[i].name
  {
    seq(|members|, i requires 0 <= i < |members| => members[i].name)
  }

  lemma MoreNames(members: seq<Member>, n: nat)
    requires n < |members|
    ensures Names(members[..n + 1]) == Names(members[..n]) + [members[n].name]
  {
  }

  /** set_id accepted the identifiers of the message. */
  predicate ProperMessage(msg: Started, isAddress: string -> bool, pidMax: nat) {
    && (msg.computer.Some? ==> Parsed(msg.computer.value, isAddress, pidMax))
    && forall i :: 0 <= i < |msg.leaders| ==> Parsed(msg.leaders[i], isAddress, pidMax)
  }

  /** The first `n` leaders of a message are known; a new one is not connected. */
  function Introduced(computers: Members, leaders: seq<Member>, n: nat): Members
    requires n <= |leaders|
  {
    if n == 0 then computers else Introduced1(Introduced(computers, leaders, n - 1), leaders[n - 1])
  }

  function Introduced1(computers: Members, leader: Member): Members {
    if leader.name in computers then computers else computers[leader.name := leader.(connected := false)]
  }

  /** Known computers stay as they are; the others are leaders of the message and not connected. */
  lemma {:induction false} IntroducedKeeps(computers: Members, leaders: seq<Member>, n: nat, name: string)
    requires n <= |leaders|
    ensures var r := Introduced(computers, leaders, n);
            && (name in computers ==> name in r && r[name] == computers[name])
            && (name in r && name !in computers ==>
                !r[name].connected && exists i :: 0 <= i < n && leaders[i].name == name)
            && (forall i :: 0 <= i < n && leaders[i].name == name ==> name in r)
  {
    if n > 0 {
      IntroducedKeeps(computers, leaders, n - 1, name);
    }
  }

  /** The sender of a message is known and connected. */
  function Greeted(computers: Members, msg: Started): Members
    requires msg.serverName in computers || msg.computer.Some?
  {
    if msg.serverName in computers
    then computers[msg.serverName := computers[msg.serverName].(connected := true, startTime := msg.startTime)]
    else computers[msg.computer.value.name := msg.computer.value.(connected := true, startTime := msg.startTime)]
  }

  /** The computer is new, was not connected or was started again. */
  predicate IsNews(msg: Started, known: Members) {
    msg.serverName !in known || !known[msg.serverName].connected || known[msg.serverName].startTime != msg.startTime
  }

  /** A computer is news once: the same LOCK_STARTED is not, and one after a new start is. */
  lemma NewsOnce(computers: Members, msg: Started, startTime: int)
    requires msg.serverName in computers || (msg.computer.Some? && msg.computer.value.name == msg.serverName)
    ensures !IsNews(msg, Greeted(computers, msg))
    ensures IsNews(msg.(startTime := startTime), Greeted(computers, msg)) <==> startTime != msg.startTime
  {
  }

  /** A leader that a message only names is news when it speaks itself. */
  lemma NamedIsNews(computers: Members, leaders: seq<Member>, n: nat, msg: Started)
    requires n <= |leaders| && msg.serverName !in computers
    ensures IsNews(msg, Introduced(computers, leaders, n))
  {
    IntroducedKeeps(computers, leaders, n, msg.serverName);
  }

  /** The leaders of the message replace those of the daemon. */
  predicate TakesList(r: Result, a: Announcement) { (a.date.Some? && a.date.value > r.date) || r.leaders == [] }

  /** What a daemon with this result knows after LOCK_STARTED. */
  function Known(computers: Members, r: Result, msg: Started): Members {
    if TakesList(r, Told(msg)) then Introduced(computers, msg.leaders, |msg.leaders|) else computers
  }

  /** The outcome of CLUSTER_UP; Throws stands for the exception about the own computer. */
  datatype ClusterUp = Up(elected: bool) | Throws

  function Told(msg: Started): Announcement { Announcement(msg.date, Names(msg.leaders)) }

  // ---------- runs ----------

  /** What a daemon knows of the cluster, and the date of the last election. */
  datatype Knowledge = Knowledge(seen: Situation, date: int)
  {
    function Result(): Election.Result { Election.Result(date, seen.leaders) }
  }

  datatype Event = LockStarted(msg: Started, now: int) | ClusterUp(count: nat, own: Member, now: int)

  /** Messages that msg_lock_started drops: our own, and a new computer with an invalid identifier. */
  predicate Dropped(me: string, msg: Started, known: Members) {
    msg.serverName == me || (msg.serverName !in known && msg.computer.None?)
  }

  /** What the daemon knows when it comes to election_status. */
  function Learns(me: string, k: Knowledge, e: Event): Knowledge
    requires e.LockStarted? ==> !Dropped(me, e.msg, k.seen.computers)
  {
    match e
    case LockStarted(msg, _) =>
      var r := Hear(k.Result(), Told(msg));
      Knowledge(k.seen.(computers := Known(Greeted(k.seen.computers, msg), k.Result(), msg), leaders := r.leaders),
          r.date)
    case ClusterUp(count, own, _) =>
      k.(seen := k.seen.(neighborsCount := count, neighborsQuorum := count / 2 + 1,
          computers := k.seen.computers[own.name := own]))
  }

  /** election_status. */
  predicate Decides(k: Knowledge, now: int, k': Knowledge) {
    if Elects(k.seen)
    then k'.seen == k.seen.(leaders := k'.seen.leaders) && ElectedFrom(k'.seen.leaders, k.seen.computers) &&
        k'.date == now
    else k' == k
  }

  /** One message. */
  predicate Moves(me: string, k: Knowledge, e: Event, k': Knowledge) {
    if e.LockStarted? && Dropped(me, e.msg, k.seen.computers) then k' == k else Decides(Learns(me, k, e), e.now, k')
  }

  predicate Run(me: string, run: seq<Knowledge>, events: seq<Event>) {
    |run| == |events| + 1 && forall i :: 0 <= i < |events| ==> Moves(me, run[i], events[i], run[i + 1])
  }

  /** The leaders that a cluster of this size has when none is missing. */
  predicate Full(leaders: seq<string>, count: nat) { |leaders| == 3 || (|leaders| == count && 0 < count < 3) }

  /** A newer election than this one is announced. */
  predicate Announces(e: Event, date: int) { e.LockStarted? && e.msg.date.Some? && e.msg.date.value > date }

  /** Over every sequence of LOCK_STARTED and CLUSTER_UP: as long as the list of leaders is full and no newer
      election is announced, the leaders and the date of the election stay as they are. */
  lemma {:induction false} LeadersStand(me: string, run: seq<Knowledge>, events: seq<Event>, n: nat)
    requires Run(me, run, events) && n < |run| && Full(run[0].seen.leaders, run[0].seen.neighborsCount)
    requires forall e :: e in events ==> !Announces(e, run[0].date)
    requires |run[0].seen.leaders| < 3 ==> forall e :: e in events && e.ClusterUp? ==>
        e.count == run[0].seen.neighborsCount
    ensures run[n].Result() == run[0].Result()
    ensures |run[0].seen.leaders| < 3 ==> run[n].seen.neighborsCount == run[0].seen.neighborsCount
  {
    if n > 0 {
      LeadersStand(me, run, events, n - 1);
      assert Moves(me, run[n - 1], events[n - 1], run[n]) && events[n - 1] in events;
    }
  }

  /** Every leader is a known computer. */
  predicate AllKnown(k: Knowledge) { forall i :: 0 <= i < |k.seen.leaders| ==> k.seen.leaders[i] in k.seen.computers }

  lemma LearnsKnown(me: string, k: Knowledge, e: Event)
    requires AllKnown(k) && (e.LockStarted? ==> !Dropped(me, e.msg, k.seen.computers))
    ensures AllKnown(Learns(me, k, e))
  {
    if e.LockStarted? {
      var greeted, msg := Greeted(k.seen.computers, e.msg), e.msg;
      forall i | 0 <= i < |msg.leaders| ensures msg.leaders[i].name in Introduced(greeted, msg.leaders, |msg.leaders|) {
        IntroducedKeeps(greeted, msg.leaders, |msg.leaders|, msg.leaders[i].name);
      }
    }
  }

  /** Over every sequence of LOCK_STARTED and CLUSTER_UP: a daemon that starts without leaders only has leaders that it
      knows as computers, also those that it first heard of in the list of another daemon. */
  lemma {:induction false} LeadersAreKnown(me: string, run: seq<Knowledge>, events: seq<Event>, n: nat)
    requires Run(me, run, events) && n < |run| && AllKnown(run[0])
    ensures AllKnown(run[n])
  {
    if n > 0 {
      LeadersAreKnown(me, run, events, n - 1);
      var k, e := run[n - 1], events[n - 1];
      assert Moves(me, k, e, run[n]);
      if !(e.LockStarted? && Dropped(me, e.msg, k.seen.computers)) {
        LearnsKnown(me, k, e);
      }
    }
  }

  /** A newer election with a full list is taken over as it was announced. */
  lemma FullListIsTaken(me: string, k: Knowledge, e: Event, k': Knowledge)
    requires Moves(me, k, e, k') && Announces(e, k.date) && !Dropped(me, e.msg, k.seen.computers)
    requires |e.msg.leaders| == 3 || (|e.msg.leaders| == k.seen.neighborsCount && 0 < k.seen.neighborsCount < 3)
    ensures k'.date == e.msg.date.value && |k'.seen.leaders| == |e.msg.leaders|
    ensures forall i :: 0 <= i < |e.msg.leaders| ==> k'.seen.leaders[i] == e.msg.leaders[i].name
  {
    assert Learns(me, k, e).seen.leaders == Names(e.msg.leaders);
  }

  class Cluster {
    const serverName: string
    const isAddress: string -> bool
    const pidMax: nat
    var myIp: nat
    var neighborsCount: nat
    var neighborsQuorum: nat
    var computers: Members
    var leaders: seq<string>
    var electionDate: int

    constructor (serverName: string, myIp: nat, isAddress: string -> bool, pidMax: nat)
      ensures computers == map[] && View() == Result(0, [])
    {
      this.serverName, this.myIp, this.isAddress, this.pidMax := serverName, myIp, isAddress, pidMax;
      neighborsCount, neighborsQuorum, computers, leaders, electionDate := 0, 0, map[], [], 0;
    }

    function View(): Result
      reads this
    {
      Result(electionDate, leaders)
    }

    function Seen(): Situation
      reads this
    {
      Situation(myIp, neighborsCount, neighborsQuorum, computers, leaders)
    }

    function Knows(): Knowledge
      reads this
    {
      Knowledge(Seen(), electionDate)
    }

    // ---------- election_status ----------

    /** Inserts a computer into a list in the order of the identifiers, as the map sort_by_id does. */
    method Insert(ranked: seq<string>, name: string) returns (r: seq<string>)
      requires Indexed(computers) && Ranked(computers, ranked) && name in computers && name !in ranked
      ensures Ranked(computers, r) && |r| == |ranked| + 1
      ensures forall n :: n in r <==> n in ranked || n == name
    {
      var i := 0;
      while i < |ranked| && Before(computers[ranked[i]].id, computers[name].id)
        invariant i <= |ranked|
        invariant forall j :: 0 <= j < i ==> Before(computers[ranked[j]].id, computers[name].id)
      {
        i := i + 1;
      }
      r := ranked[..i] + [name] + ranked[i..];
      assert i < |ranked| ==> computers[ranked[i]].id != computers[name].id;
      forall j | i <= j < |ranked| ensures Before(computers[name].id, computers[ranked[j]].id) {
        BeforeTotal(computers[name].id, computers[ranked[i]].id);
        if j > i {
          BeforeTransitive(computers[name].id, computers[ranked[i]].id, computers[ranked[j]].id);
        }
      }
    }

    /** The candidates in the order of their identifiers, and the number of the other computers. */
    method SortById() returns (ranked: seq<string>, off: nat)
      requires Indexed(computers)
      ensures Ranked(computers, ranked) && (forall n :: n in ranked <==> n in Candidates(computers))
      ensures |ranked| == |Candidates(computers)| && off == |computers| - |ranked|
    {
      ranked, off := [], 0;
      var todo := computers.Keys;
      while todo != {}
        invariant todo <= computers.Keys && Ranked(computers, ranked) && |ranked| + off + |todo| == |computers|
        invariant forall n :: n in ranked <==> n in Candidates(computers) && n !in todo
        decreases |todo|
      {
        var n :| n in todo;
        if computers[n].priority != PRIORITY_OFF {
          ranked := Insert(ranked, n);
        } else {
          off := off + 1;
        }
        todo := todo - {n};
      }
      RankedSize(computers, ranked, Candidates(computers));
    }

    method HasSmallestAddress() returns (smallest: bool)
      ensures smallest <==> SmallestAddress(Seen())
    {
      var todo := computers.Keys;
      while todo != {}
        invariant todo <= computers.Keys
        invariant forall n :: n in computers && n !in todo ==> myIp <= computers[n].ip
        decreases |todo|
      {
        var n :| n in todo;
        if computers[n].ip < myIp {
          return false;
        }
        todo := todo - {n};
      }
      return true;
    }

    method ElectionStatus(now: int) returns (elected: bool)
      requires Indexed(computers)
      modifies this`leaders, this`electionDate
      ensures elected <==> Elects(old(Seen()))
      ensures elected ==> ElectedFrom(leaders, computers) && electionDate == now
      ensures elected ==> |leaders| >= 2 || (|leaders| == 1 && |computers| == 1) || |computers| == 0
      ensures elected ==> forall l :: l in leaders ==> computers[l].priority != PRIORITY_OFF
      ensures !elected ==> View() == old(View())
      ensures Full(old(leaders), neighborsCount) ==> !elected
      ensures Decides(old(Knows()), now, Knows())
    {
      elected := false;
      if leaders != [] && (|leaders| == 3 || (neighborsCount < 3 && |leaders| == neighborsCount)) {
        return;
      }
      if myIp == 0 || neighborsCount == 0 {
        return;
      }
      if neighborsQuorum < 3 && |computers| < neighborsCount {
        return;
      }
      if |computers| < neighborsQuorum {
        return;
      }
      var smallest := HasSmallestAddress();
      if !smallest {
        return;
      }
      var ranked, off := SortById();
      var tooManyComputersOff := false;
      if |computers| <= 3 {
        if off != 0 && |computers| >= neighborsCount {
          tooManyComputersOff := true;
        }
      } else if |computers| - off < 3 && |computers| >= neighborsCount {
        tooManyComputersOff := true;
      }
      if tooManyComputersOff {
        return;
      }
      if |ranked| < 2 && |ranked| != |computers| {
        return;
      }
      electionDate := now;
      leaders := ranked[..Min(3, |ranked|)];
      elected := true;
      FirstOfRanked(computers, ranked, Min(3, |ranked|));
    }

    // ---------- the messages ----------

    /** The leaders of a message, when the daemon has none. */
    method HearLeaders(msg: Started)
      requires Indexed(computers) && ProperMessage(msg, isAddress, pidMax) && leaders == []
      modifies this`leaders, this`computers
      ensures Indexed(computers) && leaders == Names(msg.leaders)
      ensures computers == Introduced(old(computers), msg.leaders, |msg.leaders|)
    {
      hide Names, Parsed, NameOf;
      var idx := 0;
      while idx < |msg.leaders|
        invariant 0 <= idx <= |msg.leaders| && leaders == Names(msg.leaders[..idx]) && Indexed(computers)
        invariant computers == Introduced(old(computers), msg.leaders, idx)
      {
        var leader := msg.leaders[idx];
        ParsedIsWellFormed(leader, isAddress, pidMax);
        MoreNames(msg.leaders, idx);
        if leader.name !in computers {
          computers := computers[leader.name := leader.(connected := false)];
        }
        leaders := leaders + [leader.name];
        idx := idx + 1;
      }
      assert msg.leaders[..idx] == msg.leaders;
    }

    /** The part of msg_lock_started about the election.  A leader that is not known yet becomes a
        computer that is not connected. */
    method HearElection(msg: Started)
      requires Indexed(computers) && ProperMessage(msg, isAddress, pidMax)
      modifies this`leaders, this`electionDate, this`computers
      ensures Indexed(computers) && View() == Hear(old(View()), Told(msg))
      ensures computers == Known(old(computers), old(View()), msg)
    {
      if msg.date.Some? && msg.date.value > electionDate {
        electionDate := msg.date.value;
        leaders := [];
      }
      if leaders == [] {
        HearLeaders(msg);
      }
    }

    /** is_leader. */
    predicate IsLeader()
      reads this`leaders
    {
      serverName in leaders
    }

    /** The first part of msg_lock_started: `heard` when the computer is new or started again;
        None when its identifier is not valid. */
    method HearComputer(msg: Started) returns (heard: Option<bool>)
      requires Indexed(computers) && ProperMessage(msg, isAddress, pidMax)
      modifies this`computers
      ensures Indexed(computers)
      ensures heard.None? <==> msg.serverName !in old(computers) && msg.computer.None?
      ensures heard.None? ==> computers == old(computers)
      ensures heard.Some? ==> heard.value == IsNews(msg, old(computers)) && computers == Greeted(old(computers), msg)
    {
      if msg.serverName !in computers {
        if msg.computer.None? {
          return None;
        }
        ParsedIsWellFormed(msg.computer.value, isAddress, pidMax);
        computers := computers[msg.computer.value.name := msg.computer.value.(startTime := msg.startTime,
            connected := true)];
        return Some(true);
      }
      var c := computers[msg.serverName];
      var isNew := false;
      if !c.connected {
        isNew := true;
        c := c.(connected := true);
      }
      if c.startTime != msg.startTime {
        isNew := true;
        c := c.(startTime := msg.startTime);
      }
      computers := computers[msg.serverName := c];
      return Some(isNew);
    }

    /** LOCK_STARTED; the daemon answers with its own LOCK_STARTED when `replies`. */
    method MsgLockStarted(msg: Started, now: int) returns (replies: bool, elected: bool)
      requires Indexed(computers) && ProperMessage(msg, isAddress, pidMax)
      modifies this`leaders, this`electionDate, this`computers
      ensures Indexed(computers)
      ensures Dropped(serverName, msg, old(computers)) ==>
          !replies && !elected && View() == old(View()) && computers == old(computers)
      ensures !Dropped(serverName, msg, old(computers)) ==>
          computers == Known(Greeted(old(computers), msg), old(View()), msg)
      ensures !Dropped(serverName, msg, old(computers)) && !elected ==> View() == Hear(old(View()), Told(msg))
      ensures elected
         <==> !Dropped(serverName, msg, old(computers)) && Elects(Seen().(leaders := Hear(old(View()), Told(msg)).leaders))
      ensures elected ==> ElectedFrom(leaders, computers) && electionDate == now
      ensures Moves(serverName, old(Knows()), LockStarted(msg, now), Knows())
      ensures replies
         <==> !Dropped(serverName, msg, old(computers)) && (IsNews(msg, old(computers)) || old(IsLeader()) != IsLeader())
    {
      replies, elected := false, false;
      if msg.serverName == serverName {
        return;
      }
      var heard := HearComputer(msg);
      if heard.None? {
        return;
      }
      var wasLeader := IsLeader();
      HearElection(msg);
      elected := ElectionStatus(now);
      replies := heard.value || wasLeader != IsLeader();
    }

    /** Our own computer, with the priority of the configuration. */
    ghost function Me(priority: nat, random: nat, ip: string, pid: nat, startTime: int): Member
      requires priority < 100
      reads this`myIp
    {
      Own(Info(priority, random, ip, pid, serverName), myIp, startTime)
    }

    /** CLUSTER_UP; the text of an address is not empty and has no bar, a process identifier is positive. */
    method MsgClusterUp(count: nat, priority: int, random: nat, ip: string, pid: nat, startTime: int, now: int)
      returns (r: ClusterUp)
      requires Indexed(computers) && ip != "" && '|' !in ip && pid > 0
      modifies this`leaders, this`electionDate, this`computers, this`neighborsCount, this`neighborsQuorum
      ensures neighborsCount == count && neighborsQuorum == count / 2 + 1
      ensures r.Throws? <==> !OwnName(serverName) || !(PRIORITY_USER_MIN <= priority <= PRIORITY_MAX)
      ensures r.Throws? ==> computers == old(computers) && View() == old(View())
      ensures r.Up? ==> Indexed(computers)
      ensures r.Up? ==> computers == old(computers)[serverName := Me(priority, random, ip, pid, startTime)]
      ensures r.Up? ==> (r.elected <==> Elects(Seen().(leaders := old(leaders))))
      ensures r.Up? && r.elected ==> ElectedFrom(leaders, computers) && electionDate == now
      ensures r.Up? && !r.elected ==> View() == old(View())
      ensures r.Up? ==> Moves(serverName, old(Knows()),
          ClusterUp(count, Me(priority, random, ip, pid, startTime), now), Knows())
    {
      hide IdText, NameOf, Elects, ElectedFrom;
      neighborsCount := count;
      neighborsQuorum := count / 2 + 1;
      var created := Computer.Self(serverName, priority, random, ip, pid);
      if created.InvalidParameter? {
        return ClusterUp.Throws;
      }
      var id := created.computer.GetId();
      OwnIsWellFormed(Info(priority, random, ip, pid, serverName), myIp, startTime);
      computers := computers[serverName := Member(serverName, id.id, priority, myIp, true, startTime)];
      var elected := ElectionStatus(now);
      return Up(elected);
    }

    /** CLUSTER_DOWN. */
    method MsgClusterDown()
      modifies this`leaders
      ensures View() == Result(old(electionDate), [])
    {
      leaders := [];
    }
  }

  lemma {:induction false} RankedSize(computers: Members, ranked: seq<string>, candidates: set<string>)
    requires Ranked(computers, ranked) && forall n :: n in ranked <==> n in candidates
    ensures |ranked| == |candidates|
    decreases |ranked|
  {
    RankedIsDistinct(computers, ranked);
    if ranked == [] {
      assert candidates == {};
    } else {
      var last, front := ranked[|ranked| - 1], ranked[..|ranked| - 1];
      assert forall i :: 0 <= i < |front| ==> front[i] == ranked[i];
      forall n ensures n in front <==> n in candidates - {last} {
        if n in candidates - {last} {
          var i :| 0 <= i < |ranked| && ranked[i] == n;
          assert front[i] == n;
        }
      }
      RankedSize(computers, front, candidates - {last});
      assert last in candidates;
    }
  }

  lemma FirstOfRanked(computers: Members, ranked: seq<string>, k: nat)
    requires Ranked(computers, ranked) && (forall n :: n in ranked <==> n in Candidates(computers))
    requires |ranked| == |Candidates(computers)| && k == Min(3, |ranked|)
    ensures ElectedFrom(ranked[..k], computers)
  {
    var first := ranked[..k];
    assert forall i :: 0 <= i < k ==> first[i] == ranked[i] && ranked[i] in first;
    forall l, c | l in first && c in Candidates(computers)
        && c !in first ensures Before(computers[l].id, computers[c].id) {
      var i :| 0 <= i < k && first[i] == l;
      var j :| 0 <= j < |ranked| && ranked[j] == c;
      assert j >= k;
    }
  }
}
