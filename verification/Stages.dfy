/** A dialogue of two leaders inside a run: one leader takes a message of the other, answers it
    or tells everybody something.

    `x` and `y` are the two leaders.  The links of the other leaders, their tables and the
    rest of the history stay as they were when the dialogue began. */
module Stages {
  import opened KeyOrder
  import opened TicketProgress
  import opened Leader
  import opened Bakery
  import opened Queues
  import opened QueueMoves
  import opened Dialogue

  /** The dialogue that began in `start`; `tx` and `ty` are what the two have told everybody since. */
  datatype Talk = Talk(all: set<ServerName>, r: Rules, start: Game, x: ServerName, y: ServerName, tx: seq<Message>,
      ty: seq<Message>)

  /** The tables of the two, the links between them, and the locks. */
  datatype Stage = NoStage | At(lx: Leader, ly: Leader, xy: seq<Message>, yx: seq<Message>, locked: set<EnteringKey>)

  /** The other links: nothing was taken from them, and what the two said was added. */
  ghost predicate OtherLinks(f: Talk, g: Game) {
    forall u, v :: !(u == f.x && v == f.y) && !(u == f.y && v == f.x) ==>
      On(g, u, v) == On(f.start, u, v) + if v !in f.all || u == v then [] else if u == f.x then f.tx
          else if u == f.y then f.ty else []
  }

  ghost predicate OtherLeaders(f: Talk, g: Game) {
    && g.s.leaders.Keys == f.start.s.leaders.Keys && g.s.unlocked == f.start.s.unlocked
    && g.s.owner == f.start.s.owner && g.s.released == f.start.s.released
    && forall m :: m in f.start.s.leaders && m != f.x && m != f.y ==> g.s.leaders[m] == f.start.s.leaders[m]
  }

  ghost function StageOf(f: Talk, h: seq<Game>, g: Game): Stage {
    if && Now(f.all, h, f.r) == Here(g) && f.x in f.all && f.y in f.all && f.x != f.y && f.x in g.s.leaders &&
        f.y in g.s.leaders
       && OtherLinks(f, g) && OtherLeaders(f, g)
    then At(g.s.leaders[f.x], g.s.leaders[f.y], On(g, f.x, f.y), On(g, f.y, f.x), g.s.locked)
    else NoStage
  }

  lemma {:induction false} Begins(all: set<ServerName>, r: Rules, h: seq<Game>, g: Game, x: ServerName, y: ServerName)
    requires Now(all, h, r) == Here(g) && x in all && y in all && x != y
    ensures StageOf(Talk(all, r, g, x, y, [], []), h, g)
         == At(g.s.leaders[x], g.s.leaders[y], On(g, x, y), On(g, y, x), g.s.locked)
  {
    var f := Talk(all, r, g, x, y, [], []);
    assert forall u, v :: On(g, u, v) == On(g, u, v) + [];
    assert OtherLinks(f, g);
  }

  /** The two change roles. */
  function Flip(f: Talk): Talk { f.(x := f.y, y := f.x, tx := f.ty, ty := f.tx) }

  function FlipStage(st: Stage): Stage
    requires st.At?
  {
    At(st.ly, st.lx, st.yx, st.xy, st.locked)
  }

  lemma {:induction false} Flipped(f: Talk, h: seq<Game>, g: Game, st: Stage)
    requires StageOf(f, h, g) == st && st.At?
    ensures StageOf(Flip(f), h, g) == FlipStage(st)
  {
    hide Now;
    assert OtherLinks(Flip(f), g);
    assert OtherLeaders(Flip(f), g);
  }

  lemma {:induction false} Apart(f: Talk, h: seq<Game>, g: Game)
    requires StageOf(f, h, g).At?
    ensures f.x != f.y && f.x in f.all && f.y in f.all
  {
    hide Now;
  }

  /** Back from the dialogue to the run. */
  lemma {:induction false} Ends(f: Talk, h: seq<Game>, g: Game)
    requires StageOf(f, h, g).At?
    ensures Now(f.all, h, f.r) == Here(g) && g.s.locked == StageOf(f, h, g).locked && OtherLeaders(f, g)
    ensures g.s.leaders.Keys == f.start.s.leaders.Keys && f.x in g.s.leaders && g.s.leaders[f.x] == StageOf(f, h, g).lx
  {
    hide Now;
  }

  // ---------- after a move ----------

  lemma {:induction false} LinksReplied(f: Talk, g: Game, g': Game, i: nat, answer: Message)
    requires OtherLinks(f, g) && i < |On(g, f.x, f.y)| && Replied(g, g', f.x, f.y, i, answer)
    ensures OtherLinks(f, g')
  {
  }

  lemma {:induction false} LinksTaken(f: Talk, g: Game, g': Game, i: nat)
    requires OtherLinks(f, g) && i < |On(g, f.x, f.y)| && Taken(g, g', f.x, f.y, i)
    ensures OtherLinks(f, g')
  {
  }

  lemma {:induction false} LinksTold(f: Talk, g: Game, g': Game, i: nat, ms: seq<Message>)
    requires OtherLinks(f, g) && f.x != f.y && i < |On(g, f.x, f.y)| && Told(f.all, g, g', f.x, f.y, i, ms)
    ensures OtherLinks(f.(ty := f.ty + ms), g')
  {
    forall u, v | !(u == f.x && v == f.y) && !(u == f.y && v == f.x)
      ensures On(g', u, v) == On(f.start, u, v) + if v !in f.all || u == v then [] else if u == f.x then f.tx
          else if u == f.y then f.ty + ms else []
    {
      if u == f.y && v in f.all && v != u {
        assert (On(f.start, u, v) + f.ty) + ms == On(f.start, u, v) + (f.ty + ms);
      }
    }
  }

  lemma {:induction false} AfterReply(f: Talk, h: seq<Game>, g: Game, st: Stage, more: seq<Game>, g': Game, i: nat,
        l: Leader, answer: Message)
    requires StageOf(f, h, g) == st && st.At? && Now(f.all, more, f.r) == Here(g')
    requires i < |On(g, f.x, f.y)| && Became(g.s, g'.s, f.y, l) && Replied(g, g', f.x, f.y, i, answer)
    ensures i < |st.xy| && StageOf(f, more, g') == st.(ly := l, xy := Cut(st.xy, i), yx := st.yx + [answer])
  {
    hide Now, On, OtherLinks;
    LinksReplied(f, g, g', i, answer);
  }

  lemma {:induction false} AfterHeard(f: Talk, h: seq<Game>, g: Game, st: Stage, more: seq<Game>, g': Game, i: nat,
        l: Leader)
    requires StageOf(f, h, g) == st && st.At? && Now(f.all, more, f.r) == Here(g')
    requires i < |On(g, f.x, f.y)| && Became(g.s, g'.s, f.y, l) && Taken(g, g', f.x, f.y, i)
    ensures i < |st.xy| && StageOf(f, more, g') == st.(ly := l, xy := Cut(st.xy, i))
  {
    hide Now, On, OtherLinks;
    LinksTaken(f, g, g', i);
  }

  lemma {:induction false} AfterTold(f: Talk, h: seq<Game>, g: Game, st: Stage, more: seq<Game>, g': Game, i: nat,
        l: Leader, ms: seq<Message>)
    requires StageOf(f, h, g) == st && st.At? && Now(f.all, more, f.r) == Here(g')
    requires i < |On(g, f.x, f.y)| && Became(g.s, g'.s, f.y, l) && Told(f.all, g, g', f.x, f.y, i, ms)
    ensures i < |st.xy| && StageOf(f.(ty := f.ty + ms), more, g') == st.(ly := l, xy := Cut(st.xy, i), yx := st.yx + ms)
  {
    hide Now, On, OtherLinks;
    LinksTold(f, g, g', i, ms);
  }

  lemma {:induction false} AfterGot(f: Talk, h: seq<Game>, g: Game, st: Stage, more: seq<Game>, g': Game, i: nat,
        l: Leader, k: EnteringKey)
    requires StageOf(f, h, g) == st && st.At? && Now(f.all, more, f.r) == Here(g')
    requires i < |On(g, f.x, f.y)| && Got(g.s, g'.s, f.y, l, k) && Taken(g, g', f.x, f.y, i)
    ensures i < |st.xy| && StageOf(f, more, g') == st.(ly := l, xy := Cut(st.xy, i), locked := st.locked + {k})
  {
    hide Now, On, OtherLinks;
    LinksTaken(f, g, g', i);
  }

  lemma {:induction false} AfterGotReply(f: Talk, h: seq<Game>, g: Game, st: Stage, more: seq<Game>, g': Game, i: nat,
        l: Leader, k: EnteringKey, answer: Message)
    requires StageOf(f, h, g) == st && st.At? && Now(f.all, more, f.r) == Here(g')
    requires i < |On(g, f.x, f.y)| && Got(g.s, g'.s, f.y, l, k) && Replied(g, g', f.x, f.y, i, answer)
    ensures i < |st.xy|
    ensures StageOf(f, more, g') == st.(ly := l, xy := Cut(st.xy, i), yx := st.yx + [answer], locked := st.locked + {k})
  {
    hide Now, On, OtherLinks;
    LinksReplied(f, g, g', i, answer);
  }

  // ---------- what discipline asks for ----------

  /** The message is not in flight. */
  ghost predicate Unsent(f: Talk, st: Stage, m: Message)
    requires st.At?
  {
    && m !in st.xy && m !in st.yx && m !in f.tx && m !in f.ty
    && forall u, v :: !(u == f.x && v == f.y) && !(u == f.y && v == f.x) ==> m !in On(f.start, u, v)
  }

  lemma {:induction false} UnsentIsNowhere(f: Talk, h: seq<Game>, g: Game, st: Stage, m: Message)
    requires StageOf(f, h, g) == st && st.At? && Unsent(f, st, m)
    ensures forall u, v :: m !in On(g, u, v)
  {
    hide Now;
  }

  predicate AddsNot(q: seq<Message>, k: EnteringKey) { forall m :: m in q && m.AddTicket? ==> m.ticket.entering != k }

  /** No ADD_TICKET of `k` is on its way to `y`. */
  ghost predicate Settled(f: Talk, st: Stage, k: EnteringKey)
    requires st.At?
  {
    AddsNot(st.xy, k) && forall u :: u != f.x ==> AddsNot(On(f.start, u, f.y), k)
  }

  lemma {:induction false} SettledHasNoAdd(f: Talk, h: seq<Game>, g: Game, st: Stage, k: EnteringKey)
    requires StageOf(f, h, g) == st && st.At? && Settled(f, st, k)
    ensures NoAdd(g, f.y, k)
  {
    hide Now;
    forall u, m | m in On(g, u, f.y) && m.AddTicket? ensures m.ticket.entering != k {
      if u != f.x && u != f.y {
        assert On(g, u, f.y) == On(f.start, u, f.y) + [];
      } else if u == f.y {
        assert On(g, u, f.y) == On(f.start, u, f.y) + [];
      }
    }
  }

  // ---------- `y` takes a message of `x` ----------

  /** The message `m` is at `i` on the link from `x` to `y`, and it is its turn. */
  ghost predicate Arrived(f: Talk, st: Stage, i: nat, m: Message) {
    st.At? && i < |st.xy| && st.xy[i] == m && (f.r.fifo ==> i == 0)
  }

  lemma {:induction false} IsNext(f: Talk, h: seq<Game>, g: Game, st: Stage, i: nat, m: Message)
    requires StageOf(f, h, g) == st && Arrived(f, st, i, m)
    ensures Next(f.all, f.r, g, f.x, f.y, i, m) && Now(f.all, h, f.r) == Here(g) && g.s.leaders[f.y] == st.ly
  {
    hide Now;
  }

  lemma {:induction false} Enters(f: Talk, h: seq<Game>, g: Game, st: Stage, i: nat, k: EnteringKey)
    returns (more: seq<Game>, g': Game)
    requires StageOf(f, h, g) == st && Arrived(f, st, i, LockEntering(k))
    requires Tabled(st.ly) && Free(st.ly, k)
    ensures StageOf(f, more, g')
         == st.(ly := CopyEntering(st.ly, f.x, k), xy := Cut(st.xy, i), yx := st.yx + [LockEntered(k)])
  {
    hide StageOf, Now, On, Told, Taken, Replied, Became, Got;
    IsNext(f, h, g, st, i, LockEntering(k));
    more, g' := Dialogue.Enters(f.all, h, f.r, g, f.x, f.y, i, k, st.ly);
    AfterReply(f, h, g, st, more, g', i, CopyEntering(st.ly, f.x, k), LockEntered(k));
  }

  lemma {:induction false} Answers(f: Talk, h: seq<Game>, g: Game, st: Stage, i: nat, k: EnteringKey, n: nat)
    returns (more: seq<Game>, g': Game)
    requires StageOf(f, h, g) == st && Arrived(f, st, i, GetMaxTicket(k))
    requires Tabled(st.ly) && GetLast(st.ly.tickets) == n
    ensures StageOf(f, more, g') == st.(ly := st.ly, xy := Cut(st.xy, i), yx := st.yx + [MaxTicketIs(k, n)])
  {
    hide StageOf, Now, On, Told, Taken, Replied, Became, Got;
    IsNext(f, h, g, st, i, GetMaxTicket(k));
    more, g' := Dialogue.Answers(f.all, h, f.r, g, f.x, f.y, i, k, st.ly, n);
    AfterReply(f, h, g, st, more, g', i, st.ly, MaxTicketIs(k, n));
  }

  lemma {:induction false} Adds(f: Talk, h: seq<Game>, g: Game, st: Stage, i: nat, k: EnteringKey)
    returns (more: seq<Game>, g': Game)
    requires StageOf(f, h, g) == st && Arrived(f, st, i, AddTicket(Number1(k)))
    requires Tabled(st.ly) && k in st.ly.entering && st.ly.copies[k] == NewTicket(f.x, k)
    requires Number1(k) !in st.ly.tickets
    ensures StageOf(f, more, g')
         == st.(ly := Added(st.ly, f.x, k), xy := Cut(st.xy, i), yx := st.yx + [Message.TicketAdded(Number1(k))])
    ensures more == h + [g']
  {
    hide StageOf, Now, On, Told, Taken, Replied, Became, Got;
    IsNext(f, h, g, st, i, AddTicket(Number1(k)));
    more, g' := Dialogue.Adds(f.all, h, f.r, g, f.x, f.y, i, k, st.ly);
    AfterReply(f, h, g, st, more, g', i, Added(st.ly, f.x, k), Message.TicketAdded(Number1(k)));
  }

  lemma {:induction false} Leaves(f: Talk, h: seq<Game>, g: Game, st: Stage, i: nat, k: EnteringKey)
    returns (more: seq<Game>, g': Game)
    requires StageOf(f, h, g) == st && Arrived(f, st, i, LockExiting(k))
    requires Tabled(st.ly) && Idle(st.ly) && k in st.ly.entering && (f.r.disciplined ==> Settled(f, st, k))
    ensures StageOf(f, more, g') == st.(ly := Left(st.ly, k), xy := Cut(st.xy, i))
  {
    hide StageOf, Now, On, Told, Taken, Replied, Became, Got;
    IsNext(f, h, g, st, i, LockExiting(k));
    if f.r.disciplined {
      SettledHasNoAdd(f, h, g, st, k);
    }
    more, g' := Dialogue.Leaves(f.all, h, f.r, g, f.x, f.y, i, k, st.ly);
    AfterHeard(f, h, g, st, more, g', i, Left(st.ly, k));
  }

  lemma {:induction false} HearsReady(f: Talk, h: seq<Game>, g: Game, st: Stage, i: nat, k: EnteringKey)
    returns (more: seq<Game>, g': Game)
    requires StageOf(f, h, g) == st && Arrived(f, st, i, TicketReady(Number1(k)))
    requires Tabled(st.ly) && Number1(k) in st.ly.tickets
    ensures StageOf(f, more, g') == st.(ly := WithCopy(st.ly, k, SetReady(st.ly.copies[k])), xy := Cut(st.xy, i))
  {
    hide StageOf, Now, On, Told, Taken, Replied, Became, Got;
    IsNext(f, h, g, st, i, TicketReady(Number1(k)));
    more, g' := Dialogue.HearsReady(f.all, h, f.r, g, f.x, f.y, i, k, st.ly);
    AfterHeard(f, h, g, st, more, g', i, WithCopy(st.ly, k, SetReady(st.ly.copies[k])));
  }

  lemma {:induction false} Activates(f: Talk, h: seq<Game>, g: Game, st: Stage, i: nat, k: EnteringKey)
    returns (more: seq<Game>, g': Game)
    requires StageOf(f, h, g) == st && Arrived(f, st, i, ActivateLock(Number1(k)))
    requires Tabled(st.ly) && IsFirst(st.ly.tickets, Number1(k)) && CanLock(st.ly.copies[k])
    requires st.ly.copies[k].owner != f.y
    ensures StageOf(f, more, g')
         == st.(ly := WithCopy(st.ly, k, st.ly.copies[k].(locked := true)), xy := Cut(st.xy, i),
            yx := st.yx + [LockActivated(Number1(k), FirstKey(Number1(k)))])
  {
    hide StageOf, Now, On, Told, Taken, Replied, Became, Got;
    IsNext(f, h, g, st, i, ActivateLock(Number1(k)));
    more, g' := Dialogue.Activates(f.all, h, f.r, g, f.x, f.y, i, k, st.ly);
    AfterReply(f, h, g, st, more, g', i, WithCopy(st.ly, k, st.ly.copies[k].(locked := true)),
               LockActivated(Number1(k), FirstKey(Number1(k))));
  }

  lemma {:induction false} Drops(f: Talk, h: seq<Game>, g: Game, st: Stage, i: nat, k: EnteringKey)
    returns (more: seq<Game>, g': Game)
    requires StageOf(f, h, g) == st && Arrived(f, st, i, DropTicket(Number1(k)))
    requires Tabled(st.ly) && st.ly.tickets == {Number1(k)}
    ensures StageOf(f, more, g') == st.(ly := Left(st.ly, k).(tickets := {}), xy := Cut(st.xy, i))
  {
    hide StageOf, Now, On, Told, Taken, Replied, Became, Got;
    IsNext(f, h, g, st, i, DropTicket(Number1(k)));
    more, g' := Dialogue.Drops(f.all, h, f.r, g, f.x, f.y, i, k, st.ly);
    AfterHeard(f, h, g, st, more, g', i, Left(st.ly, k).(tickets := {}));
  }

  // ---------- `y` is an owner ----------

  lemma {:induction false} Asks(f: Talk, h: seq<Game>, g: Game, st: Stage, i: nat, k: EnteringKey)
    returns (more: seq<Game>, g': Game)
    requires StageOf(f, h, g) == st && Arrived(f, st, i, LockEntered(k))
    requires Tabled(st.ly) && k in st.ly.entering && st.ly.copies[k] == NewTicket(f.y, k) && st.ly.tickets == {}
    requires f.r.disciplined ==> Unsent(f, st, LockEntering(k))
    ensures StageOf(f.(ty := f.ty + [GetMaxTicket(k)]), more, g')
         == st.(ly := WithCopy(st.ly, k, Asking(f.y, k)), xy := Cut(st.xy, i), yx := st.yx + [GetMaxTicket(k)])
    ensures g'.s.before == g.s.before[k := Quorate(g.s)]
  {
    hide StageOf, Now, On, Told, Taken, Replied, Became, Got;
    IsNext(f, h, g, st, i, LockEntered(k));
    if f.r.disciplined {
      UnsentIsNowhere(f, h, g, st, LockEntering(k));
    }
    more, g' := Dialogue.Asks(f.all, h, f.r, g, f.y, f.x, i, k, st.ly);
    AfterTold(f, h, g, st, more, g', i, WithCopy(st.ly, k, Asking(f.y, k)), [GetMaxTicket(k)]);
  }

  lemma {:induction false} Numbers(f: Talk, h: seq<Game>, g: Game, st: Stage, i: nat, k: EnteringKey)
    returns (more: seq<Game>, g': Game)
    requires StageOf(f, h, g) == st && Arrived(f, st, i, MaxTicketIs(k, 0))
    requires Tabled(st.ly) && k in st.ly.entering && st.ly.copies[k] == Asking(f.y, k)
    ensures StageOf(f.(ty := f.ty + [AddTicket(Number1(k))]), more, g')
         == st.(ly := WithNumber(st.ly, f.y, k), xy := Cut(st.xy, i), yx := st.yx + [AddTicket(Number1(k))])
    ensures g'.s.before == g.s.before
  {
    hide StageOf, Now, On, Told, Taken, Replied, Became, Got;
    IsNext(f, h, g, st, i, MaxTicketIs(k, 0));
    more, g' := Dialogue.Numbers(f.all, h, f.r, g, f.y, f.x, i, k, st.ly);
    AfterTold(f, h, g, st, more, g', i, WithNumber(st.ly, f.y, k), [AddTicket(Number1(k))]);
  }

  lemma {:induction false} HasQuorum(f: Talk, h: seq<Game>, g: Game, st: Stage, i: nat, k: EnteringKey)
    returns (more: seq<Game>, g': Game)
    requires StageOf(f, h, g) == st && Arrived(f, st, i, Message.TicketAdded(Number1(k)))
    requires st.ly == OwnerNumbered(f.y, k)
    ensures StageOf(f.(ty := f.ty + QuorumNews(k)), more, g')
         == st.(ly := OwnerReady(f.y, k), xy := Cut(st.xy, i), yx := st.yx + QuorumNews(k))
  {
    hide StageOf, Now, On, Told, Taken, Replied, Became, Got;
    IsNext(f, h, g, st, i, Message.TicketAdded(Number1(k)));
    more, g' := Dialogue.HasQuorum(f.all, h, f.r, g, f.y, f.x, i, k);
    AfterTold(f, h, g, st, more, g', i, OwnerReady(f.y, k), QuorumNews(k));
  }

  lemma {:induction false} GetsLocked(f: Talk, h: seq<Game>, g: Game, st: Stage, i: nat, k: EnteringKey)
    returns (more: seq<Game>, g': Game)
    requires StageOf(f, h, g) == st && Arrived(f, st, i, LockActivated(Number1(k), FirstKey(Number1(k))))
    requires Tabled(st.ly) && Number1(k) in st.ly.tickets && CanLock(st.ly.copies[k]) && st.ly.copies[k].owner == f.y
    ensures StageOf(f, more, g')
         == st.(ly := WithCopy(st.ly, k, st.ly.copies[k].(locked := true)), xy := Cut(st.xy, i),
            locked := st.locked + {k})
  {
    hide StageOf, Now, On, Told, Taken, Replied, Became, Got;
    IsNext(f, h, g, st, i, LockActivated(Number1(k), FirstKey(Number1(k))));
    more, g' := Dialogue.GetsLocked(f.all, h, f.r, g, f.y, f.x, i, k, st.ly);
    AfterGot(f, h, g, st, more, g', i, WithCopy(st.ly, k, st.ly.copies[k].(locked := true)), k);
  }

  /** A late message changes nothing. */
  lemma {:induction false} Ignores(f: Talk, h: seq<Game>, g: Game, st: Stage, i: nat, m: Message)
    returns (more: seq<Game>, g': Game)
    requires StageOf(f, h, g) == st && Arrived(f, st, i, m)
    requires Tabled(st.ly) && !Throws(st.ly, m) && !SecondObject(st.ly, m) && !m.LockExiting?
    requires Handle(f.all, st.ly, Packet(f.x, f.y, m)) == Nothing(st.ly)
    requires f.r.disciplined && m.LockEntered? ==> Unsent(f, st, LockEntering(m.key))
    ensures StageOf(f, more, g') == st.(ly := st.ly, xy := Cut(st.xy, i))
  {
    hide StageOf, Now, On, Told, Taken, Replied, Became, Got;
    IsNext(f, h, g, st, i, m);
    if f.r.disciplined && m.LockEntered? {
      UnsentIsNowhere(f, h, g, st, LockEntering(m.key));
    }
    more, g' := Dialogue.Ignores(f.all, h, f.r, g, f.x, f.y, i, m, st.ly);
    AfterHeard(f, h, g, st, more, g', i, st.ly);
  }

  // ---------- two owners at once ----------

  lemma {:induction false} QuorumWaits(f: Talk, h: seq<Game>, g: Game, st: Stage, i: nat, w: EnteringKey,
        o: EnteringKey)
    returns (more: seq<Game>, g': Game)
    requires StageOf(f, h, g) == st && Arrived(f, st, i, Message.TicketAdded(Number1(w)))
    requires w != o && st.ly == Crowded(f.y, w, f.x, o)
    ensures StageOf(f.(ty := f.ty + [LockExiting(w)]), more, g')
         == st.(ly := OneWaits(f.y, w, f.x, o), xy := Cut(st.xy, i), yx := st.yx + [LockExiting(w)])
  {
    hide StageOf, Now, On, Told, Taken, Replied, Became, Got;
    IsNext(f, h, g, st, i, Message.TicketAdded(Number1(w)));
    more, g' := Dialogue.QuorumWaits(f.all, h, f.r, g, f.x, f.y, i, w, o);
    AfterTold(f, h, g, st, more, g', i, OneWaits(f.y, w, f.x, o), [LockExiting(w)]);
  }

  lemma {:induction false} OtherLeaves(f: Talk, h: seq<Game>, g: Game, st: Stage, i: nat, w: EnteringKey,
        o: EnteringKey)
    returns (more: seq<Game>, g': Game)
    requires StageOf(f, h, g) == st && Arrived(f, st, i, LockExiting(o))
    requires w != o && st.ly == OneWaits(f.y, w, f.x, o) && (f.r.disciplined ==> Settled(f, st, o))
    ensures StageOf(f.(ty := f.ty + ExitNews(w, o)), more, g')
         == st.(ly := NoneWaits(f.y, w, f.x, o), xy := Cut(st.xy, i), yx := st.yx + ExitNews(w, o))
  {
    hide StageOf, Now, On, Told, Taken, Replied, Became, Got;
    IsNext(f, h, g, st, i, LockExiting(o));
    if f.r.disciplined {
      SettledHasNoAdd(f, h, g, st, o);
    }
    more, g' := Dialogue.OtherLeaves(f.all, h, f.r, g, f.x, f.y, i, w, o);
    AfterTold(f, h, g, st, more, g', i, NoneWaits(f.y, w, f.x, o), ExitNews(w, o));
  }

  // ---------- activations by the other leader ----------

  lemma {:induction false} DropsFirst(f: Talk, h: seq<Game>, g: Game, st: Stage, i: nat, j: EnteringKey, k: EnteringKey)
    returns (more: seq<Game>, g': Game)
    requires StageOf(f, h, g) == st && Arrived(f, st, i, DropTicket(Number1(j)))
    requires Tabled(st.ly) && st.ly.tickets == {Number1(j), Number1(k)} && j != k && CanLock(st.ly.copies[k])
    ensures StageOf(f.(ty := f.ty + [ActivateLock(Number1(k))]), more, g')
         == st.(ly := Dropped(st.ly, j), xy := Cut(st.xy, i), yx := st.yx + [ActivateLock(Number1(k))])
  {
    hide StageOf, Now, On, Told, Taken, Replied, Became, Got;
    IsNext(f, h, g, st, i, DropTicket(Number1(j)));
    more, g' := Dialogue.DropsFirst(f.all, h, f.r, g, f.x, f.y, i, j, k, st.ly);
    AfterTold(f, h, g, st, more, g', i, Dropped(st.ly, j), [ActivateLock(Number1(k))]);
  }

  lemma {:induction false} LocksAndAnswers(f: Talk, h: seq<Game>, g: Game, st: Stage, i: nat, k: EnteringKey)
    returns (more: seq<Game>, g': Game)
    requires StageOf(f, h, g) == st && Arrived(f, st, i, ActivateLock(Number1(k)))
    requires Tabled(st.ly) && IsFirst(st.ly.tickets, Number1(k)) && CanLock(st.ly.copies[k])
    requires st.ly.copies[k].owner == f.y
    ensures StageOf(f, more, g')
         == st.(ly := WithCopy(st.ly, k, st.ly.copies[k].(locked := true)), xy := Cut(st.xy, i),
            yx := st.yx + [LockActivated(Number1(k), FirstKey(Number1(k)))], locked := st.locked + {k})
  {
    hide StageOf, Now, On, Told, Taken, Replied, Became, Got;
    IsNext(f, h, g, st, i, ActivateLock(Number1(k)));
    more, g' := Dialogue.LocksAndAnswers(f.all, h, f.r, g, f.x, f.y, i, k, st.ly);
    AfterGotReply(f, h, g, st, more, g', i, WithCopy(st.ly, k, st.ly.copies[k].(locked := true)), k,
                  LockActivated(Number1(k), FirstKey(Number1(k))));
  }
}
