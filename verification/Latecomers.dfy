/** A leader whose own ticket is ready, and a ticket with a smaller key that reaches it after that. */
module Latecomers {
  import opened KeyOrder
  import opened TicketProgress
  import opened Leader
  import opened Bakery
  import opened BakeryPackets
  import opened BakeryOrder
  import opened Queues
  import opened QueueMoves
  import opened Dialogue
  import opened Stages

  /** The step lists the ticket `t` at the owner of `e`, which is ready there, and `t` comes before `e`. */
  ghost predicate Overtaken(s: System, s': System, e: EnteringKey, t: TicketKey) {
    && e in s.owner && Ticket(s, e).ready && e !in s'.released
    && Lists(s', s.owner[e], t) && !Lists(s, s.owner[e], t) && !KeyBefore(KeyOf(s, e), t)
  }

  /** `x` owns `k`, of which this table of the owner of `e` only knows that it is entering. */
  ghost predicate Unaware(l: Leader, x: ServerName, k: EnteringKey, e: EnteringKey) {
    && Tabled(l) && l.tickets == {Number1(e)} && k in l.entering && l.copies[k] == NewTicket(x, k) && k != e
    && l.copies[e].ready && l.copies[e].number == 1
  }

  lemma LastIsOne(tickets: set<TicketKey>, e: EnteringKey)
    requires tickets == {Number1(e)}
    ensures GetLast(tickets) == 1
  {
    assert Number1(e) in tickets && Number1(e).number == 1;
  }

  /** The last two states of a run. */
  ghost predicate EndsWith(h: seq<Game>, g: Game, g': Game) { |h| >= 2 && h[|h| - 2] == g && h[|h| - 1] == g' }

  lemma {:induction false} OneLonger(all: set<ServerName>, h: seq<Game>, r: Rules, g: Game, g': Game)
    requires Now(all, h, r) == Here(g)
    ensures EndsWith(h + [g'], g, g')
  {
  }

  /** `y` takes GET_MAX_TICKET and ADD_TICKET. */
  lemma {:induction false} TakesLate(f: Talk, h: seq<Game>, g: Game, k: EnteringKey, e: EnteringKey, lx: Leader,
        ly: Leader, yx: seq<Message>, rest: seq<Message>, locked: set<EnteringKey>)
    returns (more: seq<Game>, g1: Game, g': Game)
    requires StageOf(f, h, g) == At(lx, ly, [GetMaxTicket(k), AddTicket(Number1(k))] + rest, yx, locked)
    requires Unaware(ly, f.x, k, e)
    ensures Now(f.all, more, f.r) == Here(g') && EndsWith(more, g1, g') && OtherLeaders(f, g1) && OtherLeaders(f, g')
    ensures f.y in g1.s.leaders && g1.s.leaders[f.y] == ly
    ensures f.y in g'.s.leaders && g'.s.leaders[f.y] == Added(ly, f.x, k)
  {
    hide StageOf, OtherLeaders, Now, EndsWith;
    LastIsOne(ly.tickets, e);
    var xy, xy1 := [GetMaxTicket(k), AddTicket(Number1(k))] + rest, [AddTicket(Number1(k))] + rest;
    assert Cut(xy, 0) == xy1 && Cut(xy1, 0) == rest;
    var h1;
    h1, g1 := Stages.Answers(f, h, g, At(lx, ly, xy, yx, locked), 0, k, 1);
    var st := At(lx, ly, xy1, yx + [MaxTicketIs(k, 1)], locked);
    Seen(f, h1, g1);
    more, g' := Stages.Adds(f, h1, g1, st, 0, k);
    Seen(f, more, g');
    OneLonger(f.all, h1, f.r, g1, g');
  }

  lemma {:induction false} Seen(f: Talk, h: seq<Game>, g: Game)
    requires StageOf(f, h, g).At?
    ensures Now(f.all, h, f.r) == Here(g) && OtherLeaders(f, g) && f.y in g.s.leaders
    ensures g.s.leaders[f.y] == StageOf(f, h, g).ly
  {
  }

  lemma {:induction false} IsOvertaken(f: Talk, g1: Game, g': Game, k: EnteringKey, e: EnteringKey, ly: Leader)
    requires OtherLeaders(f, g1) && OtherLeaders(f, g') && Unaware(ly, f.x, k, e) && Before(k, e)
    requires f.y in g1.s.leaders && g1.s.leaders[f.y] == ly
    requires f.y in g'.s.leaders && g'.s.leaders[f.y] == Added(ly, f.x, k)
    requires e in f.start.s.owner && f.start.s.owner[e] == f.y && e !in f.start.s.released
    ensures Overtaken(g1.s, g'.s, e, Number1(k))
  {
    BeforeIrreflexive(e);
    if Before(e, k) {
      BeforeTransitive(e, k, e);
    }
  }

  /** So the smaller ticket overtakes the ready one. */
  lemma {:induction false} LateOvertakes(f: Talk, h: seq<Game>, g: Game, k: EnteringKey, e: EnteringKey, lx: Leader,
        ly: Leader, yx: seq<Message>, rest: seq<Message>, locked: set<EnteringKey>)
    returns (more: seq<Game>, g1: Game, g': Game)
    requires StageOf(f, h, g) == At(lx, ly, [GetMaxTicket(k), AddTicket(Number1(k))] + rest, yx, locked)
    requires Unaware(ly, f.x, k, e) && Before(k, e)
    requires e in f.start.s.owner && f.start.s.owner[e] == f.y && e !in f.start.s.released
    ensures Played(f.all, more, f.r) && EndsWith(more, g1, g') && Overtaken(g1.s, g'.s, e, Number1(k))
  {
    more, g1, g' := TakesLate(f, h, g, k, e, lx, ly, yx, rest, locked);
    IsOvertaken(f, g1, g', k, e, ly);
  }
}
