/** Two owners that lock at the same time and know of each other: both tickets get number 1, and
    the one with the smaller key is locked.

    Every lemma is the turn of one leader `y`, which owns `w`; the other leader `x` owns `o`. */
module TwoOwners {
  import opened KeyOrder
  import opened TicketProgress
  import opened Leader
  import opened Bakery
  import opened Queues
  import opened QueueMoves
  import opened Dialogue
  import opened Stages

  // ---------- discipline ----------

  predicate Plain(q: seq<Message>) { forall m :: m in q ==> !m.LockEntering? && !m.AddTicket? }

  /** On the other links nothing is in flight that a disciplined delivery waits for. */
  ghost predicate Orderly(f: Talk) {
    && (forall m :: m in f.tx || m in f.ty ==> !m.LockEntering?)
    && forall u, v, m :: m in On(f.start, u, v) && !(u == f.x && v == f.y) && !(u == f.y && v == f.x) ==>
         !m.LockEntering? && (v == f.x || v == f.y ==> !m.AddTicket?)
  }

  /** What a disciplined turn needs. */
  ghost predicate Fair(f: Talk) { f.r.disciplined ==> Orderly(f) }

  lemma {:induction false} FairUnsent(f: Talk, st: Stage, w: EnteringKey)
    requires Fair(f) && (f.r.disciplined ==> st.At? && forall m :: m in st.xy || m in st.yx ==> !m.LockEntering?)
    ensures f.r.disciplined ==> Unsent(f, st, LockEntering(w))
  {
    if f.r.disciplined {
      forall u, v | !(u == f.x && v == f.y) && !(u == f.y && v == f.x) ensures LockEntering(w) !in On(f.start, u, v) {
        var m := LockEntering(w);
        assert m in On(f.start, u, v) ==> !m.LockEntering?;
      }
    }
  }

  lemma {:induction false} FairSettled(f: Talk, st: Stage, o: EnteringKey)
    requires Fair(f) && (f.r.disciplined ==> st.At? && forall m :: m in st.xy ==> !m.AddTicket?)
    ensures f.r.disciplined ==> Settled(f, st, o)
  {
  }

  // ---------- one message ----------

  lemma FirstIsCut(m: Message, rest: seq<Message>)
    ensures ([m] + rest)[0] == m && Cut([m] + rest, 0) == rest
    ensures forall n :: n in [m] + rest ==> n in rest || n == m
  {
  }

  function Entered2(y: ServerName, w: EnteringKey, x: ServerName, o: EnteringKey): Leader {
    Duo({w, o}, {}, w, NewTicket(y, w), o, NewTicket(x, o))
  }

  function Asking2(y: ServerName, w: EnteringKey, x: ServerName, o: EnteringKey): Leader {
    Duo({w, o}, {}, w, Dialogue.Asking(y, w), o, NewTicket(x, o))
  }

  function Numbered2(y: ServerName, w: EnteringKey, x: ServerName, o: EnteringKey): Leader {
    Duo({w, o}, {Number1(w)}, w, Numbering(y, w), o, NewTicket(x, o))
  }

  /** LOCK_ENTERING arrives. */
  lemma {:induction false} TakesEntering(f: Talk, h: seq<Game>, g: Game, w: EnteringKey, o: EnteringKey, lx: Leader,
        rest: seq<Message>, yx: seq<Message>)
    returns (more: seq<Game>, g': Game)
    requires StageOf(f, h, g) == At(lx, OwnerEntering(f.y, w), [LockEntering(o)] + rest, yx, {}) && w != o
    ensures StageOf(f, more, g') == At(lx, Entered2(f.y, w, f.x, o), rest, yx + [LockEntered(o)], {})
  {
    hide StageOf;
    FirstIsCut(LockEntering(o), rest);
    assert CopyEntering(OwnerEntering(f.y, w), f.x, o) == Entered2(f.y, w, f.x, o);
    more, g' := Stages.Enters(f, h, g, At(lx, OwnerEntering(f.y, w), [LockEntering(o)] + rest, yx, {}), 0, o);
  }

  /** LOCK_ENTERED arrives. */
  lemma {:induction false} TakesEntered(f: Talk, h: seq<Game>, g: Game, w: EnteringKey, o: EnteringKey, lx: Leader,
        rest: seq<Message>, yx: seq<Message>)
    returns (more: seq<Game>, g': Game)
    requires StageOf(f, h, g) == At(lx, Entered2(f.y, w, f.x, o), [LockEntered(w)] + rest, yx, {}) && w != o
    requires Fair(f) && Plain(rest) && Plain(yx)
    ensures StageOf(f.(ty := f.ty + [GetMaxTicket(w)]), more, g')
         == At(lx, Asking2(f.y, w, f.x, o), rest, yx + [GetMaxTicket(w)], {})
  {
    hide StageOf;
    var st := At(lx, Entered2(f.y, w, f.x, o), [LockEntered(w)] + rest, yx, {});
    FirstIsCut(LockEntered(w), rest);
    FairUnsent(f, st, w);
    assert WithCopy(st.ly, w, Dialogue.Asking(f.y, w)) == Asking2(f.y, w, f.x, o);
    more, g' := Stages.Asks(f, h, g, st, 0, w);
  }

  /** GET_MAX_TICKET arrives. */
  lemma {:induction false} TakesGetMax(f: Talk, h: seq<Game>, g: Game, w: EnteringKey, o: EnteringKey, lx: Leader,
        rest: seq<Message>, yx: seq<Message>)
    returns (more: seq<Game>, g': Game)
    requires StageOf(f, h, g) == At(lx, Asking2(f.y, w, f.x, o), [GetMaxTicket(o)] + rest, yx, {}) && w != o
    ensures StageOf(f, more, g') == At(lx, Asking2(f.y, w, f.x, o), rest, yx + [MaxTicketIs(o, 0)], {})
  {
    hide StageOf;
    FirstIsCut(GetMaxTicket(o), rest);
    NoNumber({});
    more, g' := Stages.Answers(f, h, g, At(lx, Asking2(f.y, w, f.x, o), [GetMaxTicket(o)] + rest, yx, {}), 0, o, 0);
  }

  /** MAX_TICKET arrives. */
  lemma {:induction false} TakesMax(f: Talk, h: seq<Game>, g: Game, w: EnteringKey, o: EnteringKey, lx: Leader,
        rest: seq<Message>, yx: seq<Message>)
    returns (more: seq<Game>, g': Game)
    requires StageOf(f, h, g) == At(lx, Asking2(f.y, w, f.x, o), [MaxTicketIs(w, 0)] + rest, yx, {}) && w != o
    ensures StageOf(f.(ty := f.ty + [AddTicket(Number1(w))]), more, g')
         == At(lx, Numbered2(f.y, w, f.x, o), rest, yx + [AddTicket(Number1(w))], {})
  {
    hide StageOf;
    var st := At(lx, Asking2(f.y, w, f.x, o), [MaxTicketIs(w, 0)] + rest, yx, {});
    FirstIsCut(MaxTicketIs(w, 0), rest);
    assert WithNumber(st.ly, f.y, w) == Numbered2(f.y, w, f.x, o);
    more, g' := Stages.Numbers(f, h, g, st, 0, w);
  }

  lemma AddedToTwo(y: ServerName, w: EnteringKey, x: ServerName, o: EnteringKey)
    requires w != o
    ensures Tabled(Numbered2(y, w, x, o)) && Added(Numbered2(y, w, x, o), x, o) == Crowded(y, w, x, o)
    ensures Number1(o) !in Numbered2(y, w, x, o).tickets
  {
  }

  /** ADD_TICKET arrives. */
  lemma {:induction false} TakesAdd(f: Talk, h: seq<Game>, g: Game, w: EnteringKey, o: EnteringKey, lx: Leader,
        rest: seq<Message>, yx: seq<Message>)
    returns (more: seq<Game>, g': Game)
    requires StageOf(f, h, g) == At(lx, Numbered2(f.y, w, f.x, o), [AddTicket(Number1(o))] + rest, yx, {}) && w != o
    ensures StageOf(f, more, g') == At(lx, Crowded(f.y, w, f.x, o), rest, yx + [Message.TicketAdded(Number1(o))], {})
  {
    hide StageOf;
    FirstIsCut(AddTicket(Number1(o)), rest);
    AddedToTwo(f.y, w, f.x, o);
    more, g' := Stages.Adds(f, h, g, At(lx, Numbered2(f.y, w, f.x, o), [AddTicket(Number1(o))] + rest, yx, {}), 0, o);
  }

  /** TICKET_ADDED arrives. */
  lemma {:induction false} TakesAdded(f: Talk, h: seq<Game>, g: Game, w: EnteringKey, o: EnteringKey, lx: Leader,
        rest: seq<Message>, yx: seq<Message>)
    returns (more: seq<Game>, g': Game)
    requires StageOf(f, h, g) == At(lx, Crowded(f.y, w, f.x, o), [Message.TicketAdded(Number1(w))] + rest, yx, {})
    requires w != o
    ensures StageOf(f.(ty := f.ty + [LockExiting(w)]), more, g')
         == At(lx, OneWaits(f.y, w, f.x, o), rest, yx + [LockExiting(w)], {})
  {
    hide StageOf;
    var st := At(lx, Crowded(f.y, w, f.x, o), [Message.TicketAdded(Number1(w))] + rest, yx, {});
    FirstIsCut(Message.TicketAdded(Number1(w)), rest);
    more, g' := Stages.QuorumWaits(f, h, g, st, 0, w, o);
  }

  /** LOCK_EXITING arrives. */
  lemma {:induction false} TakesExiting(f: Talk, h: seq<Game>, g: Game, w: EnteringKey, o: EnteringKey, lx: Leader,
        rest: seq<Message>, yx: seq<Message>)
    returns (more: seq<Game>, g': Game)
    requires StageOf(f, h, g) == At(lx, OneWaits(f.y, w, f.x, o), [LockExiting(o)] + rest, yx, {}) && w != o
    requires Fair(f) && Plain(rest)
    ensures StageOf(f.(ty := f.ty + ExitNews(w, o)), more, g')
         == At(lx, NoneWaits(f.y, w, f.x, o), rest, yx + ExitNews(w, o), {})
  {
    hide StageOf;
    var st := At(lx, OneWaits(f.y, w, f.x, o), [LockExiting(o)] + rest, yx, {});
    FirstIsCut(LockExiting(o), rest);
    FairSettled(f, st, o);
    more, g' := Stages.OtherLeaves(f, h, g, st, 0, w, o);
  }

  function OtherReady(y: ServerName, w: EnteringKey, x: ServerName, o: EnteringKey): Leader {
    WithCopy(NoneWaits(y, w, x, o), o, Copied(x, o).(ready := true))
  }

  /** TICKET_READY arrives. */
  lemma {:induction false} TakesReady(f: Talk, h: seq<Game>, g: Game, w: EnteringKey, o: EnteringKey, lx: Leader,
        rest: seq<Message>, yx: seq<Message>)
    returns (more: seq<Game>, g': Game)
    requires StageOf(f, h, g) == At(lx, NoneWaits(f.y, w, f.x, o), [TicketReady(Number1(o))] + rest, yx, {}) && w != o
    ensures StageOf(f, more, g') == At(lx, OtherReady(f.y, w, f.x, o), rest, yx, {})
  {
    hide StageOf;
    var st := At(lx, NoneWaits(f.y, w, f.x, o), [TicketReady(Number1(o))] + rest, yx, {});
    FirstIsCut(TicketReady(Number1(o)), rest);
    assert SetReady(st.ly.copies[o]) == Copied(f.x, o).(ready := true);
    more, g' := Stages.HearsReady(f, h, g, st, 0, o);
  }

  lemma SmallerIsFirst(w: EnteringKey, o: EnteringKey)
    requires Before(o, w)
    ensures IsFirst({Number1(w), Number1(o)}, Number1(o))
  {
  }

  /** The table of an owner whose ticket is ready and has to wait for a smaller one. */
  ghost predicate ReadyBehind(l: Leader, y: ServerName, w: EnteringKey, o: EnteringKey) {
    && l.entering == {} && l.tickets == {Number1(w), Number1(o)} && w in l.copies && o in l.copies
    && l.copies[w] == Waited(y, w)
  }

  /** The answer to ACTIVATE_LOCK of the first ticket. */
  function Late(k: EnteringKey): Message { LockActivated(Number1(k), FirstKey(Number1(k))) }

  /** ACTIVATE_LOCK of the first ticket arrives, which is the other one. */
  lemma {:induction false} TakesActivate(f: Talk, h: seq<Game>, g: Game, w: EnteringKey, o: EnteringKey, lx: Leader,
        yx: seq<Message>)
    returns (more: seq<Game>, g': Game, ly: Leader)
    requires StageOf(f, h, g) == At(lx, OtherReady(f.y, w, f.x, o), [ActivateLock(Number1(o))], yx, {})
    requires w != o && Before(o, w) && f.x != f.y
    ensures StageOf(f, more, g') == At(lx, ly, [], yx + [Late(o)], {}) && ReadyBehind(ly, f.y, w, o)
  {
    hide StageOf;
    var st := At(lx, OtherReady(f.y, w, f.x, o), [ActivateLock(Number1(o))], yx, {});
    assert Cut([ActivateLock(Number1(o))], 0) == [];
    SmallerIsFirst(w, o);
    more, g' := Stages.Activates(f, h, g, st, 0, o);
    ly := WithCopy(st.ly, o, st.ly.copies[o].(locked := true));
  }

  /** LOCK_ACTIVATED for the own ticket arrives. */
  lemma {:induction false} TakesActivated(f: Talk, h: seq<Game>, g: Game, w: EnteringKey, o: EnteringKey, lx: Leader,
        rest: seq<Message>)
    returns (more: seq<Game>, g': Game)
    requires StageOf(f, h, g) == At(lx, OtherReady(f.y, w, f.x, o), [Late(w)] + rest, [], {}) && w != o
    ensures StageOf(f, more, g') == At(lx, Got2(f.y, w, f.x, o), rest, [], {w})
  {
    hide StageOf;
    FirstIsCut(Late(w), rest);
    assert {} + {w} == {w};
    more, g' := Stages.GetsLocked(f, h, g, At(lx, OtherReady(f.y, w, f.x, o), [Late(w)] + rest, [], {}), 0, w);
  }

  /** The owner's table after LOCKED. */
  function Got2(y: ServerName, w: EnteringKey, x: ServerName, o: EnteringKey): Leader {
    WithCopy(OtherReady(y, w, x, o), w, Waited(y, w).(locked := true))
  }

  // ---------- two messages ----------

  /** `f'` is the same dialogue later on. */
  ghost predicate Continues(f: Talk, f': Talk) {
    f' == f.(tx := f'.tx, ty := f'.ty) && (Fair(f) ==> Fair(f'))
  }

  lemma {:induction false} ContinuesFlipped(f: Talk, f': Talk, f'': Talk)
    requires Continues(f, f') && Continues(Flip(f'), f'')
    ensures Continues(f, Flip(f''))
  {
    if Fair(f) {
      assert Fair(Flip(f'));
    }
  }

  lemma {:induction false} FlipFair(f: Talk)
    ensures Fair(f) ==> Fair(Flip(f))
  {
  }

  lemma {:induction false} Says(f: Talk, ms: seq<Message>) returns (f': Talk)
    requires forall m :: m in ms ==> !m.LockEntering?
    ensures f' == f.(ty := f.ty + ms) && Continues(f, f')
  {
    f' := f.(ty := f.ty + ms);
  }

  lemma Pairs(m: Message, n: Message)
    ensures [m] + [n] == [m, n] && [] + [m] == [m] && [n] + [] == [n]
  {
  }

  /** LOCK_ENTERING and LOCK_ENTERED. */
  lemma {:induction false} TurnToAsk(f: Talk, h: seq<Game>, g: Game, w: EnteringKey, o: EnteringKey, lx: Leader)
    returns (more: seq<Game>, g': Game, f': Talk)
    requires StageOf(f, h, g) == At(lx, OwnerEntering(f.y, w), [LockEntering(o), LockEntered(w)], [], {})
    requires w != o && Fair(f)
    ensures StageOf(f', more, g') == At(lx, Asking2(f.y, w, f.x, o), [], [LockEntered(o), GetMaxTicket(w)], {})
    ensures Continues(f, f')
  {
    hide StageOf;
    Pairs(LockEntering(o), LockEntered(w));
    Pairs(LockEntered(o), GetMaxTicket(w));
    more, g' := TakesEntering(f, h, g, w, o, lx, [LockEntered(w)], []);
    more, g' := TakesEntered(f, more, g', w, o, lx, [], [LockEntered(o)]);
    f' := Says(f, [GetMaxTicket(w)]);
  }

  /** LOCK_ENTERED and GET_MAX_TICKET. */
  lemma {:induction false} TurnToAnswer(f: Talk, h: seq<Game>, g: Game, w: EnteringKey, o: EnteringKey, lx: Leader)
    returns (more: seq<Game>, g': Game, f': Talk)
    requires StageOf(f, h, g) == At(lx, Entered2(f.y, w, f.x, o), [LockEntered(w), GetMaxTicket(o)], [], {})
    requires w != o && Fair(f)
    ensures StageOf(f', more, g') == At(lx, Asking2(f.y, w, f.x, o), [], [GetMaxTicket(w), MaxTicketIs(o, 0)], {})
    ensures Continues(f, f')
  {
    hide StageOf;
    Pairs(LockEntered(w), GetMaxTicket(o));
    Pairs(GetMaxTicket(w), MaxTicketIs(o, 0));
    more, g' := TakesEntered(f, h, g, w, o, lx, [GetMaxTicket(o)], []);
    f' := Says(f, [GetMaxTicket(w)]);
    more, g' := TakesGetMax(f', more, g', w, o, lx, [], [GetMaxTicket(w)]);
  }

  /** GET_MAX_TICKET and MAX_TICKET. */
  lemma {:induction false} TurnToNumber(f: Talk, h: seq<Game>, g: Game, w: EnteringKey, o: EnteringKey, lx: Leader)
    returns (more: seq<Game>, g': Game, f': Talk)
    requires StageOf(f, h, g) == At(lx, Asking2(f.y, w, f.x, o), [GetMaxTicket(o), MaxTicketIs(w, 0)], [], {})
    requires w != o
    ensures StageOf(f', more, g')
         == At(lx, Numbered2(f.y, w, f.x, o), [], [MaxTicketIs(o, 0), AddTicket(Number1(w))], {})
    ensures Continues(f, f')
  {
    hide StageOf;
    Pairs(GetMaxTicket(o), MaxTicketIs(w, 0));
    Pairs(MaxTicketIs(o, 0), AddTicket(Number1(w)));
    more, g' := TakesGetMax(f, h, g, w, o, lx, [MaxTicketIs(w, 0)], []);
    more, g' := TakesMax(f, more, g', w, o, lx, [], [MaxTicketIs(o, 0)]);
    f' := Says(f, [AddTicket(Number1(w))]);
  }

  /** MAX_TICKET and ADD_TICKET. */
  lemma {:induction false} TurnToAdd(f: Talk, h: seq<Game>, g: Game, w: EnteringKey, o: EnteringKey, lx: Leader)
    returns (more: seq<Game>, g': Game, f': Talk)
    requires StageOf(f, h, g) == At(lx, Asking2(f.y, w, f.x, o), [MaxTicketIs(w, 0), AddTicket(Number1(o))], [], {})
    requires w != o
    ensures StageOf(f', more, g')
         == At(lx, Crowded(f.y, w, f.x, o), [], [AddTicket(Number1(w)), Message.TicketAdded(Number1(o))], {})
    ensures Continues(f, f')
  {
    hide StageOf;
    Pairs(MaxTicketIs(w, 0), AddTicket(Number1(o)));
    Pairs(AddTicket(Number1(w)), Message.TicketAdded(Number1(o)));
    more, g' := TakesMax(f, h, g, w, o, lx, [AddTicket(Number1(o))], []);
    f' := Says(f, [AddTicket(Number1(w))]);
    more, g' := TakesAdd(f', more, g', w, o, lx, [], [AddTicket(Number1(w))]);
  }

  /** ADD_TICKET and TICKET_ADDED. */
  lemma {:induction false} TurnToWait(f: Talk, h: seq<Game>, g: Game, w: EnteringKey, o: EnteringKey, lx: Leader)
    returns (more: seq<Game>, g': Game, f': Talk)
    requires StageOf(f, h, g)
          == At(lx, Numbered2(f.y, w, f.x, o), [AddTicket(Number1(o)), Message.TicketAdded(Number1(w))], [], {})
    requires w != o
    ensures StageOf(f', more, g')
         == At(lx, OneWaits(f.y, w, f.x, o), [], [Message.TicketAdded(Number1(o)), LockExiting(w)], {})
    ensures Continues(f, f')
  {
    hide StageOf;
    Pairs(AddTicket(Number1(o)), Message.TicketAdded(Number1(w)));
    Pairs(Message.TicketAdded(Number1(o)), LockExiting(w));
    more, g' := TakesAdd(f, h, g, w, o, lx, [Message.TicketAdded(Number1(w))], []);
    more, g' := TakesAdded(f, more, g', w, o, lx, [], [Message.TicketAdded(Number1(o))]);
    f' := Says(f, [LockExiting(w)]);
  }

  /** TICKET_ADDED and LOCK_EXITING. */
  lemma {:induction false} TurnToLeave(f: Talk, h: seq<Game>, g: Game, w: EnteringKey, o: EnteringKey, lx: Leader)
    returns (more: seq<Game>, g': Game, f': Talk)
    requires StageOf(f, h, g)
          == At(lx, Crowded(f.y, w, f.x, o), [Message.TicketAdded(Number1(w)), LockExiting(o)], [], {})
    requires w != o && Fair(f)
    ensures StageOf(f', more, g') == At(lx, NoneWaits(f.y, w, f.x, o), [], [LockExiting(w)] + ExitNews(w, o), {})
    ensures Continues(f, f')
  {
    hide StageOf;
    Pairs(Message.TicketAdded(Number1(w)), LockExiting(o));
    Pairs(LockExiting(w), LockExiting(o));
    more, g' := TakesAdded(f, h, g, w, o, lx, [LockExiting(o)], []);
    f' := Says(f, [LockExiting(w)]);
    more, g' := TakesExiting(f', more, g', w, o, lx, [], [LockExiting(w)]);
    var f'' := Says(f', ExitNews(w, o));
    f' := f'';
  }

  /** LOCK_EXITING of the smaller ticket. */
  lemma {:induction false} TakesLastExiting(f: Talk, h: seq<Game>, g: Game, w: EnteringKey, o: EnteringKey, lx: Leader)
    returns (more: seq<Game>, g': Game, f': Talk)
    requires StageOf(f, h, g) == At(lx, OneWaits(f.y, w, f.x, o), [LockExiting(o)] + ExitNews(o, w), [], {})
    requires w != o && Before(o, w) && !Before(w, o) && Fair(f)
    ensures StageOf(f', more, g')
         == At(lx, NoneWaits(f.y, w, f.x, o), [TicketReady(Number1(o))] + [ActivateLock(Number1(o))],
            [TicketReady(Number1(w))], {})
    ensures Continues(f, f')
  {
    hide StageOf;
    Pairs(TicketReady(Number1(o)), ActivateLock(Number1(o)));
    Pairs(TicketReady(Number1(w)), ActivateLock(Number1(o)));
    more, g' := TakesExiting(f, h, g, w, o, lx, ExitNews(o, w), []);
    f' := Says(f, ExitNews(w, o));
  }

  /** What the other owner is told when its smaller ticket may be locked. */
  function Granted(w: EnteringKey, o: EnteringKey): seq<Message> { [TicketReady(Number1(w)), Late(o)] }

  /** LOCK_EXITING, TICKET_READY and ACTIVATE_LOCK of the smaller ticket. */
  lemma {:induction false} TurnToActivate(f: Talk, h: seq<Game>, g: Game, w: EnteringKey, o: EnteringKey, lx: Leader)
    returns (more: seq<Game>, g': Game, f': Talk, ly: Leader)
    requires StageOf(f, h, g) == At(lx, OneWaits(f.y, w, f.x, o), [LockExiting(o)] + ExitNews(o, w), [], {})
    requires w != o && Before(o, w) && !Before(w, o) && f.x != f.y && Fair(f)
    ensures StageOf(f', more, g') == At(lx, ly, [], Granted(w, o), {}) && Continues(f, f') && ReadyBehind(ly, f.y, w, o)
  {
    hide StageOf;
    more, g', f' := TakesLastExiting(f, h, g, w, o, lx);
    more, g' := TakesReady(f', more, g', w, o, lx, [ActivateLock(Number1(o))], [TicketReady(Number1(w))]);
    more, g', ly := TakesActivate(f', more, g', w, o, lx, [TicketReady(Number1(w))]);
    Pairs(TicketReady(Number1(w)), Late(o));
  }

  /** TICKET_READY of the other ticket and LOCK_ACTIVATED of the own one. */
  lemma {:induction false} TurnToLock(f: Talk, h: seq<Game>, g: Game, w: EnteringKey, o: EnteringKey, lx: Leader,
        rest: seq<Message>)
    returns (more: seq<Game>, g': Game)
    requires StageOf(f, h, g) == At(lx, NoneWaits(f.y, w, f.x, o), Granted(o, w) + rest, [], {}) && w != o
    ensures StageOf(f, more, g') == At(lx, Got2(f.y, w, f.x, o), rest, [], {w})
  {
    hide StageOf;
    assert Granted(o, w) + rest == [TicketReady(Number1(o))] + ([Late(w)] + rest);
    more, g' := TakesReady(f, h, g, w, o, lx, [Late(w)] + rest, []);
    more, g' := TakesActivated(f, more, g', w, o, lx, rest);
  }

  // ---------- the whole round: `x` owns `k`, `y` owns `j` ----------

  /** The first LOCK_ENTERING. */
  lemma {:induction false} OneHears(f: Talk, h: seq<Game>, g: Game, k: EnteringKey, j: EnteringKey)
    returns (more: seq<Game>, g': Game)
    requires StageOf(f, h, g)
          == At(OwnerEntering(f.x, k), OwnerEntering(f.y, j), [LockEntering(k)], [LockEntering(j)], {}) && j != k
    ensures StageOf(Flip(f), more, g')
         == At(Entered2(f.y, j, f.x, k), OwnerEntering(f.x, k), [LockEntering(j), LockEntered(k)], [], {})
  {
    hide StageOf;
    Pairs(LockEntering(j), LockEntered(k));
    Pairs(LockEntering(j), LockEntering(k));
    more, g' := TakesEntering(f, h, g, j, k, OwnerEntering(f.x, k), [], [LockEntering(j)]);
    Flipped(f, more, g',
            At(OwnerEntering(f.x, k), Entered2(f.y, j, f.x, k), [], [LockEntering(j), LockEntered(k)], {}));
  }

  /** Until both know that there is no ticket yet. */
  lemma {:induction false} BothAsk(f: Talk, h: seq<Game>, g: Game, k: EnteringKey, j: EnteringKey)
    returns (more: seq<Game>, g': Game, f': Talk)
    requires StageOf(f, h, g)
          == At(OwnerEntering(f.x, k), OwnerEntering(f.y, j), [LockEntering(k)], [LockEntering(j)], {})
    requires j != k && Fair(f)
    ensures StageOf(Flip(f'), more, g')
         == At(Asking2(f.y, j, f.x, k), Asking2(f.x, k, f.y, j), [GetMaxTicket(j), MaxTicketIs(k, 0)], [], {})
    ensures Continues(f, f')
  {
    hide StageOf;
    more, g' := OneHears(f, h, g, k, j);
    FlipFair(f);
    var f1;
    more, g', f1 := TurnToAsk(Flip(f), more, g', k, j, Entered2(f.y, j, f.x, k));
    Flipped(f1, more, g',
            At(Entered2(f.y, j, f.x, k), Asking2(f.x, k, f.y, j), [], [LockEntered(j), GetMaxTicket(k)], {}));
    FlipFair(f1);
    more, g', f' := TurnToAnswer(Flip(f1), more, g', j, k, Asking2(f.x, k, f.y, j));
    Flipped(f', more, g',
            At(Asking2(f.x, k, f.y, j), Asking2(f.y, j, f.x, k), [], [GetMaxTicket(j), MaxTicketIs(k, 0)], {}));
    ContinuesFlipped(Flip(f), f1, f');
    FlipFair(Flip(f'));
  }

  /** Until the first one has its quorum. */
  lemma {:induction false} BothAdd(f: Talk, h: seq<Game>, g: Game, k: EnteringKey, j: EnteringKey)
    returns (more: seq<Game>, g': Game, f': Talk)
    requires StageOf(Flip(f), h, g)
          == At(Asking2(f.y, j, f.x, k), Asking2(f.x, k, f.y, j), [GetMaxTicket(j), MaxTicketIs(k, 0)], [], {})
    requires j != k
    ensures StageOf(f', more, g')
         == At(OneWaits(f.x, k, f.y, j), Crowded(f.y, j, f.x, k), [Message.TicketAdded(Number1(j)), LockExiting(k)],
            [], {})
    ensures Continues(f, f')
  {
    hide StageOf;
    var f1;
    more, g', f1 := TurnToNumber(Flip(f), h, g, k, j, Asking2(f.y, j, f.x, k));
    Flipped(f1, more, g',
            At(Asking2(f.y, j, f.x, k), Numbered2(f.x, k, f.y, j), [], [MaxTicketIs(j, 0), AddTicket(Number1(k))], {}));
    var f2;
    more, g', f2 := TurnToAdd(Flip(f1), more, g', j, k, Numbered2(f.x, k, f.y, j));
    Flipped(f2, more, g',
            At(Numbered2(f.x, k, f.y, j), Crowded(f.y, j, f.x, k), [],
            [AddTicket(Number1(j)), Message.TicketAdded(Number1(k))], {}));
    more, g', f' := BothWait(f2, more, g', k, j);
    ContinuesFlipped(Flip(f), f1, f2);
    ContinuesBack(f, f');
  }

  lemma {:induction false} ContinuesBack(f: Talk, f': Talk)
    requires Continues(Flip(f), Flip(f'))
    ensures Continues(f, f')
  {
    FlipFair(f);
    FlipFair(Flip(f'));
  }

  lemma {:induction false} BothWait(f: Talk, h: seq<Game>, g: Game, k: EnteringKey, j: EnteringKey)
    returns (more: seq<Game>, g': Game, f': Talk)
    requires StageOf(Flip(f), h, g)
          == At(Crowded(f.y, j, f.x, k), Numbered2(f.x, k, f.y, j),
                [AddTicket(Number1(j)), Message.TicketAdded(Number1(k))], [], {})
    requires j != k
    ensures StageOf(f', more, g')
         == At(OneWaits(f.x, k, f.y, j), Crowded(f.y, j, f.x, k), [Message.TicketAdded(Number1(j)), LockExiting(k)],
            [], {})
    ensures Continues(Flip(f), Flip(f'))
  {
    hide StageOf;
    var f1;
    more, g', f1 := TurnToWait(Flip(f), h, g, k, j, Crowded(f.y, j, f.x, k));
    Flipped(f1, more, g',
            At(Crowded(f.y, j, f.x, k), OneWaits(f.x, k, f.y, j), [],
            [Message.TicketAdded(Number1(j)), LockExiting(k)], {}));
    f' := Flip(f1);
  }

  /** Until the other one has its quorum too. */
  lemma {:induction false} OneLeaves(f: Talk, h: seq<Game>, g: Game, k: EnteringKey, j: EnteringKey)
    returns (more: seq<Game>, g': Game, f': Talk)
    requires StageOf(f, h, g)
          == At(OneWaits(f.x, k, f.y, j), Crowded(f.y, j, f.x, k),
                [Message.TicketAdded(Number1(j)), LockExiting(k)], [], {})
    requires j != k && Fair(f)
    ensures StageOf(Flip(f'), more, g')
         == At(NoneWaits(f.y, j, f.x, k), OneWaits(f.x, k, f.y, j), [LockExiting(j)] + ExitNews(j, k), [], {})
    ensures Continues(f, f')
  {
    hide StageOf;
    more, g', f' := TurnToLeave(f, h, g, j, k, OneWaits(f.x, k, f.y, j));
    Flipped(f', more, g',
            At(OneWaits(f.x, k, f.y, j), NoneWaits(f.y, j, f.x, k), [], [LockExiting(j)] + ExitNews(j, k), {}));
  }

  /** Until the owner of the smaller ticket may be told. */
  lemma {:induction false} OneGrants(f: Talk, h: seq<Game>, g: Game, k: EnteringKey, j: EnteringKey)
    returns (more: seq<Game>, g': Game, f': Talk, lx: Leader)
    requires StageOf(f, h, g)
          == At(OneWaits(f.x, k, f.y, j), Crowded(f.y, j, f.x, k),
                [Message.TicketAdded(Number1(j)), LockExiting(k)], [], {})
    requires j != k && Before(j, k) && !Before(k, j) && f.x != f.y && Fair(f)
    ensures StageOf(f', more, g') == At(lx, NoneWaits(f.y, j, f.x, k), Granted(k, j), [], {})
    ensures Continues(f, f') && ReadyBehind(lx, f.x, k, j)
  {
    hide StageOf;
    var f1, f2;
    more, g', f1 := OneLeaves(f, h, g, k, j);
    FlipFair(f1);
    more, g', f2, lx := TurnToActivate(Flip(f1), more, g', k, j, NoneWaits(f.y, j, f.x, k));
    ContinuesFlipped(f, f1, f2);
    Flipped(f2, more, g', At(NoneWaits(f.y, j, f.x, k), lx, [], Granted(k, j), {}));
    f' := Flip(f2);
  }

  /** From the two LOCKs to the answer that lets the owner of the smaller ticket lock it. */
  lemma {:induction false} RoundToGrant(f: Talk, h: seq<Game>, g: Game, k: EnteringKey, j: EnteringKey)
    returns (more: seq<Game>, g': Game, f': Talk, lx: Leader)
    requires StageOf(f, h, g)
          == At(OwnerEntering(f.x, k), OwnerEntering(f.y, j), [LockEntering(k)], [LockEntering(j)], {})
    requires j != k && Before(j, k) && !Before(k, j) && f.x != f.y && Fair(f)
    ensures StageOf(f', more, g') == At(lx, NoneWaits(f.y, j, f.x, k), Granted(k, j), [], {})
    ensures Continues(f, f') && ReadyBehind(lx, f.x, k, j)
  {
    hide StageOf, Fair;
    var f1, f2;
    more, g', f1 := BothAsk(f, h, g, k, j);
    more, g', f2 := BothAdd(f1, more, g', k, j);
    more, g', f', lx := OneGrants(f2, more, g', k, j);
  }

  /** From the two LOCKs to the one LOCKED. */
  lemma {:induction false} Round(f: Talk, h: seq<Game>, g: Game, k: EnteringKey, j: EnteringKey)
    returns (more: seq<Game>, g': Game, f': Talk, lx: Leader, ly: Leader)
    requires StageOf(f, h, g)
          == At(OwnerEntering(f.x, k), OwnerEntering(f.y, j), [LockEntering(k)], [LockEntering(j)], {})
    requires j != k && Before(j, k) && !Before(k, j) && f.x != f.y && Fair(f)
    ensures StageOf(f', more, g') == At(lx, ly, [], [], {j}) && Continues(f, f') && ReadyBehind(lx, f.x, k, j)
  {
    hide StageOf, Fair;
    more, g', f', lx := RoundToGrant(f, h, g, k, j);
    assert Granted(k, j) + [] == Granted(k, j);
    more, g' := TurnToLock(f', more, g', j, k, lx, []);
    ly := Got2(f.y, j, f.x, k);
  }
}
