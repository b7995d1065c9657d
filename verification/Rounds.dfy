/** The parts of a run between the owner of a ticket and another leader that nobody disturbs. */
module Rounds {
  import opened KeyOrder
  import opened TicketProgress
  import opened Leader
  import opened Bakery
  import opened Queues
  import opened QueueMoves
  import opened Dialogue
  import opened Stages

  /** The other leader takes LOCK_ENTERING. */
  lemma {:induction false} OtherEnters(f: Talk, h: seq<Game>, g: Game, k: EnteringKey, ly: Leader,
        locked: set<EnteringKey>)
    returns (more: seq<Game>, g': Game)
    requires StageOf(f, h, g) == At(OwnerEntering(f.x, k), ly, [LockEntering(k)], [], locked) && Tabled(ly)
    requires Free(ly, k)
    ensures StageOf(Flip(f), more, g')
         == At(CopyEntering(ly, f.x, k), OwnerEntering(f.x, k), [LockEntered(k)], [], locked)
  {
    hide StageOf;
    assert Cut([LockEntering(k)], 0) == [] && [] + [LockEntered(k)] == [LockEntered(k)];
    more, g' := Stages.Enters(f, h, g, At(OwnerEntering(f.x, k), ly, [LockEntering(k)], [], locked), 0, k);
    Flipped(f, more, g', At(OwnerEntering(f.x, k), CopyEntering(ly, f.x, k), [], [LockEntered(k)], locked));
  }

  /** The other leader takes GET_MAX_TICKET. */
  lemma {:induction false} OtherAnswers(f: Talk, h: seq<Game>, g: Game, k: EnteringKey, ly: Leader,
        locked: set<EnteringKey>)
    returns (more: seq<Game>, g': Game)
    requires StageOf(Flip(f), h, g) == At(ly, OwnerAsking(f.x, k), [], [GetMaxTicket(k)], locked) && Tabled(ly)
    requires ly.tickets == {}
    ensures StageOf(f, more, g') == At(OwnerAsking(f.x, k), ly, [], [MaxTicketIs(k, 0)], locked)
  {
    hide StageOf;
    Flipped(Flip(f), h, g, At(ly, OwnerAsking(f.x, k), [], [GetMaxTicket(k)], locked));
    assert Flip(Flip(f)) == f;
    assert Cut([GetMaxTicket(k)], 0) == [] && [] + [MaxTicketIs(k, 0)] == [MaxTicketIs(k, 0)];
    NoNumber({});
    more, g' := Stages.Answers(f, h, g, At(OwnerAsking(f.x, k), ly, [GetMaxTicket(k)], [], locked), 0, k, 0);
  }

  /** Until the other leader's MAX_TICKET. */
  lemma {:induction false} GetsNumber(f: Talk, h: seq<Game>, g: Game, k: EnteringKey, ly: Leader,
        locked: set<EnteringKey>)
    returns (more: seq<Game>, g': Game)
    requires StageOf(f, h, g) == At(OwnerEntering(f.x, k), ly, [LockEntering(k)], [], locked)
    requires Tabled(ly) && Free(ly, k) && ly.tickets == {}
    requires f.r.disciplined ==> Unsent(f, At(ly, ly, [], [], {}), LockEntering(k))
    ensures StageOf(f.(tx := f.tx + [GetMaxTicket(k)]), more, g')
         == At(OwnerAsking(f.x, k), CopyEntering(ly, f.x, k), [], [MaxTicketIs(k, 0)], locked)
  {
    hide StageOf;
    more, g' := OtherEnters(f, h, g, k, ly, locked);
    more, g' := OwnerAsks(Flip(f), more, g', k, CopyEntering(ly, f.x, k), locked);
    more, g' := OtherAnswers(f.(tx := f.tx + [GetMaxTicket(k)]), more, g', k, CopyEntering(ly, f.x, k), locked);
  }

  /** The owner `y` takes LOCK_ENTERED. */
  lemma {:induction false} OwnerAsks(f: Talk, h: seq<Game>, g: Game, k: EnteringKey, lx: Leader,
        locked: set<EnteringKey>)
    returns (more: seq<Game>, g': Game)
    requires StageOf(f, h, g) == At(lx, OwnerEntering(f.y, k), [LockEntered(k)], [], locked)
    requires f.r.disciplined ==> Unsent(f, At(lx, lx, [], [], {}), LockEntering(k))
    ensures StageOf(f.(ty := f.ty + [GetMaxTicket(k)]), more, g')
         == At(lx, OwnerAsking(f.y, k), [], [GetMaxTicket(k)], locked)
  {
    hide StageOf;
    var st := At(lx, OwnerEntering(f.y, k), [LockEntered(k)], [], locked);
    assert WithCopy(OwnerEntering(f.y, k), k, Dialogue.Asking(f.y, k)) == OwnerAsking(f.y, k);
    more, g' := Stages.Asks(f, h, g, st, 0, k);
  }

  /** The owner `y` takes MAX_TICKET. */
  lemma {:induction false} OwnerNumbers(f: Talk, h: seq<Game>, g: Game, k: EnteringKey, lx: Leader,
        locked: set<EnteringKey>)
    returns (more: seq<Game>, g': Game)
    requires StageOf(f, h, g) == At(lx, OwnerAsking(f.y, k), [MaxTicketIs(k, 0)], [], locked)
    ensures StageOf(f.(ty := f.ty + [AddTicket(Number1(k))]), more, g')
         == At(lx, OwnerNumbered(f.y, k), [], [AddTicket(Number1(k))], locked)
  {
    hide StageOf;
    var st := At(lx, OwnerAsking(f.y, k), [MaxTicketIs(k, 0)], [], locked);
    assert WithNumber(OwnerAsking(f.y, k), f.y, k) == OwnerNumbered(f.y, k);
    more, g' := Stages.Numbers(f, h, g, st, 0, k);
  }

  /** The other leader takes ADD_TICKET. */
  lemma {:induction false} OtherAdds(f: Talk, h: seq<Game>, g: Game, k: EnteringKey, ly: Leader,
        locked: set<EnteringKey>)
    returns (more: seq<Game>, g': Game)
    requires StageOf(Flip(f), h, g) == At(ly, OwnerNumbered(f.x, k), [], [AddTicket(Number1(k))], locked)
    requires Tabled(ly) && k in ly.entering && ly.copies[k] == NewTicket(f.x, k) && Number1(k) !in ly.tickets
    ensures StageOf(f, more, g')
         == At(OwnerNumbered(f.x, k), Added(ly, f.x, k), [], [Message.TicketAdded(Number1(k))], locked)
  {
    hide StageOf;
    Flipped(Flip(f), h, g, At(ly, OwnerNumbered(f.x, k), [], [AddTicket(Number1(k))], locked));
    assert Flip(Flip(f)) == f;
    var answer := Message.TicketAdded(Number1(k));
    assert Cut([AddTicket(Number1(k))], 0) == [] && [] + [answer] == [answer];
    more, g' := Stages.Adds(f, h, g, At(OwnerNumbered(f.x, k), ly, [AddTicket(Number1(k))], [], locked), 0, k);
  }

  /** From MAX_TICKET to TICKET_ADDED. */
  lemma {:induction false} GetsAdded(f: Talk, h: seq<Game>, g: Game, k: EnteringKey, ly: Leader,
        locked: set<EnteringKey>)
    returns (more: seq<Game>, g': Game)
    requires StageOf(f, h, g) == At(OwnerAsking(f.x, k), ly, [], [MaxTicketIs(k, 0)], locked)
    requires Tabled(ly) && k in ly.entering && ly.copies[k] == NewTicket(f.x, k) && Number1(k) !in ly.tickets
    ensures StageOf(f.(tx := f.tx + [AddTicket(Number1(k))]), more, g')
         == At(OwnerNumbered(f.x, k), Added(ly, f.x, k), [], [Message.TicketAdded(Number1(k))], locked)
  {
    hide StageOf;
    Flipped(f, h, g, At(OwnerAsking(f.x, k), ly, [], [MaxTicketIs(k, 0)], locked));
    more, g' := OwnerNumbers(Flip(f), h, g, k, ly, locked);
    more, g' := OtherAdds(f.(tx := f.tx + [AddTicket(Number1(k))]), more, g', k, ly, locked);
  }

  /** From TICKET_ADDED to the quorum. */
  lemma {:induction false} GetsReady(f: Talk, h: seq<Game>, g: Game, k: EnteringKey, ly: Leader,
        locked: set<EnteringKey>)
    returns (more: seq<Game>, g': Game)
    requires StageOf(f, h, g) == At(OwnerNumbered(f.x, k), ly, [], [Message.TicketAdded(Number1(k))], locked)
    ensures StageOf(f.(tx := f.tx + QuorumNews(k)), more, g') == At(OwnerReady(f.x, k), ly, QuorumNews(k), [], locked)
  {
    hide StageOf;
    var st := At(OwnerNumbered(f.x, k), ly, [], [Message.TicketAdded(Number1(k))], locked);
    Flipped(f, h, g, st);
    more, g' := Stages.HasQuorum(Flip(f), h, g, FlipStage(st), 0, k);
    assert [] + QuorumNews(k) == QuorumNews(k);
    Flipped(Flip(f.(tx := f.tx + QuorumNews(k))), more, g', At(ly, OwnerReady(f.x, k), [], QuorumNews(k), locked));
  }

  /** From MAX_TICKET to the quorum. */
  lemma {:induction false} GetsQuorum(f: Talk, h: seq<Game>, g: Game, k: EnteringKey, ly: Leader,
        locked: set<EnteringKey>)
    returns (more: seq<Game>, g': Game)
    requires StageOf(f, h, g) == At(OwnerAsking(f.x, k), ly, [], [MaxTicketIs(k, 0)], locked)
    requires Tabled(ly) && k in ly.entering && ly.copies[k] == NewTicket(f.x, k) && Number1(k) !in ly.tickets
    ensures StageOf(f.(tx := f.tx + [AddTicket(Number1(k))] + QuorumNews(k)), more, g')
         == At(OwnerReady(f.x, k), Added(ly, f.x, k), QuorumNews(k), [], locked)
  {
    hide StageOf;
    more, g' := GetsAdded(f, h, g, k, ly, locked);
    more, g' := GetsReady(f.(tx := f.tx + [AddTicket(Number1(k))]), more, g', k, Added(ly, f.x, k), locked);
  }

  function IsReady(ly: Leader, x: ServerName, k: EnteringKey): Leader {
    WithCopy(Left(ly, k), k, Copied(x, k).(ready := true))
  }

  /** What the other leader has in the end. */
  function Done(ly: Leader, x: ServerName, k: EnteringKey): Leader {
    WithCopy(Left(ly, k), k, Copied(x, k).(ready := true, locked := true))
  }

  lemma NewsAddNothing(f: Talk, k: EnteringKey, lx: Leader, ly: Leader, rest: seq<Message>, yx: seq<Message>,
        locked: set<EnteringKey>)
    requires Settled(f, At(ly, ly, rest, [], {}), k)
    ensures Settled(f, At(lx, ly, QuorumNews(k) + rest, yx, locked), k)
  {
  }

  lemma NewsCut(k: EnteringKey, rest: seq<Message>)
    ensures Cut(QuorumNews(k) + rest, 0) == [TicketReady(Number1(k)), ActivateLock(Number1(k))] + rest
    ensures Cut([TicketReady(Number1(k)), ActivateLock(Number1(k))] + rest, 0) == [ActivateLock(Number1(k))] + rest
  {
  }

  /** The other leader takes LOCK_EXITING. */
  lemma {:induction false} HearsExit(f: Talk, h: seq<Game>, g: Game, k: EnteringKey, lx: Leader, ly: Leader,
        rest: seq<Message>, yx: seq<Message>, locked: set<EnteringKey>)
    returns (more: seq<Game>, g': Game)
    requires StageOf(f, h, g) == At(lx, ly, QuorumNews(k) + rest, yx, locked)
    requires Tabled(ly) && Idle(ly) && k in ly.entering && (f.r.disciplined ==> Settled(f, At(ly, ly, rest, [], {}), k))
    ensures StageOf(f, more, g')
         == At(lx, Left(ly, k), [TicketReady(Number1(k)), ActivateLock(Number1(k))] + rest, yx, locked)
  {
    hide StageOf;
    if f.r.disciplined {
      NewsAddNothing(f, k, lx, ly, rest, yx, locked);
    }
    NewsCut(k, rest);
    more, g' := Stages.Leaves(f, h, g, At(lx, ly, QuorumNews(k) + rest, yx, locked), 0, k);
  }

  /** The other leader takes LOCK_EXITING and TICKET_READY. */
  lemma {:induction false} HearsNews(f: Talk, h: seq<Game>, g: Game, k: EnteringKey, lx: Leader, ly: Leader,
        rest: seq<Message>, yx: seq<Message>, locked: set<EnteringKey>)
    returns (more: seq<Game>, g': Game)
    requires StageOf(f, h, g) == At(lx, ly, QuorumNews(k) + rest, yx, locked)
    requires Tabled(ly) && Idle(ly) && k in ly.entering && ly.copies[k] == Copied(f.x, k) && Number1(k) in ly.tickets
    requires f.r.disciplined ==> Settled(f, At(ly, ly, rest, [], {}), k)
    ensures StageOf(f, more, g') == At(lx, IsReady(ly, f.x, k), [ActivateLock(Number1(k))] + rest, yx, locked)
  {
    hide StageOf;
    more, g' := HearsExit(f, h, g, k, lx, ly, rest, yx, locked);
    var left := Left(ly, k);
    assert SetReady(left.copies[k]) == Copied(f.x, k).(ready := true);
    NewsCut(k, rest);
    more, g' := Stages.HearsReady(f, more, g',
                                  At(lx, left, [TicketReady(Number1(k)), ActivateLock(Number1(k))] + rest, yx,
                                  locked), 0, k);
  }

  /** The other leader takes what the owner sent after its quorum. */
  lemma {:induction false} GetsActive(f: Talk, h: seq<Game>, g: Game, k: EnteringKey, lx: Leader, ly: Leader,
        rest: seq<Message>, yx: seq<Message>, locked: set<EnteringKey>)
    returns (more: seq<Game>, g': Game)
    requires StageOf(f, h, g) == At(lx, ly, QuorumNews(k) + rest, yx, locked)
    requires Tabled(ly) && Idle(ly) && k in ly.entering && ly.copies[k] == Copied(f.x, k)
    requires IsFirst(ly.tickets, Number1(k))
    requires f.r.disciplined ==> Settled(f, At(ly, ly, rest, [], {}), k)
    ensures StageOf(f, more, g')
         == At(lx, Done(ly, f.x, k), rest, yx + [LockActivated(Number1(k), FirstKey(Number1(k)))], locked)
  {
    hide StageOf;
    Apart(f, h, g);
    more, g' := HearsNews(f, h, g, k, lx, ly, rest, yx, locked);
    var ready := IsReady(ly, f.x, k);
    assert WithCopy(ready, k, ready.copies[k].(locked := true)) == Done(ly, f.x, k);
    more, g' := Stages.Activates(f, more, g', At(lx, ready, [ActivateLock(Number1(k))] + rest, yx, locked), 0, k);
  }

  /** From the quorum to LOCKED. */
  lemma {:induction false} GetsLock(f: Talk, h: seq<Game>, g: Game, k: EnteringKey, ly: Leader,
        locked: set<EnteringKey>)
    returns (more: seq<Game>, g': Game)
    requires StageOf(f, h, g) == At(OwnerReady(f.x, k), ly, QuorumNews(k), [], locked)
    requires Tabled(ly) && Idle(ly) && k in ly.entering && ly.copies[k] == Copied(f.x, k)
    requires IsFirst(ly.tickets, Number1(k))
    requires f.r.disciplined ==> Settled(f, At(ly, ly, [], [], {}), k)
    ensures StageOf(f, more, g') == At(OwnerLocked(f.x, k), Done(ly, f.x, k), [], [], locked + {k})
  {
    hide StageOf;
    assert QuorumNews(k) + [] == QuorumNews(k);
    more, g' := GetsActive(f, h, g, k, OwnerReady(f.x, k), ly, [], [], locked);
    var st := At(OwnerReady(f.x, k), Done(ly, f.x, k), [], [LockActivated(Number1(k), FirstKey(Number1(k)))], locked);
    Flipped(f, more, g', st);
    assert WithCopy(OwnerReady(f.x, k), k, Waited(f.x, k).(locked := true)) == OwnerLocked(f.x, k);
    more, g' := Stages.GetsLocked(Flip(f), more, g', FlipStage(st), 0, k);
    Flipped(Flip(f), more, g', At(Done(ly, f.x, k), OwnerLocked(f.x, k), [], [], locked + {k}));
  }

  /** What the owner has told everybody between MAX_TICKET and LOCKED. */
  function LockNews(k: EnteringKey): seq<Message> { [AddTicket(Number1(k))] + QuorumNews(k) }

  /** From MAX_TICKET to LOCKED. */
  lemma {:induction false} GetsHeld(f: Talk, h: seq<Game>, g: Game, k: EnteringKey, ly: Leader,
        locked: set<EnteringKey>)
    returns (more: seq<Game>, g': Game)
    requires StageOf(f, h, g) == At(OwnerAsking(f.x, k), ly, [], [MaxTicketIs(k, 0)], locked)
    requires Tabled(ly) && k in ly.entering && ly.copies[k] == NewTicket(f.x, k) && Number1(k) !in ly.tickets
    requires Idle(Added(ly, f.x, k)) && IsFirst(ly.tickets + {Number1(k)}, Number1(k))
    requires f.r.disciplined ==> Settled(f, At(ly, ly, [], [], {}), k)
    ensures StageOf(f.(tx := f.tx + LockNews(k)), more, g')
         == At(OwnerLocked(f.x, k), Done(Added(ly, f.x, k), f.x, k), [], [], locked + {k})
  {
    hide StageOf;
    assert f.tx + [AddTicket(Number1(k))] + QuorumNews(k) == f.tx + LockNews(k);
    more, g' := GetsQuorum(f, h, g, k, ly, locked);
    more, g' := GetsLock(f.(tx := f.tx + LockNews(k)), more, g', k, Added(ly, f.x, k), locked);
  }

  // ---------- a leader that hears everything late ----------

  lemma FirstTicket(x: ServerName, k: EnteringKey, lc: Leader)
    requires Tabled(lc) && lc.tickets == {} && forall j :: j in lc.copies ==> !lc.copies[j].quorum
    ensures Tabled(Added(lc, x, k)) && Idle(Added(lc, x, k)) && IsFirst(lc.tickets + {Number1(k)}, Number1(k))
  {
    assert lc.tickets + {Number1(k)} == {Number1(k)};
  }

  /** Another leader's table after LOCK_ENTERING. */
  function Knows(x: ServerName, k: EnteringKey): Leader { CopyEntering(Nobody(), x, k) }

  /** Another leader's table after LOCKED. */
  function Agrees(x: ServerName, k: EnteringKey): Leader { Done(Added(Knows(x, k), x, k), x, k) }

  /** Another leader's table after UNLOCK. */
  function Past(x: ServerName, k: EnteringKey): Leader { Left(Agrees(x, k), k).(tickets := {}) }

  /** All that the owner has told a leader after LOCK_ENTERING. */
  function Story(k: EnteringKey): seq<Message> { [GetMaxTicket(k)] + LockNews(k) + [DropTicket(Number1(k))] }

  /** All that the leader has answered after LOCK_ENTERED. */
  function Echo(k: EnteringKey): seq<Message> {
    [MaxTicketIs(k, 0)] + [Message.TicketAdded(Number1(k))] + [LockActivated(Number1(k), FirstKey(Number1(k)))]
  }

  lemma {:induction false} KnowsMax(f: Talk, h: seq<Game>, g: Game, k: EnteringKey, lx: Leader, yx: seq<Message>,
        locked: set<EnteringKey>)
    returns (more: seq<Game>, g': Game)
    requires StageOf(f, h, g) == At(lx, Knows(f.x, k), Story(k), yx, locked)
    ensures StageOf(f, more, g')
         == At(lx, Knows(f.x, k), LockNews(k) + [DropTicket(Number1(k))], yx + [MaxTicketIs(k, 0)], locked)
  {
    hide StageOf;
    assert Cut(Story(k), 0) == LockNews(k) + [DropTicket(Number1(k))];
    NoNumber({});
    more, g' := Stages.Answers(f, h, g, At(lx, Knows(f.x, k), Story(k), yx, locked), 0, k, 0);
  }

  lemma {:induction false} KnowsStart(f: Talk, h: seq<Game>, g: Game, k: EnteringKey, lx: Leader, yx: seq<Message>,
        locked: set<EnteringKey>)
    returns (more: seq<Game>, g': Game)
    requires StageOf(f, h, g) == At(lx, Knows(f.x, k), Story(k), yx, locked)
    ensures StageOf(f, more, g') == At(lx, Added(Knows(f.x, k), f.x, k), QuorumNews(k) + [DropTicket(Number1(k))],
                                       yx + [MaxTicketIs(k, 0)] + [Message.TicketAdded(Number1(k))], locked)
  {
    hide StageOf;
    more, g' := KnowsMax(f, h, g, k, lx, yx, locked);
    var xy := LockNews(k) + [DropTicket(Number1(k))];
    assert Cut(xy, 0) == QuorumNews(k) + [DropTicket(Number1(k))];
    more, g' := Stages.Adds(f, more, g', At(lx, Knows(f.x, k), xy, yx + [MaxTicketIs(k, 0)], locked), 0, k);
  }

  lemma AgreesAlone(x: ServerName, k: EnteringKey)
    ensures Tabled(Agrees(x, k)) && Agrees(x, k).tickets == {Number1(k)} && Bare(Past(x, k), k)
  {
  }

  /** The leader takes DROP_TICKET. */
  lemma {:induction false} Forgets(f: Talk, h: seq<Game>, g: Game, k: EnteringKey, lx: Leader, yx: seq<Message>,
        locked: set<EnteringKey>)
    returns (more: seq<Game>, g': Game)
    requires StageOf(f, h, g) == At(lx, Agrees(f.x, k), [DropTicket(Number1(k))], yx, locked)
    ensures StageOf(f, more, g') == At(lx, Past(f.x, k), [], yx, locked)
  {
    hide StageOf;
    AgreesAlone(f.x, k);
    assert Cut([DropTicket(Number1(k))], 0) == [];
    more, g' := Stages.Drops(f, h, g, At(lx, Agrees(f.x, k), [DropTicket(Number1(k))], yx, locked), 0, k);
  }

  /** The leader takes everything at once. */
  lemma {:induction false} CatchesUp(f: Talk, h: seq<Game>, g: Game, k: EnteringKey, lx: Leader, yx: seq<Message>,
        locked: set<EnteringKey>)
    returns (more: seq<Game>, g': Game)
    requires StageOf(f, h, g) == At(lx, Knows(f.x, k), Story(k), yx, locked)
    requires f.r.disciplined ==> Settled(f, At(lx, lx, [], [], {}), k)
    ensures StageOf(f, more, g') == At(lx, Past(f.x, k), [], yx + Echo(k), locked)
  {
    hide StageOf;
    var last, replied := [DropTicket(Number1(k))], yx + [MaxTicketIs(k, 0)] + [Message.TicketAdded(Number1(k))];
    var activated := [LockActivated(Number1(k), FirstKey(Number1(k)))];
    more, g' := KnowsStart(f, h, g, k, lx, yx, locked);
    FirstTicket(f.x, k, Knows(f.x, k));
    if f.r.disciplined {
      DropAddsNothing(f, k, lx, Added(Knows(f.x, k), f.x, k));
    }
    more, g' := GetsActive(f, more, g', k, lx, Added(Knows(f.x, k), f.x, k), last, replied, locked);
    assert replied + activated == yx + Echo(k);
    more, g' := Forgets(f, more, g', k, lx, replied + activated, locked);
  }

  lemma DropAddsNothing(f: Talk, k: EnteringKey, lx: Leader, ly: Leader)
    requires Settled(f, At(lx, lx, [], [], {}), k)
    ensures Settled(f, At(ly, ly, [DropTicket(Number1(k))], [], {}), k)
  {
  }
}
