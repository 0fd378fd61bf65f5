/** Go channels are bounded: a goroutine whose next send finds the buffer full waits
    for the goroutine that receives from it.  Orderly runs have no wait cycle. */
module Progress {
  import opened Options
  import opened Wire
  import opened Client
  import opened ChatRoom
  import opened Network
  import opened Membership
  import opened Orderly

  const CALLBACK_BUFFER: nat := 1        // both callback channels of a doppelganger
  const ROOM_BUFFER: nat := 1            // channel master -> chat channel
  const INBOX_BUFFER: nat := 128         // doppelgangers -> chat channel
  const MASTER_BUFFER: nat := 16384      // doppelgangers -> channel master
  const DENIAL_BUFFER: nat := 512        // chat channels -> channel master

  datatype Proc = TheMaster | TheRoom(i: InstId) | TheUser(d: DopId)

  function Actor(a: Action): Proc {
    match a
    case Lose(d) => TheUser(d)
    case Issue(d, _, _) => TheUser(d)
    case GetFromMaster(d, _) => TheUser(d)
    case GetFromChat(d, _) => TheUser(d)
    case ExitProcedure(d) => TheUser(d)
    case MasterTake(_) => TheMaster
    case MasterHear => TheMaster
    case MasterSend => TheMaster
    case ChatTake(i, _) => TheRoom(i)
    case ChatListen(i, _) => TheRoom(i)
    case ChatStep(i) => TheRoom(i)
  }

  predicate OutFits(s: State, out: Out) {
    match out
    case Nothing => true
    case ToTheMaster(_) => |s.masterQ| < MASTER_BUFFER
    case Speak(i, _) => i < |s.insts| ==> |s.insts[i].inbox| < INBOX_BUFFER
  }

  /** There is room for whatever the action sends. */
  predicate Fits(s: State, a: Action) {
    match a
    case Issue(d, cmd, lost) => OutFits(s, Obey(At(s, d), d, cmd, lost).1)
    case ExitProcedure(d) => OutFits(s, Unwind(At(s, d), d).1)
    case MasterSend =>
      (match s.todo
       case Reply(d, _) => |At(s, d).fromMaster| < CALLBACK_BUFFER
       case Forward(c, _) =>
         c in s.reg && s.reg[c].inst < |s.insts| ==> |s.insts[s.reg[c].inst].queue| < ROOM_BUFFER
       case _ => true)
    case ChatStep(i) =>
      i < |s.insts| && s.insts[i].script != [] ==>
        var op := s.insts[i].script[0];
        && (op.Refuse? ==> |s.denials| < DENIAL_BUFFER)
        && (Addressee(op).Some? ==> |At(s, Addressee(op).value).fromChat| < CALLBACK_BUFFER)
    case _ => true
  }

  /** What a goroutine does by itself: no key is pressed and no terminal lost. */
  predicate Internal(a: Action) { !a.Lose? && !a.Issue? }

  /** p can receive, send or go through the exit procedure. */
  ghost predicate CanMove(s: State, p: Proc) {
    exists a :: Internal(a) && Actor(a) == p && Enabled(s, a) && Fits(s, a)
  }

  /** p's next operation is a send to q, and q's buffer is full. */
  predicate Waits(s: State, p: Proc, q: Proc) {
    match p
    case TheMaster =>
      (match s.todo
       case Reply(d, _) => q == TheUser(d) && |At(s, d).fromMaster| >= CALLBACK_BUFFER
       case Forward(c, _) =>
         c in s.reg && s.reg[c].inst < |s.insts| && q == TheRoom(s.reg[c].inst)
         && |s.insts[s.reg[c].inst].queue| >= ROOM_BUFFER
       case _ => false)
    case TheRoom(i) =>
      i < |s.insts| && !s.insts[i].closed && s.insts[i].script != [] &&
      var op := s.insts[i].script[0];
      if op.Refuse? then q == TheMaster && |s.denials| >= DENIAL_BUFFER
      else Addressee(op).Some? && q == TheUser(Addressee(op).value)
           && |At(s, Addressee(op).value).fromChat| >= CALLBACK_BUFFER
    case TheUser(d) =>
      !At(s, d).closed && At(s, d).unwinding &&
      (match Unwind(At(s, d), d).1
       case ToTheMaster(_) => q == TheMaster && |s.masterQ| >= MASTER_BUFFER
       case _ => false)
  }

  predicate Live(s: State, p: Proc) {
    match p
    case TheMaster => !s.todo.Halted?
    case TheRoom(i) => i < |s.insts| && !s.insts[i].closed
    case TheUser(d) => !At(s, d).closed
  }

  /** The three shared buffers are not full. */
  ghost predicate Roomy(s: State) {
    && |s.masterQ| < MASTER_BUFFER
    && |s.denials| < DENIAL_BUFFER
    && (forall i :: 0 <= i < |s.insts| ==> |s.insts[i].inbox| < INBOX_BUFFER)
  }

  /** Waiting always leads down: from the channel master to a chat channel or a
      doppelganger, from a chat channel to a doppelganger, from a doppelganger nowhere. */
  function Height(p: Proc): nat {
    match p case TheMaster => 2 case TheRoom(_) => 1 case TheUser(_) => 0
  }

  /** While the shared buffers have room, nothing a doppelganger does can block. */
  lemma UsersNeverWait(s: State, a: Action)
    requires Roomy(s) && Enabled(s, a) && Actor(a).TheUser?
    ensures Fits(s, a)
  {
  }

  /** A doppelganger with a message waiting can take it, or is about to leave. */
  lemma UserMoves(s: State, d: DopId)
    requires Roomy(s) && s.fault == Healthy && !At(s, d).closed
    requires At(s, d).unwinding || At(s, d).fromMaster != [] || At(s, d).fromChat != []
    ensures CanMove(s, TheUser(d))
  {
    var a := if At(s, d).unwinding then ExitProcedure(d)
             else if At(s, d).fromMaster != [] then GetFromMaster(d, false) else GetFromChat(d, false);
    assert Actor(a) == TheUser(d) && Enabled(s, a) && Fits(s, a);
  }

  /** A live chat channel with anything to do moves, or waits for a doppelganger. */
  lemma RoomMovesOrWaits(s: State, i: InstId)
    requires Roomy(s) && s.fault == Healthy && Live(s, TheRoom(i))
    requires s.insts[i].script != [] || s.insts[i].queue != [] || s.insts[i].inbox != []
    ensures CanMove(s, TheRoom(i)) || exists d :: Waits(s, TheRoom(i), TheUser(d))
  {
    var r := s.insts[i];
    if r.script != [] {
      if Fits(s, ChatStep(i)) {
        assert Actor(ChatStep(i)) == TheRoom(i) && Enabled(s, ChatStep(i));
      } else {
        assert Waits(s, TheRoom(i), TheUser(Addressee(r.script[0]).value));
      }
    } else if r.queue != [] {
      var order := OrderOf(Audience(r.members, r.queue[0]));
      assert Actor(ChatTake(i, order)) == TheRoom(i) && Enabled(s, ChatTake(i, order)) && Fits(s, ChatTake(i, order));
    } else {
      var order := OrderOf(r.members.Keys);
      assert Actor(ChatListen(i, order)) == TheRoom(i) && Enabled(s, ChatListen(i, order))
          && Fits(s, ChatListen(i, order));
    }
  }

  /** Whom an operation of an orderly run is sent to is there to receive it. */
  lemma AddresseeIsLive(s: State, T: Tokens, i: InstId)
    requires Tidy(s, T) && i < |s.insts| && s.insts[i].script != []
    requires Addressee(s.insts[i].script[0]).Some?
    ensures !At(s, Addressee(s.insts[i].script[0]).value).closed
  {
    var r := s.insts[i];
    var d := Addressee(r.script[0]).value;
    assert RoomTidy(r, i, T) && OpTidy(r.script[0], r.script, i, T);
    assert DopTidy(At(s, d), d, Tok(T, d), Cids(s.insts));
  }

  /** The channel master's refusal always finds the callback empty. */
  lemma RefusalFits(s: State, T: Tokens)
    requires Tidy(s, T) && s.todo.Reply?
    ensures At(s, s.todo.d).fromMaster == []
  {
    assert DopTidy(At(s, s.todo.d), s.todo.d, Tok(T, s.todo.d), Cids(s.insts));
  }

  /** A wait is for a goroutine lower down that is alive: the channel master waits for
      chat channels only, and a doppelganger that is waited for can move. */
  lemma WaitsLeadDown(h: seq<Action>, p: Proc, q: Proc)
    requires OrderlyRun(h) && Roomy(After(h)) && Waits(After(h), p, q)
    ensures Height(q) < Height(p) && Live(After(h), q)
    ensures p.TheMaster? ==> q.TheRoom?
    ensures p.TheRoom? ==> q.TheUser? && CanMove(After(h), q)
    ensures q.TheRoom? ==> CanMove(After(h), q) || exists d :: Waits(After(h), q, TheUser(d))
  {
    var s := After(h);
    var T := OrderlyIsTidy(h);
    if p.TheMaster? {
      if s.todo.Reply? { RefusalFits(s, T); }
      var i := s.reg[s.todo.c].inst;
      assert EntryOk(s, s.todo.c) && RoomOk(s.insts[i], Registered(s, i));
      RoomMovesOrWaits(s, i);
    } else if p.TheRoom? {
      AddresseeIsLive(s, T, p.i);
      UserMoves(s, q.d);
    }
  }

  /** No wait cycle: from any goroutine that waits, at most two waits lead to one that
      can move. */
  lemma WaitsEnd(h: seq<Action>, p: Proc, q: Proc)
    requires OrderlyRun(h) && Roomy(After(h)) && Waits(After(h), p, q)
    ensures CanMove(After(h), q) || exists r :: Waits(After(h), q, r) && CanMove(After(h), r)
  {
    WaitsLeadDown(h, p, q);
    if !CanMove(After(h), q) {
      var d :| Waits(After(h), q, TheUser(d));
      WaitsLeadDown(h, q, TheUser(d));
    }
  }

  /** Something is left to do. */
  ghost predicate Busy(s: State, p: Proc) {
    match p
    case TheMaster => s.todo != Idle || s.masterQ != [] || s.denials != []
    case TheRoom(i) =>
      Live(s, p) && (s.insts[i].script != [] || s.insts[i].queue != [] || s.insts[i].inbox != [])
    case TheUser(d) => Live(s, p) && (At(s, d).unwinding || At(s, d).fromMaster != [] || At(s, d).fromChat != [])
  }

  lemma MasterMovesOrWaits(h: seq<Action>)
    requires OrderlyRun(h) && Busy(After(h), TheMaster)
    ensures CanMove(After(h), TheMaster) || exists q :: Waits(After(h), TheMaster, q)
  {
    var s := After(h);
    OrderlyRunsAreSafe(h);
    var T := OrderlyIsTidy(h);
    var a := if s.todo != Idle then MasterSend else if s.masterQ != [] then MasterTake(0) else MasterHear;
    assert Actor(a) == TheMaster && Enabled(s, a);
    if !Fits(s, a) {
      assert Waits(s, TheMaster, if s.todo.Reply? then TheUser(s.todo.d) else TheRoom(s.reg[s.todo.c].inst));
    }
  }

  /** p can move, or at most two waits lead from p to somebody who can. */
  ghost predicate Unblocked(s: State, p: Proc) {
    CanMove(s, p) || exists q :: Waits(s, p, q) && (CanMove(s, q) || exists r :: Waits(s, q, r) && CanMove(s, r))
  }

  /** The server never gets stuck: whoever has something to do can do it, or waits,
      directly or through one other, for a goroutine that can receive, send or leave
      without anybody touching a key; and no doppelganger ever waits. */
  lemma SomebodyMoves(h: seq<Action>, p: Proc)
    requires OrderlyRun(h) && Roomy(After(h)) && Busy(After(h), p)
    ensures Unblocked(After(h), p)
    ensures forall a :: Enabled(After(h), a) && Actor(a).TheUser? ==> Fits(After(h), a)
  {
    var s := After(h);
    forall a | Enabled(s, a) && Actor(a).TheUser? ensures Fits(s, a) { UsersNeverWait(s, a); }
    OrderlyRunsAreSafe(h);
    match p
    case TheMaster =>
      MasterMovesOrWaits(h);
      if !CanMove(s, p) {
        var q :| Waits(s, p, q);
        WaitsEnd(h, p, q);
      }
    case TheRoom(i) =>
      RoomMovesOrWaits(s, i);
      if !CanMove(s, p) {
        var d :| Waits(s, p, TheUser(d));
        WaitsEnd(h, p, TheUser(d));
      }
    case TheUser(d) => UserMoves(s, d);
  }

  // ------------------------------------------------------------------ runs within the bounds

  /** An orderly history in which no send goes to a full buffer. */
  ghost predicate BoundedRun(h: seq<Action>) {
    h == [] ||
    (var g, a := h[..|h| - 1], h[|h| - 1];
     BoundedRun(g) && Enabled(After(g), a) && OrderlyStep(After(g), a) && Fits(After(g), a))
  }

  predicate DopWithinBounds(x: Dop) {
    |x.fromMaster| <= CALLBACK_BUFFER && |x.fromChat| <= CALLBACK_BUFFER
  }

  predicate RoomWithinBounds(r: Inst) {
    |r.queue| <= ROOM_BUFFER && |r.inbox| <= INBOX_BUFFER
  }

  ghost predicate WithinBounds(s: State) {
    && (forall d: DopId :: DopWithinBounds(At(s, d)))
    && (forall i :: 0 <= i < |s.insts| ==> RoomWithinBounds(s.insts[i]))
    && |s.masterQ| <= MASTER_BUFFER
    && |s.denials| <= DENIAL_BUFFER
  }

  /** Who is not concerned in a step does not change. */
  lemma WithinBoundsAfter(s: State, t: State, d: DopId)
    requires WithinBounds(s)
    requires t.dops == s.dops || t.dops == s.dops[d := At(t, d)]
    requires DopWithinBounds(At(t, d))
    requires forall i :: 0 <= i < |t.insts| ==>
               (i < |s.insts| && t.insts[i] == s.insts[i]) || RoomWithinBounds(t.insts[i])
    requires |t.masterQ| <= MASTER_BUFFER && |t.denials| <= DENIAL_BUFFER
    ensures WithinBounds(t)
  {
    forall e: DopId ensures DopWithinBounds(At(t, e)) {
      assert DopWithinBounds(At(s, e));
    }
  }

  lemma UserStaysWithinBounds(s: State, a: Action)
    requires WithinBounds(s) && Enabled(s, a) && Fits(s, a) && Actor(a).TheUser?
    ensures WithinBounds(Apply(s, a))
  {
    UserKeepsBuffers(s, a);
    WithinBoundsAfter(s, Apply(s, a), Actor(a).d);
  }

  /** A user only takes from the own callbacks, and sends to what has room. */
  lemma UserKeepsBuffers(s: State, a: Action)
    requires WithinBounds(s) && Enabled(s, a) && Fits(s, a) && Actor(a).TheUser?
    ensures var t, d := Apply(s, a), Actor(a).d;
      && DopWithinBounds(At(t, d)) && t.dops == s.dops[d := At(t, d)]
      && |t.masterQ| <= MASTER_BUFFER && |t.denials| <= DENIAL_BUFFER
      && forall i :: 0 <= i < |t.insts| ==> (i < |s.insts| && t.insts[i] == s.insts[i]) || RoomWithinBounds(t.insts[i])
  {
    if a.Issue? {
      IssueKeepsBuffers(s, a.d, a.cmd, a.lost);
    } else {
      assert DopWithinBounds(At(s, a.d));
    }
  }

  lemma IssueKeepsBuffers(s: State, d: DopId, cmd: Command, lost: bool)
    requires WithinBounds(s) && Fits(s, Issue(d, cmd, lost))
    ensures var t := Apply(s, Issue(d, cmd, lost));
      && DopWithinBounds(At(t, d)) && t.dops == s.dops[d := At(t, d)]
      && |t.masterQ| <= MASTER_BUFFER && |t.denials| <= DENIAL_BUFFER
      && forall i :: 0 <= i < |t.insts| ==> (i < |s.insts| && t.insts[i] == s.insts[i]) || RoomWithinBounds(t.insts[i])
  {
    assert DopWithinBounds(At(s, d));
    ObeyKeepsCallbacks(At(s, d), d, cmd, lost);
  }

  lemma ObeyKeepsCallbacks(x: Dop, d: DopId, cmd: Command, lost: bool)
    ensures var y := Obey(x, d, cmd, lost).0;
      y.fromMaster == x.fromMaster && y.fromChat == x.fromChat
  {
  }

  lemma MasterReceivesWithinBounds(s: State, a: Action)
    requires WithinBounds(s) && Enabled(s, a) && (a.MasterTake? || a.MasterHear?)
    ensures WithinBounds(Apply(s, a))
  {
    var t := Apply(s, a);
    assert DopWithinBounds(At(s, 0));
    assert forall i :: 0 <= i < |s.insts| ==> t.insts[i] == s.insts[i];
    WithinBoundsAfter(s, t, 0);
  }

  lemma PutWithinBounds(s: State, d: DopId, x: Dop)
    requires WithinBounds(s) && DopWithinBounds(x)
    ensures WithinBounds(Put(s, d, x))
  {
    WithinBoundsAfter(s, Put(s, d, x), d);
  }

  lemma PutInstWithinBounds(s: State, i: InstId, r: Inst)
    requires WithinBounds(s) && i < |s.insts| && RoomWithinBounds(r)
    ensures WithinBounds(PutInst(s, i, r))
  {
    assert DopWithinBounds(At(s, 0));
    WithinBoundsAfter(s, PutInst(s, i, r), 0);
  }

  /** The rest of the state is not in a bounded buffer. */
  lemma OtherwiseWithinBounds(s: State, t: State)
    requires WithinBounds(s) && t.dops == s.dops && t.insts == s.insts && t.masterQ == s.masterQ
    requires |t.denials| <= DENIAL_BUFFER
    ensures WithinBounds(t)
  {
    assert DopWithinBounds(At(s, 0));
    WithinBoundsAfter(s, t, 0);
  }

  lemma MasterSendsWithinBounds(s: State)
    requires WithinBounds(s) && Enabled(s, MasterSend) && Fits(s, MasterSend)
    ensures WithinBounds(MasterSends(s))
  {
    var t := MasterSends(s);
    if t.fault != Healthy {
      OtherwiseWithinBounds(s, t);
    } else if s.todo.Reply? {
      assert DopWithinBounds(At(s, s.todo.d));
      PutWithinBounds(s, s.todo.d, At(t, s.todo.d));
      OtherwiseWithinBounds(Put(s, s.todo.d, At(t, s.todo.d)), t);
    } else {
      var i := s.reg[s.todo.c].inst;
      assert RoomWithinBounds(s.insts[i]);
      PutInstWithinBounds(s, i, t.insts[i]);
      OtherwiseWithinBounds(PutInst(s, i, t.insts[i]), t);
    }
  }

  lemma RoomReceivesWithinBounds(s: State, a: Action)
    requires WithinBounds(s) && Enabled(s, a) && (a.ChatTake? || a.ChatListen?)
    ensures WithinBounds(Apply(s, a))
  {
    assert DopWithinBounds(At(s, 0)) && RoomWithinBounds(s.insts[a.i]);
    WithinBoundsAfter(s, Apply(s, a), 0);
  }

  lemma RoomStepsWithinBounds(s: State, i: InstId)
    requires WithinBounds(s) && Enabled(s, ChatStep(i)) && Fits(s, ChatStep(i))
    ensures WithinBounds(ChatSteps(s, i))
  {
    var r := s.insts[i];
    var t := PutInst(s, i, Perform(r));
    assert RoomWithinBounds(r);
    PutInstWithinBounds(s, i, Perform(r));
    match r.script[0]
    case Admit(d, _) => DeliveryWithinBounds(t, d, Joined(r.cid, i));
    case Send(d, m) => DeliveryWithinBounds(t, d, m);
    case ShowRoster(d) =>
      if r.members == map[] { OtherwiseWithinBounds(t, ChatSteps(s, i)); } else { DeliveryWithinBounds(t, d, Notice); }
    case _ => OtherwiseWithinBounds(t, ChatSteps(s, i));
  }

  lemma DeliveryWithinBounds(s: State, d: DopId, m: FromChat)
    requires WithinBounds(s) && |At(s, d).fromChat| < CALLBACK_BUFFER
    ensures WithinBounds(Deliver(s, d, m))
  {
    if At(s, d).closed {
      OtherwiseWithinBounds(s, Deliver(s, d, m));
    } else {
      assert DopWithinBounds(At(s, d));
      PutWithinBounds(s, d, At(Deliver(s, d, m), d));
    }
  }

  lemma StepStaysWithinBounds(s: State, a: Action)
    requires WithinBounds(s) && Enabled(s, a) && Fits(s, a)
    ensures WithinBounds(Apply(s, a))
  {
    match a
    case MasterTake(_) => MasterReceivesWithinBounds(s, a);
    case MasterHear => MasterReceivesWithinBounds(s, a);
    case MasterSend => MasterSendsWithinBounds(s);
    case ChatTake(_, _) => RoomReceivesWithinBounds(s, a);
    case ChatListen(_, _) => RoomReceivesWithinBounds(s, a);
    case ChatStep(i) => RoomStepsWithinBounds(s, i);
    case _ => UserStaysWithinBounds(s, a);
  }

  /** Such histories are orderly, so all of the above holds of them, and they keep every
      go channel within its buffer. */
  lemma {:induction false} BoundedRunsStayWithinBounds(h: seq<Action>)
    requires BoundedRun(h)
    ensures OrderlyRun(h) && WithinBounds(After(h))
  {
    if h != [] {
      BoundedRunsStayWithinBounds(h[..|h| - 1]);
      StepStaysWithinBounds(After(h[..|h| - 1]), h[|h| - 1]);
    }
  }

  lemma SomeMover(h: seq<Action>, p: Proc) returns (q: Proc)
    requires BoundedRun(h) && Roomy(After(h)) && Busy(After(h), p)
    ensures CanMove(After(h), q)
  {
    BoundedRunsStayWithinBounds(h);
    SomebodyMoves(h, p);
    if CanMove(After(h), p) { return p; }
    q :| Waits(After(h), p, q) && (CanMove(After(h), q) || exists r :: Waits(After(h), q, r) && CanMove(After(h), r));
    if !CanMove(After(h), q) { q :| CanMove(After(h), q); }
  }

  /** The doppelganger gives up at its next round. */
  predicate LastRound(x: Dop) { x.unwinding && x.cantExit && x.rounds + 1 >= PATIENCE }

  /** A bounded orderly history can be continued as one, by a goroutine's own step, while
      any goroutine has something to do; only a doppelganger whose patience is at an end
      may be the one to move instead, and it closes its callbacks. */
  lemma BoundedRunsGoOn(h: seq<Action>, p: Proc) returns (a: Action)
    requires BoundedRun(h) && Roomy(After(h)) && Busy(After(h), p)
    ensures Internal(a) && Enabled(After(h), a) && Fits(After(h), a)
    ensures BoundedRun(h + [a]) || (a.ExitProcedure? && LastRound(At(After(h), a.d)))
  {
    var q := SomeMover(h, p);
    a :| Internal(a) && Actor(a) == q && Enabled(After(h), a) && Fits(After(h), a);
    BoundedThen(h, a);
  }

  lemma BoundedThen(h: seq<Action>, a: Action)
    requires BoundedRun(h) && Internal(a) && Enabled(After(h), a) && Fits(After(h), a)
    ensures BoundedRun(h + [a]) || (a.ExitProcedure? && LastRound(At(After(h), a.d)))
  {
    assert (h + [a])[..|h|] == h;
  }
}
