/** Orderly runs: who is counted at a chat channel is on it, or about to hear that it is,
    or has an exit on its way there. */
module Tickets {
  import opened Options
  import opened Wire
  import opened Client
  import opened ChatRoom
  import opened Network
  import opened Membership
  import opened Orderly
  import opened Conversation
  import opened Capacity
  import opened Closing

  /** The owner is counted at instance i, and nowhere else. */
  predicate Holds(t: Token, i: InstId) {
    t == Invited(i) || t == Inside(i) || t == ExitAsked(i) || t == ExitInHand(i)
  }

  ghost predicate TicketsHeld(s: State, T: Tokens) {
    forall i, d: DopId :: 0 <= i < |s.insts| ==> s.insts[i].tickets[d] <= Bit(Holds(Tok(T, d), i))
  }

  // ------------------------------------------------------------------ who holds one goes on holding it

  lemma IssueKeepsHolding(s: State, T: Tokens, d: DopId, cmd: Command, lost: bool, i: InstId)
    requires Books(s) && Tidy(s, T) && Enabled(s, Issue(d, cmd, lost)) && OrderlyStep(s, Issue(d, cmd, lost))
    requires Holds(Tok(T, d), i)
    ensures Holds(Sent(Tok(T, d), Obey(At(s, d), d, cmd, lost).1), i)
  {
    assert DopTidy(At(s, d), d, Tok(T, d), Cids(s.insts)) && DopOk(s, d);
    DopObeys(At(s, d), d, Tok(T, d), Cids(s.insts), cmd, lost);
  }

  lemma UnwindKeepsHolding(s: State, T: Tokens, d: DopId, i: InstId)
    requires Books(s) && Tidy(s, T) && Enabled(s, ExitProcedure(d)) && OrderlyStep(s, ExitProcedure(d))
    requires Holds(Tok(T, d), i)
    ensures Holds(Sent(Tok(T, d), Unwind(At(s, d), d).1), i)
  {
    assert DopTidy(At(s, d), d, Tok(T, d), Cids(s.insts)) && DopOk(s, d);
    DopUnwinds(At(s, d), d, Tok(T, d), Cids(s.insts));
  }

  lemma UserKeepsHolding(s: State, T: Tokens, a: Action, d: DopId, i: InstId)
    requires Books(s) && Tidy(s, T) && Enabled(s, a) && OrderlyStep(s, a) && Holds(Tok(T, d), i)
    requires a.Lose? || a.Issue? || a.GetFromMaster? || a.GetFromChat? || a.ExitProcedure?
    ensures Holds(Tok(Moved(s, T, a), d), i)
  {
    if a.d == d {
      assert DopTidy(At(s, d), d, Tok(T, d), Cids(s.insts));
      match a
      case Issue(_, cmd, lost) => IssueKeepsHolding(s, T, d, cmd, lost, i);
      case ExitProcedure(_) => UnwindKeepsHolding(s, T, d, i);
      case GetFromChat(_, _) => assert AnswerTidy(At(s, d).fromChat[0], d, Tok(T, d), Cids(s.insts));
      case _ =>
    }
  }

  lemma TakingKeepsHolding(s: State, T: Tokens, found: nat, d: DopId, i: InstId)
    requires Tidy(s, T) && Enabled(s, MasterTake(found)) && Holds(Tok(T, d), i)
    ensures Holds(Tok(Moved(s, T, MasterTake(found)), d), i)
  {
    var m := s.masterQ[0];
    assert RequestTidy(m, T, Cids(s.insts));
    assert m.d == d ==> !m.Join?;
    assert m.Exit? && m.d == d ==> Tok(T, d) == ExitAsked(i);
  }

  /** But for an exit that is forwarded. */
  lemma SendingKeepsHolding(s: State, T: Tokens, d: DopId, i: InstId)
    requires Tidy(s, T) && Enabled(s, MasterSend) && Holds(Tok(T, d), i)
    ensures Holds(Tok(Moved(s, T, MasterSend), d), i) || (s.todo.Forward? && s.todo.m == Leave(d))
  {
    assert TodoTidy(s.todo, T, Cids(s.insts));
  }

  lemma RoomKeepsHolding(s: State, T: Tokens, a: Action, d: DopId, i: InstId)
    requires Tidy(s, T) && Enabled(s, a) && Holds(Tok(T, d), i)
    requires a.ChatTake? || a.ChatListen? || a.ChatStep?
    ensures Holds(Tok(Moved(s, T, a), d), i)
  {
    var r := s.insts[a.i];
    assert RoomTidy(r, a.i, T);
    if a.ChatTake? { assert OrderTidy(r.queue[0], a.i, T); }
    if a.ChatStep? { assert OpTidy(r.script[0], r.script, a.i, T); }
  }

  lemma KeepsHolding(s: State, T: Tokens, a: Action, d: DopId, i: InstId)
    requires Books(s) && Tidy(s, T) && Enabled(s, a) && OrderlyStep(s, a) && Holds(Tok(T, d), i)
    ensures Holds(Tok(Moved(s, T, a), d), i) || (a.MasterSend? && s.todo.Forward? && s.todo.m == Leave(d))
  {
    match a
    case MasterTake(found) => TakingKeepsHolding(s, T, found, d, i);
    case MasterHear =>
    case MasterSend => SendingKeepsHolding(s, T, d, i);
    case ChatTake(_, _) => RoomKeepsHolding(s, T, a, d, i);
    case ChatListen(_, _) => RoomKeepsHolding(s, T, a, d, i);
    case ChatStep(_) => RoomKeepsHolding(s, T, a, d, i);
    case _ => UserKeepsHolding(s, T, a, d, i);
  }

  // ------------------------------------------------------------------ no ticket without a holder

  /** Tickets are given out on admission and taken back when an exit is forwarded. */
  lemma TicketsStep(s: State, a: Action, i: InstId)
    requires Enabled(s, a) && i < |s.insts|
    ensures i < |Apply(s, a).insts|
    ensures var r, q := s.insts[i], Apply(s, a).insts[i];
      || q.tickets == r.tickets
      || (a == ChatStep(i) && r.script[0].Admit? && q.tickets == r.tickets + multiset{r.script[0].d})
      || (a.MasterSend? && s.todo.Forward? && s.todo.m.Leave? && s.todo.c in s.reg && s.reg[s.todo.c].inst == i
          && q.tickets == r.tickets - multiset{s.todo.m.d})
  {
    match a
    case MasterSend => MasterSendsTickets(s, i);
    case MasterTake(found) => MasterTakesOrLaunches(s, found, i);
    case ChatStep(j) => RoomStepsItself(s, i, j);
    case MasterHear =>
    case ChatTake(_, _) =>
    case ChatListen(_, _) =>
    case _ => UsersOnlySpeak(s, a);
  }

  lemma MasterSendsTickets(s: State, i: InstId)
    requires Enabled(s, MasterSend) && i < |s.insts|
    ensures i < |MasterSends(s).insts|
    ensures var r, q := s.insts[i], MasterSends(s).insts[i];
      || q.tickets == r.tickets
      || (s.todo.Forward? && s.todo.m.Leave? && s.todo.c in s.reg && s.reg[s.todo.c].inst == i
          && q.tickets == r.tickets - multiset{s.todo.m.d})
  {
  }

  lemma TicketHeld(s: State, T: Tokens, a: Action, i: InstId, d: DopId)
    requires Books(s) && Tidy(s, T) && Enabled(s, a) && OrderlyStep(s, a) && i < |s.insts|
    requires s.insts[i].tickets[d] <= Bit(Holds(Tok(T, d), i))
    ensures i < |Apply(s, a).insts|
    ensures Apply(s, a).insts[i].tickets[d] <= Bit(Holds(Tok(Moved(s, T, a), d), i))
  {
    if a == ChatStep(i) && s.insts[i].script[0].Admit? && s.insts[i].script[0].d == d {
      AdmissionIsHeld(s, T, i, d);
    } else if a.MasterSend? && s.todo.Forward? && s.todo.m == Leave(d) {
      ExitIsHeld(s, T, i, d);
    } else {
      NoNewTicket(s, a, i, d);
      if Holds(Tok(T, d), i) { KeepsHolding(s, T, a, d, i); }
    }
  }

  lemma NoNewTicket(s: State, a: Action, i: InstId, d: DopId)
    requires Enabled(s, a) && i < |s.insts|
    requires !(a == ChatStep(i) && s.insts[i].script[0].Admit? && s.insts[i].script[0].d == d)
    ensures i < |Apply(s, a).insts| && Apply(s, a).insts[i].tickets[d] <= s.insts[i].tickets[d]
  {
    TicketsStep(s, a, i);
  }

  lemma AdmissionIsHeld(s: State, T: Tokens, i: InstId, d: DopId)
    requires Tidy(s, T) && Enabled(s, ChatStep(i)) && s.insts[i].script[0].Admit? && s.insts[i].script[0].d == d
    requires s.insts[i].tickets[d] <= Bit(Holds(Tok(T, d), i))
    ensures i < |Apply(s, ChatStep(i)).insts|
    ensures Apply(s, ChatStep(i)).insts[i].tickets[d] <= Bit(Holds(Tok(Moved(s, T, ChatStep(i)), d), i))
  {
    var r := s.insts[i];
    assert RoomTidy(r, i, T) && OpTidy(r.script[0], r.script, i, T);
    RoomStepsItself(s, i, i);
    assert Perform(r).tickets[d] == 1;
  }

  lemma ExitIsHeld(s: State, T: Tokens, i: InstId, d: DopId)
    requires Books(s) && Tidy(s, T) && Enabled(s, MasterSend) && s.todo.Forward? && s.todo.m == Leave(d)
    requires i < |s.insts| && s.insts[i].tickets[d] <= Bit(Holds(Tok(T, d), i))
    ensures i < |Apply(s, MasterSend).insts|
    ensures Apply(s, MasterSend).insts[i].tickets[d] == 0
  {
    HomeIsRegistered(s, T, d, s.todo.c);
    SendsSafely(s);
    MasterSendsTickets(s, i);
    ForwardIsPushed(s);
  }

  lemma TicketsHeldStep(s: State, T: Tokens, a: Action)
    requires Books(s) && Tidy(s, T) && Enabled(s, a) && OrderlyStep(s, a) && TicketsHeld(s, T)
    ensures TicketsHeld(Apply(s, a), Moved(s, T, a))
  {
    var t := Apply(s, a);
    forall i, d: DopId | 0 <= i < |t.insts| ensures t.insts[i].tickets[d] <= Bit(Holds(Tok(Moved(s, T, a), d), i)) {
      if i < |s.insts| {
        TicketHeld(s, T, a, i, d);
      } else {
        OnlyMasterTakeLaunches(s, a, i);
        MasterTakesOrLaunches(s, a.found, i);
      }
    }
  }

  // ------------------------------------------------------------------ who still waits for an answer

  /** Nobody on a channel waits for an answer, and of those with a user only who has
      asked to leave. */
  predicate Poised(x: Dop, t: Token) {
    (t.Inside? ==> !x.cantExit) && (x.cantExit && !x.gone ==> Exiting(t)) && (x.unwinding ==> x.gone)
  }

  ghost predicate AllPoised(s: State, T: Tokens) {
    forall d: DopId :: Poised(At(s, d), Tok(T, d))
  }

  lemma IssuePoised(x: Dop, d: DopId, t: Token, cids: seq<ChatId>, cmd: Command, lost: bool)
    requires DopTidy(x, d, t, cids) && Poised(x, t) && -1 <= x.id
    requires cmd.CmdJoin? ==> x.awaiting == 0
    requires cmd.CmdWho? || cmd.CmdExit? || cmd.CmdSay? ==> x.id != -1
    ensures var (y, out) := Obey(x, d, cmd, lost); Poised(y, Sent(t, out))
  {
  }

  lemma UnwindPoised(x: Dop, d: DopId, t: Token, cids: seq<ChatId>)
    requires DopTidy(x, d, t, cids) && Poised(x, t) && x.unwinding && -1 <= x.id
    ensures var (y, out) := Unwind(x, d); Poised(y, Sent(t, out))
  {
  }

  lemma HearingPoised(x: Dop, d: DopId, t: Token, cids: seq<ChatId>, lost: bool)
    requires DopTidy(x, d, t, cids) && Poised(x, t) && x.fromChat != []
    ensures var m := x.fromChat[0];
      Poised(HearChat(x.(fromChat := x.fromChat[1..]), d, m, lost),
             if !Answer(m, d) then t else if m.Joined? then Inside(m.inst) else Free)
  {
    assert AnswerTidy(x.fromChat[0], d, t, cids);
  }

  lemma UserPoised(s: State, T: Tokens, a: Action)
    requires Books(s) && Tidy(s, T) && Enabled(s, a) && OrderlyStep(s, a) && AllPoised(s, T)
    requires a.Lose? || a.Issue? || a.GetFromMaster? || a.GetFromChat? || a.ExitProcedure?
    ensures Poised(At(Apply(s, a), a.d), Tok(Moved(s, T, a), a.d))
  {
    var x, t := At(s, a.d), Tok(T, a.d);
    assert DopTidy(x, a.d, t, Cids(s.insts)) && DopOk(s, a.d) && Poised(x, t);
    match a
    case Issue(d, cmd, lost) =>
      IssuePoised(x, d, t, Cids(s.insts), cmd, lost);
      DispatchLeaves(Put(s, d, Obey(x, d, cmd, lost).0), d, Obey(x, d, cmd, lost).1);
    case ExitProcedure(d) =>
      UnwindPoised(x, d, t, Cids(s.insts));
      DispatchLeaves(Put(s, d, Unwind(x, d).0), d, Unwind(x, d).1);
    case _ => HearerPoised(s, T, a);
  }

  lemma DispatchLeaves(s: State, d: DopId, out: Out)
    ensures Dispatch(s, d, out).dops == s.dops
  {
  }

  lemma HearerPoised(s: State, T: Tokens, a: Action)
    requires Enabled(s, a) && (a.Lose? || a.GetFromMaster? || a.GetFromChat?)
    requires DopTidy(At(s, a.d), a.d, Tok(T, a.d), Cids(s.insts)) && Poised(At(s, a.d), Tok(T, a.d))
    ensures Poised(At(Apply(s, a), a.d), Tok(Moved(s, T, a), a.d))
  {
    if a.GetFromChat? { HearingPoised(At(s, a.d), a.d, Tok(T, a.d), Cids(s.insts), a.lost); }
  }

  /** A token that others move is not put on a channel, and an exit goes on. */
  predicate MovesOn(t: Token, u: Token) { u == t || (!u.Inside? && (Exiting(t) ==> Exiting(u))) }

  lemma ServerMovesOn(s: State, T: Tokens, a: Action, d: DopId)
    requires Tidy(s, T) && Enabled(s, a)
    requires a.MasterTake? || a.MasterHear? || a.MasterSend? || a.ChatTake? || a.ChatListen? || a.ChatStep?
    ensures MovesOn(Tok(T, d), Tok(Moved(s, T, a), d))
  {
    match a
    case MasterTake(found) => MasterTakingMovesOn(s, T, found, d);
    case MasterHear =>
    case MasterSend => SendingMovesOn(s, T, d);
    case ChatTake(i, order) => TakingMovesOn(s, T, i, order, d);
    case ChatListen(_, _) =>
    case ChatStep(i) => SteppingMovesOn(s, T, i, d);
  }

  lemma MasterTakingMovesOn(s: State, T: Tokens, found: nat, d: DopId)
    requires Tidy(s, T) && Enabled(s, MasterTake(found))
    ensures MovesOn(Tok(T, d), Tok(Moved(s, T, MasterTake(found)), d))
  {
    assert RequestTidy(s.masterQ[0], T, Cids(s.insts));
  }

  lemma SendingMovesOn(s: State, T: Tokens, d: DopId)
    requires Tidy(s, T) && Enabled(s, MasterSend)
    ensures MovesOn(Tok(T, d), Tok(Moved(s, T, MasterSend), d))
  {
    assert TodoTidy(s.todo, T, Cids(s.insts));
  }

  lemma TakingMovesOn(s: State, T: Tokens, i: InstId, order: seq<DopId>, d: DopId)
    requires Tidy(s, T) && Enabled(s, ChatTake(i, order))
    ensures MovesOn(Tok(T, d), Tok(Moved(s, T, ChatTake(i, order)), d))
  {
    assert RoomTidy(s.insts[i], i, T) && OrderTidy(s.insts[i].queue[0], i, T);
  }

  lemma SteppingMovesOn(s: State, T: Tokens, i: InstId, d: DopId)
    requires Tidy(s, T) && Enabled(s, ChatStep(i))
    ensures MovesOn(Tok(T, d), Tok(Moved(s, T, ChatStep(i)), d))
  {
    var r := s.insts[i];
    assert RoomTidy(r, i, T) && OpTidy(r.script[0], r.script, i, T);
  }

  lemma ServerOnlySends(s: State, a: Action, d: DopId)
    requires a.MasterTake? || a.MasterHear? || a.MasterSend? || a.ChatTake? || a.ChatListen? || a.ChatStep?
    ensures OnlyCallbacks(At(s, d), At(Apply(s, a), d))
  {
    match a
    case MasterSend =>
    case ChatStep(i) => if i < |s.insts| && s.insts[i].script != [] { StepOnlySends(s, i, d); }
    case _ =>
  }

  predicate OnlyCallbacks(x: Dop, y: Dop) { y == x.(fromMaster := y.fromMaster, fromChat := y.fromChat) }

  lemma StepOnlySends(s: State, i: InstId, d: DopId)
    requires i < |s.insts| && s.insts[i].script != []
    ensures OnlyCallbacks(At(s, d), At(ChatSteps(s, i), d))
  {
    var t := PutInst(s, i, Perform(s.insts[i]));
    match s.insts[i].script[0]
    case Admit(e, _) => DeliverOnlySends(t, e, Joined(s.insts[i].cid, i), d);
    case Send(e, m) => DeliverOnlySends(t, e, m, d);
    case ShowRoster(e) => DeliverOnlySends(t, e, Notice, d);
    case _ =>
  }

  lemma DeliverOnlySends(s: State, e: DopId, m: FromChat, d: DopId)
    ensures OnlyCallbacks(At(s, d), At(Deliver(s, e, m), d))
  {
  }

  lemma OthersUnmoved(s: State, T: Tokens, a: Action, d: DopId)
    requires a.Lose? || a.Issue? || a.GetFromMaster? || a.GetFromChat? || a.ExitProcedure?
    requires a.d != d
    ensures At(Apply(s, a), d) == At(s, d) && Tok(Moved(s, T, a), d) == Tok(T, d)
  {
  }

  lemma PoisedStep(s: State, T: Tokens, a: Action)
    requires Books(s) && Tidy(s, T) && Enabled(s, a) && OrderlyStep(s, a) && AllPoised(s, T)
    ensures AllPoised(Apply(s, a), Moved(s, T, a))
  {
    forall d: DopId ensures Poised(At(Apply(s, a), d), Tok(Moved(s, T, a), d)) {
      assert Poised(At(s, d), Tok(T, d));
      if a.Lose? || a.Issue? || a.GetFromMaster? || a.GetFromChat? || a.ExitProcedure? {
        if a.d == d { UserPoised(s, T, a); } else { OthersUnmoved(s, T, a, d); }
      } else {
        ServerOnlySends(s, a, d);
        ServerMovesOn(s, T, a, d);
      }
    }
  }

  // ------------------------------------------------------------------ every orderly run

  lemma {:induction false} OrderlyTickets(h: seq<Action>) returns (T: Tokens)
    requires OrderlyRun(h)
    ensures Books(After(h)) && Tidy(After(h), T) && TicketsHeld(After(h), T) && AllPoised(After(h), T)
  {
    OrderlyIsPossible(h);
    BooksBalance(h);
    if h == [] {
      T := map[];
      assert forall d: DopId :: DopTidy(At(INIT, d), d, Tok(T, d), Cids(INIT.insts));
    } else {
      var g, a := h[..|h| - 1], h[|h| - 1];
      var U := OrderlyTickets(g);
      TidyStep(After(g), U, a);
      TicketsHeldStep(After(g), U, a);
      PoisedStep(After(g), U, a);
      T := Moved(After(g), U, a);
    }
  }

  /** Where nothing is under way, memberCount is the number of members. */
  lemma QuietCount(h: seq<Action>, c: ChatId)
    requires OrderlyRun(h) && c in After(h).reg && After(h).reg[c].inst < |After(h).insts|
    requires var s := After(h);
      var r := s.insts[s.reg[c].inst];
      r.queue == [] && r.script == [] && c !in s.denials && JoinInHand(s.todo, c) == 0
    ensures After(h).reg[c].count == |After(h).insts[After(h).reg[c].inst].members|
  {
    var s := After(h);
    var T := OrderlyTickets(h);
    var i := s.reg[c].inst;
    assert EntryOk(s, c) && RoomOk(s.insts[i], Registered(s, i)) && RoomTidy(s.insts[i], i, T);
    OneTicketEach(s.insts[i]);
  }

  lemma OneTicketEach(r: Inst)
    requires forall d: DopId :: r.tickets[d] <= Bit(d in r.members)
    requires forall d :: d in r.members ==> d in r.tickets
    ensures |r.tickets| == |r.members|
  {
    assert r.tickets == multiset(r.members.Keys);
  }
}
