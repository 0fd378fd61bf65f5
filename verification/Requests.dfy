/** Orderly runs: no request and no answer is lost.  Whoever waits for an answer has its
    request, or the answer to it, in one of the queues, and whoever has waits for it. */
module Requests {
  import opened Options
  import opened Wire
  import opened Client
  import opened ChatRoom
  import opened Network
  import opened Membership
  import opened Orderly
  import opened Conversation
  import opened Closing

  // ------------------------------------------------------------------ where it is

  ghost predicate Queued(s: State, i: InstId, m: ToChat) {
    i < |s.insts| && m in s.insts[i].queue
  }

  ghost predicate Scripted(s: State, i: InstId, op: Op) {
    i < |s.insts| && op in s.insts[i].script
  }

  /** What the token says is where it says. */
  ghost predicate Located(s: State, d: DopId, t: Token) {
    match t
    case Free => true
    case Asked => exists user, name :: Join(d, user, name) in s.masterQ
    case Booked => s.todo.Forward? && s.todo.m.Enter? && s.todo.m.d == d
    case Turning => s.todo == Reply(d, Refused)
    case Turned => Refused in At(s, d).fromMaster
    case Knocking(i) => exists user :: Queued(s, i, Enter(d, user))
    case Entering(i) => i < |s.insts| && Newcomer(s.insts[i].script, d)
    case Refusing(i) => Scripted(s, i, Send(d, Denied))
    case Rebuffed => Denied in At(s, d).fromChat
    case Invited(i) => exists c :: Joined(c, i) in At(s, d).fromChat
    case Inside(_) => true
    case ExitAsked(i) => i < |s.insts| && Exit(s.insts[i].cid, d) in s.masterQ
    case ExitInHand(_) => s.todo.Forward? && s.todo.m == Leave(d)
    case ExitQueued(i) => Queued(s, i, Leave(d))
    case ExitTelling(i) => Scripted(s, i, Send(d, Left(d)))
    case ExitTold => Left(d) in At(s, d).fromChat
  }

  ghost predicate AllLocated(s: State, T: Tokens) {
    forall d: DopId :: Located(s, d, Tok(T, d))
  }

  // ------------------------------------------------------------------ what stays where it is

  /** Nothing is taken from where a token may be. */
  ghost predicate OnlyGrows(s: State, t: State, d: DopId) {
    && (forall m :: m in s.masterQ ==> m in t.masterQ)
    && t.todo == s.todo
    && (forall m :: m in At(s, d).fromMaster ==> m in At(t, d).fromMaster)
    && (forall m :: m in At(s, d).fromChat ==> m in At(t, d).fromChat)
    && |s.insts| <= |t.insts|
    && forall i :: 0 <= i < |s.insts| ==>
         && t.insts[i].cid == s.insts[i].cid && t.insts[i].script == s.insts[i].script
         && t.insts[i].queue == s.insts[i].queue
  }

  lemma StillLocated(s: State, t: State, d: DopId, u: Token)
    requires OnlyGrows(s, t, d) && Located(s, d, u)
    ensures Located(t, d, u)
  {
    match u
    case Asked =>
      var user, name :| Join(d, user, name) in s.masterQ;
      assert Join(d, user, name) in t.masterQ;
    case Knocking(i) =>
      var user :| Queued(s, i, Enter(d, user));
      assert Queued(t, i, Enter(d, user));
    case Invited(i) =>
      var c :| Joined(c, i) in At(s, d).fromChat;
      assert Joined(c, i) in At(t, d).fromChat;
    case _ =>
  }

  // ------------------------------------------------------------------ doppelgangers

  lemma SendsGrow(s: State, d: DopId, x: Dop, out: Out, e: DopId)
    requires x.fromMaster == At(s, d).fromMaster && x.fromChat == At(s, d).fromChat
    ensures OnlyGrows(s, Dispatch(Put(s, d, x), d, out), e)
  {
  }

  /** d has sent something, or nothing. */
  lemma SentIsLocated(s: State, T: Tokens, d: DopId, x: Dop, out: Out)
    requires DopTidy(At(s, d), d, Tok(T, d), Cids(s.insts)) && Located(s, d, Tok(T, d))
    requires x.fromMaster == At(s, d).fromMaster && x.fromChat == At(s, d).fromChat
    requires out.ToTheMaster? ==> out.m.d == d && (!out.m.Join? ==> AtHome(Tok(T, d), Cids(s.insts), out.m.c))
    ensures Located(Dispatch(Put(s, d, x), d, out), d, Sent(Tok(T, d), out))
  {
    var t := Dispatch(Put(s, d, x), d, out);
    if out.ToTheMaster? { assert out.m in t.masterQ; }
    if Sent(Tok(T, d), out) == Tok(T, d) {
      SendsGrow(s, d, x, out, d);
      StillLocated(s, t, d, Tok(T, d));
    } else if out.m.Join? {
      assert out.m == Join(d, out.m.user, out.m.name);
    }
  }

  lemma HeadOrTail<X>(q: seq<X>, x: X)
    requires x in q && q != []
    ensures x == q[0] || x in q[1..]
  {
    assert q == [q[0]] + q[1..];
  }

  /** Having read one message from the chat channel. */
  lemma ReadIsLocated(s: State, t: State, d: DopId, u: Token)
    requires Located(s, d, u) && At(s, d).fromChat != [] && t == Put(s, d, At(t, d))
    requires At(t, d).fromMaster == At(s, d).fromMaster && At(t, d).fromChat == At(s, d).fromChat[1..]
    requires !Answer(At(s, d).fromChat[0], d)
    ensures Located(t, d, u)
  {
    var q := At(s, d).fromChat;
    match u
    case Rebuffed => HeadOrTail(q, Denied);
    case Invited(i) =>
      var c :| Joined(c, i) in q;
      HeadOrTail(q, Joined(c, i));
    case ExitTold => HeadOrTail(q, Left(d));
    case Asked => StillAsked(s, t, d);
    case Knocking(i) => StillKnocking(s, t, d, i);
    case _ =>
  }

  lemma StillAsked(s: State, t: State, d: DopId)
    requires Located(s, d, Asked) && t.masterQ == s.masterQ
    ensures Located(t, d, Asked)
  {
    var user, name :| Join(d, user, name) in s.masterQ;
    assert Join(d, user, name) in t.masterQ;
  }

  lemma StillKnocking(s: State, t: State, d: DopId, i: InstId)
    requires Located(s, d, Knocking(i)) && i < |s.insts| && i < |t.insts| && t.insts[i].queue == s.insts[i].queue
    ensures Located(t, d, Knocking(i))
  {
    var user :| Queued(s, i, Enter(d, user));
    assert Queued(t, i, Enter(d, user));
  }

  lemma UserLocated(s: State, T: Tokens, a: Action, d: DopId)
    requires Books(s) && Tidy(s, T) && Enabled(s, a) && OrderlyStep(s, a) && AllLocated(s, T)
    requires a.Lose? || a.Issue? || a.GetFromMaster? || a.GetFromChat? || a.ExitProcedure?
    ensures Located(Apply(s, a), d, Tok(Moved(s, T, a), d))
  {
    assert Located(s, d, Tok(T, d));
    if a.d == d {
      OwnLocated(s, T, a);
    } else {
      UserLeavesOthers(s, T, a, d);
      StillLocated(s, Apply(s, a), d, Tok(T, d));
    }
  }

  lemma UserLeavesOthers(s: State, T: Tokens, a: Action, d: DopId)
    requires a.Lose? || a.Issue? || a.GetFromMaster? || a.GetFromChat? || a.ExitProcedure?
    requires Enabled(s, a) && a.d != d
    ensures OnlyGrows(s, Apply(s, a), d) && Tok(Moved(s, T, a), d) == Tok(T, d)
  {
    UsersOnlySpeak(s, a);
  }

  lemma OwnLocated(s: State, T: Tokens, a: Action)
    requires Books(s) && Tidy(s, T) && Enabled(s, a) && OrderlyStep(s, a)
    requires a.Lose? || a.Issue? || a.GetFromMaster? || a.GetFromChat? || a.ExitProcedure?
    requires Located(s, a.d, Tok(T, a.d))
    ensures Located(Apply(s, a), a.d, Tok(Moved(s, T, a), a.d))
  {
    var x, t, cids := At(s, a.d), Tok(T, a.d), Cids(s.insts);
    assert DopTidy(x, a.d, t, cids) && DopOk(s, a.d);
    match a
    case Lose(d) => StillLocated(s, Apply(s, a), d, t);
    case Issue(d, cmd, lost) => IssueLocated(s, T, d, cmd, lost);
    case ExitProcedure(d) => UnwindLocated(s, T, d);
    case GetFromMaster(_, _) =>
    case GetFromChat(d, lost) => HearLocated(s, T, d, lost);
  }

  lemma IssueLocated(s: State, T: Tokens, d: DopId, cmd: Command, lost: bool)
    requires Books(s) && Tidy(s, T) && Enabled(s, Issue(d, cmd, lost)) && OrderlyStep(s, Issue(d, cmd, lost))
    requires Located(s, d, Tok(T, d))
    ensures Located(Apply(s, Issue(d, cmd, lost)), d, Tok(Moved(s, T, Issue(d, cmd, lost)), d))
  {
    var x, t, cids := At(s, d), Tok(T, d), Cids(s.insts);
    assert DopTidy(x, d, t, cids) && DopOk(s, d);
    DopObeys(x, d, t, cids, cmd, lost);
    SentIsLocated(s, T, d, Obey(x, d, cmd, lost).0, Obey(x, d, cmd, lost).1);
  }

  lemma UnwindLocated(s: State, T: Tokens, d: DopId)
    requires Books(s) && Tidy(s, T) && Enabled(s, ExitProcedure(d)) && OrderlyStep(s, ExitProcedure(d))
    requires Located(s, d, Tok(T, d))
    ensures Located(Apply(s, ExitProcedure(d)), d, Tok(Moved(s, T, ExitProcedure(d)), d))
  {
    var x, t, cids := At(s, d), Tok(T, d), Cids(s.insts);
    assert DopTidy(x, d, t, cids) && DopOk(s, d);
    DopUnwinds(x, d, t, cids);
    SentIsLocated(s, T, d, Unwind(x, d).0, Unwind(x, d).1);
  }

  lemma HearLocated(s: State, T: Tokens, d: DopId, lost: bool)
    requires Enabled(s, GetFromChat(d, lost)) && Located(s, d, Tok(T, d))
    ensures Located(Apply(s, GetFromChat(d, lost)), d, Tok(Moved(s, T, GetFromChat(d, lost)), d))
  {
    if !Answer(At(s, d).fromChat[0], d) { ReadIsLocated(s, Apply(s, GetFromChat(d, lost)), d, Tok(T, d)); }
  }

  // ------------------------------------------------------------------ the channel master

  /** The channel master, idle before, has taken something. */
  lemma TakenElsewhere(s: State, t: State, d: DopId, u: Token)
    requires Located(s, d, u) && s.todo == Idle && s.masterQ != [] && t.masterQ == s.masterQ[1..] && t.dops == s.dops
    requires |s.insts| <= |t.insts| && forall i :: 0 <= i < |s.insts| ==> t.insts[i] == s.insts[i]
    requires s.masterQ[0].d == d ==> s.masterQ[0].Who? || (u != Asked && !u.ExitAsked?)
    ensures Located(t, d, u)
  {
    match u
    case Asked =>
      var user, name :| Join(d, user, name) in s.masterQ;
      HeadOrTail(s.masterQ, Join(d, user, name));
    case Knocking(i) => StillKnocking(s, t, d, i);
    case ExitAsked(i) => HeadOrTail(s.masterQ, Exit(s.insts[i].cid, d));
    case Invited(i) =>
      var c :| Joined(c, i) in At(s, d).fromChat;
      assert Joined(c, i) in At(t, d).fromChat;
    case _ =>
  }

  lemma MasterTakeLocated(s: State, T: Tokens, found: nat, d: DopId)
    requires Books(s) && Tidy(s, T) && Enabled(s, MasterTake(found)) && Located(s, d, Tok(T, d))
    ensures Located(MasterTakes(s, found), d, Tok(Moved(s, T, MasterTake(found)), d))
  {
    var m := s.masterQ[0];
    if m.d == d && !m.Who? {
      assert RequestTidy(m, T, Cids(s.insts));
      OwnRequestTaken(s, T, found);
    } else {
      OthersRequestTaken(s, T, found, d);
      TakenElsewhere(s, MasterTakes(s, found), d, Tok(T, d));
    }
  }

  lemma OthersRequestTaken(s: State, T: Tokens, found: nat, d: DopId)
    requires Enabled(s, MasterTake(found)) && (s.masterQ[0].d != d || s.masterQ[0].Who?)
    ensures Tok(Moved(s, T, MasterTake(found)), d) == Tok(T, d)
    ensures var t := MasterTakes(s, found);
      && t.masterQ == s.masterQ[1..] && t.dops == s.dops && |s.insts| <= |t.insts|
      && forall i :: 0 <= i < |s.insts| ==> t.insts[i] == s.insts[i]
  {
  }

  lemma OwnRequestTaken(s: State, T: Tokens, found: nat)
    requires Books(s) && Tidy(s, T) && Enabled(s, MasterTake(found)) && !s.masterQ[0].Who?
    requires RequestTidy(s.masterQ[0], T, Cids(s.insts))
    ensures var d := s.masterQ[0].d;
      Located(MasterTakes(s, found), d, Tok(Moved(s, T, MasterTake(found)), d))
  {
    var m := s.masterQ[0];
    if m.Exit? {
      HomeIsRegistered(s, T, m.d, m.c);
      assert EntryOk(s, m.c);
    }
  }

  lemma MasterSendLocated(s: State, T: Tokens, d: DopId)
    requires Books(s) && Tidy(s, T) && Enabled(s, MasterSend) && Located(s, d, Tok(T, d))
    requires MasterSends(s).fault == Healthy
    ensures Located(MasterSends(s), d, Tok(Moved(s, T, MasterSend), d))
  {
    if s.todo.Reply? {
      ReplyLocated(s, T, d);
    } else {
      SendsSafely(s);
      ForwardIsPushed(s);
      if s.todo.m.Shutdown? || s.todo.m.d != d || s.todo.m.Roster? {
        ForwardedElsewhere(s, T, d);
      } else {
        ForwardLocated(s, T);
      }
    }
  }

  lemma ReplyLocated(s: State, T: Tokens, d: DopId)
    requires Tidy(s, T) && Enabled(s, MasterSend) && s.todo.Reply? && Located(s, d, Tok(T, d))
    requires MasterSends(s).fault == Healthy
    ensures Located(MasterSends(s), d, Tok(Moved(s, T, MasterSend), d))
  {
    if s.todo.d != d { SentElsewhere(s, MasterSends(s), d, Tok(T, d)); }
  }

  /** Of what the channel master had to send nothing was of d's. */
  lemma SentElsewhere(s: State, t: State, d: DopId, u: Token)
    requires Located(s, d, u) && (s.todo.Reply? ==> s.todo.d != d)
    requires s.todo.Forward? ==> s.todo.m.Shutdown? || s.todo.m.Roster? || s.todo.m.d != d
    requires t.masterQ == s.masterQ && At(t, d) == At(s, d) && |t.insts| == |s.insts|
    requires forall i :: 0 <= i < |s.insts| ==>
               && t.insts[i].cid == s.insts[i].cid && t.insts[i].script == s.insts[i].script
               && forall m :: m in s.insts[i].queue ==> m in t.insts[i].queue
    ensures Located(t, d, u)
  {
    match u
    case Asked => StillAsked(s, t, d);
    case Knocking(i) =>
      var user :| Queued(s, i, Enter(d, user));
      assert Queued(t, i, Enter(d, user));
    case Invited(i) =>
      var c :| Joined(c, i) in At(s, d).fromChat;
      assert Joined(c, i) in At(t, d).fromChat;
    case _ =>
  }

  lemma ForwardedElsewhere(s: State, T: Tokens, d: DopId)
    requires Books(s) && Enabled(s, MasterSend) && s.todo.Forward? && Located(s, d, Tok(T, d))
    requires s.todo.m.Shutdown? || s.todo.m.d != d || s.todo.m.Roster?
    ensures Located(MasterSends(s), d, Tok(Moved(s, T, MasterSend), d))
  {
    ForwardIsPushed(s);
    ForwardKeepsTokens(s, T, d);
    SentElsewhere(s, MasterSends(s), d, Tok(T, d));
  }

  lemma ForwardKeepsTokens(s: State, T: Tokens, d: DopId)
    requires s.todo.Forward? && (s.todo.m.Shutdown? || s.todo.m.d != d || s.todo.m.Roster?)
    ensures Tok(Moved(s, T, MasterSend), d) == Tok(T, d)
  {
  }

  lemma ForwardLocated(s: State, T: Tokens)
    requires Books(s) && Enabled(s, MasterSend) && s.todo.Forward? && (s.todo.m.Enter? || s.todo.m.Leave?)
    ensures Located(MasterSends(s), s.todo.m.d, Tok(Moved(s, T, MasterSend), s.todo.m.d))
  {
    ForwardIsPushed(s);
    var i := s.reg[s.todo.c].inst;
    assert s.todo.m in MasterSends(s).insts[i].queue;
    if s.todo.m.Enter? { assert Queued(MasterSends(s), i, Enter(s.todo.m.d, s.todo.m.user)); }
  }

  lemma MasterLocated(s: State, T: Tokens, a: Action, d: DopId)
    requires Books(s) && Tidy(s, T) && Enabled(s, a) && Located(s, d, Tok(T, d)) && Apply(s, a).fault == Healthy
    requires a.MasterTake? || a.MasterHear? || a.MasterSend?
    ensures Located(Apply(s, a), d, Tok(Moved(s, T, a), d))
  {
    match a
    case MasterTake(found) => MasterTakeLocated(s, T, found, d);
    case MasterHear => SentElsewhere(s, MasterHears(s), d, Tok(T, d));
    case MasterSend => MasterSendLocated(s, T, d);
  }

  // ------------------------------------------------------------------ chat channels

  /** The token is about nothing in room i's queue and script. */
  ghost predicate NotIn(t: Token, i: InstId) {
    Room(t) != Some(i) || t == Invited(i) || t == Inside(i) || t == ExitAsked(i) || t == ExitInHand(i)
  }

  lemma OtherRoomLocated(s: State, t: State, d: DopId, u: Token, i: InstId)
    requires Located(s, d, u) && i < |s.insts| && |t.insts| == |s.insts| && NotIn(u, i)
    requires t.masterQ == s.masterQ && t.todo == s.todo && t.insts[i].cid == s.insts[i].cid
    requires forall j :: 0 <= j < |s.insts| && j != i ==> t.insts[j] == s.insts[j]
    requires At(t, d).fromMaster == At(s, d).fromMaster
    requires forall m :: m in At(s, d).fromChat ==> m in At(t, d).fromChat
    ensures Located(t, d, u)
  {
    match u
    case Asked => StillAsked(s, t, d);
    case Knocking(j) => StillKnocking(s, t, d, j);
    case Invited(j) =>
      var c :| Joined(c, j) in At(s, d).fromChat;
      assert Joined(c, j) in At(t, d).fromChat;
    case _ =>
  }

  lemma OwnTaken(s: State, T: Tokens, i: InstId, order: seq<DopId>, d: DopId)
    requires Tidy(s, T) && Enabled(s, ChatTake(i, order))
    requires var m := s.insts[i].queue[0]; (m.Enter? || m.Leave?) && m.d == d
    ensures Located(PutInst(s, i, Take(s.insts[i], order)), d, Tok(Moved(s, T, ChatTake(i, order)), d))
  {
    var r, m := s.insts[i], s.insts[i].queue[0];
    if m.Leave? {
      assert RoomTidy(r, i, T) && OrderTidy(m, i, T);
      LeaverIsTold(r, order, d);
    } else {
      JoinerIsTaken(r, order, d, m.user);
    }
  }

  lemma LeaverIsTold(r: Inst, order: seq<DopId>, d: DopId)
    requires r.queue != [] && r.queue[0] == Leave(d) && d in r.members && Lists(order, Audience(r.members, r.queue[0]))
    ensures Send(d, Left(d)) in Take(r, order).script
  {
    assert d in order;
    var k :| 0 <= k < |order| && order[k] == d;
    assert Take(r, order).script[k] == Send(d, Left(d));
  }

  lemma JoinerIsTaken(r: Inst, order: seq<DopId>, d: DopId, user: int)
    requires r.queue != [] && r.queue[0] == Enter(d, user)
    ensures if |r.members| >= MAX_MEMBERS then Send(d, Denied) in Take(r, order).script
            else Newcomer(Take(r, order).script, d)
  {
  }

  lemma OthersTaken(s: State, T: Tokens, i: InstId, order: seq<DopId>, d: DopId)
    requires Enabled(s, ChatTake(i, order)) && Located(s, d, Tok(T, d))
    requires var m := s.insts[i].queue[0]; m.Shutdown? || m.Roster? || m.d != d
    ensures Tok(Moved(s, T, ChatTake(i, order)), d) == Tok(T, d)
    ensures Located(PutInst(s, i, Take(s.insts[i], order)), d, Tok(T, d))
  {
    var t, u := PutInst(s, i, Take(s.insts[i], order)), Tok(T, d);
    if NotIn(u, i) {
      OtherRoomLocated(s, t, d, u, i);
    } else if u.Knocking? {
      var user :| Queued(s, i, Enter(d, user));
      HeadOrTail(s.insts[i].queue, Enter(d, user));
      assert Queued(t, i, Enter(d, user));
    } else {
      HeadOrTail(s.insts[i].queue, Leave(d));
    }
  }

  lemma ListenLocated(s: State, i: InstId, order: seq<DopId>, d: DopId, u: Token)
    requires Enabled(s, ChatListen(i, order)) && Located(s, d, u)
    ensures Located(PutInst(s, i, Listen(s.insts[i], order)), d, u)
  {
    var t := PutInst(s, i, Listen(s.insts[i], order));
    if NotIn(u, i) {
      OtherRoomLocated(s, t, d, u, i);
    } else if u.Knocking? {
      StillKnocking(s, t, d, i);
    }
  }

  /** What room i delivers to d is where d's token says. */
  lemma OwnDelivered(s: State, T: Tokens, i: InstId, d: DopId)
    requires Enabled(s, ChatStep(i)) && ChatSteps(s, i).fault == Healthy
    requires var op := s.insts[i].script[0];
      (op.Admit? && op.d == d) || op == Send(d, Denied) || op == Send(d, Left(d))
    ensures Located(ChatSteps(s, i), d, Tok(Moved(s, T, ChatStep(i)), d))
  {
    var r := s.insts[i];
    var m := if r.script[0].Admit? then Joined(r.cid, i) else r.script[0].m;
    StepPuts(s, i, d, m);
    assert Joined(r.cid, i) == m ==> Joined(r.cid, i) in At(ChatSteps(s, i), d).fromChat;
  }

  lemma StepPuts(s: State, i: InstId, d: DopId, m: FromChat)
    requires Enabled(s, ChatStep(i)) && ChatSteps(s, i).fault == Healthy
    requires var op := s.insts[i].script[0];
      (op.Admit? && op.d == d && m == Joined(s.insts[i].cid, i)) || op == Send(d, m)
    ensures m in At(ChatSteps(s, i), d).fromChat
  {
    assert ChatSteps(s, i) == Deliver(PutInst(s, i, Perform(s.insts[i])), d, m);
  }

  lemma StepLeaves(s: State, T: Tokens, i: InstId, d: DopId)
    requires Enabled(s, ChatStep(i)) && ChatSteps(s, i).fault == Healthy
    requires var op := s.insts[i].script[0];
      !(op.Admit? && op.d == d) && op != Send(d, Denied) && op != Send(d, Left(d))
    ensures Tok(Moved(s, T, ChatStep(i)), d) == Tok(T, d)
    ensures var t := ChatSteps(s, i);
      && t.masterQ == s.masterQ && t.todo == s.todo && t.insts == s.insts[i := Perform(s.insts[i])]
      && At(t, d).fromMaster == At(s, d).fromMaster
      && forall m :: m in At(s, d).fromChat ==> m in At(t, d).fromChat
  {
    ChatStepKeeps(s, i, d);
  }

  lemma OthersStepped(s: State, t: State, i: InstId, d: DopId, u: Token)
    requires Located(s, d, u) && i < |s.insts| && s.insts[i].script != []
    requires var op := s.insts[i].script[0];
      !(op.Admit? && op.d == d) && op != Send(d, Denied) && op != Send(d, Left(d))
    requires t.masterQ == s.masterQ && t.todo == s.todo && t.insts == s.insts[i := Perform(s.insts[i])]
    requires At(t, d).fromMaster == At(s, d).fromMaster
    requires forall m :: m in At(s, d).fromChat ==> m in At(t, d).fromChat
    ensures Located(t, d, u)
  {
    if NotIn(u, i) {
      OtherRoomLocated(s, t, d, u, i);
    } else if u.Knocking? {
      StillKnocking(s, t, d, i);
    } else if u.Refusing? {
      HeadOrTail(s.insts[i].script, Send(d, Denied));
    } else if u.ExitTelling? {
      HeadOrTail(s.insts[i].script, Send(d, Left(d)));
    }
  }

  lemma StepLocated(s: State, T: Tokens, i: InstId, d: DopId)
    requires Enabled(s, ChatStep(i)) && ChatSteps(s, i).fault == Healthy && Located(s, d, Tok(T, d))
    ensures Located(ChatSteps(s, i), d, Tok(Moved(s, T, ChatStep(i)), d))
  {
    var op := s.insts[i].script[0];
    if (op.Admit? && op.d == d) || op == Send(d, Denied) || op == Send(d, Left(d)) {
      OwnDelivered(s, T, i, d);
    } else {
      StepLeaves(s, T, i, d);
      OthersStepped(s, ChatSteps(s, i), i, d, Tok(T, d));
    }
  }

  lemma RoomLocated(s: State, T: Tokens, a: Action, d: DopId)
    requires Books(s) && Tidy(s, T) && Enabled(s, a) && Located(s, d, Tok(T, d)) && Apply(s, a).fault == Healthy
    requires a.ChatTake? || a.ChatListen? || a.ChatStep?
    ensures Located(Apply(s, a), d, Tok(Moved(s, T, a), d))
  {
    match a
    case ChatTake(i, order) =>
      var m := s.insts[i].queue[0];
      if (m.Enter? || m.Leave?) && m.d == d { OwnTaken(s, T, i, order, d); } else { OthersTaken(s, T, i, order, d); }
    case ChatListen(i, order) => ListenLocated(s, i, order, d, Tok(T, d));
    case ChatStep(i) => StepLocated(s, T, i, d);
  }

  // ------------------------------------------------------------------ every orderly run

  lemma LocatedStep(s: State, T: Tokens, a: Action)
    requires Books(s) && Tidy(s, T) && Enabled(s, a) && OrderlyStep(s, a) && AllLocated(s, T)
    requires Apply(s, a).fault == Healthy
    ensures AllLocated(Apply(s, a), Moved(s, T, a))
  {
    forall d: DopId ensures Located(Apply(s, a), d, Tok(Moved(s, T, a), d)) {
      assert Located(s, d, Tok(T, d));
      if a.MasterTake? || a.MasterHear? || a.MasterSend? {
        MasterLocated(s, T, a, d);
      } else if a.ChatTake? || a.ChatListen? || a.ChatStep? {
        RoomLocated(s, T, a, d);
      } else {
        UserLocated(s, T, a, d);
      }
    }
  }

  lemma {:induction false} OrderlyIsLocated(h: seq<Action>) returns (T: Tokens)
    requires OrderlyRun(h)
    ensures Books(After(h)) && Tidy(After(h), T) && AllLocated(After(h), T)
  {
    OrderlyIsPossible(h);
    BooksBalance(h);
    if h == [] {
      T := map[];
      assert forall d: DopId :: DopTidy(At(INIT, d), d, Tok(T, d), Cids(INIT.insts));
    } else {
      var g, a := h[..|h| - 1], h[|h| - 1];
      var U := OrderlyIsLocated(g);
      TidyStep(After(g), U, a);
      LocatedStep(After(g), U, a);
      T := Moved(After(g), U, a);
    }
  }

  /** A join or an exit of d's, or the answer to it, is in one of the queues: with the channel
      master, on its way to a chat channel, with the chat channel, or back with d. */
  ghost predicate Underway(s: State, d: DopId) {
    || (exists k :: 0 <= k < |s.masterQ| && s.masterQ[k].d == d && !s.masterQ[k].Who?)
    || s.todo == Reply(d, Refused)
    || (s.todo.Forward? && (s.todo.m.Enter? || s.todo.m.Leave?) && s.todo.m.d == d)
    || (exists i :: 0 <= i < |s.insts| && WithRoom(s.insts[i], d))
    || Refused in At(s, d).fromMaster
    || (exists k :: 0 <= k < |At(s, d).fromChat| && Answer(At(s, d).fromChat[k], d))
  }

  ghost predicate WithRoom(r: Inst, d: DopId) {
    || (exists k :: 0 <= k < |r.queue| && (r.queue[k].Enter? || r.queue[k].Leave?) && r.queue[k].d == d)
    || Newcomer(r.script, d) || Send(d, Denied) in r.script || Send(d, Left(d)) in r.script
  }

  lemma LocatedUnderway(s: State, d: DopId, t: Token)
    requires Located(s, d, t) && !t.Free? && !t.Inside?
    ensures Underway(s, d)
  {
    match t
    case Asked => var user, name :| Join(d, user, name) in s.masterQ;
    case Knocking(i) =>
      var user :| Queued(s, i, Enter(d, user));
      assert WithRoom(s.insts[i], d);
    case Entering(i) => assert WithRoom(s.insts[i], d);
    case Refusing(i) => assert WithRoom(s.insts[i], d);
    case Invited(i) => var c :| Joined(c, i) in At(s, d).fromChat;
    case ExitQueued(i) => assert WithRoom(s.insts[i], d);
    case ExitTelling(i) => assert WithRoom(s.insts[i], d);
    case _ =>
  }

  /** The other way round, a token that says nothing is out is not contradicted. */
  lemma UnderwayHasToken(s: State, T: Tokens, d: DopId)
    requires Tidy(s, T) && Underway(s, d)
    ensures !Tok(T, d).Free? && !Tok(T, d).Inside?
  {
    assert DopTidy(At(s, d), d, Tok(T, d), Cids(s.insts));
    if k :| 0 <= k < |s.masterQ| && s.masterQ[k].d == d && !s.masterQ[k].Who? {
      assert RequestTidy(s.masterQ[k], T, Cids(s.insts));
    } else if i :| 0 <= i < |s.insts| && WithRoom(s.insts[i], d) {
      RoomHasToken(s.insts[i], i, T, d);
    } else if k :| 0 <= k < |At(s, d).fromChat| && Answer(At(s, d).fromChat[k], d) {
      assert AnswerTidy(At(s, d).fromChat[k], d, Tok(T, d), Cids(s.insts));
    }
  }

  lemma RoomHasToken(r: Inst, i: InstId, T: Tokens, d: DopId)
    requires RoomTidy(r, i, T) && WithRoom(r, d)
    ensures !Tok(T, d).Free? && !Tok(T, d).Inside?
  {
    if k :| 0 <= k < |r.queue| && (r.queue[k].Enter? || r.queue[k].Leave?) && r.queue[k].d == d {
      assert OrderTidy(r.queue[k], i, T);
    } else if Newcomer(r.script, d) {
      assert OpTidy(r.script[0], r.script, i, T);
    } else {
      var m := if Send(d, Denied) in r.script then Denied else Left(d);
      var k :| 0 <= k < |r.script| && r.script[k] == Send(d, m);
      assert OpTidy(r.script[k], r.script, i, T);
    }
  }

  /** In every orderly run a doppelganger waits for an answer if and only if its join or exit,
      or the answer to it, is on its way.  So none is lost. */
  lemma NothingIsLost(h: seq<Action>, d: DopId)
    requires OrderlyRun(h)
    ensures 0 < At(After(h), d).awaiting <==> Underway(After(h), d)
  {
    var s := After(h);
    var T := OrderlyIsLocated(h);
    assert DopTidy(At(s, d), d, Tok(T, d), Cids(s.insts)) && Located(s, d, Tok(T, d));
    if 0 < At(s, d).awaiting { LocatedUnderway(s, d, Tok(T, d)); }
    if Underway(s, d) { UnderwayHasToken(s, T, d); }
  }
}
