/** Full lists: a doppelganger that has closed its callbacks and is named only on lists of
    six with nothing on its way to them.  Then it depends on the others who hold the
    input of that chat channel: any of them can bring the panic about, and if there is
    none of them left, nobody can. */
module Isolation {
  import opened Options
  import opened Wire
  import opened Client
  import opened ChatRoom
  import opened Network
  import opened Membership
  import opened Inquiries
  import opened Conversation
  import opened Capacity
  import opened Closing
  import opened Reckoning

  // ------------------------------------------------------------------ someone can speak

  /** Whoever holds the input of a chat channel that lists d makes the server panic by
      speaking, if the channel is believed joined, or a join pending. */
  lemma SpeechDooms(s: State, e: DopId, line: Speech, i: InstId, d: DopId) returns (g: seq<Action>)
    requires Kept(s) && Enabled(s, Issue(e, CmdSay(line), false)) && At(s, e).id != 0 && At(s, e).link == Some(i)
    requires i < |s.insts| && !s.insts[i].closed && Listed(s.insts[i], d) && At(s, d).closed
    ensures var t := Apply(s, Issue(e, CmdSay(line), false));
      Runs(t, g) && Final(t, g).fault != Healthy
  {
    var t := Apply(s, Issue(e, CmdSay(line), false));
    SpeechArrives(s, e, line, i, d);
    OpenRoom(s, i);
    g := FinishRoom(t, i, d);
  }

  lemma SpeechArrives(s: State, e: DopId, line: Speech, i: InstId, d: DopId)
    requires Enabled(s, Issue(e, CmdSay(line), false)) && At(s, e).id != 0 && At(s, e).link == Some(i)
    requires i < |s.insts| && !s.insts[i].closed && Listed(s.insts[i], d) && At(s, d).closed
    ensures var t := Apply(s, Issue(e, CmdSay(line), false));
      && t.fault == Healthy && i < |t.insts| && !t.insts[i].closed && t.insts[i].queue == s.insts[i].queue
      && RoomOwes(t.insts[i], d) && At(t, d).closed
  {
  }

  /** A user who is there and has left the channel, or is about to hear of having joined
      it, needs one or more steps before. */
  lemma {:induction false} PresentUserDooms(s: State, e: DopId, line: Speech, i: InstId, d: DopId)
    returns (f: seq<Action>, g: seq<Action>)
    requires Kept(s) && !Down(s) && Holds(s, e, i) && !At(s, e).gone && !At(s, e).unwinding
    requires i < |s.insts| && !s.insts[i].closed && Listed(s.insts[i], d) && At(s, d).closed
    ensures Moves(s, f, e) && Runs(Moved(s, f), g) && Moved(s, f).fault == Healthy
    ensures Final(Moved(s, f), g).fault != Healthy
    decreases |At(s, e).fromChat|
  {
    if At(s, e).link == Some(i) {
      f, g := HolderDooms(s, e, line, i, d);
    } else {
      var a := GetFromChat(e, false);
      KeptStep(s, a);
      HoldsStill(s, e, i);
      var f2;
      f2, g := PresentUserDooms(Apply(s, a), e, line, i, d);
      FirstMove(s, a, f2, e);
      f := [a] + f2;
    }
  }

  /** One who holds the input already, with a join typed first if the id is 0. */
  lemma HolderDooms(s: State, e: DopId, line: Speech, i: InstId, d: DopId) returns (f: seq<Action>, g: seq<Action>)
    requires Kept(s) && !Down(s) && At(s, e).link == Some(i)
    requires !At(s, e).closed && !At(s, e).gone && !At(s, e).unwinding
    requires i < |s.insts| && !s.insts[i].closed && Listed(s.insts[i], d) && At(s, d).closed
    ensures Moves(s, f, e) && Runs(Moved(s, f), g) && Moved(s, f).fault == Healthy
    ensures Final(Moved(s, f), g).fault != Healthy
  {
    var say := Issue(e, CmdSay(line), false);
    if At(s, e).id != 0 {
      SpeechArrives(s, e, line, i, d);
      g := SpeechDooms(s, e, line, i, d);
      FirstMove(s, say, [], e);
      f := [say] + [];
    } else {
      var join := Issue(e, CmdJoin(0, "x"), false);
      JoinPends(s, e);
      KeptStep(s, join);
      var t := Apply(s, join);
      SpeechArrives(t, e, line, i, d);
      g := SpeechDooms(t, e, line, i, d);
      FirstMove(t, say, [], e);
      FirstMove(s, join, [say], e);
      f := [join] + [say];
    }
  }

  lemma JoinPends(s: State, e: DopId)
    requires s.fault == Healthy && At(s, e).id == 0
    requires !At(s, e).closed && !At(s, e).gone && !At(s, e).unwinding
    ensures var t := Apply(s, Issue(e, CmdJoin(0, "x"), false));
      && t == s.(dops := t.dops, masterQ := t.masterQ) && Enabled(s, Issue(e, CmdJoin(0, "x"), false))
      && At(t, e) == At(s, e).(id := -1, awaiting := At(s, e).awaiting + 1)
      && forall x: DopId :: x != e ==> At(t, x) == At(s, x)
  {
  }

  lemma FirstMove(s: State, a: Action, f: seq<Action>, e: DopId)
    requires Enabled(s, a) && (a.Issue? || a.GetFromChat?) && a.d == e && Moves(Apply(s, a), f, e)
    ensures Moves(s, [a] + f, e) && Moved(s, [a] + f) == Moved(Apply(s, a), f)
  {
    assert ([a] + f)[1..] == f;
  }

  /** The steps of one doppelganger. */
  ghost predicate Moves(s: State, f: seq<Action>, e: DopId)
    decreases |f|
  {
    || f == []
    || (Enabled(s, f[0]) && (f[0].Issue? || f[0].GetFromChat?) && f[0].d == e
        && Moves(Apply(s, f[0]), f[1..], e))
  }

  function Moved(s: State, f: seq<Action>): State
    decreases |f|
  {
    if f == [] then s else Moved(Apply(s, f[0]), f[1..])
  }

  /** e holds the input of instance i, or has been sent it. */
  ghost predicate Holds(s: State, e: DopId, i: InstId) { HoldsIn(At(s, e), i) }

  ghost predicate HoldsIn(x: Dop, i: InstId) {
    && !x.closed
    && (x.link == Some(i) || exists k :: 0 <= k < |x.fromChat| && x.fromChat[k].Joined? && x.fromChat[k].inst == i)
  }

  lemma HoldsStill(s: State, e: DopId, i: InstId)
    requires Enabled(s, GetFromChat(e, false)) && Holds(s, e, i) && At(s, e).link != Some(i) && !At(s, e).gone
    ensures var t := Apply(s, GetFromChat(e, false));
      && Holds(t, e, i) && !At(t, e).gone && !At(t, e).unwinding && |At(t, e).fromChat| < |At(s, e).fromChat|
      && t == s.(dops := t.dops) && forall x: DopId :: x != e ==> At(t, x) == At(s, x)
  {
    var x := At(s, e);
    var k :| 0 <= k < |x.fromChat| && x.fromChat[k].Joined? && x.fromChat[k].inst == i;
    assert k > 0 ==> x.fromChat[1..][k - 1] == x.fromChat[k];
  }

  // ------------------------------------------------------------------ nobody can

  /** A full list that will stay as it is: nobody who has not closed holds the input, and
      nothing is on its way that would be told to those on the list. */
  ghost predicate Sealed(s: State, i: InstId)
    requires i < |s.insts|
  {
    var r := s.insts[i];
    && |r.members| >= MAX_MEMBERS && r.inbox == []
    && (forall k :: 0 <= k < |r.script| ==> !r.script[k].Admit? && !r.script[k].Drop?)
    && !ExitComing(s, i)
    && (forall e: DopId :: !Holds(s, e, i))
  }

  ghost predicate RoomIsSafe(s: State, i: InstId, d: DopId)
    requires i < |s.insts|
  {
    var r := s.insts[i];
    r.closed || (!ScriptNames(r.script, d) && !QueueNames(r.queue, d) && (Listed(r, d) ==> Sealed(s, i)))
  }

  /** d has closed, and where it is named nobody can get anything sent to it. */
  ghost predicate Unreachable(s: State, d: DopId) {
    At(s, d).closed && !MasterNames(s, d) && forall i :: 0 <= i < |s.insts| ==> RoomIsSafe(s, i, d)
  }

  /** Whoever has closed is doomed, or unreachable, or on a list whose input somebody who
      has not closed holds, or on one that somebody is about to join. */
  lemma DoomedOrUnreachable(s: State, d: DopId)
    requires At(s, d).closed && !Doomed(s, d)
    requires forall i, e: DopId :: 0 <= i < |s.insts| && Listed(s.insts[i], d) ==> !Holds(s, e, i)
    requires forall i :: 0 <= i < |s.insts| && Listed(s.insts[i], d) ==>
               |s.insts[i].members| >= MAX_MEMBERS
               && forall k :: 0 <= k < |s.insts[i].script| ==>
                    !s.insts[i].script[k].Admit? && !s.insts[i].script[k].Drop?
    ensures Unreachable(s, d)
  {
    forall i | 0 <= i < |s.insts| ensures RoomIsSafe(s, i, d) {
      assert !RoomDooms(s, i, d);
    }
  }

  // ------------------------------------------------------------------ the unreachable stay so

  lemma ObeyHolds(x: Dop, me: DopId, cmd: Command, lost: bool, i: InstId)
    requires !HoldsIn(x, i)
    ensures !HoldsIn(Obey(x, me, cmd, lost).0, i)
  {
  }

  lemma HearMasterHolds(x: Dop, m: FromMaster, lost: bool, i: InstId)
    requires !HoldsIn(x, i)
    ensures !HoldsIn(HearMaster(x, m, lost), i)
  {
  }

  lemma HearChatHolds(x: Dop, me: DopId, lost: bool, i: InstId)
    requires !HoldsIn(x, i) && x.fromChat != []
    ensures !HoldsIn(HearChat(x.(fromChat := x.fromChat[1..]), me, x.fromChat[0], lost), i)
  {
    assert forall k :: 0 <= k < |x.fromChat| - 1 ==> x.fromChat[1..][k] == x.fromChat[k + 1];
  }

  lemma UnwindHolds(x: Dop, me: DopId, i: InstId)
    requires !HoldsIn(x, i) && !x.closed
    ensures !HoldsIn(Unwind(x, me).0, i)
  {
  }

  predicate UserStep(a: Action) {
    a.Lose? || a.Issue? || a.GetFromMaster? || a.GetFromChat? || a.ExitProcedure?
  }

  /** Nobody comes to hold the input of a chat channel by an own step, */
  lemma UsersHold(s: State, a: Action, i: InstId, e: DopId)
    requires Enabled(s, a) && UserStep(a) && !Holds(s, e, i)
    ensures !Holds(Apply(s, a), e, i)
  {
    if e == a.d {
      OwnStep(s, a);
      var x := At(s, e);
      match a
      case Issue(d, cmd, lost) => ObeyHolds(x, d, cmd, lost, i);
      case GetFromMaster(d, lost) => HearMasterHolds(x.(fromMaster := x.fromMaster[1..]), x.fromMaster[0], lost, i);
      case GetFromChat(d, lost) => HearChatHolds(x, d, lost, i);
      case ExitProcedure(d) => UnwindHolds(x, d, i);
      case _ =>
    } else {
      OthersStay(s, a, e);
    }
  }

  lemma OwnStep(s: State, a: Action)
    requires Enabled(s, a) && UserStep(a)
    ensures var x := At(s, a.d);
      At(Apply(s, a), a.d) == match a
        case Issue(d, cmd, lost) => Obey(x, d, cmd, lost).0
        case GetFromMaster(d, lost) => HearMaster(x.(fromMaster := x.fromMaster[1..]), x.fromMaster[0], lost)
        case GetFromChat(d, lost) => HearChat(x.(fromChat := x.fromChat[1..]), d, x.fromChat[0], lost)
        case ExitProcedure(d) => Unwind(x, d).0
        case _ => x.(gone := true)
  {
  }

  lemma OthersStay(s: State, a: Action, e: DopId)
    requires Enabled(s, a) && UserStep(a) && e != a.d
    ensures At(Apply(s, a), e) == At(s, e)
  {
  }

  /** nor by the channel master's, */
  lemma MasterHolds(s: State, a: Action, i: InstId, e: DopId)
    requires Enabled(s, a) && (a.MasterTake? || a.MasterHear? || a.MasterSend?) && !Holds(s, e, i)
    ensures !Holds(Apply(s, a), e, i)
  {
    MasterTellsNobody(s, a, e);
  }

  lemma MasterTellsNobody(s: State, a: Action, e: DopId)
    requires Enabled(s, a) && (a.MasterTake? || a.MasterHear? || a.MasterSend?)
    ensures At(Apply(s, a), e) == At(s, e).(fromMaster := At(Apply(s, a), e).fromMaster)
  {
  }

  /** nor by those of a chat channel, unless it is let in there. */
  lemma RoomHolds(s: State, j: InstId, i: InstId, e: DopId)
    requires Enabled(s, ChatStep(j)) && !Holds(s, e, i)
    requires var op := s.insts[j].script[0];
      (op.Admit? ==> j != i) && (op.Send? ==> !op.m.Joined?)
    ensures !Holds(ChatSteps(s, j), e, i)
  {
    RoomTells(s, j, e);
    var x, y := At(s, e), At(ChatSteps(s, j), e);
    assert forall k :: 0 <= k < |x.fromChat| ==> y.fromChat[k] == x.fromChat[k];
  }

  lemma RoomTells(s: State, j: InstId, e: DopId)
    requires Enabled(s, ChatStep(j))
    ensures var x, y, op := At(s, e), At(ChatSteps(s, j), e), s.insts[j].script[0];
      && y == x.(fromChat := y.fromChat)
      && (y.fromChat == x.fromChat
          || y.fromChat == x.fromChat + [Notice]
          || (op.Send? && y.fromChat == x.fromChat + [op.m])
          || (op.Admit? && y.fromChat == x.fromChat + [Joined(s.insts[j].cid, j)]))
  {
  }

  // ------------------------------------------------------------------ the seal holds

  /** What is expected at a goroutine, when nothing is on its way there that was not. */
  ghost predicate NoMoreExits(s: State, t: State, i: InstId)
    requires i < |s.insts| && i < |t.insts|
  {
    && (Leaves(Expected(t, i)) ==> ExitComing(s, i))
    && (forall k :: 0 <= k < |t.masterQ| && t.masterQ[k].Exit? && ForRoom(t, i, t.masterQ[k].c) ==> ExitComing(s, i))
  }

  lemma NoExitComes(s: State, t: State, i: InstId)
    requires i < |s.insts| && i < |t.insts| && NoMoreExits(s, t, i) && !ExitComing(s, i)
    ensures !ExitComing(t, i)
  {
  }

  lemma UsersBringNoExit(s: State, a: Action, i: InstId)
    requires Books(s) && Enabled(s, a) && UserStep(a) && i < |s.insts| && !Holds(s, a.d, i)
    ensures i < |Apply(s, a).insts|
    ensures Apply(s, a).insts[i] == s.insts[i] && NoMoreExits(s, Apply(s, a), i)
  {
    var t := Apply(s, a);
    UsersAsk(s, a);
    assert DopOk(s, a.d);
    RegisteredIsPositive(s);
    assert Expected(t, i) == Expected(s, i);
    forall k | 0 <= k < |t.masterQ| && t.masterQ[k].Exit? && ForRoom(t, i, t.masterQ[k].c) ensures ExitComing(s, i) {
      assert k < |s.masterQ| ==> t.masterQ[k] == s.masterQ[k];
    }
  }

  /** What a user's step adds to the channel master's queue and to the inboxes. */
  lemma UsersAsk(s: State, a: Action)
    requires Enabled(s, a) && UserStep(a)
    ensures var t, x := Apply(s, a), At(s, a.d);
      && t.reg == s.reg && t.todo == s.todo && |t.insts| == |s.insts|
      && (t.masterQ == s.masterQ
          || exists m :: t.masterQ == s.masterQ + [m] && (m.Exit? ==> m.c == x.id && m.d == a.d))
      && forall i :: 0 <= i < |s.insts| ==> t.insts[i] == s.insts[i] || x.link == Some(i)
  {
    match a
    case Issue(d, cmd, lost) =>
      var out := Obey(At(s, d), d, cmd, lost).1;
      if out.ToTheMaster? { assert Apply(s, a).masterQ == s.masterQ + [out.m]; }
    case ExitProcedure(d) =>
      var out := Unwind(At(s, d), d).1;
      if out.ToTheMaster? { assert Apply(s, a).masterQ == s.masterQ + [out.m]; }
    case _ =>
  }

  lemma TakingBringsNoExit(s: State, found: nat, i: InstId)
    requires Books(s) && Enabled(s, MasterTake(found)) && i < |s.insts|
    ensures var t := MasterTakes(s, found);
      i < |t.insts| && t.insts[i] == s.insts[i] && NoMoreExits(s, t, i)
  {
    var t := MasterTakes(s, found);
    MasterTakesOrLaunches(s, found, i);
    TakenTodo(s, found);
    assert s.insts[i].queue + [] == s.insts[i].queue;
    if Leaves(Expected(t, i)) {
      var k :| 0 <= k < |Expected(t, i)| && Expected(t, i)[k].Leave?;
      assert k < |s.insts[i].queue| ==> Expected(s, i)[k].Leave?;
    }
    forall k | 0 <= k < |t.masterQ| && t.masterQ[k].Exit? && ForRoom(t, i, t.masterQ[k].c) ensures ExitComing(s, i) {
      assert t.masterQ[k] == s.masterQ[k + 1];
    }
  }

  lemma TakenTodo(s: State, found: nat)
    requires Enabled(s, MasterTake(found))
    ensures var t := MasterTakes(s, found);
      && t.masterQ == s.masterQ[1..] && |t.insts| >= |s.insts|
      && (t.todo.Forward? && t.todo.m.Leave? ==> s.masterQ[0] == Exit(t.todo.c, t.todo.m.d))
      && (forall c, i: InstId :: i < |s.insts| && ForRoom(t, i, c) ==> ForRoom(s, i, c))
  {
  }

  lemma HearingBringsNoExit(s: State, i: InstId)
    requires Books(s) && Enabled(s, MasterHear) && i < |s.insts|
    ensures var t := MasterHears(s);
      i < |t.insts| && t.insts[i] == s.insts[i] && NoMoreExits(s, t, i)
  {
    var t := MasterHears(s);
    assert s.denials[0] in s.reg;
    assert t == s.(denials := t.denials, todo := t.todo, reg := t.reg) && (t.todo.Forward? ==> t.todo.m.Shutdown?);
    assert forall c :: ForRoom(t, i, c) ==> ForRoom(s, i, c);
    assert s.insts[i].queue + [] == s.insts[i].queue;
    if Leaves(Expected(t, i)) {
      var k :| 0 <= k < |Expected(t, i)| && Expected(t, i)[k].Leave?;
      assert Expected(s, i)[k].Leave?;
    }
  }

  lemma SendingBringsNoExit(s: State, i: InstId)
    requires Books(s) && Enabled(s, MasterSend) && i < |s.insts|
    ensures var t := MasterSends(s);
      && i < |t.insts| && NoMoreExits(s, t, i)
      && t.insts[i] == s.insts[i].(queue := t.insts[i].queue, tickets := t.insts[i].tickets)
      && (t.insts[i].queue == s.insts[i].queue
          || (s.todo.Forward? && ForRoom(s, i, s.todo.c) && t.insts[i].queue == s.insts[i].queue + [s.todo.m]))
  {
    var t := MasterSends(s);
    assert s.insts[i].queue + [] == s.insts[i].queue;
    if s.todo.Forward? {
      ForwardIsPushed(s);
      ForwardKeepsRooms(s);
      ForwardBringsNoExit(s, t, i);
    } else {
      assert t.masterQ == s.masterQ && t.reg == s.reg && t.insts == s.insts && !t.todo.Forward?;
    }
  }

  lemma ForwardBringsNoExit(s: State, t: State, i: InstId)
    requires s.todo.Forward? && s.todo.c in s.reg && i < |s.insts| == |t.insts|
    requires t.insts[i].queue == if ForRoom(s, i, s.todo.c) then s.insts[i].queue + [s.todo.m] else s.insts[i].queue
    requires t.masterQ == s.masterQ && (t.todo == Idle || t.todo == Forward(s.todo.c, Shutdown))
    requires forall c :: c in t.reg ==> c in s.reg && t.reg[c].inst == s.reg[c].inst
    ensures NoMoreExits(s, t, i)
  {
    assert s.insts[i].queue + [] == s.insts[i].queue;
    assert t.insts[i].queue == Expected(s, i);
    if Leaves(Expected(t, i)) {
      var k :| 0 <= k < |Expected(t, i)| && Expected(t, i)[k].Leave?;
      assert Expected(s, i)[k].Leave?;
    }
  }

  /** What the step leaves at goroutine i, if it is not its own. */
  ghost predicate Outside(s: State, t: State, i: InstId)
    requires i < |s.insts| && i < |t.insts|
  {
    var r, q := s.insts[i], t.insts[i];
    && q == r.(queue := q.queue, tickets := q.tickets)
    && (q.queue == r.queue || (s.todo.Forward? && ForRoom(s, i, s.todo.c) && q.queue == r.queue + [s.todo.m]))
    && NoMoreExits(s, t, i)
    && (forall e: DopId :: Holds(t, e, i) ==> Holds(s, e, i))
  }

  lemma SealedOutside(s: State, t: State, i: InstId)
    requires i < |s.insts| && i < |t.insts| && Outside(s, t, i) && Sealed(s, i)
    ensures Sealed(t, i)
  {
    NoExitComes(s, t, i);
  }

  lemma SafeOutside(s: State, t: State, i: InstId, d: DopId)
    requires i < |s.insts| && i < |t.insts| && Outside(s, t, i)
    requires RoomIsSafe(s, i, d) && !TodoNames(s.todo, d)
    ensures RoomIsSafe(t, i, d)
  {
    if !s.insts[i].closed && Listed(s.insts[i], d) { SealedOutside(s, t, i); }
  }

  lemma UsersStayOutside(s: State, a: Action, i: InstId)
    requires Books(s) && Enabled(s, a) && UserStep(a) && i < |s.insts| && Sealed(s, i)
    ensures i < |Apply(s, a).insts| && Outside(s, Apply(s, a), i)
  {
    UsersBringNoExit(s, a, i);
    forall e: DopId ensures !Holds(Apply(s, a), e, i) { UsersHold(s, a, i, e); }
  }

  lemma MasterStaysOutside(s: State, a: Action, i: InstId)
    requires Books(s) && Enabled(s, a) && (a.MasterTake? || a.MasterHear? || a.MasterSend?) && i < |s.insts|
    ensures i < |Apply(s, a).insts| && Outside(s, Apply(s, a), i)
  {
    match a {
      case MasterTake(found) => TakingBringsNoExit(s, found, i);
      case MasterHear => HearingBringsNoExit(s, i);
      case MasterSend => SendingBringsNoExit(s, i);
    }
    forall e: DopId | Holds(Apply(s, a), e, i) ensures Holds(s, e, i) {
      if !Holds(s, e, i) { MasterHolds(s, a, i, e); }
    }
  }

  lemma OtherRoomsStayOutside(s: State, a: Action, i: InstId)
    requires Books(s) && Enabled(s, a) && (a.ChatTake? || a.ChatListen? || a.ChatStep?) && a.i != i && i < |s.insts|
    ensures i < |Apply(s, a).insts| && Outside(s, Apply(s, a), i)
  {
    var t := Apply(s, a);
    RoomsKeepTheRest(s, a);
    assert Expected(t, i) == Expected(s, i);
    forall e: DopId | Holds(t, e, i) ensures Holds(s, e, i) {
      if !Holds(s, e, i) && a.ChatStep? {
        assert RoomOk(s.insts[a.i], Registered(s, a.i));
        RoomHolds(s, a.i, i, e);
      }
    }
  }

  lemma RoomsKeepTheRest(s: State, a: Action)
    requires Enabled(s, a) && (a.ChatTake? || a.ChatListen? || a.ChatStep?)
    ensures var t := Apply(s, a);
      && t.todo == s.todo && t.masterQ == s.masterQ && t.reg == s.reg && |t.insts| == |s.insts|
      && (forall j :: 0 <= j < |s.insts| && j != a.i ==> t.insts[j] == s.insts[j])
      && (!a.ChatStep? ==> t.dops == s.dops)
  {
    if a.ChatStep? { ChatStepKeeps(s, a.i, 0); }
  }

  // ------------------------------------------------------------------ the goroutine's own steps

  /** A full goroutine turns everybody away. */
  lemma SealedTakes(s: State, i: InstId, order: seq<DopId>, d: DopId)
    requires Enabled(s, ChatTake(i, order)) && Sealed(s, i)
    requires !QueueNames(s.insts[i].queue, d)
    ensures RoomIsSafe(PutInst(s, i, Take(s.insts[i], order)), i, d)
  {
    var r, m := s.insts[i], s.insts[i].queue[0];
    var q := Take(r, order);
    assert !Owes(m, d);
    ExpectedNext(s, i, order);
    assert Expected(s, i)[0] == m && !m.Leave?;
    assert forall k :: 0 <= k < |q.queue| ==> q.queue[k] == r.queue[k + 1];
    if !m.Shutdown? {
      TurnedAway(r.members, m, order, d);
      SealedStays(s, i, order);
    }
  }

  lemma TurnedAway(members: map<DopId, int>, m: ToChat, order: seq<DopId>, d: DopId)
    requires |members| >= MAX_MEMBERS && (m.Enter? || m.Roster?) && m.d != d
    ensures var script := Script(members, m, order);
      && !ScriptNames(script, d) && forall k :: 0 <= k < |script| ==> !script[k].Admit? && !script[k].Drop?
  {
  }

  lemma ExpectedNext(s: State, i: InstId, order: seq<DopId>)
    requires Enabled(s, ChatTake(i, order))
    ensures Expected(s, i) == [s.insts[i].queue[0]] + Expected(PutInst(s, i, Take(s.insts[i], order)), i)
  {
  }

  lemma SealedStays(s: State, i: InstId, order: seq<DopId>)
    requires Enabled(s, ChatTake(i, order)) && Sealed(s, i)
    requires forall op :: op in Take(s.insts[i], order).script ==> !op.Admit? && !op.Drop?
    ensures Sealed(PutInst(s, i, Take(s.insts[i], order)), i)
  {
    var t := PutInst(s, i, Take(s.insts[i], order));
    ExpectedNext(s, i, order);
    assert forall k :: 0 <= k < |Expected(t, i)| ==> Expected(t, i)[k] == Expected(s, i)[k + 1];
    assert t.masterQ == s.masterQ && forall c :: ForRoom(t, i, c) <==> ForRoom(s, i, c);
    forall e: DopId ensures !Holds(t, e, i) { assert !Holds(s, e, i); }
  }

  lemma SealedSteps(s: State, i: InstId, d: DopId)
    requires Books(s) && Enabled(s, ChatStep(i)) && RoomIsSafe(s, i, d) && Listed(s.insts[i], d)
    ensures |ChatSteps(s, i).insts| == |s.insts| && RoomIsSafe(ChatSteps(s, i), i, d)
  {
    var r := s.insts[i];
    var t, q := ChatSteps(s, i), Perform(r);
    RoomsKeepTheRest(s, ChatStep(i));
    ChatStepKeeps(s, i, d);
    SealedPerforms(r, d);
    assert RoomOk(r, Registered(s, i));
    assert Expected(t, i) == Expected(s, i);
    forall e: DopId ensures !Holds(t, e, i) { RoomHolds(s, i, i, e); }
  }

  lemma SealedPerforms(r: Inst, d: DopId)
    requires r.script != [] && !ScriptNames(r.script, d)
    requires forall k :: 0 <= k < |r.script| ==> !r.script[k].Admit? && !r.script[k].Drop?
    ensures var q := Perform(r);
      && q.members == r.members && q.queue == r.queue && q.inbox == r.inbox && q.closed == r.closed
      && !ScriptNames(q.script, d)
      && forall k :: 0 <= k < |q.script| ==> !q.script[k].Admit? && !q.script[k].Drop?
  {
    assert Perform(r).script == r.script[1..];
    assert forall k :: 0 <= k < |r.script| - 1 ==> r.script[1..][k] == r.script[k + 1];
  }

  /** A goroutine that does not list d does not come to. */
  lemma StrangersStay(s: State, a: Action, d: DopId)
    requires Enabled(s, a) && (a.ChatTake? || a.ChatListen? || a.ChatStep?)
    requires !RoomNames(s.insts[a.i], d)
    ensures a.i < |Apply(s, a).insts| && RoomIsSafe(Apply(s, a), a.i, d)
  {
    var r := s.insts[a.i];
    match a
    case ChatTake(_, order) => TakeForgets(r, d, order);
    case ChatListen(_, order) => ListenForgets(r, d, order);
    case ChatStep(i) =>
      PerformForgets(r, d);
      RoomStepsItself(s, i, i);
  }

  lemma OwnStepsAreSafe(s: State, a: Action, d: DopId)
    requires Books(s) && Enabled(s, a) && (a.ChatTake? || a.ChatListen? || a.ChatStep?) && RoomIsSafe(s, a.i, d)
    ensures a.i < |Apply(s, a).insts| && RoomIsSafe(Apply(s, a), a.i, d)
  {
    if Listed(s.insts[a.i], d) {
      match a
      case ChatTake(i, order) => SealedTakes(s, i, order, d);
      case ChatListen(_, _) =>
      case ChatStep(i) => SealedSteps(s, i, d);
    } else {
      StrangersStay(s, a, d);
    }
  }

  // ------------------------------------------------------------------ every step, every run

  lemma RoomStaysSafe(s: State, a: Action, i: InstId, d: DopId)
    requires Books(s) && Enabled(s, a) && Unreachable(s, d) && i < |Apply(s, a).insts|
    ensures RoomIsSafe(Apply(s, a), i, d)
  {
    if i >= |s.insts| {
      NewRoomIsSafe(s, a, i, d);
    } else {
      assert RoomIsSafe(s, i, d);
      if a.MasterTake? || a.MasterHear? || a.MasterSend? {
        MasterStaysOutside(s, a, i);
        SafeOutside(s, Apply(s, a), i, d);
      } else if UserStep(a) {
        UsersAreSafe(s, a, i, d);
      } else if a.i == i {
        OwnStepsAreSafe(s, a, d);
      } else {
        OtherRoomsStayOutside(s, a, i);
        SafeOutside(s, Apply(s, a), i, d);
      }
    }
  }

  lemma UsersAreSafe(s: State, a: Action, i: InstId, d: DopId)
    requires Books(s) && Enabled(s, a) && UserStep(a) && i < |s.insts| && RoomIsSafe(s, i, d)
    ensures i < |Apply(s, a).insts| && RoomIsSafe(Apply(s, a), i, d)
  {
    UserTouchesInboxes(s, a, i);
    UsersOnlySpeak(s, a);
    if !s.insts[i].closed && Listed(s.insts[i], d) {
      UsersStayOutside(s, a, i);
      SealedOutside(s, Apply(s, a), i);
    }
  }

  lemma NewRoomIsSafe(s: State, a: Action, i: InstId, d: DopId)
    requires Enabled(s, a) && Unreachable(s, d) && |s.insts| <= i < |Apply(s, a).insts|
    ensures RoomIsSafe(Apply(s, a), i, d)
  {
    OnlyMasterTakeLaunches(s, a, i);
    MasterTakesOrLaunches(s, a.found, i);
    var m := s.masterQ[0];
    assert !Asks(m, d);
    AcceptForgets(map[], m.d, m.user, [m.d], d);
  }

  /** The channel master does not come to name whoever has closed. */
  lemma MasterStaysSilent(s: State, a: Action, d: DopId)
    requires Books(s) && Enabled(s, a) && At(s, d).closed && !MasterNames(s, d)
    ensures At(Apply(s, a), d).closed && !MasterNames(Apply(s, a), d)
  {
    if UserStep(a) {
      UsersAskOthers(s, a, d);
    } else if a.MasterTake? || a.MasterHear? || a.MasterSend? {
      MasterTellsNobody(s, a, d);
      MasterNamesNobody(s, a, d);
    } else {
      RoomsKeepTheRest(s, a);
      if a.ChatStep? { ChatStepKeeps(s, a.i, d); }
    }
  }

  lemma UsersAskOthers(s: State, a: Action, d: DopId)
    requires Enabled(s, a) && UserStep(a) && At(s, d).closed && !MasterNames(s, d)
    ensures At(Apply(s, a), d).closed && !MasterNames(Apply(s, a), d)
  {
    OthersStay(s, a, d);
    var t := Apply(s, a);
    UsersAskThemselves(s, a);
    assert forall k :: 0 <= k < |s.masterQ| ==> t.masterQ[k] == s.masterQ[k];
  }

  lemma UsersAskThemselves(s: State, a: Action)
    requires Enabled(s, a) && UserStep(a)
    ensures var t := Apply(s, a);
      t.todo == s.todo && (t.masterQ == s.masterQ || exists m: ToMaster :: m.d == a.d && t.masterQ == s.masterQ + [m])
  {
    match a
    case Issue(d, cmd, lost) =>
      var out := Obey(At(s, d), d, cmd, lost).1;
      if out.ToTheMaster? { assert Apply(s, a).masterQ == s.masterQ + [out.m]; }
    case ExitProcedure(d) =>
      var out := Unwind(At(s, d), d).1;
      if out.ToTheMaster? { assert Apply(s, a).masterQ == s.masterQ + [out.m]; }
    case _ =>
  }

  lemma MasterNamesNobody(s: State, a: Action, d: DopId)
    requires Books(s) && Enabled(s, a) && (a.MasterTake? || a.MasterHear? || a.MasterSend?) && !MasterNames(s, d)
    ensures !MasterNames(Apply(s, a), d)
  {
    match a
    case MasterTake(found) => TakingNamesNobody(s, found, d);
    case MasterSend => SendingNamesNobody(s, d);
    case MasterHear =>
  }

  lemma TakingNamesNobody(s: State, found: nat, d: DopId)
    requires Books(s) && Enabled(s, MasterTake(found)) && !MasterNames(s, d)
    ensures !MasterNames(MasterTakes(s, found), d)
  {
    var t := MasterTakes(s, found);
    RegisteredIsPositive(s);
    assert !Asks(s.masterQ[0], d);
    assert t.masterQ == s.masterQ[1..];
    assert forall k :: 0 <= k < |s.masterQ| - 1 ==> s.masterQ[1..][k] == s.masterQ[k + 1];
    assert !TodoNames(t.todo, d);
  }

  lemma SendingNamesNobody(s: State, d: DopId)
    requires Books(s) && Enabled(s, MasterSend) && !MasterNames(s, d)
    ensures !MasterNames(MasterSends(s), d)
  {
    var t := MasterSends(s);
    if s.todo.Forward? { ForwardIsPushed(s); }
    assert t.masterQ == s.masterQ && !TodoNames(t.todo, d);
  }

  lemma UnreachableStep(s: State, a: Action, d: DopId)
    requires Books(s) && Enabled(s, a) && Unreachable(s, d)
    ensures Unreachable(Apply(s, a), d) && Apply(s, a).fault != ClosedDoppelganger(d)
  {
    MasterStaysSilent(s, a, d);
    forall i | 0 <= i < |Apply(s, a).insts| ensures RoomIsSafe(Apply(s, a), i, d) { RoomStaysSafe(s, a, i, d); }
    NoPanicOver(s, a, d);
  }

  lemma NoPanicOver(s: State, a: Action, d: DopId)
    requires Enabled(s, a) && Unreachable(s, d)
    ensures Apply(s, a).fault != ClosedDoppelganger(d)
  {
    PanicsOverExactly(s, a, d);
    if a.ChatStep? && a.i < |s.insts| { assert RoomIsSafe(s, a.i, d); }
  }

  /** Whoever is unreachable when its callbacks are closed is never sent to again, whatever
      anybody does. */
  lemma {:induction false} UnreachableForGood(h: seq<Action>, g: seq<Action>, d: DopId)
    requires Possible(h) && Possible(h + g) && After(h).fault == Healthy && Unreachable(After(h), d)
    ensures Unreachable(After(h + g), d) && After(h + g).fault != ClosedDoppelganger(d)
    decreases |g|
  {
    if g == [] {
      assert h + g == h;
    } else {
      var m := |g| - 1;
      assert (h + g)[..|h + g| - 1] == h + g[..m];
      assert (h + g)[|h + g| - 1] == g[m];
      UnreachableForGood(h, g[..m], d);
      BooksBalance(h + g[..m]);
      UnreachableStep(After(h + g[..m]), g[m], d);
    }
  }
}
