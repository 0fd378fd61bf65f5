/** Once all users are gone the server comes to rest: what its goroutines still do by
    themselves is bounded in number, and at the end nobody is on any channel. */
module Shutdown {
  import opened Options
  import opened Wire
  import opened Client
  import opened ChatRoom
  import opened Network
  import opened Membership
  import opened Orderly
  import opened Conversation
  import opened Capacity
  import opened Closing
  import opened Progress
  import opened Tickets

  // ------------------------------------------------------------------ weights

  function Weight<T>(w: T -> nat, q: seq<T>): nat {
    if q == [] then 0 else w(q[0]) + Weight(w, q[1..])
  }

  lemma {:induction false} WeightConcat<T>(w: T -> nat, a: seq<T>, b: seq<T>)
    ensures Weight(w, a + b) == Weight(w, a) + Weight(w, b)
  {
    if a == [] {
      assert a + b == b;
    } else {
      assert (a + b)[1..] == a[1..] + b;
      WeightConcat(w, a[1..], b);
    }
  }

  lemma WeightMore<T>(w: T -> nat, q: seq<T>, x: T)
    ensures Weight(w, q + [x]) == Weight(w, q) + w(x)
  {
    WeightConcat(w, q, [x]);
  }

  lemma {:induction false} WeightPut<T>(w: T -> nat, q: seq<T>, i: nat, x: T)
    requires i < |q|
    ensures Weight(w, q[i := x]) + w(q[i]) == Weight(w, q) + w(x)
  {
    if i > 0 {
      assert q[i := x][1..] == q[1..][i - 1 := x];
      WeightPut(w, q[1..], i - 1, x);
    }
  }

  lemma {:induction false} WeightAtMostTwo<T>(w: T -> nat, q: seq<T>)
    requires forall x :: x in q ==> w(x) <= 2
    ensures Weight(w, q) <= 2 * |q|
  {
    if q != [] {
      assert q[0] in q;
      WeightAtMostTwo(w, q[1..]);
    }
  }

  // ------------------------------------------------------------------ what is left to do

  /** What an exit not yet begun may still set off. */
  const EXIT_LOAD: nat := 20

  function ReplyLoad(r: FromMaster): nat { if r.Refused? then EXIT_LOAD + 1 else 1 }

  function NewsLoad(m: FromChat): nat { if m.Joined? then EXIT_LOAD + 1 else 1 }

  /** A doppelganger whose user is gone: rounds short of giving up, whether it has begun to
      leave, and what is on its callbacks. */
  function DopLoad(x: Dop): nat {
    (if x.closed then 0
     else (if x.rounds < PATIENCE then 2 * (PATIENCE - x.rounds) else 0)
          + (if x.unwinding then 0 else 1) + (if x.cantExit then 0 else EXIT_LOAD))
    + Weight(ReplyLoad, x.fromMaster) + Weight(NewsLoad, x.fromChat)
  }

  function OpLoad(op: Op): nat {
    match op
    case Admit(_, _) => 1 + (EXIT_LOAD + 1)
    case Refuse(_) => 4
    case Send(_, m) => 1 + NewsLoad(m)
    case ShowRoster(_) => 2
    case Drop(_) => 1
    case Record(_) => 1
  }

  function OrderLoad(m: ToChat): nat {
    match m
    case Enter(_, _) => EXIT_LOAD + 17
    case Roster(_) => 3
    case Leave(_) => 14
    case Shutdown => 1
  }

  function RoomLoad(r: Inst): nat {
    Weight(OrderLoad, r.queue) + Weight(OpLoad, r.script) + 14 * |r.inbox|
  }

  function TodoLoad(todo: Todo): nat {
    match todo
    case Reply(_, r) => 1 + ReplyLoad(r)
    case Forward(_, m) => OrderLoad(m) + if m.Leave? then 3 else 1
    case _ => 0
  }

  function RequestLoad(m: ToMaster): nat {
    match m
    case Join(_, _, _) => EXIT_LOAD + 19
    case Who(_, _) => 5
    case Exit(_, _) => 18
  }

  function Crowd(s: State, n: nat): (c: seq<Dop>)
    ensures |c| == n && forall d :: 0 <= d < n ==> c[d] == At(s, d)
  {
    seq(n, d requires 0 <= d < n => At(s, d))
  }

  /** Doppelgangers 0 to n - 1, and everything under way. */
  function Remaining(s: State, n: nat): nat {
    Weight(DopLoad, Crowd(s, n)) + Weight(RoomLoad, s.insts) + Weight(RequestLoad, s.masterQ)
    + TodoLoad(s.todo) + 3 * |s.denials|
  }

  // ------------------------------------------------------------------ nobody at the keys

  /** Whoever has ever done anything is one of doppelgangers 0 to n - 1, its user gone. */
  ghost predicate Deserted(s: State, n: nat) {
    forall d: DopId :: At(s, d) == NEW_DOP || (d < n && At(s, d).gone)
  }

  /** A goroutine's own step, or the select case that the closed go channel of a user who
      is gone makes a doppelganger go through. */
  predicate Unattended(s: State, a: Action) {
    Internal(a) || (a.Issue? && a.cmd.CmdOther? && At(s, a.d).gone)
  }

  /** Whoever a tidy server has business with has done something. */
  lemma KnownByToken(s: State, T: Tokens, d: DopId)
    requires Tidy(s, T) && !Tok(T, d).Free?
    ensures At(s, d) != NEW_DOP
  {
    assert DopTidy(At(s, d), d, Tok(T, d), Cids(s.insts));
  }

  /** Callbacks and the rest of a doppelganger that is being sent a message. */
  lemma DesertedPut(s: State, t: State, d: DopId, n: nat)
    requires Deserted(s, n) && t.dops == s.dops[d := At(t, d)] && At(s, d) != NEW_DOP
    requires At(s, d).gone ==> At(t, d).gone
    ensures Deserted(t, n)
  {
    forall e: DopId ensures At(t, e) == NEW_DOP || (e < n && At(t, e).gone) {
      assert At(s, e) == NEW_DOP || (e < n && At(s, e).gone);
    }
  }

  /** Nobody comes back, and nobody new comes. */
  lemma DesertedStep(s: State, T: Tokens, a: Action, n: nat)
    requires Tidy(s, T) && Enabled(s, a) && Deserted(s, n) && Unattended(s, a) && Apply(s, a).fault == Healthy
    ensures Deserted(Apply(s, a), n)
  {
    if Actor(a).TheUser? {
      GoneStayGone(s, a);
      DesertedPut(s, Apply(s, a), a.d, n);
    } else if a.MasterSend? {
      DesertedSend(s, T, n);
    } else if a.ChatStep? {
      DesertedChatStep(s, T, a.i, n);
    } else {
      NobodyConcerned(s, a);
      DesertedStill(s, Apply(s, a), n);
    }
  }

  lemma NobodyConcerned(s: State, a: Action)
    requires a.MasterTake? || a.MasterHear? || a.ChatTake? || a.ChatListen?
    ensures Apply(s, a).dops == s.dops
  {
  }

  lemma GoneStayGone(s: State, a: Action)
    requires Enabled(s, a) && Unattended(s, a) && Actor(a).TheUser?
    ensures var t := Apply(s, a);
      t.dops == s.dops[a.d := At(t, a.d)] && At(s, a.d) != NEW_DOP && (At(s, a.d).gone ==> At(t, a.d).gone)
  {
  }

  lemma DesertedStill(s: State, t: State, n: nat)
    requires Deserted(s, n) && t.dops == s.dops
    ensures Deserted(t, n)
  {
    forall d: DopId ensures At(t, d) == At(s, d) {}
  }

  lemma DesertedSend(s: State, T: Tokens, n: nat)
    requires Tidy(s, T) && Enabled(s, MasterSend) && Deserted(s, n) && MasterSends(s).fault == Healthy
    ensures Deserted(MasterSends(s), n)
  {
    if s.todo.Reply? {
      KnownByToken(s, T, s.todo.d);
      DesertedPut(s, MasterSends(s), s.todo.d, n);
    } else {
      DesertedStill(s, MasterSends(s), n);
    }
  }

  lemma DesertedChatStep(s: State, T: Tokens, i: InstId, n: nat)
    requires Tidy(s, T) && Enabled(s, ChatStep(i)) && Deserted(s, n) && ChatSteps(s, i).fault == Healthy
    ensures Deserted(ChatSteps(s, i), n)
  {
    var op := s.insts[i].script[0];
    StepDelivers(s, i);
    if Addressee(op).Some? {
      AddresseeIsKnown(s, T, i);
      DesertedPut(s, ChatSteps(s, i), Addressee(op).value, n);
    } else {
      DesertedStill(s, ChatSteps(s, i), n);
    }
  }

  lemma AddresseeIsKnown(s: State, T: Tokens, i: InstId)
    requires Tidy(s, T) && i < |s.insts| && s.insts[i].script != [] && Addressee(s.insts[i].script[0]).Some?
    ensures At(s, Addressee(s.insts[i].script[0]).value) != NEW_DOP
  {
    var r := s.insts[i];
    assert RoomTidy(r, i, T) && OpTidy(r.script[0], r.script, i, T);
    KnownByToken(s, T, Addressee(r.script[0]).value);
  }

  /** What an operation sends, its receiver being there. */
  function News(s: State, i: InstId): FromChat
    requires i < |s.insts| && s.insts[i].script != [] && Addressee(s.insts[i].script[0]).Some?
  {
    match s.insts[i].script[0]
    case Admit(_, _) => Joined(s.insts[i].cid, i)
    case Send(_, m) => m
    case _ => Notice
  }

  lemma StepDelivers(s: State, i: InstId)
    requires Enabled(s, ChatStep(i)) && ChatSteps(s, i).fault == Healthy
    ensures var r, t := s.insts[i], ChatSteps(s, i);
      && t.insts == s.insts[i := Perform(r)] && t.masterQ == s.masterQ && t.todo == s.todo
      && t.denials == (if r.script[0].Refuse? then s.denials + [r.cid] else s.denials)
      && t.dops == match Addressee(r.script[0])
         case Some(d) => s.dops[d := At(s, d).(fromChat := At(s, d).fromChat + [News(s, i)])]
         case None => s.dops
  {
    var op := s.insts[i].script[0];
    if Addressee(op).Some? {
      assert ChatSteps(s, i) == Deliver(PutInst(s, i, Perform(s.insts[i])), Addressee(op).value, News(s, i));
    } else {
      assert ChatSteps(s, i) == PutInst(s, i, Perform(s.insts[i])).(denials := ChatSteps(s, i).denials);
    }
  }

  // ------------------------------------------------------------------ doppelgangers

  lemma CrowdPut(s: State, t: State, d: DopId, n: nat)
    requires d < n && t.dops == s.dops[d := At(t, d)]
    ensures Weight(DopLoad, Crowd(t, n)) + DopLoad(At(s, d)) == Weight(DopLoad, Crowd(s, n)) + DopLoad(At(t, d))
  {
    assert Crowd(t, n) == Crowd(s, n)[d := At(t, d)];
    WeightPut(DopLoad, Crowd(s, n), d, At(t, d));
  }

  lemma HearingMasterLess(x: Dop, lost: bool)
    requires x.gone && !x.closed && !x.unwinding && x.fromMaster != []
    ensures DopLoad(HearMaster(x.(fromMaster := x.fromMaster[1..]), x.fromMaster[0], lost)) < DopLoad(x)
  {
  }

  lemma HearingChatLess(x: Dop, d: DopId, lost: bool)
    requires x.gone && !x.closed && !x.unwinding && x.fromChat != []
    ensures DopLoad(HearChat(x.(fromChat := x.fromChat[1..]), d, x.fromChat[0], lost)) < DopLoad(x)
  {
  }

  lemma UnwindingLess(x: Dop, d: DopId)
    requires !x.closed && x.unwinding && (x.cantExit ==> x.rounds + 1 < PATIENCE)
    ensures var (y, out) := Unwind(x, d);
      && DopLoad(y) + (if out.ToTheMaster? then RequestLoad(out.m) else 0) < DopLoad(x)
      && !out.Speak?
  {
  }

  lemma ExitProcedureLess(s: State, d: DopId, n: nat)
    requires Enabled(s, ExitProcedure(d)) && OrderlyStep(s, ExitProcedure(d)) && d < n
    ensures Remaining(Apply(s, ExitProcedure(d)), n) < Remaining(s, n)
  {
    var t := Apply(s, ExitProcedure(d));
    UnwindingLess(At(s, d), d);
    CrowdPut(s, t, d, n);
    var out := Unwind(At(s, d), d).1;
    if out.ToTheMaster? { WeightMore(RequestLoad, s.masterQ, out.m); }
  }

  lemma UserLess(s: State, a: Action, n: nat)
    requires Enabled(s, a) && OrderlyStep(s, a) && Unattended(s, a) && Deserted(s, n) && Actor(a).TheUser?
    ensures Remaining(Apply(s, a), n) < Remaining(s, n)
  {
    var x := At(s, a.d);
    assert x.gone && a.d < n;
    if a.ExitProcedure? {
      ExitProcedureLess(s, a.d, n);
    } else {
      CrowdPut(s, Apply(s, a), a.d, n);
      match a
      case GetFromMaster(d, lost) => HearingMasterLess(x, lost);
      case GetFromChat(d, lost) => HearingChatLess(x, d, lost);
      case Issue(d, _, lost) => assert DopLoad(Settle(x, true)) < DopLoad(x);
    }
  }

  // ------------------------------------------------------------------ chat channels

  lemma {:induction false} OrderIsShort(order: seq<DopId>, ids: set<DopId>)
    requires Lists(order, ids)
    ensures |order| == |ids|
  {
    if order == [] {
      assert ids == {};
    } else {
      assert order[0] in ids;
      OrderIsShort(order[1..], ids - {order[0]});
    }
  }

  lemma {:induction false} AnnouncesFew(order: seq<DopId>, members: map<DopId, int>, user: int)
    ensures Weight(OpLoad, Announce(order, members, user)) <= 2 * |order|
  {
    if order != [] {
      AnnouncesFew(order[1..], members, user);
      var rest := Announce(order[1..], members, user);
      var first := if order[0] in members && members[order[0]] != user then [Send(order[0], Notice)] else [];
      WeightConcat(OpLoad, first, rest);
    }
  }

  lemma AcceptLoad(members: map<DopId, int>, d: DopId, user: int, order: seq<DopId>)
    ensures Weight(OpLoad, Accept(members, d, user, order)) <= EXIT_LOAD + 4 + 2 * |order|
  {
    AnnouncesFew(order, members[d := user], user);
    var rest := Announce(order, members[d := user], user);
    WeightConcat(OpLoad, [Admit(d, user), ShowRoster(d)], rest);
    assert [Admit(d, user), ShowRoster(d)][1..] == [ShowRoster(d)];
  }

  lemma RefusalLoad(d: DopId)
    ensures Weight(OpLoad, [Refuse(d), Send(d, Denied)]) == 6
  {
    assert Weight(OpLoad, [Send(d, Denied)]) == 2;
    WeightConcat(OpLoad, [Refuse(d)], [Send(d, Denied)]);
    assert [Refuse(d)] + [Send(d, Denied)] == [Refuse(d), Send(d, Denied)];
  }

  lemma BroadcastLoad(order: seq<DopId>, m: FromChat, last: Op)
    requires !m.Joined? && OpLoad(last) == 1
    ensures Weight(OpLoad, Broadcast(order, m) + [last]) <= 2 * |order| + 1
  {
    WeightConcat(OpLoad, Broadcast(order, m), [last]);
    WeightAtMostTwo(OpLoad, Broadcast(order, m));
  }

  lemma TakingLess(r: Inst, order: seq<DopId>)
    requires |r.members| <= MAX_MEMBERS && r.script == [] && r.queue != []
    requires Lists(order, Audience(r.members, r.queue[0]))
    ensures RoomLoad(Take(r, order)) < RoomLoad(r)
  {
    OrderIsShort(order, Audience(r.members, r.queue[0]));
    ScriptLess(r.members, r.queue[0], order);
  }

  lemma ScriptLess(members: map<DopId, int>, m: ToChat, order: seq<DopId>)
    requires |order| == |Audience(members, m)| && |members| <= MAX_MEMBERS
    ensures Weight(OpLoad, Script(members, m, order)) < OrderLoad(m)
  {
    match m
    case Enter(d, user) =>
      if |members| < MAX_MEMBERS {
        AcceptLoad(members, d, user, order);
      } else {
        RefusalLoad(d);
      }
    case Leave(d) => BroadcastLoad(order, Left(d), Drop(d));
    case Roster(d) => assert [ShowRoster(d)][1..] == [];
    case Shutdown =>
  }

  lemma ListeningLess(r: Inst, order: seq<DopId>)
    requires |r.members| <= MAX_MEMBERS && r.script == [] && r.inbox != [] && Lists(order, r.members.Keys)
    ensures RoomLoad(Listen(r, order)) < RoomLoad(r)
  {
    OrderIsShort(order, r.members.Keys);
    BroadcastLoad(order, Said(r.inbox[0]), Record(r.inbox[0]));
  }

  lemma PerformingLess(r: Inst)
    requires r.script != []
    ensures RoomLoad(Perform(r)) + OpLoad(r.script[0]) == RoomLoad(r)
  {
  }

  lemma RoomPut(s: State, t: State, i: InstId)
    requires i < |s.insts| && |t.insts| == |s.insts| && t.insts == s.insts[i := t.insts[i]]
    ensures Weight(RoomLoad, t.insts) + RoomLoad(s.insts[i]) == Weight(RoomLoad, s.insts) + RoomLoad(t.insts[i])
  {
    WeightPut(RoomLoad, s.insts, i, t.insts[i]);
  }

  lemma SameCrowd(s: State, t: State, n: nat)
    requires t.dops == s.dops
    ensures Crowd(t, n) == Crowd(s, n)
  {
  }

  lemma ChatStepLess(s: State, T: Tokens, i: InstId, n: nat)
    requires Tidy(s, T) && Deserted(s, n) && Enabled(s, ChatStep(i)) && ChatSteps(s, i).fault == Healthy
    ensures Remaining(ChatSteps(s, i), n) < Remaining(s, n)
  {
    var r, t := s.insts[i], ChatSteps(s, i);
    StepDelivers(s, i);
    PerformingLess(r);
    RoomPut(s, t, i);
    if Addressee(r.script[0]).Some? {
      var d := Addressee(r.script[0]).value;
      AddresseeIsKnown(s, T, i);
      CrowdPut(s, t, d, n);
      WeightMore(NewsLoad, At(s, d).fromChat, News(s, i));
      assert DopLoad(At(t, d)) == DopLoad(At(s, d)) + NewsLoad(News(s, i));
    } else {
      SameCrowd(s, t, n);
    }
  }

  lemma RoomLess(s: State, T: Tokens, a: Action, n: nat)
    requires Tidy(s, T) && Deserted(s, n) && Enabled(s, a) && Apply(s, a).fault == Healthy && Actor(a).TheRoom?
    requires |s.insts[a.i].members| <= MAX_MEMBERS
    ensures Remaining(Apply(s, a), n) < Remaining(s, n)
  {
    if a.ChatStep? {
      ChatStepLess(s, T, a.i, n);
    } else {
      RoomPut(s, Apply(s, a), a.i);
      SameCrowd(s, Apply(s, a), n);
      match a
      case ChatTake(i, order) => TakingLess(s.insts[i], order);
      case ChatListen(i, order) => ListeningLess(s.insts[i], order);
    }
  }

  // ------------------------------------------------------------------ the channel master

  lemma LaunchLess(s: State, found: nat, n: nat)
    requires Enabled(s, MasterTake(found)) && s.masterQ[0].Join? && s.masterQ[0].name != "" && found != 0
    requires found !in s.reg
    ensures Remaining(MasterTakes(s, found), n) < Remaining(s, n)
  {
    var m := s.masterQ[0];
    AcceptLoad(map[], m.d, m.user, [m.d]);
    WeightMore(RoomLoad, s.insts, Launch(found, m.d, m.user));
    SameCrowd(s, MasterTakes(s, found), n);
  }

  lemma MasterTakeLess(s: State, found: nat, n: nat)
    requires Enabled(s, MasterTake(found))
    ensures Remaining(MasterTakes(s, found), n) < Remaining(s, n)
  {
    var m := s.masterQ[0];
    if m.Join? && m.name != "" && found != 0 && found !in s.reg {
      LaunchLess(s, found, n);
    } else {
      SameCrowd(s, MasterTakes(s, found), n);
      assert MasterTakes(s, found).insts == s.insts;
    }
  }

  lemma MasterHearLess(s: State, n: nat)
    requires Enabled(s, MasterHear)
    ensures Remaining(MasterHears(s), n) < Remaining(s, n)
  {
    SameCrowd(s, MasterHears(s), n);
  }

  lemma ReplyLess(s: State, n: nat)
    requires Enabled(s, MasterSend) && s.todo.Reply? && MasterSends(s).fault == Healthy && s.todo.d < n
    ensures Remaining(MasterSends(s), n) < Remaining(s, n)
  {
    CrowdPut(s, MasterSends(s), s.todo.d, n);
    WeightMore(ReplyLoad, At(s, s.todo.d).fromMaster, s.todo.r);
  }

  lemma ForwardLess(s: State, n: nat)
    requires Books(s) && Enabled(s, MasterSend) && s.todo.Forward?
    ensures Remaining(MasterSends(s), n) < Remaining(s, n)
  {
    var t := MasterSends(s);
    ForwardIsPushed(s);
    var i := s.reg[s.todo.c].inst;
    RoomPut(s, t, i);
    SameCrowd(s, t, n);
    WeightMore(OrderLoad, s.insts[i].queue, s.todo.m);
  }

  lemma MasterSendLess(s: State, T: Tokens, n: nat)
    requires Books(s) && Tidy(s, T) && Deserted(s, n) && Enabled(s, MasterSend) && MasterSends(s).fault == Healthy
    ensures Remaining(MasterSends(s), n) < Remaining(s, n)
  {
    if s.todo.Reply? {
      KnownByToken(s, T, s.todo.d);
      ReplyLess(s, n);
    } else {
      ForwardLess(s, n);
    }
  }

  lemma MasterLess(s: State, T: Tokens, a: Action, n: nat)
    requires Books(s) && Tidy(s, T) && Deserted(s, n) && Enabled(s, a) && Apply(s, a).fault == Healthy
    requires Actor(a).TheMaster?
    ensures Remaining(Apply(s, a), n) < Remaining(s, n)
  {
    match a
    case MasterTake(found) => MasterTakeLess(s, found, n);
    case MasterHear => MasterHearLess(s, n);
    case MasterSend => MasterSendLess(s, T, n);
  }

  // ------------------------------------------------------------------ bounded, and finished

  /** From position k on, nobody touches a key. */
  ghost predicate UnattendedFrom(h: seq<Action>, k: nat) {
    forall j :: k <= j < |h| ==> Unattended(After(h[..j]), h[j])
  }

  lemma StepLess(h: seq<Action>, a: Action, n: nat)
    requires OrderlyRun(h) && Enabled(After(h), a) && OrderlyStep(After(h), a)
    requires Deserted(After(h), n) && Unattended(After(h), a)
    ensures Deserted(Apply(After(h), a), n) && Remaining(Apply(After(h), a), n) < Remaining(After(h), n)
  {
    var s := After(h);
    var T := OrderlyIsTidy(h);
    TidyStep(s, T, a);
    DesertedStep(s, T, a, n);
    match Actor(a)
    case TheUser(_) => UserLess(s, a, n);
    case TheMaster => MasterLess(s, T, a, n);
    case TheRoom(i) =>
      OrderlyIsPossible(h);
      AtMostSix(h, i);
      RoomLess(s, T, a, n);
  }

  /** Once all users are gone, what is left to do grows less with every step that the
      server takes in an orderly run, whatever the interleaving: there are no more such
      steps than that. */
  lemma {:induction false} ShutdownIsBounded(h: seq<Action>, k: nat, n: nat)
    requires OrderlyRun(h) && k <= |h| && UnattendedFrom(h, k) && Deserted(After(h[..k]), n)
    ensures Deserted(After(h), n)
    ensures |h| - k + Remaining(After(h), n) <= Remaining(After(h[..k]), n)
    decreases |h|
  {
    if k == |h| {
      assert h[..k] == h;
    } else {
      var g := h[..|h| - 1];
      assert g[..k] == h[..k];
      forall j | k <= j < |g| ensures Unattended(After(g[..j]), g[j]) { assert g[..j] == h[..j]; }
      ShutdownIsBounded(g, k, n);
      StepLess(g, h[|h| - 1], n);
    }
  }

  /** No goroutine can take another step by itself that an orderly run would let it take. */
  ghost predicate Over(s: State) {
    forall a :: Unattended(s, a) && Enabled(s, a) && OrderlyStep(s, a) ==> !Fits(s, a)
  }

  /** Gone, or about to give up although no answer to it is out any more. */
  predicate AtRest(x: Dop) { x == NEW_DOP || x.closed || (LastRound(x) && x.awaiting == 0) }

  /** The channel master has nothing to do and lists no channel, no chat channel is left,
      and nothing is going to be sent to anybody. */
  ghost predicate Finished(s: State) {
    && s.todo == Idle && s.masterQ == [] && s.denials == [] && s.reg == map[]
    && (forall i :: 0 <= i < |s.insts| ==> s.insts[i].closed)
    && (forall d: DopId :: AtRest(At(s, d)))
  }

  /** Some doppelganger is about to give up while an answer to it is out. */
  ghost predicate PatienceEnds(s: State) {
    exists d: DopId :: !At(s, d).closed && LastRound(At(s, d)) && 0 < At(s, d).awaiting
  }

  /** The closed go channel of a user who is gone always has something to say. */
  lemma TurnsByItself(s: State, d: DopId)
    requires s.fault == Healthy && At(s, d).gone && !At(s, d).closed && !At(s, d).unwinding
    ensures !Over(s)
  {
    var a := Issue(d, CmdOther, false);
    assert Unattended(s, a) && Enabled(s, a) && OrderlyStep(s, a) && Fits(s, a);
  }

  /** And the exit procedure runs, short of the last round. */
  lemma LeavesByItself(s: State, d: DopId)
    requires s.fault == Healthy && Roomy(s) && !At(s, d).closed && At(s, d).unwinding && !LastRound(At(s, d))
    ensures !Over(s)
  {
    var a := ExitProcedure(d);
    assert Unattended(s, a) && Enabled(s, a) && OrderlyStep(s, a) && Fits(s, a);
  }

  lemma EverybodyRests(h: seq<Action>, n: nat)
    requires OrderlyRun(h) && Roomy(After(h)) && Deserted(After(h), n) && Over(After(h)) && !PatienceEnds(After(h))
    ensures forall d: DopId :: AtRest(At(After(h), d))
  {
    var s := After(h);
    OrderlyRunsAreSafe(h);
    forall d: DopId ensures AtRest(At(s, d)) {
      if !AtRest(At(s, d)) {
        if At(s, d).unwinding { LeavesByItself(s, d); } else { TurnsByItself(s, d); }
      }
    }
  }

  /** Nothing is out to or from whoever is at rest. */
  lemma RestIsFree(s: State, T: Tokens, d: DopId)
    requires Tidy(s, T) && AllPoised(s, T) && AtRest(At(s, d))
    ensures Tok(T, d).Free?
  {
    assert DopTidy(At(s, d), d, Tok(T, d), Cids(s.insts)) && Poised(At(s, d), Tok(T, d));
  }

  lemma OverIsStill(s: State, p: Proc)
    requires Over(s) && !p.TheUser?
    ensures !CanMove(s, p)
  {
    forall a | Internal(a) && Actor(a) == p && Enabled(s, a) ensures !Fits(s, a) {
      assert Unattended(s, a) && OrderlyStep(s, a);
    }
  }

  lemma NobodyKeepsWaiting(s: State, T: Tokens, i: InstId, d: DopId)
    requires Tidy(s, T) && AllPoised(s, T) && AtRest(At(s, d))
    ensures !Waits(s, TheRoom(i), TheUser(d))
  {
    RestIsFree(s, T, d);
    if i < |s.insts| && s.insts[i].script != [] {
      var r := s.insts[i];
      assert RoomTidy(r, i, T) && OpTidy(r.script[0], r.script, i, T);
    }
  }

  lemma RoomIsIdle(h: seq<Action>, i: InstId)
    requires OrderlyRun(h) && Roomy(After(h)) && Over(After(h)) && forall d: DopId :: AtRest(At(After(h), d))
    ensures !Busy(After(h), TheRoom(i))
  {
    var s := After(h);
    var T := OrderlyTickets(h);
    OverIsStill(s, TheRoom(i));
    forall d ensures !Waits(s, TheRoom(i), TheUser(d)) { NobodyKeepsWaiting(s, T, i, d); }
    if Busy(s, TheRoom(i)) { RoomMovesOrWaits(s, i); }
  }

  lemma MasterIsIdle(h: seq<Action>)
    requires OrderlyRun(h) && Roomy(After(h)) && Over(After(h)) && forall d: DopId :: AtRest(At(After(h), d))
    ensures !Busy(After(h), TheMaster)
  {
    var s := After(h);
    OverIsStill(s, TheMaster);
    if Busy(s, TheMaster) {
      MasterMovesOrWaits(h);
      var q :| Waits(s, TheMaster, q);
      WaitsLeadDown(h, TheMaster, q);
      RoomIsIdle(h, q.i);
    }
  }

  /** A chat channel without members, messages or joins on their way has been shut down. */
  lemma RoomHasClosed(h: seq<Action>, i: InstId)
    requires OrderlyRun(h) && i < |After(h).insts|
    requires var s := After(h);
      s.todo == Idle && s.denials == [] && !Busy(s, TheRoom(i)) && forall d: DopId :: AtRest(At(s, d))
    ensures After(h).insts[i].closed && !Registered(After(h), i)
  {
    var s := After(h);
    var r := s.insts[i];
    var T := OrderlyTickets(h);
    assert RoomOk(r, Registered(s, i));
    forall d: DopId ensures r.tickets[d] == 0 { RestIsFree(s, T, d); }
    assert r.tickets == multiset{};
    assert EntriesOk(s);
  }

  lemma NothingRegistered(s: State)
    requires Books(s) && forall i :: 0 <= i < |s.insts| ==> !Registered(s, i)
    ensures s.reg == map[]
  {
    forall c ensures c !in s.reg {
      assert c in s.reg ==> EntryOk(s, c) && Registered(s, s.reg[c].inst);
    }
  }

  /** When no such step is left, nobody is on any channel, no channel is listed and all
      goroutines of users and channels have returned, but for those who were denied on
      their way out and give up next; unless somebody's patience ends before its answer
      comes. */
  lemma ShutdownIsComplete(h: seq<Action>, n: nat)
    requires OrderlyRun(h) && Roomy(After(h)) && Deserted(After(h), n) && Over(After(h))
    ensures Finished(After(h)) || PatienceEnds(After(h))
  {
    var s := After(h);
    if !PatienceEnds(s) {
      EverybodyRests(h, n);
      MasterIsIdle(h);
      forall i | 0 <= i < |s.insts| ensures s.insts[i].closed && !Registered(s, i) {
        RoomIsIdle(h, i);
        RoomHasClosed(h, i);
      }
      OrderlyIsPossible(h);
      BooksBalance(h);
      NothingRegistered(s);
    }
  }
}
