/** A doppelganger that has closed its callbacks: over whom the server still panics.

    What still leads to a send to it can be read off the queues, the scripts and the
    member lists.  Where nothing does, nothing ever will; where something does, the
    server's own steps, or one more user joining, bring the panic about. */
module Closing {
  import opened Options
  import opened Wire
  import opened Client
  import opened ChatRoom
  import opened Network
  import opened Membership
  import opened Inquiries

  // ------------------------------------------------------------------ what names a doppelganger

  predicate Asks(m: ToMaster, d: DopId) {
    m.d == d && (m.Join? || (m.Who? && 0 < m.c))
  }

  predicate Owes(m: ToChat, d: DopId) {
    (m.Enter? || m.Roster?) && m.d == d
  }

  predicate TodoNames(todo: Todo, d: DopId) {
    (todo.Reply? && todo.d == d) || (todo.Forward? && Owes(todo.m, d))
  }

  ghost predicate MasterNames(s: State, d: DopId) {
    TodoNames(s.todo, d) || exists k :: 0 <= k < |s.masterQ| && Asks(s.masterQ[k], d)
  }

  ghost predicate ScriptNames(script: seq<Op>, d: DopId) {
    exists k :: 0 <= k < |script| && Addressee(script[k]) == Some(d)
  }

  ghost predicate QueueNames(q: seq<ToChat>, d: DopId) {
    exists k :: 0 <= k < |q| && Owes(q[k], d)
  }

  /** On the list, and to stay there. */
  predicate Listed(r: Inst, d: DopId) { d in r.members && Drop(d) !in r.script }

  ghost predicate RoomNames(r: Inst, d: DopId) {
    !r.closed && (ScriptNames(r.script, d) || QueueNames(r.queue, d) || Listed(r, d))
  }

  ghost predicate Named(s: State, d: DopId) {
    MasterNames(s, d) || exists i :: 0 <= i < |s.insts| && RoomNames(s.insts[i], d)
  }

  ghost predicate Forgotten(s: State, d: DopId) {
    At(s, d).closed && !Named(s, d)
  }

  // ------------------------------------------------------------------ the forgotten stay so

  lemma AnnouncesListed(order: seq<DopId>, members: map<DopId, int>, user: int, d: DopId)
    requires d !in order
    ensures !ScriptNames(Announce(order, members, user), d)
  {
    forall k | 0 <= k < |Announce(order, members, user)|
      ensures Addressee(Announce(order, members, user)[k]) != Some(d)
    {
      assert Announce(order, members, user)[k] in Announce(order, members, user);
    }
  }

  lemma TakeForgets(r: Inst, d: DopId, order: seq<DopId>)
    requires !RoomNames(r, d) && !r.closed && r.script == [] && r.queue != []
    requires Lists(order, Audience(r.members, r.queue[0]))
    ensures !RoomNames(Take(r, order), d)
  {
    assert !Owes(r.queue[0], d) && d !in r.members;
    ScriptForgets(r.members, r.queue[0], order, d);
    assert forall k :: 0 <= k < |r.queue| - 1 ==> r.queue[1..][k] == r.queue[k + 1];
  }

  lemma ScriptForgets(members: map<DopId, int>, m: ToChat, order: seq<DopId>, d: DopId)
    requires !Owes(m, d) && d !in members && Lists(order, Audience(members, m))
    ensures !ScriptNames(Script(members, m, order), d)
  {
    assert d !in order;
    match m
    case Enter(e, user) => AcceptForgets(members, e, user, order, d);
    case Leave(e) => BroadcastForgets(order, Left(e), [Drop(e)], d);
    case _ =>
  }

  lemma AcceptForgets(members: map<DopId, int>, e: DopId, user: int, order: seq<DopId>, d: DopId)
    requires e != d && d !in order
    ensures !ScriptNames(Accept(members, e, user, order), d)
  {
    AnnouncesListed(order, members[e := user], user, d);
    var rest := Announce(order, members[e := user], user);
    assert forall k :: 0 <= k < |rest| ==> Addressee(rest[k]) != Some(d);
    assert Accept(members, e, user, order) == [Admit(e, user), ShowRoster(e)] + rest;
  }

  lemma BroadcastForgets(order: seq<DopId>, m: FromChat, end: seq<Op>, d: DopId)
    requires d !in order && forall k :: 0 <= k < |end| ==> Addressee(end[k]) == None
    ensures !ScriptNames(Broadcast(order, m) + end, d)
  {
  }

  lemma ListenForgets(r: Inst, d: DopId, order: seq<DopId>)
    requires !RoomNames(r, d) && !r.closed && r.script == [] && r.inbox != []
    requires Lists(order, r.members.Keys)
    ensures !RoomNames(Listen(r, order), d)
  {
    assert d !in order;
  }

  lemma PerformForgets(r: Inst, d: DopId)
    requires !RoomNames(r, d) && !r.closed && r.script != []
    ensures !RoomNames(Perform(r), d) && Addressee(r.script[0]) != Some(d)
  {
    assert forall k :: 0 <= k < |r.script| - 1 ==> r.script[1..][k] == r.script[k + 1];
    assert r.script == [r.script[0]] + r.script[1..];
  }

  /** Nothing that names d is added, and d stays closed. */
  ghost predicate NamesNoMore(s: State, t: State, d: DopId) {
    && (At(s, d).closed ==> At(t, d).closed)
    && (TodoNames(t.todo, d) ==> MasterNames(s, d))
    && (forall k :: 0 <= k < |t.masterQ| && Asks(t.masterQ[k], d) ==> t.masterQ[k] in s.masterQ)
    && (forall i :: 0 <= i < |t.insts| && RoomNames(t.insts[i], d) ==>
          (i < |s.insts| && RoomNames(s.insts[i], d)))
  }

  lemma StillForgotten(s: State, t: State, d: DopId)
    requires Forgotten(s, d) && NamesNoMore(s, t, d)
    ensures Forgotten(t, d)
  {
  }

  lemma QueueMore(r: Inst, q: Inst, m: ToChat, d: DopId)
    requires !RoomNames(r, d) && !Owes(m, d)
    requires q == r.(queue := r.queue + [m], tickets := q.tickets)
    ensures !RoomNames(q, d)
  {
  }

  lemma ForgottenByUsers(s: State, a: Action, d: DopId)
    requires Books(s) && Enabled(s, a) && Forgotten(s, d)
    requires a.Lose? || a.Issue? || a.GetFromMaster? || a.GetFromChat? || a.ExitProcedure?
    ensures Forgotten(Apply(s, a), d) && Apply(s, a).fault != ClosedDoppelganger(d)
  {
    var t := Apply(s, a);
    assert a.d != d;
    UsersOnlySpeak(s, a);
    assert forall i :: 0 <= i < |t.insts| ==> (RoomNames(t.insts[i], d) <==> RoomNames(s.insts[i], d));
    StillForgotten(s, t, d);
  }

  lemma UsersOnlySpeak(s: State, a: Action)
    requires a.Lose? || a.Issue? || a.GetFromMaster? || a.GetFromChat? || a.ExitProcedure?
    ensures |Apply(s, a).insts| == |s.insts|
    ensures forall i :: 0 <= i < |s.insts| ==> Apply(s, a).insts[i] == s.insts[i].(inbox := Apply(s, a).insts[i].inbox)
  {
  }

  lemma ForgottenByMasterTake(s: State, found: nat, d: DopId)
    requires Books(s) && Enabled(s, MasterTake(found)) && Forgotten(s, d)
    ensures Forgotten(Apply(s, MasterTake(found)), d) && Apply(s, MasterTake(found)).fault == Healthy
  {
    var t := Apply(s, MasterTake(found));
    var m := s.masterQ[0];
    RegisteredIsPositive(s);
    assert !Asks(m, d);
    assert m.Exit? ==> m.c != 0;
    if m.Join? && |t.insts| > |s.insts| {
      var r := t.insts[|s.insts|];
      AnnouncesListed([m.d], map[m.d := m.user], m.user, d);
      assert !RoomNames(r, d);
    }
    StillForgotten(s, t, d);
  }

  lemma ForgottenByMasterSend(s: State, d: DopId)
    requires Books(s) && Enabled(s, MasterSend) && Forgotten(s, d)
    ensures Forgotten(Apply(s, MasterSend), d) && Apply(s, MasterSend).fault != ClosedDoppelganger(d)
  {
    if s.todo.Forward? {
      ForgottenByForward(s, d);
    } else {
      StillForgotten(s, Apply(s, MasterSend), d);
    }
  }

  lemma ForgottenByForward(s: State, d: DopId)
    requires Books(s) && Enabled(s, MasterSend) && s.todo.Forward? && Forgotten(s, d)
    ensures Forgotten(MasterSends(s), d) && MasterSends(s).fault == Healthy
  {
    var t := MasterSends(s);
    SendsSafely(s);
    ForwardIsPushed(s);
    var i := s.reg[s.todo.c].inst;
    assert !RoomNames(s.insts[i], d);
    QueueMore(s.insts[i], t.insts[i], s.todo.m, d);
    StillForgotten(s, t, d);
  }

  /** A message forwarded reaches the open instance registered for its channel. */
  lemma ForwardIsPushed(s: State)
    requires Books(s) && Enabled(s, MasterSend) && s.todo.Forward?
    ensures s.todo.c in s.reg
    ensures var i, t := s.reg[s.todo.c].inst, MasterSends(s);
      && i < |s.insts| == |t.insts| && !s.insts[i].closed && t.fault == Healthy
      && t.insts[i] == s.insts[i].(queue := s.insts[i].queue + [s.todo.m], tickets := t.insts[i].tickets)
      && (forall j :: 0 <= j < |s.insts| && j != i ==> t.insts[j] == s.insts[j])
      && t.masterQ == s.masterQ && t.dops == s.dops
      && (t.todo == Idle || t.todo == Forward(s.todo.c, Shutdown))
  {
    SendsSafely(s);
    assert EntryOk(s, s.todo.c);
  }

  lemma ForgottenByRooms(s: State, a: Action, d: DopId)
    requires Enabled(s, a) && Forgotten(s, d) && (a.ChatTake? || a.ChatListen? || a.ChatStep?)
    ensures Forgotten(Apply(s, a), d) && Apply(s, a).fault != ClosedDoppelganger(d)
  {
    var r := s.insts[a.i];
    assert !RoomNames(r, d);
    match a
    case ChatTake(_, order) =>
      TakeForgets(r, d, order);
      StillForgotten(s, PutInst(s, a.i, Take(r, order)), d);
    case ChatListen(_, order) =>
      ListenForgets(r, d, order);
      StillForgotten(s, PutInst(s, a.i, Listen(r, order)), d);
    case ChatStep(_) =>
      ForgottenByChatStep(s, a.i, d);
  }

  lemma ForgottenByChatStep(s: State, i: InstId, d: DopId)
    requires Enabled(s, ChatStep(i)) && Forgotten(s, d)
    ensures Forgotten(ChatSteps(s, i), d) && ChatSteps(s, i).fault != ClosedDoppelganger(d)
  {
    var r, t := s.insts[i], ChatSteps(s, i);
    assert !RoomNames(r, d);
    PerformForgets(r, d);
    ChatStepKeeps(s, i, d);
    assert forall j :: 0 <= j < |t.insts| && RoomNames(t.insts[j], d) ==> RoomNames(s.insts[j], d);
    StillForgotten(s, t, d);
  }

  /** What a goroutine's operation leaves as it is. */
  lemma ChatStepKeeps(s: State, i: InstId, d: DopId)
    requires i < |s.insts| && s.insts[i].script != []
    ensures var t := ChatSteps(s, i);
      && t.insts == s.insts[i := Perform(s.insts[i])] && t.todo == s.todo && t.masterQ == s.masterQ && t.reg == s.reg
      && (At(s, d).closed ==> At(t, d).closed)
      && (t.fault == ClosedDoppelganger(d) ==>
            s.fault == t.fault || (At(s, d).closed && Addressee(s.insts[i].script[0]) == Some(d)))
  {
    var r := s.insts[i];
    var t := PutInst(s, i, Perform(r));
    match r.script[0]
    case Admit(e, _) => DeliverKeeps(t, e, Joined(r.cid, i), d);
    case Send(e, m) => DeliverKeeps(t, e, m, d);
    case ShowRoster(e) => DeliverKeeps(t, e, Notice, d);
    case _ =>
  }

  lemma DeliverKeeps(s: State, e: DopId, m: FromChat, d: DopId)
    ensures var t := Deliver(s, e, m);
      && t == s.(dops := t.dops, fault := t.fault) && (At(s, d).closed ==> At(t, d).closed)
      && (t.fault == ClosedDoppelganger(d) ==> s.fault == t.fault || (At(s, d).closed && d == e))
  {
  }

  lemma ForgottenStep(s: State, a: Action, d: DopId)
    requires Books(s) && Enabled(s, a) && Forgotten(s, d)
    ensures Forgotten(Apply(s, a), d) && Apply(s, a).fault != ClosedDoppelganger(d)
  {
    match a
    case MasterTake(found) => ForgottenByMasterTake(s, found, d);
    case MasterHear => StillForgotten(s, Apply(s, a), d);
    case MasterSend => ForgottenByMasterSend(s, d);
    case ChatTake(_, _) => ForgottenByRooms(s, a, d);
    case ChatListen(_, _) => ForgottenByRooms(s, a, d);
    case ChatStep(_) => ForgottenByRooms(s, a, d);
    case _ => ForgottenByUsers(s, a, d);
  }

  /** Whoever has closed its callbacks when nothing names it is never sent to again,
      whatever anybody does. */
  lemma {:induction false} ForgottenForGood(h: seq<Action>, g: seq<Action>, d: DopId)
    requires Possible(h + g) && Possible(h) && After(h).fault == Healthy && Forgotten(After(h), d)
    ensures Forgotten(After(h + g), d) && After(h + g).fault != ClosedDoppelganger(d)
    decreases |g|
  {
    if g == [] {
      assert h + g == h;
    } else {
      var m := |g| - 1;
      assert (h + g)[..|h + g| - 1] == h + g[..m];
      assert (h + g)[|h + g| - 1] == g[m];
      ForgottenForGood(h, g[..m], d);
      BooksBalance(h + g[..m]);
      ForgottenStep(After(h + g[..m]), g[m], d);
    }
  }

  // ------------------------------------------------------------------ the panic itself

  /** The send that panics over d: the channel master's reply to it, or an operation
      addressed to it, but for the roster of an empty list. */
  predicate SendsTo(s: State, a: Action, d: DopId) {
    match a
    case MasterSend => s.todo.Reply? && s.todo.d == d
    case ChatStep(i) =>
      && i < |s.insts| && s.insts[i].script != [] && Addressee(s.insts[i].script[0]) == Some(d)
      && !(s.insts[i].script[0].ShowRoster? && s.insts[i].members == map[])
    case _ => false
  }

  lemma PanicsOverExactly(s: State, a: Action, d: DopId)
    requires Enabled(s, a)
    ensures Apply(s, a).fault == ClosedDoppelganger(d) <==> At(s, d).closed && SendsTo(s, a, d)
  {
    match a
    case MasterSend => MasterPanicsExactly(s, d);
    case ChatStep(i) => RoomPanicsExactly(s, i, d);
    case _ =>
  }

  lemma MasterPanicsExactly(s: State, d: DopId)
    requires Enabled(s, MasterSend)
    ensures MasterSends(s).fault == ClosedDoppelganger(d) <==> At(s, d).closed && s.todo.Reply? && s.todo.d == d
  {
  }

  lemma RoomPanicsExactly(s: State, i: InstId, d: DopId)
    requires Enabled(s, ChatStep(i))
    ensures ChatSteps(s, i).fault == ClosedDoppelganger(d) <==> At(s, d).closed && SendsTo(s, ChatStep(i), d)
  {
  }

  /** And the panic over the roster of an empty list. */
  lemma EmptyRosterExactly(s: State, a: Action, i: InstId)
    requires Enabled(s, a)
    ensures Apply(s, a).fault == EmptyRoster(i)
      <==> a == ChatStep(i) && s.insts[i].script[0].ShowRoster? && s.insts[i].members == map[]
  {
    match a
    case ChatStep(j) => RoomRosterExactly(s, j, i);
    case _ =>
  }

  lemma RoomRosterExactly(s: State, j: InstId, i: InstId)
    requires Enabled(s, ChatStep(j))
    ensures ChatSteps(s, j).fault == EmptyRoster(i)
      <==> i == j && s.insts[j].script[0].ShowRoster? && s.insts[j].members == map[]
  {
  }
}
