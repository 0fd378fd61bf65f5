/** The other half of Closing: a doppelganger that has closed its callbacks and is still
    named.  The server's own steps serve what names it, and panic. */
module Reckoning {
  import opened Options
  import opened Wire
  import opened Client
  import opened ChatRoom
  import opened Network
  import opened Membership
  import opened Inquiries
  import opened ChatChannel
  import opened Closing

  // ------------------------------------------------------------------ what the server does unaided

  /** A step of the channel master or of a chat channel. */
  predicate ServerStep(a: Action) {
    a.MasterTake? || a.MasterHear? || a.MasterSend? || a.ChatTake? || a.ChatListen? || a.ChatStep?
  }

  /** Somebody who has done nothing yet asks to join. */
  predicate Newcomer(s: State, a: Action) {
    a.Issue? && a.cmd.CmdJoin? && a.d !in s.dops
  }

  ghost predicate Runs(s: State, g: seq<Action>)
    decreases |g|
  {
    g == [] || (Enabled(s, g[0]) && (ServerStep(g[0]) || Newcomer(s, g[0])) && Runs(Apply(s, g[0]), g[1..]))
  }

  function Final(s: State, g: seq<Action>): State
    decreases |g|
  {
    if g == [] then s else Final(Apply(s, g[0]), g[1..])
  }

  /** A panic, or the end of the channel master. */
  predicate Down(s: State) { s.fault != Healthy || s.todo.Halted? }

  lemma First(s: State, a: Action, g: seq<Action>)
    requires Enabled(s, a) && (ServerStep(a) || Newcomer(s, a)) && Runs(Apply(s, a), g)
    ensures Runs(s, [a] + g) && Final(s, [a] + g) == Final(Apply(s, a), g)
  {
    assert ([a] + g)[1..] == g;
  }

  lemma {:induction false} Chain(s: State, f: seq<Action>, g: seq<Action>)
    requires Runs(s, f) && Runs(Final(s, f), g)
    ensures Runs(s, f + g) && Final(s, f + g) == Final(Final(s, f), g)
    decreases |f|
  {
    if f == [] {
      assert f + g == g;
    } else {
      Chain(Apply(s, f[0]), f[1..], g);
      Unfolded(s, f, g);
    }
  }

  lemma Unfolded(s: State, f: seq<Action>, g: seq<Action>)
    requires f != [] && Runs(s, f) && Runs(Apply(s, f[0]), f[1..] + g)
    ensures Runs(s, f + g) && Final(s, f + g) == Final(Apply(s, f[0]), f[1..] + g)
  {
    First(s, f[0], f[1..] + g);
    FirstOf(f, g);
  }

  lemma FirstOf(f: seq<Action>, g: seq<Action>)
    requires f != []
    ensures f + g == [f[0]] + (f[1..] + g)
  {
  }

  lemma {:induction false} RunsAreHistories(h: seq<Action>, g: seq<Action>)
    requires Possible(h) && Runs(After(h), g)
    ensures Possible(h + g) && After(h + g) == Final(After(h), g)
    decreases |g|
  {
    if g == [] {
      assert h + g == h;
    } else {
      Then(h, g[0]);
      RunsAreHistories(h + [g[0]], g[1..]);
      Regrouped(h, g);
    }
  }

  lemma Regrouped(h: seq<Action>, g: seq<Action>)
    requires g != []
    ensures h + g == h + [g[0]] + g[1..]
  {
  }

  // ------------------------------------------------------------------ a chat channel

  lemma AddressedPanics(s: State, i: InstId, d: DopId)
    requires i < |s.insts| && s.insts[i].script != [] && At(s, d).closed && Addressee(s.insts[i].script[0]) == Some(d)
    ensures ChatSteps(s, i).fault != Healthy
  {
  }

  lemma TailNames(script: seq<Op>, d: DopId)
    requires ScriptNames(script, d) && Addressee(script[0]) != Some(d)
    ensures ScriptNames(script[1..], d)
  {
    var k :| 0 <= k < |script| && Addressee(script[k]) == Some(d);
    assert script[1..][k - 1] == script[k];
  }

  /** A script that sends to a closed callback is worked off up to the panic. */
  lemma {:induction false} FinishScript(s: State, i: InstId, d: DopId) returns (g: seq<Action>)
    requires s.fault == Healthy && i < |s.insts| && !s.insts[i].closed && At(s, d).closed
    requires ScriptNames(s.insts[i].script, d)
    ensures Runs(s, g) && Final(s, g).fault != Healthy
    decreases |s.insts[i].script|
  {
    var a, t := ChatStep(i), ChatSteps(s, i);
    var rest := [];
    if t.fault == Healthy {
      if Addressee(s.insts[i].script[0]) == Some(d) { AddressedPanics(s, i, d); }
      TailNames(s.insts[i].script, d);
      ChatStepKeeps(s, i, d);
      rest := FinishScript(t, i, d);
    }
    First(s, a, rest);
    g := [a] + rest;
  }

  /** The list after a message other than an exit. */
  function Admitted(members: map<DopId, int>, m: ToChat): map<DopId, int> {
    if m.Enter? && |members| < MAX_MEMBERS then members[m.d := m.user] else members
  }

  /** The list after the joins of a queue, as long as there is room. */
  function Filled(members: map<DopId, int>, q: seq<ToChat>): map<DopId, int>
    decreases |q|
  {
    if q == [] then members else Filled(Admitted(members, q[0]), q[1..])
  }

  /** A join in the queue finds room and is announced to d. */
  predicate Greeted(members: map<DopId, int>, q: seq<ToChat>, d: DopId)
    decreases |q|
  {
    && q != [] && d in members
    && ((q[0].Enter? && |members| < MAX_MEMBERS && q[0].d != d && q[0].user != members[d])
        || Greeted(Admitted(members, q[0]), q[1..], d))
  }

  predicate Leaves(q: seq<ToChat>) { exists k :: 0 <= k < |q| && q[k].Leave? }

  /** The list once the script has been worked off. */
  function Coming(r: Inst): map<DopId, int> { Roll(r.members, r.script) }

  /** What the goroutine has before it will be sent to d. */
  ghost predicate RoomOwes(r: Inst, d: DopId) {
    || ScriptNames(r.script, d)
    || QueueNames(r.queue, d)
    || (Listed(r, d) && (r.inbox != [] || Leaves(r.queue) || Greeted(Coming(r), r.queue, d)))
  }

  predicate ShutdownLast(q: seq<ToChat>) {
    forall k :: 0 <= k < |q| && q[k].Shutdown? ==> k == |q| - 1
  }

  lemma BroadcastNames(order: seq<DopId>, m: FromChat, end: seq<Op>, d: DopId)
    requires d in order
    ensures ScriptNames(Broadcast(order, m) + end, d)
  {
    var k :| 0 <= k < |order| && order[k] == d;
    assert (Broadcast(order, m) + end)[k] == Send(d, m);
  }

  /** Where a script leads from the list it is made for. */
  lemma ScriptAdmits(members: map<DopId, int>, m: ToChat, order: seq<DopId>)
    requires !m.Leave?
    ensures Roll(members, Script(members, m, order)) == Admitted(members, m)
  {
    match m
    case Enter(e, user) =>
      RefusalScript(0, 0, members, [], e);
      AcceptScript(0, 0, members, [], e, user, order, []);
    case Roster(e) => RosterScript(0, 0, members, [], e);
    case Shutdown =>
  }

  lemma AnnounceNames(order: seq<DopId>, members: map<DopId, int>, user: int, d: DopId)
    requires d in order && d in members && members[d] != user
    ensures ScriptNames(Announce(order, members, user), d)
  {
    var rest := Announce(order[1..], members, user);
    var head := if order[0] in members && members[order[0]] != user then [Send(order[0], Notice)] else [];
    if order[0] == d {
      assert Addressee((head + rest)[0]) == Some(d);
    } else {
      AnnounceNames(order[1..], members, user, d);
      var k :| 0 <= k < |rest| && Addressee(rest[k]) == Some(d);
      assert (head + rest)[|head| + k] == rest[k];
    }
  }

  lemma AdmissionNames(r: Inst, order: seq<DopId>, d: DopId)
    requires r.script == [] && r.queue != [] && |r.members| < MAX_MEMBERS && d in r.members
    requires var m := r.queue[0]; m.Enter? && m.d != d && m.user != r.members[d]
    requires Lists(order, Audience(r.members, r.queue[0]))
    ensures ScriptNames(Take(r, order).script, d) && !Take(r, order).closed
  {
    var m := r.queue[0];
    var members := r.members[m.d := m.user];
    AnnounceNames(order, members, m.user, d);
    var rest := Announce(order, members, m.user);
    var k :| 0 <= k < |rest| && Addressee(rest[k]) == Some(d);
    assert Take(r, order).script[k + 2] == rest[k];
  }

  /** Taking the head of the queue brings what is owed nearer. */
  lemma TakeOwes(r: Inst, d: DopId, order: seq<DopId>)
    requires RoomOwes(r, d) && r.script == [] && (Listed(r, d) ==> r.inbox == []) && r.queue != []
    requires ShutdownLast(r.queue)
    requires Lists(order, Audience(r.members, r.queue[0]))
    ensures var q := Take(r, order);
      !q.closed && RoomOwes(q, d) && ShutdownLast(q.queue)
  {
    var m, q := r.queue[0], Take(r, order);
    assert r.queue == [m] + q.queue;
    if Owes(m, d) {
      assert Addressee(q.script[if |r.members| >= MAX_MEMBERS && m.Enter? then 1 else 0]) == Some(d);
    } else if m.Leave? && Listed(r, d) {
      BroadcastNames(order, Left(m.d), [Drop(m.d)], d);
    } else if m.Enter? && Listed(r, d) && |r.members| < MAX_MEMBERS && m.user != r.members[d] {
      AdmissionNames(r, order, d);
    } else {
      TailOwes(r, d);
      TakesNext(r, d, order);
    }
  }

  lemma TailOwes(r: Inst, d: DopId)
    requires r.queue != [] && r.script == [] && (Listed(r, d) ==> r.inbox == []) && RoomOwes(r, d)
    requires var m := r.queue[0];
      && !Owes(m, d) && !(m.Leave? && Listed(r, d))
      && !(m.Enter? && Listed(r, d) && |r.members| < MAX_MEMBERS && m.user != r.members[d])
    ensures r.queue[1..] != []
    ensures QueueNames(r.queue[1..], d)
         || (Listed(r, d) && (Leaves(r.queue[1..]) || Greeted(Admitted(r.members, r.queue[0]), r.queue[1..], d)))
  {
    if QueueNames(r.queue, d) {
      var k :| 0 <= k < |r.queue| && Owes(r.queue[k], d);
      assert r.queue[1..][k - 1] == r.queue[k];
    } else if Leaves(r.queue) {
      var k :| 0 <= k < |r.queue| && r.queue[k].Leave?;
      assert r.queue[1..][k - 1] == r.queue[k];
    } else {
      assert Greeted(r.members, r.queue, d);
      assert Greeted(Admitted(r.members, r.queue[0]), r.queue[1..], d);
    }
  }

  lemma TakesNext(r: Inst, d: DopId, order: seq<DopId>)
    requires r.queue != [] && r.script == [] && r.queue[1..] != [] && ShutdownLast(r.queue)
    requires !Owes(r.queue[0], d) && !(r.queue[0].Leave? && Listed(r, d))
    ensures var q := Take(r, order);
      && !q.closed && (Listed(r, d) ==> Listed(q, d) && Coming(q) == Admitted(r.members, r.queue[0]))
  {
    var m := r.queue[0];
    if !m.Leave? {
      ScriptAdmits(r.members, m, order);
      NoDropsBegin(r.members, m, order);
    }
  }

  lemma NoDropsBegin(members: map<DopId, int>, m: ToChat, order: seq<DopId>)
    requires !m.Leave?
    ensures forall e: DopId :: Drop(e) !in Script(members, m, order)
  {
    if m.Enter? {
      var rest := Announce(order, members[m.d := m.user], m.user);
      assert forall e: DopId :: Drop(e) !in rest;
    }
  }

  /** A goroutine that owes d something works off its script and its queue up to the panic. */
  lemma {:induction false} FinishRoom(s: State, i: InstId, d: DopId) returns (g: seq<Action>)
    requires s.fault == Healthy && i < |s.insts| && !s.insts[i].closed && At(s, d).closed
    requires RoomOwes(s.insts[i], d) && ShutdownLast(s.insts[i].queue)
    ensures Runs(s, g) && Final(s, g).fault != Healthy
    decreases |s.insts[i].queue|, |s.insts[i].script|
  {
    var r := s.insts[i];
    if ScriptNames(r.script, d) {
      g := FinishScript(s, i, d);
    } else if r.script != [] {
      g := FinishAfterStep(s, i, d);
    } else if r.inbox != [] && Listed(r, d) {
      var order := OrderOf(r.members.Keys);
      BroadcastNames(order, Said(r.inbox[0]), [Record(r.inbox[0])], d);
      var t := PutInst(s, i, Listen(r, order));
      var rest := FinishScript(t, i, d);
      First(s, ChatListen(i, order), rest);
      g := [ChatListen(i, order)] + rest;
    } else {
      var order := OrderOf(Audience(r.members, r.queue[0]));
      TakeOwes(r, d, order);
      var t := PutInst(s, i, Take(r, order));
      var rest := FinishRoom(t, i, d);
      First(s, ChatTake(i, order), rest);
      g := [ChatTake(i, order)] + rest;
    }
  }

  /** An operation that does not concern d leaves what is owed to it. */
  lemma PerformOwes(r: Inst, d: DopId)
    requires RoomOwes(r, d) && r.script != [] && !ScriptNames(r.script, d)
    ensures var q := Perform(r);
      RoomOwes(q, d) && q.queue == r.queue && q.closed == r.closed && |q.script| < |r.script|
  {
    ListedStays(r, d);
  }

  lemma ListedStays(r: Inst, d: DopId)
    requires r.script != [] && !ScriptNames(r.script, d)
    ensures var q := Perform(r);
      && (Listed(r, d) ==> Listed(q, d) && q.members[d] == r.members[d])
      && q.queue == r.queue && q.inbox == r.inbox && q.closed == r.closed && q.cid == r.cid
  {
    assert Addressee(r.script[0]) != Some(d);
    assert r.script == [r.script[0]] + r.script[1..];
  }

  lemma {:induction false} FinishAfterStep(s: State, i: InstId, d: DopId) returns (g: seq<Action>)
    requires s.fault == Healthy && i < |s.insts| && !s.insts[i].closed && At(s, d).closed
    requires RoomOwes(s.insts[i], d) && ShutdownLast(s.insts[i].queue)
    requires s.insts[i].script != [] && !ScriptNames(s.insts[i].script, d)
    ensures Runs(s, g) && Final(s, g).fault != Healthy
    decreases |s.insts[i].queue|, |s.insts[i].script|, 0
  {
    var t := ChatSteps(s, i);
    PerformOwes(s.insts[i], d);
    ChatStepKeeps(s, i, d);
    var rest := [];
    if t.fault == Healthy { rest := FinishRoom(t, i, d); }
    First(s, ChatStep(i), rest);
    g := [ChatStep(i)] + rest;
  }

  // ------------------------------------------------------------------ the channel master

  /** What every run keeps. */
  ghost predicate Kept(s: State) { Books(s) && InquiriesOk(s) }

  lemma KeptStep(s: State, a: Action)
    requires Kept(s) && Enabled(s, a)
    ensures Kept(Apply(s, a))
  {
    BooksStep(s, a);
    InquiriesStep(s, a);
  }

  lemma OpenRoom(s: State, i: InstId)
    requires Books(s) && i < |s.insts|
    ensures ShutdownLast(s.insts[i].queue)
  {
    assert RoomOk(s.insts[i], Registered(s, i));
  }

  /** The channel master works off its queue until it panics over d, or earlier, or hands
      what names d to a chat channel. */
  lemma {:induction false} FinishMaster(s: State, d: DopId) returns (g: seq<Action>)
    requires Kept(s) && !Down(s) && At(s, d).closed && MasterNames(s, d)
    ensures Runs(s, g) && Down(Final(s, g))
    decreases |s.masterQ|, Work(s.todo)
  {
    if s.todo != Idle {
      g := FinishSend(s, d);
    } else {
      var a := MasterTake(0);
      var t := MasterTakes(s, 0);
      KeptStep(s, a);
      var rest := [];
      if !Down(t) {
        TakingNames(s, d);
        rest := FinishMaster(t, d);
      }
      First(s, a, rest);
      g := [a] + rest;
    }
  }

  lemma TakingNames(s: State, d: DopId)
    requires Kept(s) && s.todo == Idle && s.fault == Healthy && MasterNames(s, d) && At(s, d).closed
    ensures s.masterQ != [] && MasterTakes(s, 0).dops == s.dops && MasterTakes(s, 0).masterQ == s.masterQ[1..]
    ensures MasterTakes(s, 0).insts == s.insts
    ensures MasterNames(MasterTakes(s, 0), d)
  {
    var k :| 0 <= k < |s.masterQ| && Asks(s.masterQ[k], d);
    if k == 0 {
      assert InquiryOk(s, 0);
    } else {
      assert s.masterQ[1..][k - 1] == s.masterQ[k];
    }
  }

  lemma {:induction false} FinishSend(s: State, d: DopId) returns (g: seq<Action>)
    requires Kept(s) && !Down(s) && s.todo != Idle && At(s, d).closed && MasterNames(s, d)
    ensures Runs(s, g) && Down(Final(s, g))
    decreases |s.masterQ|, Work(s.todo), 0
  {
    var a := MasterSend;
    var t := MasterSends(s);
    KeptStep(s, a);
    var rest := [];
    if !Down(t) {
      SendingNames(s, d);
      if s.todo.Forward? && Owes(s.todo.m, d) {
        var i := s.reg[s.todo.c].inst;
        OpenRoom(t, i);
        rest := FinishRoom(t, i, d);
      } else {
        rest := FinishMaster(t, d);
      }
    }
    First(s, a, rest);
    g := [a] + rest;
  }

  lemma SendingNames(s: State, d: DopId)
    requires Kept(s) && !Down(s) && s.todo != Idle && At(s, d).closed && MasterNames(s, d)
    requires MasterSends(s).fault == Healthy
    ensures var t := MasterSends(s);
      && At(t, d).closed && t.masterQ == s.masterQ && Work(t.todo) < Work(s.todo)
      && if s.todo.Forward? && Owes(s.todo.m, d) then
           && s.todo.c in s.reg
           && var i := s.reg[s.todo.c].inst;
              i < |t.insts| && !t.insts[i].closed && RoomOwes(t.insts[i], d)
         else MasterNames(t, d)
  {
    if s.todo.Forward? {
      ForwardIsPushed(s);
      if Owes(s.todo.m, d) {
        var q := MasterSends(s).insts[s.reg[s.todo.c].inst].queue;
        assert q[|q| - 1] == s.todo.m;
      }
    }
  }

  // ------------------------------------------------------------------ one more user

  /** The queue of a goroutine, with what the channel master is about to put there. */
  function Expected(s: State, i: InstId): seq<ToChat>
    requires i < |s.insts|
  {
    s.insts[i].queue + if s.todo.Forward? && ForRoom(s, i, s.todo.c) then [s.todo.m] else []
  }

  predicate ForRoom(s: State, i: InstId, c: ChatId) {
    i < |s.insts| && c in s.reg && s.reg[c].inst == i
  }

  /** An exit from the channel is on its way to it. */
  ghost predicate ExitComing(s: State, i: InstId)
    requires i < |s.insts|
  {
    Leaves(Expected(s, i))
    || exists k :: 0 <= k < |s.masterQ| && s.masterQ[k].Exit? && ForRoom(s, i, s.masterQ[k].c)
  }

  /** The list of the goroutine, once all joins that are certain have been dealt with. */
  function Outlook(s: State, i: InstId): map<DopId, int>
    requires i < |s.insts|
  {
    Filled(Coming(s.insts[i]), Expected(s, i))
  }

  ghost predicate GreetingComing(s: State, i: InstId, d: DopId)
    requires i < |s.insts|
  {
    Greeted(Coming(s.insts[i]), Expected(s, i), d)
  }

  lemma {:induction false} FilledMore(members: map<DopId, int>, q: seq<ToChat>, m: ToChat)
    ensures Filled(members, q + [m]) == Admitted(Filled(members, q), m)
    decreases |q|
  {
    if q == [] {
      assert q + [m] == [m];
    } else {
      assert (q + [m])[1..] == q[1..] + [m];
      FilledMore(Admitted(members, q[0]), q[1..], m);
    }
  }

  lemma {:induction false} GreetedMore(members: map<DopId, int>, q: seq<ToChat>, m: ToChat, d: DopId)
    ensures Greeted(members, q, d) ==> Greeted(members, q + [m], d)
    ensures d in members && m.Enter? && m.d != d && |Filled(members, q)| < MAX_MEMBERS
            && d in Filled(members, q) && m.user != Filled(members, q)[d]
            ==> Greeted(members, q + [m], d)
    decreases |q|
  {
    if q == [] {
      assert q + [m] == [m];
    } else {
      assert (q + [m])[1..] == q[1..] + [m];
      GreetedMore(Admitted(members, q[0]), q[1..], m, d);
    }
  }

  lemma {:induction false} FilledKeeps(members: map<DopId, int>, q: seq<ToChat>, d: DopId)
    requires d in members
    ensures d in Filled(members, q)
    decreases |q|
  {
    if q != [] { FilledKeeps(Admitted(members, q[0]), q[1..], d); }
  }

  lemma {:induction false} ComingKeeps(members: map<DopId, int>, script: seq<Op>, d: DopId)
    requires d in members && Drop(d) !in script
    ensures d in Roll(members, script)
    decreases |script|
  {
    if script != [] {
      assert script == [script[0]] + script[1..];
      match script[0]
      case Admit(e, user) => ComingKeeps(members[e := user], script[1..], d);
      case Drop(e) => ComingKeeps(members - {e}, script[1..], d);
      case _ => ComingKeeps(members, script[1..], d);
    }
  }

  /** The channel master has sent on what it had, and turned everybody else down: what is
      coming to the goroutines is as it was. */
  ghost predicate Drained(s: State, t: State) {
    && (forall d :: At(s, d).closed ==> At(t, d).closed)
    && |t.insts| == |s.insts|
    && (forall i :: 0 <= i < |s.insts| ==> DrainedRoom(s, t, i))
  }

  ghost predicate DrainedRoom(s: State, t: State, i: InstId)
    requires i < |s.insts| && i < |t.insts|
  {
    var r, q := s.insts[i], t.insts[i];
    && q.members == r.members && q.script == r.script && q.inbox == r.inbox && q.closed == r.closed && q.cid == r.cid
    && Outlook(t, i) == Outlook(s, i)
    && (forall d :: GreetingComing(s, i, d) ==> GreetingComing(t, i, d))
    && (ExitComing(s, i) ==> ExitComing(t, i))
  }

  /** The expected queue is the same, but for a message that is no join at the end. */
  lemma ExpectedRoom(s: State, t: State, i: InstId)
    requires i < |s.insts| == |t.insts|
    requires var r, q := s.insts[i], t.insts[i];
      q.members == r.members && q.script == r.script && q.inbox == r.inbox && q.closed == r.closed && q.cid == r.cid
    requires
      || Expected(t, i) == Expected(s, i)
      || exists m: ToChat :: !m.Enter? && Expected(t, i) == Expected(s, i) + [m]
    requires forall k :: 0 <= k < |s.masterQ| && s.masterQ[k].Exit? && ForRoom(s, i, s.masterQ[k].c) ==>
               ExitComing(t, i)
    ensures DrainedRoom(s, t, i)
  {
    if Expected(t, i) != Expected(s, i) {
      var m: ToChat :| !m.Enter? && Expected(t, i) == Expected(s, i) + [m];
      FilledMore(Coming(s.insts[i]), Expected(s, i), m);
      forall d | GreetingComing(s, i, d) ensures GreetingComing(t, i, d) {
        GreetedMore(Coming(s.insts[i]), Expected(s, i), m, d);
      }
      if Leaves(Expected(s, i)) {
        var k :| 0 <= k < |Expected(s, i)| && Expected(s, i)[k].Leave?;
        assert Expected(t, i)[k].Leave?;
      }
    }
  }

  /** Taking a request and turning a join down changes nothing for the goroutines but what
      is about to be sent to one. */
  lemma TakenOnly(s: State)
    requires Books(s) && Enabled(s, MasterTake(0))
    ensures var t := MasterTakes(s, 0);
      && t == s.(masterQ := s.masterQ[1..], todo := t.todo)
      && (t.todo.Forward? ==> !t.todo.m.Enter?)
      && (s.masterQ[0].Exit? && s.masterQ[0].c in s.reg ==>
            t.todo == Forward(s.masterQ[0].c, Leave(s.masterQ[0].d)))
  {
    RegisteredIsPositive(s);
  }

  lemma DrainedTake(s: State)
    requires Books(s) && Enabled(s, MasterTake(0))
    ensures Drained(s, MasterTakes(s, 0))
  {
    TakenOnly(s);
    forall i | 0 <= i < |s.insts| ensures DrainedRoom(s, MasterTakes(s, 0), i) {
      DrainedTakeRoom(s, MasterTakes(s, 0), i);
    }
  }

  lemma DrainedTakeRoom(s: State, t: State, i: InstId)
    requires s.todo == Idle && s.masterQ != [] && t == s.(masterQ := s.masterQ[1..], todo := t.todo)
    requires t.todo.Forward? ==> !t.todo.m.Enter?
    requires s.masterQ[0].Exit? && s.masterQ[0].c in s.reg ==>
               t.todo == Forward(s.masterQ[0].c, Leave(s.masterQ[0].d))
    requires i < |s.insts|
    ensures DrainedRoom(s, t, i)
  {
    assert s.insts[i].queue + [] == s.insts[i].queue;
    forall k | 0 <= k < |s.masterQ| && s.masterQ[k].Exit? && ForRoom(s, i, s.masterQ[k].c) ensures ExitComing(t, i) {
      if k == 0 {
        assert Expected(t, i)[|s.insts[i].queue|].Leave?;
      } else {
        assert t.masterQ[k - 1] == s.masterQ[k];
      }
    }
    ExpectedRoom(s, t, i);
  }

  lemma DrainedReply(s: State)
    requires s.todo.Reply? && s.fault == Healthy && MasterSends(s).fault == Healthy
    ensures Drained(s, MasterSends(s))
  {
    var t := MasterSends(s);
    forall i | 0 <= i < |s.insts| ensures DrainedRoom(s, t, i) { ExpectedRoom(s, t, i); }
  }

  /** What was about to be sent to a goroutine is in its queue now; a Shutdown may be next. */
  lemma DrainedForward(s: State)
    requires Books(s) && Enabled(s, MasterSend) && s.todo.Forward? && Books(MasterSends(s))
    ensures Drained(s, MasterSends(s))
  {
    ForwardIsPushed(s);
    ForwardKeepsRooms(s);
    forall i | 0 <= i < |s.insts| ensures DrainedRoom(s, MasterSends(s), i) {
      DrainedForwardRoom(s, MasterSends(s), i);
    }
  }

  /** The table afterwards: the same instances, but for one that is struck off. */
  lemma ForwardKeepsRooms(s: State)
    requires s.todo.Forward? && s.todo.c in s.reg
    ensures var t := MasterSends(s);
      forall c :: c in s.reg && !(s.todo.m.Shutdown? && c == s.todo.c) ==> c in t.reg && t.reg[c].inst == s.reg[c].inst
    ensures forall c :: c in MasterSends(s).reg ==> c in s.reg && MasterSends(s).reg[c].inst == s.reg[c].inst
    ensures s.fault == Healthy && MasterSends(s).fault == Healthy && s.todo.m.Shutdown? ==>
              s.todo.c !in MasterSends(s).reg
  {
  }

  lemma DrainedForwardRoom(s: State, t: State, i: InstId)
    requires EntriesOk(s) && s.todo.Forward? && s.todo.c in s.reg && MasterOk(t) && s.fault == t.fault == Healthy
    requires var j := s.reg[s.todo.c].inst;
      && j < |s.insts| == |t.insts|
      && t.insts[j] == s.insts[j].(queue := s.insts[j].queue + [s.todo.m], tickets := t.insts[j].tickets)
      && (forall k :: 0 <= k < |s.insts| && k != j ==> t.insts[k] == s.insts[k])
      && t.masterQ == s.masterQ && (t.todo == Idle || t.todo == Forward(s.todo.c, Shutdown))
    requires forall c :: c in t.reg ==> c in s.reg && t.reg[c].inst == s.reg[c].inst
    requires i < |s.insts|
    ensures DrainedRoom(s, t, i)
  {
    assert s.insts[i].queue + [] == s.insts[i].queue && t.insts[i].queue + [] == t.insts[i].queue;
    if t.todo.Forward? && ForRoom(t, i, t.todo.c) { assert Expected(t, i) == Expected(s, i) + [t.todo.m]; }
    forall k | 0 <= k < |s.masterQ| && s.masterQ[k].Exit? && ForRoom(s, i, s.masterQ[k].c) ensures ExitComing(t, i) {
      assert EntryOk(s, s.masterQ[k].c);
      assert t.masterQ[k].c in t.reg;
    }
    ExpectedRoom(s, t, i);
  }

  lemma DrainedStep(s: State, a: Action)
    requires Kept(s) && Enabled(s, a) && (a == MasterSend || a == MasterTake(0)) && Apply(s, a).fault == Healthy
    ensures Drained(s, Apply(s, a))
    ensures Apply(s, a).masterQ == if a == MasterTake(0) then s.masterQ[1..] else s.masterQ
    ensures a == MasterSend ==> Work(Apply(s, a).todo) < Work(s.todo)
  {
    if a == MasterTake(0) {
      DrainedTake(s);
      TakenOnly(s);
    } else {
      DrainedSend(s);
    }
  }

  lemma DrainedSend(s: State)
    requires Kept(s) && Enabled(s, MasterSend) && MasterSends(s).fault == Healthy
    ensures Drained(s, MasterSends(s)) && MasterSends(s).masterQ == s.masterQ
    ensures Work(MasterSends(s).todo) < Work(s.todo)
  {
    if s.todo.Forward? {
      KeptStep(s, MasterSend);
      DrainedForward(s);
      ForwardIsPushed(s);
    } else {
      DrainedReply(s);
    }
  }

  lemma {:induction false} Drain(s: State) returns (g: seq<Action>)
    requires Kept(s) && !Down(s)
    ensures Runs(s, g)
    ensures var t := Final(s, g);
      Down(t) || (Kept(t) && t.todo == Idle && t.masterQ == [] && Drained(s, t))
    decreases |s.masterQ|, Work(s.todo)
  {
    if s.todo == Idle && s.masterQ == [] {
      return [];
    }
    var a := if s.todo == Idle then MasterTake(0) else MasterSend;
    var t := Apply(s, a);
    KeptStep(s, a);
    var rest := [];
    if !Down(t) {
      DrainedStep(s, a);
      rest := Drain(t);
      if !Down(Final(t, rest)) { DrainedTwice(s, t, Final(t, rest)); }
    }
    First(s, a, rest);
    g := [a] + rest;
  }

  lemma DrainedTwice(s: State, t: State, u: State)
    requires Drained(s, t) && Drained(t, u)
    ensures Drained(s, u)
  {
    forall i | 0 <= i < |s.insts| ensures DrainedRoom(s, u, i) {
      assert DrainedRoom(s, t, i) && DrainedRoom(t, u, i);
    }
  }

  lemma SomeoneNew(ids: set<DopId>) returns (e: DopId)
    ensures e !in ids
  {
    e := Above(ids);
  }

  lemma Above(ids: set<DopId>) returns (e: DopId)
    ensures forall d :: d in ids ==> d < e
  {
    if ids == {} {
      e := 0;
    } else {
      var d :| d in ids;
      var n := Above(ids - {d});
      e := if d < n then n else d + 1;
      forall x | x in ids ensures x < e {
        if x != d { assert x in ids - {d}; }
      }
    }
  }

  /** A goroutine that will have a place on its list, and lists d. */
  ghost predicate Roomy(s: State, i: InstId, d: DopId) {
    && i < |s.insts| && !s.insts[i].closed && At(s, d).closed && Listed(s.insts[i], d)
    && Registered(s, i) && |Filled(Coming(s.insts[i]), s.insts[i].queue)| < MAX_MEMBERS
  }

  /** With the channel master idle, someone new asks to join d's channel. */
  lemma AskToJoin(s: State, i: InstId, d: DopId) returns (g: seq<Action>, t: State)
    requires Kept(s) && !Down(s) && s.todo == Idle && s.masterQ == [] && Roomy(s, i, d)
    ensures Runs(s, g) && t == Final(s, g) && Kept(t) && t.fault == Healthy && At(t, d).closed
    ensures i < |t.insts| && !t.insts[i].closed && RoomOwes(t.insts[i], d)
  {
    var c := s.insts[i].cid;
    var e := SomeoneNew(s.dops.Keys);
    var user := UserUnlike(s.insts[i], d);
    var a := Issue(e, CmdJoin(user, "x"), false);
    var t1 := s.(dops := s.dops[e := NEW_DOP.(id := -1, awaiting := 1)], masterQ := [Join(e, user, "x")]);
    assert At(s, e) == NEW_DOP;
    assert Apply(s, a) == t1;
    KeptStep(s, a);
    var g2;
    g2, t := LetIn(t1, i, d, e, user);
    First(s, a, g2);
    g := [a] + g2;
  }

  lemma UserUnlike(r: Inst, d: DopId) returns (user: int)
    requires Listed(r, d)
    ensures d in Filled(Coming(r), r.queue) && user != Filled(Coming(r), r.queue)[d]
  {
    ComingKeeps(r.members, r.script, d);
    FilledKeeps(Coming(r), r.queue, d);
    user := Filled(Coming(r), r.queue)[d] + 1;
  }

  lemma LetIn(s: State, i: InstId, d: DopId, e: DopId, user: int) returns (g: seq<Action>, t: State)
    requires Kept(s) && !Down(s) && s.todo == Idle && s.masterQ == [Join(e, user, "x")] && Roomy(s, i, d) && e != d
    requires d in Filled(Coming(s.insts[i]), s.insts[i].queue)
    requires user != Filled(Coming(s.insts[i]), s.insts[i].queue)[d]
    ensures Runs(s, g) && t == Final(s, g) && Kept(t) && t.fault == Healthy && At(t, d).closed
    ensures i < |t.insts| && !t.insts[i].closed && RoomOwes(t.insts[i], d)
  {
    var c := s.insts[i].cid;
    RegisteredIsPositive(s);
    var t2 := JoinIsCounted(s, c, e, user);
    t := MasterSends(t2);
    KeptStep(t2, MasterSend);
    JoinIsSent(t2, i, d);
    First(t2, MasterSend, []);
    First(s, MasterTake(c), [MasterSend]);
    g := [MasterTake(c)] + [MasterSend];
  }

  lemma JoinIsCounted(s: State, c: nat, e: DopId, user: int) returns (t: State)
    requires Kept(s) && !Down(s) && s.todo == Idle && s.masterQ == [Join(e, user, "x")] && 0 < c && c in s.reg
    ensures Enabled(s, MasterTake(c)) && Apply(s, MasterTake(c)) == t && Kept(t)
    ensures t == s.(masterQ := [], todo := Forward(c, Enter(e, user)),
                    reg := s.reg[c := s.reg[c].(count := s.reg[c].count + 1)])
  {
    t := Apply(s, MasterTake(c));
    KeptStep(s, MasterTake(c));
  }

  lemma JoinIsSent(s: State, i: InstId, d: DopId)
    requires Kept(s) && s.fault == Healthy && s.todo.Forward? && s.todo.m.Enter? && Roomy(s, i, d)
    requires s.todo.c == s.insts[i].cid && s.todo.m.d != d
    requires d in Filled(Coming(s.insts[i]), s.insts[i].queue)
    requires s.todo.m.user != Filled(Coming(s.insts[i]), s.insts[i].queue)[d]
    ensures var t := MasterSends(s);
      && i < |t.insts| && t.fault == Healthy && At(t, d).closed && !t.insts[i].closed && RoomOwes(t.insts[i], d)
  {
    ForwardIsPushed(s);
    ComingKeeps(s.insts[i].members, s.insts[i].script, d);
    GreetedMore(Coming(s.insts[i]), s.insts[i].queue, s.todo.m, d);
  }

  /** Something is coming to the goroutine that is told to d, or there will be a place for
      someone new. */
  ghost predicate TellingComing(s: State, i: InstId, d: DopId)
    requires i < |s.insts|
  {
    ExitComing(s, i) || GreetingComing(s, i, d) || |Outlook(s, i)| < MAX_MEMBERS
  }

  /** The goroutine owes d something, or d is on its list and will be told something. */
  ghost predicate RoomDooms(s: State, i: InstId, d: DopId)
    requires i < |s.insts|
  {
    var r := s.insts[i];
    !r.closed && (RoomOwes(r, d) || (Listed(r, d) && TellingComing(s, i, d)))
  }

  /** Whoever is listed and closed is sent to, by what is coming or once someone new joins. */
  lemma ServeListed(s: State, i: InstId, d: DopId) returns (g: seq<Action>)
    requires Kept(s) && !Down(s) && At(s, d).closed && i < |s.insts| && !s.insts[i].closed && Listed(s.insts[i], d)
    requires TellingComing(s, i, d)
    ensures Runs(s, g) && Down(Final(s, g))
  {
    var g1 := Drain(s);
    var t := Final(s, g1);
    if Down(t) { return g1; }
    StillComing(s, t, i, d);
    var g2 := ServeIdle(t, i, d);
    Chain(s, g1, g2);
    g := g1 + g2;
  }

  lemma StillComing(s: State, t: State, i: InstId, d: DopId)
    requires Drained(s, t) && i < |s.insts| && !s.insts[i].closed && Listed(s.insts[i], d) && TellingComing(s, i, d)
    ensures i < |t.insts| && !t.insts[i].closed && Listed(t.insts[i], d) && TellingComing(t, i, d)
    ensures At(s, d).closed ==> At(t, d).closed
  {
    assert DrainedRoom(s, t, i);
  }

  lemma ServeIdle(s: State, i: InstId, d: DopId) returns (g: seq<Action>)
    requires Kept(s) && !Down(s) && s.todo == Idle && s.masterQ == []
    requires At(s, d).closed && i < |s.insts| && !s.insts[i].closed && Listed(s.insts[i], d)
    requires TellingComing(s, i, d)
    ensures Runs(s, g) && Down(Final(s, g))
  {
    var r := s.insts[i];
    OpenRoom(s, i);
    assert Expected(s, i) == r.queue;
    if RoomOwes(r, d) {
      g := FinishRoom(s, i, d);
    } else {
      ListedIsRegistered(s, i, d);
      var g1, t := AskToJoin(s, i, d);
      OpenRoom(t, i);
      var g2 := FinishRoom(t, i, d);
      Chain(s, g1, g2);
      g := g1 + g2;
    }
  }

  lemma ListedIsRegistered(s: State, i: InstId, d: DopId)
    requires Books(s) && i < |s.insts| && !s.insts[i].closed && Listed(s.insts[i], d) && !RoomOwes(s.insts[i], d)
    ensures Registered(s, i)
  {
    var r := s.insts[i];
    assert RoomOk(r, Registered(s, i));
    assert forall k :: 0 <= k < |r.queue| ==> !r.queue[k].Leave?;
  }

  // ------------------------------------------------------------------ both halves

  /** Named otherwise than on a list that is full, and will be, with nothing to be told to
      those on it. */
  ghost predicate Doomed(s: State, d: DopId) {
    MasterNames(s, d) || exists i :: 0 <= i < |s.insts| && RoomDooms(s, i, d)
  }

  /** Whoever has closed its callbacks and is doomed is the server's undoing: its own steps,
      or one more user joining, lead to a panic, or to the channel master's return before. */
  lemma NamedIsServed(h: seq<Action>, d: DopId) returns (g: seq<Action>)
    requires Possible(h) && !Down(After(h)) && At(After(h), d).closed && Doomed(After(h), d)
    ensures Runs(After(h), g) && Possible(h + g) && After(h + g) == Final(After(h), g)
    ensures Down(After(h + g))
  {
    BooksBalance(h);
    HistoriesInquire(h);
    g := ServeNamed(After(h), d);
    RunsAreHistories(h, g);
  }

  lemma ServeNamed(s: State, d: DopId) returns (g: seq<Action>)
    requires Kept(s) && !Down(s) && At(s, d).closed && Doomed(s, d)
    ensures Runs(s, g) && Down(Final(s, g))
  {
    if MasterNames(s, d) {
      g := FinishMaster(s, d);
    } else {
      var i :| 0 <= i < |s.insts| && RoomDooms(s, i, d);
      OpenRoom(s, i);
      if RoomOwes(s.insts[i], d) {
        g := FinishRoom(s, i, d);
      } else {
        g := ServeListed(s, i, d);
      }
    }
  }

  /** What is left between the doomed and the forgotten: lists of six, now or as soon as
      the joins on their way are dealt with, and no line, exit or announcement on its way. */
  lemma NamedOrDoomed(s: State, d: DopId)
    ensures Doomed(s, d) ==> Named(s, d)
    ensures Named(s, d) && !Doomed(s, d) ==>
      exists i :: 0 <= i < |s.insts| && Listed(s.insts[i], d) && !s.insts[i].closed
        && |Outlook(s, i)| >= MAX_MEMBERS && !ExitComing(s, i) && !GreetingComing(s, i, d) && s.insts[i].inbox == []
  {
    assert forall i :: 0 <= i < |s.insts| && RoomDooms(s, i, d) ==> RoomNames(s.insts[i], d);
    if Named(s, d) && !Doomed(s, d) {
      var i :| 0 <= i < |s.insts| && RoomNames(s.insts[i], d);
      assert !RoomDooms(s, i, d);
    }
  }

  // ------------------------------------------------------------------ whose fault it is

  /** All but d that have closed their callbacks are forgotten, and nobody has asked to
      leave with a join pending. */
  ghost predicate OnlyTrouble(s: State, d: DopId) {
    && (forall e: DopId :: e != d && At(s, e).closed ==> Forgotten(s, e))
    && HaltsNowhere(s)
  }

  /** The server's steps close nobody's callbacks and nobody leaves with a join pending. */
  lemma OnlyTroubleStep(s: State, a: Action, d: DopId)
    requires Books(s) && OnlyTrouble(s, d) && Enabled(s, a) && (ServerStep(a) || Newcomer(s, a))
    ensures OnlyTrouble(Apply(s, a), d)
    ensures Apply(s, a).fault.ClosedDoppelganger? ==> Apply(s, a).fault == ClosedDoppelganger(d)
    ensures !Apply(s, a).fault.ClosedInbox?
  {
    NobodyCloses(s, a);
    NobodyHalts(s, a);
    forall e: DopId | e != d && At(Apply(s, a), e).closed ensures Forgotten(Apply(s, a), e) {
      ForgottenStep(s, a, e);
    }
    if Apply(s, a).fault.ClosedDoppelganger? {
      var e := Apply(s, a).fault.d;
      if e != d { ForgottenStep(s, a, e); }
    }
  }

  lemma NobodyCloses(s: State, a: Action)
    requires Enabled(s, a) && (ServerStep(a) || Newcomer(s, a))
    ensures forall e: DopId :: At(Apply(s, a), e).closed ==> At(s, e).closed
    ensures Apply(s, a).fault.ClosedDoppelganger? ==> At(s, Apply(s, a).fault.d).closed
    ensures !Apply(s, a).fault.ClosedInbox?
  {
    if a.ChatStep? {
      forall e: DopId ensures At(Apply(s, a), e).closed ==> At(s, e).closed { StepClosesNobody(s, a.i, e); }
      StepClosesNobody(s, a.i, 0);
    }
  }

  lemma StepClosesNobody(s: State, i: InstId, e: DopId)
    requires Enabled(s, ChatStep(i))
    ensures At(ChatSteps(s, i), e).closed ==> At(s, e).closed
    ensures ChatSteps(s, i).fault.ClosedDoppelganger? ==> At(s, ChatSteps(s, i).fault.d).closed
    ensures !ChatSteps(s, i).fault.ClosedInbox?
  {
  }

  lemma NobodyHalts(s: State, a: Action)
    requires Books(s) && Enabled(s, a) && (ServerStep(a) || Newcomer(s, a)) && HaltsNowhere(s)
    ensures HaltsNowhere(Apply(s, a))
  {
    match a
    case Issue(d, cmd, lost) => NoHaltAsked(s, d, cmd, lost);
    case MasterTake(found) => NoHaltTaken(s, found);
    case MasterSend => NoHaltSent(s);
    case ChatStep(i) => ChatStepKeeps(s, i, 0);
    case _ =>
  }

  ghost predicate HaltsNowhere(s: State) {
    !s.todo.Halted? && forall k :: 0 <= k < |s.masterQ| && s.masterQ[k].Exit? ==> s.masterQ[k].c != -1
  }

  lemma NoHaltAsked(s: State, d: DopId, cmd: Command, lost: bool)
    requires HaltsNowhere(s) && cmd.CmdJoin?
    ensures HaltsNowhere(Apply(s, Issue(d, cmd, lost)))
  {
  }

  lemma NoHaltTaken(s: State, found: nat)
    requires Books(s) && Enabled(s, MasterTake(found)) && HaltsNowhere(s)
    ensures HaltsNowhere(MasterTakes(s, found))
  {
  }

  lemma NoHaltSent(s: State)
    requires Enabled(s, MasterSend) && HaltsNowhere(s)
    ensures HaltsNowhere(MasterSends(s))
  {
  }

  /** With no other trouble about, it is d that the server panics over, or a roster that
      is asked of an empty list. */
  lemma {:induction false} OnlyDIsToBlame(s: State, g: seq<Action>, d: DopId)
    requires Books(s) && s.fault == Healthy && OnlyTrouble(s, d) && Runs(s, g)
    ensures var t := Final(s, g);
      Down(t) <==> t.fault == ClosedDoppelganger(d) || t.fault.EmptyRoster?
    decreases |g|
  {
    if g != [] {
      BooksStep(s, g[0]);
      NoMasterFault(s, g[0]);
      OnlyTroubleStep(s, g[0], d);
      if Apply(s, g[0]).fault == Healthy {
        OnlyDIsToBlame(Apply(s, g[0]), g[1..], d);
      } else {
        NothingAfter(Apply(s, g[0]), g[1..]);
      }
    }
  }

  lemma NothingAfter(s: State, g: seq<Action>)
    requires s.fault != Healthy && Runs(s, g)
    ensures g == []
  {
  }

  // ------------------------------------------------------------------ the moment of closing

  /** A doppelganger closes its callbacks in this step. */
  predicate Closes(s: State, a: Action, d: DopId) {
    !At(s, d).closed && At(Apply(s, a), d).closed
  }

  /** Closing changes nothing else that anybody can see. */
  lemma ClosingOnlyCloses(s: State, a: Action, d: DopId)
    requires Enabled(s, a) && Closes(s, a, d)
    ensures var t := Apply(s, a);
      t == s.(dops := t.dops) && (Named(t, d) <==> Named(s, d)) && (Doomed(t, d) <==> Doomed(s, d))
  {
    ClosingSteps(s, a, d);
    var t := Apply(s, a);
    assert MasterNames(t, d) <==> MasterNames(s, d);
    assert forall i :: 0 <= i < |s.insts| ==> (RoomDooms(t, i, d) <==> RoomDooms(s, i, d));
  }

  lemma ClosingSteps(s: State, a: Action, d: DopId)
    requires Enabled(s, a) && Closes(s, a, d)
    ensures Apply(s, a) == s.(dops := Apply(s, a).dops)
    ensures forall e: DopId :: e != d ==> At(Apply(s, a), e) == At(s, e)
  {
    if ServerStep(a) {
      NobodyCloses(s, a);
    } else {
      UserCloses(s, a, d);
    }
  }

  lemma UserCloses(s: State, a: Action, d: DopId)
    requires Enabled(s, a) && Closes(s, a, d) && !ServerStep(a)
    ensures Apply(s, a) == s.(dops := Apply(s, a).dops)
    ensures forall e: DopId :: e != d ==> At(Apply(s, a), e) == At(s, e)
  {
    assert a.ExitProcedure? || a.GetFromChat?;
  }

  /** A doppelganger that nothing names as it closes is never sent to again, in any run. */
  lemma ClosingUnnamed(h: seq<Action>, a: Action, d: DopId, f: seq<Action>)
    requires Possible(h) && Enabled(After(h), a) && Closes(After(h), a, d) && !Named(After(h), d)
    requires Possible(h + [a] + f)
    ensures After(h + [a] + f).fault != ClosedDoppelganger(d)
  {
    Then(h, a);
    ClosingOnlyCloses(After(h), a, d);
    ForgottenForGood(h + [a], f, d);
  }

  /** One that is doomed as it closes, and is the only trouble, makes the server panic by
      its own steps and the join of one more user. */
  lemma ClosingNamed(h: seq<Action>, a: Action, d: DopId) returns (g: seq<Action>)
    requires Possible(h) && Enabled(After(h), a) && Closes(After(h), a, d)
    requires Doomed(After(h), d) && OnlyTrouble(After(h), d)
    ensures Possible(h + [a] + g) && Runs(After(h + [a]), g)
    ensures After(h + [a] + g).fault == ClosedDoppelganger(d) || After(h + [a] + g).fault.EmptyRoster?
  {
    var s := After(h);
    Then(h, a);
    ClosingOnlyCloses(s, a, d);
    ClosingSteps(s, a, d);
    TroubleStays(s, Apply(s, a), d);
    NoTroubleYet(h + [a], d);
    g := NamedIsServed(h + [a], d);
    OnlyDIsToBlame(After(h + [a]), g, d);
  }

  lemma NoTroubleYet(h: seq<Action>, d: DopId)
    requires Possible(h) && OnlyTrouble(After(h), d)
    ensures Books(After(h)) && !After(h).todo.Halted?
  {
    BooksBalance(h);
  }

  lemma TroubleStays(s: State, t: State, d: DopId)
    requires OnlyTrouble(s, d) && t == s.(dops := t.dops)
    requires forall e: DopId :: e != d ==> At(t, e) == At(s, e)
    ensures OnlyTrouble(t, d)
  {
  }
}
