/** What hasty users can do: each history is possible, and each breaks a rule that
    orderly users cannot break. */
module Hazards {
  import opened Options
  import opened Wire
  import opened Client
  import opened ChatRoom
  import opened Network
  import opened Orderly

  lemma ThenOrderly(h: seq<Action>, a: Action)
    requires OrderlyRun(h) && Enabled(After(h), a) && OrderlyStep(After(h), a)
    ensures OrderlyRun(h + [a]) && After(h + [a]) == Apply(After(h), a)
  {
    assert (h + [a])[..|h|] == h;
  }

  /** `/join a` and at once `/exit`: the channel master returns for good, and every
      later request of anybody stays in its queue. */
  lemma HastyExitHaltsTheMaster() returns (h: seq<Action>)
    ensures Possible(h) && After(h).todo == Halted(-1)
  {
    h := ExitAtOnce();
    var a := MasterTake(7);
    Then(h, a); h := h + [a];
    a := MasterTake(0);
    Then(h, a); h := h + [a];
  }

  lemma ExitAtOnce() returns (h: seq<Action>)
    ensures Possible(h)
    ensures var s := After(h);
      s.masterQ == [Join(0, 1, "a"), Exit(-1, 0)] && s.todo == Idle && s.reg == map[] && s.fault == Healthy
  {
    h := [];
    var a := Issue(0, CmdJoin(1, "a"), false);
    Then(h, a); h := h + [a];
    a := Issue(0, CmdExit, false);
    Then(h, a); h := h + [a];
  }

  /** A history that leaves doppelganger 0 and the rest of the server like this. */
  ghost predicate Leads(h: seq<Action>, x: Dop, insts: seq<Inst>, reg: map<ChatId, Entry>, todo: Todo,
                        q: seq<ToMaster>) {
    && Possible(h)
    && var s := After(h);
       At(s, 0) == x && s.insts == insts && s.reg == reg && s.todo == todo && s.masterQ == q && s.fault == Healthy
  }

  /** Two joins in a row, of a channel that does not exist and of one that does; the
      first is turned down. */
  lemma TwoJoinsBegin() returns (h: seq<Action>)
    ensures Leads(h, NEW_DOP.(id := -1, awaiting := 2, fromMaster := [Refused]), [], map[], Idle, [Join(0, 1, "b")])
  {
    h := [];
    var a := Issue(0, CmdJoin(1, "none"), false);
    Then(h, a); h := h + [a];
    a := Issue(0, CmdJoin(1, "b"), false);
    Then(h, a); h := h + [a];
    a := MasterTake(0);
    Then(h, a); h := h + [a];
    a := MasterSend;
    Then(h, a); h := h + [a];
  }

  /** The user disconnects on that answer; the doppelganger closes its callbacks, and
      the second answer panics the server. */
  lemma TwoJoinsPanic() returns (h: seq<Action>)
    ensures Possible(h) && After(h).fault == ClosedDoppelganger(0)
  {
    h := TwoJoinsBegin();
    var a := GetFromMaster(0, true);
    Then(h, a); h := h + [a];
    a := ExitProcedure(0);
    Then(h, a); h := h + [a];
    assert At(After(h), 0).closed;
    a := MasterTake(2);
    Then(h, a); h := h + [a];
    a := ChatStep(0);
    Then(h, a); h := h + [a];
  }

  /** An orderly history that leaves doppelganger 0 like this, and alone on channel 1 with this
      much to do. */
  ghost predicate Alone(h: seq<Action>, x: Dop, queue: seq<ToChat>, script: seq<Op>, todo: Todo) {
    && OrderlyRun(h)
    && var s := After(h);
       && At(s, 0) == x && s.todo == todo && s.masterQ == [] && s.fault == Healthy
       && |s.insts| == 1 && s.insts[0].cid == 1 && !s.insts[0].closed
       && s.insts[0].queue == queue && s.insts[0].script == script && s.insts[0].members.Keys == {0}
       && (todo.Forward? ==> 1 in s.reg && s.reg[1].inst == 0)
  }

  lemma LaunchAlone() returns (h: seq<Action>)
    ensures OrderlyRun(h)
    ensures After(h) == State(map[0 := NEW_DOP.(id := -1, awaiting := 1)], [Launch(1, 0, 1)], map[1 := Entry(1, 0)],
                              Idle, [], [], Healthy)
  {
    h := [];
    var a := Issue(0, CmdJoin(1, "a"), false);
    ThenOrderly(h, a); h := h + [a];
    a := MasterTake(1);
    ThenOrderly(h, a); h := h + [a];
  }

  lemma JoinAlone() returns (h: seq<Action>)
    ensures Alone(h, NEW_DOP.(id := -1, awaiting := 1, fromChat := [Joined(1, 0)]), [], [ShowRoster(0)], Idle)
    ensures After(h).reg == map[1 := Entry(1, 0)]
  {
    h := LaunchAlone();
    assert Announce([0], map[0 := 1], 1) == [] by { assert [0][1..] == []; }
    assert After(h).insts[0].script == [Admit(0, 1), ShowRoster(0)];
    ThenOrderly(h, ChatStep(0));
    h := h + [ChatStep(0)];
  }

  lemma ExitAlone() returns (h: seq<Action>)
    ensures OrderlyRun(h)
    ensures var s := After(h);
      && At(s, 0) == NEW_DOP.(link := Some(0), cantExit := true, awaiting := 1)
      && s.todo == Idle && s.masterQ == [Exit(1, 0)] && s.fault == Healthy && s.reg == map[1 := Entry(1, 0)]
      && |s.insts| == 1 && s.insts[0].cid == 1 && !s.insts[0].closed
      && s.insts[0].queue == [] && s.insts[0].script == [ShowRoster(0)] && s.insts[0].members.Keys == {0}
  {
    h := JoinAlone();
    var a := GetFromChat(0, false);
    ThenOrderly(h, a); h := h + [a];
    a := Issue(0, CmdExit, false);
    ThenOrderly(h, a); h := h + [a];
  }

  lemma LeaveAgain() returns (h: seq<Action>)
    ensures Alone(h, NEW_DOP.(link := Some(0), cantExit := true, awaiting := 1),
                  [Leave(0)], [ShowRoster(0)], Forward(1, Shutdown))
  {
    h := ExitAlone();
    var a := MasterTake(0);
    ThenOrderly(h, a); h := h + [a];
    a := MasterSend;
    ThenOrderly(h, a); h := h + [a];
  }

  lemma AllSent() returns (h: seq<Action>)
    ensures Alone(h, NEW_DOP.(link := Some(0), cantExit := true, awaiting := 1, fromChat := [Notice]),
                  [Leave(0), Shutdown], [], Idle)
  {
    h := LeaveAgain();
    var a := MasterSend;
    ThenOrderly(h, a); h := h + [a];
    assert After(h).insts[0].queue == [Leave(0), Shutdown];
    a := ChatStep(0);
    ThenOrderly(h, a); h := h + [a];
  }

  lemma ToldToLeave() returns (h: seq<Action>)
    ensures Alone(h, NEW_DOP.(link := Some(0), cantExit := true, awaiting := 1, fromChat := [Notice]),
                  [Shutdown], [Send(0, Left(0)), Drop(0)], Idle)
  {
    h := AllSent();
    var a := ChatTake(0, [0]);
    assert Lists([0], After(h).insts[0].members.Keys);
    ThenOrderly(h, a); h := h + [a];
    assert Broadcast([0], Left(0)) == [Send(0, Left(0))] by { assert [0][1..] == []; }
  }

  lemma LeftAndClosed() returns (h: seq<Action>)
    ensures OrderlyRun(h) && |After(h).insts| == 1 && After(h).insts[0].closed && After(h).fault == Healthy
    ensures At(After(h), 0) == NEW_DOP.(link := Some(0), cantExit := true, awaiting := 1, fromChat := [Notice, Left(0)])
  {
    h := StruckOff();
    var a := ChatTake(0, []);
    ThenOrderly(h, a); h := h + [a];
  }

  lemma StruckOff() returns (h: seq<Action>)
    ensures OrderlyRun(h) && |After(h).insts| == 1 && After(h).fault == Healthy
    ensures At(After(h), 0) == NEW_DOP.(link := Some(0), cantExit := true, awaiting := 1, fromChat := [Notice, Left(0)])
    ensures var r := After(h).insts[0];
      r.members == map[] && r.script == [] && r.queue == [Shutdown] && !r.closed
  {
    h := ToldToLeave();
    var a := ChatStep(0);
    ThenOrderly(h, a); h := h + [a];
    ThenOrderly(h, a); h := h + [a];
  }

  /** The user has left in good order and asks for another channel. */
  lemma JoinNext() returns (h: seq<Action>)
    ensures OrderlyRun(h) && |After(h).insts| == 1 && After(h).insts[0].closed && After(h).fault == Healthy
    ensures At(After(h), 0) == NEW_DOP.(id := -1, link := Some(0), awaiting := 1)
  {
    h := AllRead();
    var a := Issue(0, CmdJoin(1, "b"), false);
    ThenOrderly(h, a); h := h + [a];
  }

  lemma AllRead() returns (h: seq<Action>)
    ensures OrderlyRun(h) && |After(h).insts| == 1 && After(h).insts[0].closed && After(h).fault == Healthy
    ensures At(After(h), 0) == NEW_DOP.(link := Some(0))
  {
    h := LeftAndClosed();
    var a := GetFromChat(0, false);
    ThenOrderly(h, a); h := h + [a];
    assert At(After(h), 0) == NEW_DOP.(link := Some(0), cantExit := true, awaiting := 1, fromChat := [Left(0)]);
    ThenOrderly(h, a); h := h + [a];
  }

  /** Having left a channel in good order, the user joins another one and speaks before
      the answer: the message goes to the channel left, whose inputs are closed.  Up to
      that one command the user is orderly. */
  lemma EarlySpeechPanics(line: Speech) returns (h: seq<Action>)
    ensures Possible(h) && After(h).fault == ClosedInbox(0)
    ensures h != [] && OrderlyRun(h[..|h| - 1])
  {
    h := JoinNext();
    OrderlyIsPossible(h);
    var a := Issue(0, CmdSay(line), false);
    Then(h, a);
    assert (h + [a])[..|h|] == h;
    h := h + [a];
  }

  // ------------------------------------------------------------------ a full channel

  /** Doppelgangers 0 to n - 1, all of user 1. */
  function Ones(n: nat): (m: map<DopId, int>)
    ensures |m| == n && forall d: DopId :: d in m <==> d < n
    ensures forall d :: d in m ==> m[d] == 1
  {
    if n == 0 then map[] else Ones(n - 1)[n - 1 := 1]
  }

  /** An orderly history in which doppelgangers 0 to n - 1, all of user 1, have joined
      channel 1, and doppelganger d, which nobody has heard of beyond x, is next. */
  ghost predicate Filling(h: seq<Action>, n: nat, d: DopId, x: Dop, count: int, q: seq<ToMaster>, todo: Todo,
                          queue: seq<ToChat>, script: seq<Op>) {
    && OrderlyRun(h)
    && var s := After(h);
       && s.fault == Healthy && s.masterQ == q && s.todo == todo && s.reg == map[1 := Entry(count, 0)]
       && |s.insts| == 1 && s.insts[0].cid == 1 && !s.insts[0].closed
       && s.insts[0].queue == queue && s.insts[0].script == script && s.insts[0].members == Ones(n)
       && At(s, d) == x && forall e :: d < e ==> e !in s.dops
  }

  lemma NobodyTold(order: seq<DopId>, members: map<DopId, int>)
    requires forall d :: d in members ==> members[d] == 1
    ensures Announce(order, members, 1) == []
  {
    if order != [] { NobodyTold(order[1..], members); }
  }

  const ASKED := NEW_DOP.(id := -1, awaiting := 1)

  /** The next doppelganger asks to join, and the channel master passes it on. */
  lemma NextAsks(h: seq<Action>, n: nat) returns (k: seq<Action>)
    requires Filling(h, n, n, NEW_DOP, n, [], Idle, [], [])
    ensures Filling(k, n, n, ASKED, n + 1, [], Forward(1, Enter(n, 1)), [], [])
  {
    k := NextTypes(h, n);
    ThenOrderly(k, MasterTake(1));
    k := k + [MasterTake(1)];
  }

  lemma NextTypes(h: seq<Action>, n: nat) returns (k: seq<Action>)
    requires Filling(h, n, n, NEW_DOP, n, [], Idle, [], [])
    ensures Filling(k, n, n, ASKED, n, [Join(n, 1, "a")], Idle, [], [])
  {
    var a := Issue(n, CmdJoin(1, "a"), false);
    ThenOrderly(h, a);
    k := h + [a];
  }

  lemma NextIsQueued(h: seq<Action>, n: nat) returns (k: seq<Action>)
    requires Filling(h, n, n, ASKED, n + 1, [], Forward(1, Enter(n, 1)), [], [])
    ensures Filling(k, n, n, ASKED, n + 1, [], Idle, [Enter(n, 1)], [])
  {
    ThenOrderly(h, MasterSend);
    k := h + [MasterSend];
  }

  lemma NextIsTaken(h: seq<Action>, n: nat) returns (k: seq<Action>)
    requires Filling(h, n, n, ASKED, n + 1, [], Idle, [Enter(n, 1)], [])
    ensures Filling(k, n, n, ASKED, n + 1, [], Idle, [],
                    if n >= MAX_MEMBERS then [Refuse(n), Send(n, Denied)] else [Admit(n, 1), ShowRoster(n)])
  {
    var order := OrderOf(Audience(Ones(n), Enter(n, 1)));
    NobodyTold(order, Ones(n)[n := 1]);
    ThenOrderly(h, ChatTake(0, order));
    k := h + [ChatTake(0, order)];
  }

  lemma NextIsAdmitted(h: seq<Action>, n: nat) returns (k: seq<Action>)
    requires Filling(h, n, n, ASKED, n + 1, [], Idle, [], [Admit(n, 1), ShowRoster(n)])
    ensures Filling(k, n + 1, n + 1, NEW_DOP, n + 1, [], Idle, [], [])
  {
    assert n in Ones(n + 1);
    ThenOrderly(h, ChatStep(0));
    k := h + [ChatStep(0)];
    ThenOrderly(k, ChatStep(0));
    k := k + [ChatStep(0)];
  }

  lemma FirstJoins() returns (h: seq<Action>)
    ensures Filling(h, 1, 1, NEW_DOP, 1, [], Idle, [], [])
  {
    h := FirstLaunches();
    h := NextIsAdmitted(h, 0);
  }

  lemma FirstLaunches() returns (h: seq<Action>)
    ensures Filling(h, 0, 0, ASKED, 1, [], Idle, [], [Admit(0, 1), ShowRoster(0)])
  {
    h := LaunchAlone();
    assert Announce([0], map[0 := 1], 1) == [] by { assert [0][1..] == []; }
    assert Launch(1, 0, 1).script == [Admit(0, 1), ShowRoster(0)];
    assert Ones(0) == map[];
  }

  lemma FillUp(n: nat) returns (h: seq<Action>)
    requires 1 <= n <= MAX_MEMBERS
    ensures Filling(h, n, n, NEW_DOP, n, [], Idle, [], [])
  {
    h := FirstJoins();
    for m := 1 to n
      invariant Filling(h, m, m, NEW_DOP, m, [], Idle, [], [])
    {
      h := NextAsks(h, m);
      h := NextIsQueued(h, m);
      h := NextIsTaken(h, m);
      h := NextIsAdmitted(h, m);
    }
  }

  /** The seventh is denied by the chat channel, and its id stays as it was. */
  lemma SeventhIsDenied() returns (h: seq<Action>)
    ensures Filling(h, 6, 6, ASKED, 7, [], Idle, [], [Refuse(6), Send(6, Denied)])
  {
    h := FillUp(6);
    h := NextAsks(h, 6);
    h := NextIsQueued(h, 6);
    h := NextIsTaken(h, 6);
  }

  lemma DenialIsRead(h: seq<Action>) returns (k: seq<Action>)
    requires Filling(h, 6, 6, ASKED, 7, [], Idle, [], [Refuse(6), Send(6, Denied)])
    ensures Filling(k, 6, 6, NEW_DOP.(id := -1), 7, [], Idle, [], [])
  {
    ThenOrderly(h, ChatStep(0));
    k := h + [ChatStep(0)];
    ThenOrderly(k, ChatStep(0));
    k := k + [ChatStep(0)];
    ThenOrderly(k, GetFromChat(6, false));
    k := k + [GetFromChat(6, false)];
  }

  /** So a user who has waited for every answer and then types /exit halts the channel
      master all the same: orderly up to there, with nothing unanswered. */
  lemma ExitAfterDenialHaltsTheMaster() returns (h: seq<Action>)
    ensures OrderlyRun(h) && At(After(h), 6).awaiting == 0 && At(After(h), 6).id == -1
    ensures var a := Issue(6, CmdExit, false);
      Possible(h + [a, MasterTake(0)]) && After(h + [a, MasterTake(0)]).todo == Halted(-1)
  {
    h := SeventhIsDenied();
    h := DenialIsRead(h);
    OrderlyIsPossible(h);
    ExitIsLast(h, 6);
  }

  /** An exit with id -1 that finds the channel master idle. */
  lemma ExitIsLast(h: seq<Action>, d: DopId)
    requires Possible(h)
    requires var s := After(h);
      && s.fault == Healthy && s.todo == Idle && s.masterQ == [] && -1 !in s.reg
      && At(s, d) == NEW_DOP.(id := -1)
    ensures var a := Issue(d, CmdExit, false);
      Possible(h + [a, MasterTake(0)]) && After(h + [a, MasterTake(0)]).todo == Halted(-1)
  {
    var a := Issue(d, CmdExit, false);
    Then(h, a);
    Then(h + [a], MasterTake(0));
    assert h + [a] + [MasterTake(0)] == h + [a, MasterTake(0)];
  }

  // ------------------------------------------------------------------ a roster of nobody

  /** A history that leaves doppelganger 0 like this and channel 1 with this on its hands. */
  ghost predicate Twice(h: seq<Action>, x: Dop, reg: map<ChatId, Entry>, todo: Todo, q: seq<ToMaster>,
                        queue: seq<ToChat>, script: seq<Op>, members: map<DopId, int>) {
    && Possible(h)
    && var s := After(h);
       && At(s, 0) == x && s.reg == reg && s.todo == todo && s.masterQ == q && s.fault == Healthy
       && |s.insts| == 1 && s.insts[0].cid == 1 && !s.insts[0].closed
       && s.insts[0].queue == queue && s.insts[0].script == script && s.insts[0].members == members
  }

  lemma TwoJoinsTaken() returns (h: seq<Action>)
    ensures Twice(h, NEW_DOP.(id := -1, awaiting := 2), map[1 := Entry(2, 0)], Forward(1, Enter(0, 1)), [],
                  [], [Admit(0, 1), ShowRoster(0)], map[])
  {
    h := [];
    var a := Issue(0, CmdJoin(1, "a"), false);
    Then(h, a); h := h + [a];
    Then(h, a); h := h + [a];
    assert Announce([0], map[0 := 1], 1) == [] by { assert [0][1..] == []; }
    a := MasterTake(1);
    Then(h, a); h := h + [a];
    Then(h, a); h := h + [a];
  }

  lemma FirstLetIn() returns (h: seq<Action>)
    ensures Twice(h, NEW_DOP.(id := -1, awaiting := 2, fromChat := [Joined(1, 0), Notice]), map[1 := Entry(2, 0)], Idle,
                  [], [Enter(0, 1)], [], map[0 := 1])
  {
    h := TwoJoinsTaken();
    Then(h, MasterSend); h := h + [MasterSend];
    Then(h, ChatStep(0)); h := h + [ChatStep(0)];
    Then(h, ChatStep(0)); h := h + [ChatStep(0)];
  }

  lemma SecondLetIn() returns (h: seq<Action>)
    ensures Twice(h, NEW_DOP.(id := -1, awaiting := 2, fromChat := [Joined(1, 0), Notice, Joined(1, 0), Notice]),
                  map[1 := Entry(2, 0)], Idle, [], [], [], map[0 := 1])
  {
    h := SecondTaken();
    assert map[0 := 1][0 := 1] == map[0 := 1];
    Then(h, ChatStep(0)); h := h + [ChatStep(0)];
    Then(h, ChatStep(0)); h := h + [ChatStep(0)];
  }

  lemma SecondTaken() returns (h: seq<Action>)
    ensures Twice(h, NEW_DOP.(id := -1, awaiting := 2, fromChat := [Joined(1, 0), Notice]), map[1 := Entry(2, 0)], Idle,
                  [], [], [Admit(0, 1), ShowRoster(0)], map[0 := 1])
  {
    h := FirstLetIn();
    var a := ChatTake(0, [0]);
    assert Announce([0], map[0 := 1], 1) == [] by { assert [0][1..] == []; }
    assert map[0 := 1][0 := 1] == map[0 := 1];
    Then(h, a); h := h + [a];
  }

  /** The user leaves between the two answers, and asks who is on the channel after the
      second. */
  lemma LeaveThenAsk() returns (h: seq<Action>)
    ensures Twice(h, NEW_DOP.(id := 1, link := Some(0), cantExit := true, awaiting := 1, fromChat := [Notice]),
                  map[1 := Entry(2, 0)], Idle, [Exit(1, 0), Who(1, 0)], [], [], map[0 := 1])
  {
    h := LeaveBetween();
    var a := GetFromChat(0, false);
    Then(h, a); h := h + [a];
    Then(h, a); h := h + [a];
    a := Issue(0, CmdWho, false);
    Then(h, a); h := h + [a];
  }

  lemma LeaveBetween() returns (h: seq<Action>)
    ensures Twice(h, NEW_DOP.(link := Some(0), cantExit := true, awaiting := 2,
                              fromChat := [Notice, Joined(1, 0), Notice]),
                  map[1 := Entry(2, 0)], Idle, [Exit(1, 0)], [], [], map[0 := 1])
  {
    h := SecondLetIn();
    var a := GetFromChat(0, false);
    Then(h, a); h := h + [a];
    a := Issue(0, CmdExit, false);
    Then(h, a); h := h + [a];
  }

  lemma ExitPassedOn() returns (h: seq<Action>)
    ensures exists x :: Twice(h, x, map[1 := Entry(1, 0)], Idle, [Who(1, 0)], [Leave(0)], [], map[0 := 1]) && !x.closed
  {
    h := LeaveThenAsk();
    Then(h, MasterTake(0)); h := h + [MasterTake(0)];
    Then(h, MasterSend); h := h + [MasterSend];
    var x := At(After(h), 0);
    assert Twice(h, x, map[1 := Entry(1, 0)], Idle, [Who(1, 0)], [Leave(0)], [], map[0 := 1]) && !x.closed;
  }

  lemma RosterPassedOn() returns (h: seq<Action>)
    ensures exists x :: Twice(h, x, map[1 := Entry(1, 0)], Idle, [], [Leave(0), Roster(0)], [], map[0 := 1])
                        && !x.closed
  {
    h := ExitPassedOn();
    Then(h, MasterTake(0)); h := h + [MasterTake(0)];
    Then(h, MasterSend); h := h + [MasterSend];
    var x := At(After(h), 0);
    assert Twice(h, x, map[1 := Entry(1, 0)], Idle, [], [Leave(0), Roster(0)], [], map[0 := 1]) && !x.closed;
  }

  lemma LeaveTaken() returns (h: seq<Action>)
    ensures exists x :: Twice(h, x, map[1 := Entry(1, 0)], Idle, [], [Roster(0)], [Send(0, Left(0)), Drop(0)],
                              map[0 := 1]) && !x.closed
  {
    h := RosterPassedOn();
    var a := ChatTake(0, [0]);
    assert Broadcast([0], Left(0)) == [Send(0, Left(0))] by { assert [0][1..] == []; }
    Then(h, a); h := h + [a];
    var x := At(After(h), 0);
    assert Twice(h, x, map[1 := Entry(1, 0)], Idle, [], [Roster(0)], [Send(0, Left(0)), Drop(0)], map[0 := 1])
        && !x.closed;
  }

  lemma ListIsEmpty() returns (h: seq<Action>)
    ensures exists x :: Twice(h, x, map[1 := Entry(1, 0)], Idle, [], [Roster(0)], [], map[]) && !x.closed
  {
    h := LeaveTaken();
    Then(h, ChatStep(0)); h := h + [ChatStep(0)];
    Then(h, ChatStep(0)); h := h + [ChatStep(0)];
    var x := At(After(h), 0);
    assert map[0 := 1] - {0} == map[];
    assert Twice(h, x, map[1 := Entry(1, 0)], Idle, [], [Roster(0)], [], map[]) && !x.closed;
  }

  /** The chat channel still counts one of the two joins, lists nobody, and panics. */
  lemma RosterOfNobodyPanics() returns (h: seq<Action>)
    ensures Possible(h) && After(h).fault == EmptyRoster(0)
  {
    h := RosterTaken();
    Then(h, ChatStep(0));
    h := h + [ChatStep(0)];
  }

  lemma RosterTaken() returns (h: seq<Action>)
    ensures exists x :: Twice(h, x, map[1 := Entry(1, 0)], Idle, [], [], [ShowRoster(0)], map[])
  {
    h := ListIsEmpty();
    Then(h, ChatTake(0, []));
    h := h + [ChatTake(0, [])];
    assert Twice(h, At(After(h), 0), map[1 := Entry(1, 0)], Idle, [], [], [ShowRoster(0)], map[]);
  }
}
