/** The chat channel goroutine as it runs: its member list changed in place, its sends
    made one by one in loops over the list.  Each method is proved to do what the
    script of ChatRoom says, which is what the network of goroutines is built from. */
module ChatChannel {
  import opened Wire
  import opened ChatRoom
  import opened Network

  /** A message that has left the goroutine. */
  datatype Delivery =
    | ToMember(d: DopId, m: FromChat)
    | Denial(c: ChatId)                 // to the channel master: join denied

  /** What a script sends, and what it leaves of the member list and of the log. */
  function Posted(c: ChatId, i: InstId, ops: seq<Op>): seq<Delivery> {
    if ops == [] then []
    else
      (match ops[0]
       case Admit(d, _) => [ToMember(d, Joined(c, i))]
       case Refuse(_) => [Denial(c)]
       case Send(d, m) => [ToMember(d, m)]
       case ShowRoster(d) => [ToMember(d, Notice)]
       case Drop(_) => []
       case Record(_) => [])
      + Posted(c, i, ops[1..])
  }

  function Roll(members: map<DopId, int>, ops: seq<Op>): map<DopId, int>
    decreases |ops|
  {
    if ops == [] then members
    else
      match ops[0]
      case Admit(d, user) => Roll(members[d := user], ops[1..])
      case Drop(d) => Roll(members - {d}, ops[1..])
      case _ => Roll(members, ops[1..])
  }

  function Logged(log: seq<Speech>, ops: seq<Op>): seq<Speech>
    decreases |ops|
  {
    if ops == [] then log
    else Logged(if ops[0].Record? then log + [ops[0].line] else log, ops[1..])
  }

  // ------------------------------------------------------------------ the network runs scripts

  function PerformAll(r: Inst): Inst
    decreases |r.script|
  {
    if r.script == [] then r else PerformAll(Perform(r))
  }

  /** Step by step, an instance of the network ends up where its script leads. */
  lemma {:induction false} PerformAllRolls(r: Inst)
    ensures var q := PerformAll(r);
      q.members == Roll(r.members, r.script) && q.log == Logged(r.log, r.script) && q.script == []
    decreases |r.script|
  {
    if r.script != [] { PerformAllRolls(Perform(r)); }
  }

  function Handed(s: State, out: Delivery): State {
    match out
    case ToMember(d, m) => Deliver(s, d, m)
    case Denial(c) => s.(denials := s.denials + [c])
  }

  /** And each of its steps delivers what the script says, unless it is the roster of an
      empty channel, at which the goroutine panics. */
  lemma StepPosts(s: State, i: InstId)
    requires i < |s.insts| && s.insts[i].script != []
    requires !(s.insts[i].script[0].ShowRoster? && s.insts[i].members == map[])
    ensures var r := s.insts[i];
      var out := Posted(r.cid, i, r.script[..1]);
      var t := PutInst(s, i, Perform(r));
      |out| <= 1 && ChatSteps(s, i) == if out == [] then t else Handed(t, out[0])
  {
    var r := s.insts[i];
    assert r.script[..1][0] == r.script[0] && r.script[..1][1..] == [];
  }

  function HandedAll(s: State, outs: seq<Delivery>): State
    decreases |outs|
  {
    if outs == [] then s else HandedAll(Handed(s, outs[0]), outs[1..])
  }

  /** The network once the goroutine has worked off its script. */
  function WorkOff(s: State, i: InstId): State
    requires i < |s.insts|
    decreases |s.insts[i].script|
  {
    if s.insts[i].script == [] || s.fault != Healthy then s
    else PerformShortens(s, i); WorkOff(ChatSteps(s, i), i)
  }

  lemma PerformShortens(s: State, i: InstId)
    requires i < |s.insts| && s.insts[i].script != []
    ensures var t := ChatSteps(s, i);
      i < |t.insts| && t.insts[i] == Perform(s.insts[i]) && t.insts[i].script == s.insts[i].script[1..]
  {
  }

  /** However the steps are interleaved with the goroutine's own state, what a script that
      is worked off without a panic comes to in the network is what it posts, in order,
      and the list and the log it rolls to. */
  lemma {:induction false} WorkOffPosts(s: State, i: InstId)
    requires i < |s.insts| && s.fault == Healthy && WorkOff(s, i).fault == Healthy
    ensures var r := s.insts[i];
      WorkOff(s, i) == HandedAll(PutInst(s, i, PerformAll(r)), Posted(r.cid, i, r.script))
    decreases |s.insts[i].script|
  {
    var r := s.insts[i];
    if r.script == [] {
      assert s.insts[i := r] == s.insts;
    } else {
      var t := ChatSteps(s, i);
      PerformShortens(s, i);
      if t.fault == Healthy {
        WorkOffPosts(t, i);
        StepPosts(s, i);
        OnePosted(s, i);
      }
    }
  }

  lemma OnePosted(s: State, i: InstId)
    requires i < |s.insts| && s.insts[i].script != [] && s.fault == Healthy && ChatSteps(s, i).fault == Healthy
    ensures var r, t := s.insts[i], ChatSteps(s, i);
      var u := PutInst(s, i, PerformAll(r));
      i < |t.insts| && t.insts[i].cid == r.cid
      && HandedAll(u, Posted(r.cid, i, r.script))
         == HandedAll(PutInst(t, i, PerformAll(t.insts[i])), Posted(r.cid, i, r.script[1..]))
  {
    var r, t := s.insts[i], ChatSteps(s, i);
    PerformShortens(s, i);
    var out := Posted(r.cid, i, r.script[..1]);
    StepPosts(s, i);
    var all := Posted(r.cid, i, r.script);
    assert r.script == r.script[..1] + r.script[1..];
    PostedConcat(r.cid, i, r.script[..1], r.script[1..]);
    assert all == out + Posted(r.cid, i, r.script[1..]);
    if out == [] {
      assert all == Posted(r.cid, i, r.script[1..]) && t == PutInst(s, i, Perform(r));
      assert s.insts[i := Perform(r)][i := PerformAll(r)] == s.insts[i := PerformAll(r)];
      assert PutInst(t, i, PerformAll(r)) == PutInst(s, i, PerformAll(r));
    } else {
      assert all[0] == out[0] && all[1..] == Posted(r.cid, i, r.script[1..]);
      HandingCommutes(s, i, Perform(r), PerformAll(r), out[0]);
    }
  }

  /** What is sent does not touch the goroutine that sends it. */
  lemma HandingCommutes(s: State, i: InstId, p: Inst, q: Inst, out: Delivery)
    requires i < |s.insts|
    ensures Handed(PutInst(s, i, q), out) == PutInst(Handed(PutInst(s, i, p), out), i, q)
  {
    assert s.insts[i := p][i := q] == s.insts[i := q];
  }

  // ------------------------------------------------------------------ scripts in parts

  lemma {:induction false} PostedConcat(c: ChatId, i: InstId, a: seq<Op>, b: seq<Op>)
    ensures Posted(c, i, a + b) == Posted(c, i, a) + Posted(c, i, b)
  {
    if a == [] {
      assert a + b == b;
    } else {
      assert (a + b)[1..] == a[1..] + b;
      PostedConcat(c, i, a[1..], b);
    }
  }

  /** Sends change neither the list nor the log. */
  lemma {:induction false} SendsOnly(members: map<DopId, int>, log: seq<Speech>, ops: seq<Op>, more: seq<Op>)
    requires forall op :: op in ops ==> op.Send? || op.ShowRoster?
    ensures Roll(members, ops + more) == Roll(members, more)
    ensures Logged(log, ops + more) == Logged(log, more)
    decreases |ops|
  {
    if ops == [] {
      assert ops + more == more;
    } else {
      assert ops[0] in ops;
      assert (ops + more)[1..] == ops[1..] + more;
      SendsOnly(members, log, ops[1..], more);
    }
  }

  lemma {:induction false} BroadcastSnoc(order: seq<DopId>, m: FromChat, k: nat)
    requires k < |order|
    ensures Broadcast(order[..k + 1], m) == Broadcast(order[..k], m) + [Send(order[k], m)]
  {
    if k > 0 {
      assert order[..k + 1][1..] == order[1..][..k] && order[..k][1..] == order[1..][..k - 1];
      BroadcastSnoc(order[1..], m, k - 1);
    }
  }

  lemma {:induction false} AnnounceSnoc(order: seq<DopId>, members: map<DopId, int>, user: int, k: nat)
    requires k < |order|
    ensures Announce(order[..k + 1], members, user)
         == Announce(order[..k], members, user)
            + if order[k] in members && members[order[k]] != user then [Send(order[k], Notice)] else []
  {
    if k > 0 {
      assert order[..k + 1][1..] == order[1..][..k] && order[..k][1..] == order[1..][..k - 1];
      AnnounceSnoc(order[1..], members, user, k - 1);
    }
  }

  lemma PostedSend(c: ChatId, i: InstId, ops: seq<Op>, d: DopId, m: FromChat)
    ensures Posted(c, i, ops + [Send(d, m)]) == Posted(c, i, ops) + [ToMember(d, m)]
  {
    PostedConcat(c, i, ops, [Send(d, m)]);
  }

  // ------------------------------------------------------------------ the goroutine

  class ChatChannelInfo {
    const chatChannelID: ChatId
    const self: InstId
    var incomingFromChannelMaster: seq<ToChat>
    var incomingFromDoppelganger: seq<Speech>
    var memberList: map<DopId, int>
    var convoLog: seq<Speech>
    var sent: seq<Delivery>
    var closed: bool

    /** The launch, with the first message as a parameter. */
    constructor (c: ChatId, i: InstId, d: DopId, user: int)
      ensures chatChannelID == c && self == i && !closed
      ensures incomingFromChannelMaster == [] && incomingFromDoppelganger == []
      ensures memberList == Roll(map[], Launch(c, d, user).script) == map[d := user]
      ensures convoLog == []
      ensures sent == Posted(c, i, Launch(c, d, user).script)
    {
      chatChannelID, self := c, i;
      incomingFromChannelMaster, incomingFromDoppelganger := [], [];
      memberList, convoLog, sent, closed := map[], [], [], false;
      new;
      ghost var order;
      var shutdown, panicked;
      shutdown, panicked, order := ProcessMessageFromChannelMaster(Enter(d, user));
      OnlyOne(order, d);
      AcceptScript(c, i, map[], [], d, user, [d], []);
    }

    /** Go iterates over a map in any order. */
    static method Range(ids: set<DopId>) returns (order: seq<DopId>)
      ensures Lists(order, ids)
    {
      order := [];
      var rest := ids;
      while rest != {}
        invariant rest <= ids && forall k :: 0 <= k < |order| ==> order[k] in ids && order[k] !in rest
        invariant forall d :: d in ids ==> d in order || d in rest
        invariant forall j, k :: 0 <= j < k < |order| ==> order[j] != order[k]
      {
        var d :| d in rest;
        order, rest := order + [d], rest - {d};
      }
    }

    /** The text is built from ", name" for every member and then cut by two bytes. */
    method TellWhoIsOnChannel(d: DopId) returns (panicked: bool)
      modifies this`sent
      ensures panicked <==> memberList == map[]
      ensures sent == if panicked then old(sent) else old(sent) + [ToMember(d, Notice)]
    {
      panicked := memberList == map[];
      if !panicked { sent := sent + [ToMember(d, Notice)]; }
    }

    method DistributeMessageToEveryoneInChatChannel(m: FromChat) returns (ghost order: seq<DopId>)
      modifies this`sent
      ensures Lists(order, memberList.Keys)
      ensures sent == old(sent) + Posted(chatChannelID, self, Broadcast(order, m))
    {
      var members := Range(memberList.Keys);
      order := members;
      for k := 0 to |members|
        invariant sent == old(sent) + Posted(chatChannelID, self, Broadcast(members[..k], m))
      {
        BroadcastSnoc(members, m, k);
        PostedSend(chatChannelID, self, Broadcast(members[..k], m), members[k], m);
        sent := sent + [ToMember(members[k], m)];
      }
      assert members[..|members|] == members;
    }

    method AnnounceJoin(user: int) returns (ghost order: seq<DopId>)
      modifies this`sent
      ensures Lists(order, memberList.Keys)
      ensures sent == old(sent) + Posted(chatChannelID, self, Announce(order, memberList, user))
    {
      var members := Range(memberList.Keys);
      order := members;
      for k := 0 to |members|
        invariant sent == old(sent) + Posted(chatChannelID, self, Announce(members[..k], memberList, user))
      {
        AnnounceSnoc(members, memberList, user, k);
        if memberList[members[k]] != user {
          PostedSend(chatChannelID, self, Announce(members[..k], memberList, user), members[k], Notice);
          sent := sent + [ToMember(members[k], Notice)];
        } else {
          assert Announce(members[..k], memberList, user) + [] == Announce(members[..k], memberList, user);
        }
      }
      assert members[..|members|] == members;
    }

    method LetIn(d: DopId, user: int) returns (ghost order: seq<DopId>)
      modifies this`sent, this`memberList
      ensures Lists(order, old(memberList).Keys + {d})
      ensures var script := Accept(old(memberList), d, user, order);
        && memberList == Roll(old(memberList), script) && convoLog == Logged(convoLog, script)
        && sent == old(sent) + Posted(chatChannelID, self, script)
    {
      ghost var before := memberList;
      sent := sent + [ToMember(d, Joined(chatChannelID, self))];
      memberList := memberList[d := user];
      assert d in memberList && memberList.Keys == before.Keys + {d};
      var panicked := TellWhoIsOnChannel(d);
      order := AnnounceJoin(user);
      AcceptScript(chatChannelID, self, before, convoLog, d, user, order, old(sent));
    }

    /** One message from the channel master: what is sent, in order, and what becomes of
        the member list are those of the script.  It panics exactly at the roster of an
        empty channel. */
    method ProcessMessageFromChannelMaster(m: ToChat)
      returns (shutdown: bool, panicked: bool, ghost order: seq<DopId>)
      modifies this`sent, this`memberList
      ensures panicked <==> m.Roster? && old(memberList) == map[]
      ensures shutdown <==> m.Shutdown?
      ensures Lists(order, Audience(old(memberList), m))
      ensures var script := Script(old(memberList), m, order);
        && memberList == Roll(old(memberList), script)
        && convoLog == Logged(convoLog, script)
        && (!panicked ==> sent == old(sent) + Posted(chatChannelID, self, script))
        && (panicked ==> sent == old(sent))
    {
      shutdown, panicked := false, false;
      match m
      case Enter(d, user) =>
        if |memberList| >= MAX_MEMBERS {
          order := OrderOf(memberList.Keys + {d});
          sent := sent + [Denial(chatChannelID)];
          sent := sent + [ToMember(d, Denied)];
          RefusalScript(chatChannelID, self, memberList, convoLog, d);
        } else {
          order := LetIn(d, user);
        }
      case Roster(d) =>
        order := OrderOf(memberList.Keys);
        panicked := TellWhoIsOnChannel(d);
        RosterScript(chatChannelID, self, memberList, convoLog, d);
      case Leave(d) =>
        order := DistributeMessageToEveryoneInChatChannel(Left(d));
        LeaveScript(chatChannelID, self, memberList, convoLog, d, order);
        memberList := memberList - {d};
      case Shutdown =>
        order := OrderOf(memberList.Keys);
        shutdown := true;
    }

    /** The select case for the channel master. */
    method ReceiveFromChannelMaster() returns (panicked: bool, ghost order: seq<DopId>)
      requires !closed && incomingFromChannelMaster != []
      modifies this
      ensures var m := old(incomingFromChannelMaster[0]);
        && Lists(order, Audience(old(memberList), m))
        && var script := Script(old(memberList), m, order);
        && incomingFromChannelMaster == old(incomingFromChannelMaster)[1..]
        && incomingFromDoppelganger == old(incomingFromDoppelganger)
        && convoLog == old(convoLog)
        && memberList == Roll(old(memberList), script)
        && (panicked <==> m.Roster? && old(memberList) == map[])
        && (closed <==> m.Shutdown?)
        && (!panicked ==> sent == old(sent) + Posted(chatChannelID, self, script))
    {
      var m := incomingFromChannelMaster[0];
      incomingFromChannelMaster := incomingFromChannelMaster[1..];
      var shutdown;
      shutdown, panicked, order := ProcessMessageFromChannelMaster(m);
      if shutdown { closed := true; }
    }

    /** The select case for the members: everyone listed gets the line, once, and it is
        logged. */
    method ReceiveFromDoppelganger() returns (ghost order: seq<DopId>)
      requires !closed && incomingFromDoppelganger != []
      modifies this`incomingFromDoppelganger, this`sent, this`convoLog
      ensures Lists(order, memberList.Keys)
      ensures var script := SpeechScript(old(incomingFromDoppelganger[0]), order);
        && incomingFromDoppelganger == old(incomingFromDoppelganger)[1..]
        && memberList == Roll(memberList, script)
        && convoLog == Logged(old(convoLog), script)
        && sent == old(sent) + Posted(chatChannelID, self, script)
    {
      var line := incomingFromDoppelganger[0];
      incomingFromDoppelganger := incomingFromDoppelganger[1..];
      order := DistributeMessageToEveryoneInChatChannel(Said(line));
      SpokenScript(chatChannelID, self, memberList, convoLog, line, order);
      convoLog := convoLog + [line];
    }
  }

  // ------------------------------------------------------------------ scripts, whole

  lemma OnlyOne(order: seq<DopId>, d: DopId)
    requires Lists(order, {d})
    ensures order == [d]
  {
    assert d in order && order[0] == d;
    var k := if |order| > 1 then 1 else 0;
    assert order[k] == d;
  }

  lemma RefusalScript(c: ChatId, i: InstId, members: map<DopId, int>, log: seq<Speech>, d: DopId)
    ensures var script := [Refuse(d), Send(d, Denied)];
      && Posted(c, i, script) == [Denial(c), ToMember(d, Denied)]
      && Roll(members, script) == members && Logged(log, script) == log
  {
    var script, rest := [Refuse(d), Send(d, Denied)], [Send(d, Denied)];
    assert script[1..] == rest && rest[1..] == [];
    assert Posted(c, i, rest) == [ToMember(d, Denied)];
    assert Roll(members, rest) == members && Logged(log, rest) == log;
  }

  lemma AcceptScript(c: ChatId, i: InstId, members: map<DopId, int>, log: seq<Speech>,
                     d: DopId, user: int, order: seq<DopId>, sent: seq<Delivery>)
    ensures var script := Accept(members, d, user, order);
      && sent + Posted(c, i, script)
         == sent + [ToMember(d, Joined(c, i))] + [ToMember(d, Notice)]
            + Posted(c, i, Announce(order, members[d := user], user))
      && Roll(members, script) == members[d := user] && Logged(log, script) == log
  {
    var rest := Announce(order, members[d := user], user);
    AcceptPosts(c, i, d, user, rest);
    assert sent + ([ToMember(d, Joined(c, i)), ToMember(d, Notice)] + Posted(c, i, rest))
        == sent + [ToMember(d, Joined(c, i))] + [ToMember(d, Notice)] + Posted(c, i, rest);
    AcceptRolls(members, log, d, user, rest);
  }

  lemma AcceptPosts(c: ChatId, i: InstId, d: DopId, user: int, rest: seq<Op>)
    ensures Posted(c, i, [Admit(d, user), ShowRoster(d)] + rest)
         == [ToMember(d, Joined(c, i)), ToMember(d, Notice)] + Posted(c, i, rest)
  {
    var script := [Admit(d, user), ShowRoster(d)] + rest;
    assert script[1..] == [ShowRoster(d)] + rest && script[1..][1..] == rest;
  }

  lemma AcceptRolls(members: map<DopId, int>, log: seq<Speech>, d: DopId, user: int, rest: seq<Op>)
    requires forall op :: op in rest ==> op.Send?
    ensures var script := [Admit(d, user), ShowRoster(d)] + rest;
      Roll(members, script) == members[d := user] && Logged(log, script) == log
  {
    var script := [Admit(d, user), ShowRoster(d)] + rest;
    assert script[1..] == [ShowRoster(d)] + rest;
    assert [ShowRoster(d)] + rest + [] == [ShowRoster(d)] + rest;
    SendsOnly(members[d := user], log, [ShowRoster(d)] + rest, []);
  }

  lemma RosterScript(c: ChatId, i: InstId, members: map<DopId, int>, log: seq<Speech>, d: DopId)
    ensures Posted(c, i, [ShowRoster(d)]) == [ToMember(d, Notice)]
    ensures Roll(members, [ShowRoster(d)]) == members && Logged(log, [ShowRoster(d)]) == log
  {
    assert [ShowRoster(d)][1..] == [];
  }

  lemma LeaveScript(c: ChatId, i: InstId, members: map<DopId, int>, log: seq<Speech>, d: DopId, order: seq<DopId>)
    ensures var script := Broadcast(order, Left(d)) + [Drop(d)];
      && Posted(c, i, script) == Posted(c, i, Broadcast(order, Left(d)))
      && Roll(members, script) == members - {d} && Logged(log, script) == log
  {
    assert [Drop(d)][1..] == [];
    PostedConcat(c, i, Broadcast(order, Left(d)), [Drop(d)]);
    SendsOnly(members, log, Broadcast(order, Left(d)), [Drop(d)]);
  }

  lemma SpokenScript(c: ChatId, i: InstId, members: map<DopId, int>, log: seq<Speech>, line: Speech, order: seq<DopId>)
    ensures var script := SpeechScript(line, order);
      && Posted(c, i, script) == Posted(c, i, Broadcast(order, Said(line)))
      && Roll(members, script) == members && Logged(log, script) == log + [line]
  {
    assert [Record(line)][1..] == [];
    PostedConcat(c, i, Broadcast(order, Said(line)), [Record(line)]);
    SendsOnly(members, log, Broadcast(order, Said(line)), [Record(line)]);
  }

  // ------------------------------------------------------------------ what scripts come to

  /** A broadcast reaches everyone on the list, once. */
  lemma {:induction false} BroadcastReachesAll(c: ChatId, i: InstId, order: seq<DopId>, m: FromChat)
    ensures var out := Posted(c, i, Broadcast(order, m));
      |out| == |order| && forall k :: 0 <= k < |out| ==> out[k] == ToMember(order[k], m)
  {
    if order != [] { BroadcastReachesAll(c, i, order[1..], m); }
  }

  lemma GrowsByOne(members: map<DopId, int>, d: DopId, user: int)
    ensures |members[d := user]| <= |members| + 1
  {
    assert members[d := user].Keys == members.Keys + {d};
    assert |members[d := user]| == |members[d := user].Keys| && |members| == |members.Keys|;
  }

  lemma ShrinksAtMost(members: map<DopId, int>, d: DopId)
    ensures |members - {d}| <= |members|
  {
    assert (members - {d}).Keys == members.Keys - {d};
    assert |members - {d}| == |(members - {d}).Keys| && |members| == |members.Keys|;
  }
}
