/** What every message comes to, from the moment it is taken to the last of the sends that
    it causes, spelled out: who is on the list then, and who has been sent what. */
module Handling {
  import opened Options
  import opened Wire
  import opened Client
  import opened ChatRoom
  import opened Network
  import opened Membership
  import opened Closing
  import opened ChatChannel
  import opened ChannelMaster

  // ------------------------------------------------------------------ a chat channel

  /** All that goroutine i sends for the message it takes next, and its list afterwards. */
  function Output(r: Inst, i: InstId, order: seq<DopId>): seq<Delivery>
    requires r.queue != []
  {
    Posted(r.cid, i, Take(r, order).script)
  }

  function MembersThen(r: Inst, order: seq<DopId>): map<DopId, int>
    requires r.queue != []
  {
    PerformAll(Take(r, order)).members
  }

  lemma {:induction false} BroadcastCounts(c: ChatId, i: InstId, order: seq<DopId>, ids: set<DopId>, m: FromChat,
                                           e: DopId)
    requires Lists(order, ids)
    ensures multiset(Posted(c, i, Broadcast(order, m)))[ToMember(e, m)] == Bit(e in ids)
    ensures forall x :: x in Posted(c, i, Broadcast(order, m)) ==> x.ToMember? && x.m == m
  {
    if order == [] {
      assert ids == {};
    } else {
      var rest := ids - {order[0]};
      BroadcastCounts(c, i, order[1..], rest, m, e);
      var out := Posted(c, i, Broadcast(order[1..], m));
      assert Broadcast(order, m)[1..] == Broadcast(order[1..], m);
      assert Posted(c, i, Broadcast(order, m)) == [ToMember(order[0], m)] + out;
      assert order[0] in ids;
    }
  }

  lemma {:induction false} AnnounceCounts(c: ChatId, i: InstId, order: seq<DopId>, ids: set<DopId>,
                                          members: map<DopId, int>, user: int, e: DopId)
    requires Lists(order, ids)
    ensures multiset(Posted(c, i, Announce(order, members, user)))[ToMember(e, Notice)]
         == Bit(e in ids && e in members && members[e] != user)
    ensures forall x :: x in Posted(c, i, Announce(order, members, user)) ==> x.ToMember? && x.m == Notice
  {
    if order == [] {
      assert ids == {};
    } else {
      var d, rest := order[0], ids - {order[0]};
      AnnounceCounts(c, i, order[1..], rest, members, user, e);
      var more := Announce(order[1..], members, user);
      assert d in ids;
      if d in members && members[d] != user {
        assert Announce(order, members, user) == [Send(d, Notice)] + more;
        assert ([Send(d, Notice)] + more)[1..] == more;
        assert Posted(c, i, Announce(order, members, user)) == [ToMember(d, Notice)] + Posted(c, i, more);
      } else {
        assert Announce(order, members, user) == more;
      }
    }
  }

  /** A join with fewer than six on the list: the newcomer is put on it, is told so and is
      shown the roster, and then everyone on it of another user is told, once. */
  lemma JoinIsAccepted(r: Inst, i: InstId, order: seq<DopId>, d: DopId, user: int, e: DopId)
    requires r.queue != [] && r.queue[0] == Enter(d, user) && Lists(order, r.members.Keys + {d}) && |r.members| < 6
    ensures MembersThen(r, order) == r.members[d := user]
    ensures var out := Output(r, i, order);
      && 2 <= |out| && out[..2] == [ToMember(d, Joined(r.cid, i)), ToMember(d, Notice)]
      && (forall x :: x in out[2..] ==> x.ToMember? && x.m == Notice)
      && multiset(out[2..])[ToMember(e, Notice)] == Bit(e != d && e in r.members && r.members[e] != user)
  {
    var members := r.members[d := user];
    PerformAllRolls(Take(r, order));
    AcceptScript(r.cid, i, r.members, r.log, d, user, order, []);
    AnnounceCounts(r.cid, i, order, r.members.Keys + {d}, members, user, e);
    AcceptPosts(r.cid, i, d, user, Announce(order, members, user));
    var rest := Posted(r.cid, i, Announce(order, members, user));
    assert Output(r, i, order) == [ToMember(d, Joined(r.cid, i)), ToMember(d, Notice)] + rest;
  }

  /** A join with six on it: the newcomer and the channel master are told that it was denied. */
  lemma JoinIsDenied(r: Inst, i: InstId, order: seq<DopId>, d: DopId, user: int)
    requires r.queue != [] && r.queue[0] == Enter(d, user) && |r.members| >= 6
    ensures MembersThen(r, order) == r.members && Output(r, i, order) == [Denial(r.cid), ToMember(d, Denied)]
  {
    PerformAllRolls(Take(r, order));
    RefusalScript(r.cid, i, r.members, r.log, d);
  }

  /** An exit: everyone on the list, the leaver too, is told once, and the leaver is off it. */
  lemma LeaveIsHandled(r: Inst, i: InstId, order: seq<DopId>, d: DopId, e: DopId)
    requires r.queue != [] && r.queue[0] == Leave(d) && Lists(order, r.members.Keys)
    ensures MembersThen(r, order) == r.members - {d}
    ensures multiset(Output(r, i, order))[ToMember(e, Left(d))] == Bit(e in r.members)
    ensures forall x :: x in Output(r, i, order) ==> x.ToMember? && x.m == Left(d)
  {
    PerformAllRolls(Take(r, order));
    LeaveScript(r.cid, i, r.members, r.log, d, order);
    BroadcastCounts(r.cid, i, order, r.members.Keys, Left(d), e);
  }

  /** A request for the roster: who asked is told, and nobody else; and a shutdown. */
  lemma OthersAreHandled(r: Inst, i: InstId, order: seq<DopId>)
    requires r.queue != [] && (r.queue[0].Roster? || r.queue[0].Shutdown?)
    ensures MembersThen(r, order) == r.members
    ensures r.queue[0].Roster? ==> Output(r, i, order) == [ToMember(r.queue[0].d, Notice)]
    ensures r.queue[0].Shutdown? ==> Output(r, i, order) == [] && Take(r, order).closed
    ensures r.queue[0].Roster? ==> Take(r, order).closed == false
  {
    PerformAllRolls(Take(r, order));
    if r.queue[0].Roster? { RosterScript(r.cid, i, r.members, r.log, r.queue[0].d); }
  }

  /** A line: everyone on the list gets it once, and then it is in the log. */
  lemma SpeechIsHandled(r: Inst, i: InstId, order: seq<DopId>, e: DopId)
    requires r.inbox != [] && Lists(order, r.members.Keys)
    ensures var q, line := Listen(r, order), r.inbox[0];
      && q.inbox == r.inbox[1..]
      && PerformAll(q).log == r.log + [line] && PerformAll(q).members == r.members
      && multiset(Posted(r.cid, i, q.script))[ToMember(e, Said(line))] == Bit(e in r.members)
      && forall x :: x in Posted(r.cid, i, q.script) ==> x.ToMember? && x.m == Said(line)
  {
    PerformAllRolls(Listen(r, order));
    SpokenScript(r.cid, i, r.members, r.log, r.inbox[0], order);
    BroadcastCounts(r.cid, i, order, r.members.Keys, Said(r.inbox[0]), e);
  }

  // ------------------------------------------------------------------ the channel master

  /** A join of no name, or of a channel that the database does not have, is refused. */
  lemma RefusalSettles(s: State, found: nat, d: DopId, user: int, name: string)
    requires Enabled(s, MasterTake(found)) && s.masterQ[0] == Join(d, user, name) && (name == "" || found == 0)
    requires !At(s, d).closed
    ensures Settled(MasterTakes(s, found))
         == Put(s, d, At(s, d).(fromMaster := At(s, d).fromMaster + [Refused])).(masterQ := s.masterQ[1..])
  {
    var t := MasterTakes(s, found);
    assert Settled(t) == Settled(MasterSends(t));
  }

  /** A join of a channel nobody is on launches its goroutine, with the one who asked. */
  lemma LaunchSettles(s: State, found: nat, d: DopId, user: int, name: string)
    requires Enabled(s, MasterTake(found)) && s.masterQ[0] == Join(d, user, name) && name != "" && found != 0
    requires found !in s.reg
    ensures var t := Settled(MasterTakes(s, found));
      && t == s.(masterQ := s.masterQ[1..], reg := s.reg[found := Entry(1, |s.insts|)], insts := t.insts)
      && |t.insts| == |s.insts| + 1 && t.insts[..|s.insts|] == s.insts
      && var r := t.insts[|s.insts|];
         && r.cid == found && r.members == map[] && r.queue == [] && r.inbox == [] && r.log == [] && !r.closed
         && r.script != [] && r.script[0] == Admit(d, user)
  {
  }

  /** A join, an exit or a question about a channel somebody is on goes to the end of the queue
      of the instance that is registered for it. */
  lemma ForwardSettles(s: State, found: nat, c: ChatId, m: ToChat)
    requires Books(s) && Enabled(s, MasterTake(found)) && c in s.reg
    requires
      || (s.masterQ[0].Join? && s.masterQ[0].name != "" && c == found != 0
          && m == Enter(s.masterQ[0].d, s.masterQ[0].user))
      || (s.masterQ[0].Who? && c == s.masterQ[0].c && m == Roster(s.masterQ[0].d))
    ensures var t, i := Settled(MasterTakes(s, found)), s.reg[c].inst;
      && i < |s.insts| && t.insts == s.insts[i := s.insts[i].(queue := s.insts[i].queue + [m])]
      && t == s.(masterQ := s.masterQ[1..], insts := t.insts, reg := t.reg)
      && t.reg == (if m.Enter? then s.reg[c := Entry(s.reg[c].count + 1, i)] else s.reg)
  {
    var t := MasterTakes(s, found);
    assert EntryOk(s, c) && RoomOk(s.insts[s.reg[c].inst], Registered(s, s.reg[c].inst));
    assert Settled(t) == Settled(MasterSends(t));
  }
}
