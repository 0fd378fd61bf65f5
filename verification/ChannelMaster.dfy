/** The channel master as it runs: the table of running chat channels changed in place,
    with sends between the changes.  Each method is proved to do to the network what
    the steps of the channel master do, from one receive to the next. */
module ChannelMaster {
  import opened Wire
  import opened ChatRoom
  import opened Network

  /** What leaves the goroutine: a message, or a goroutine launched. */
  datatype Sent =
    | ToDoppelganger(d: DopId, r: FromMaster)
    | ToChannel(i: InstId, m: ToChat)
    | Launched(c: ChatId, d: DopId, user: int)

  /** Where it arrives. */
  function Arrive(s: State, x: Sent): State {
    match x
    case ToDoppelganger(d, r) => Put(s, d, At(s, d).(fromMaster := At(s, d).fromMaster + [r]))
    case ToChannel(i, m) =>
      if i >= |s.insts| then s
      else
        var r := s.insts[i];
        PutInst(s, i, r.(queue := r.queue + [m],
                         tickets := if m.Leave? then r.tickets - multiset{m.d} else r.tickets))
    case Launched(c, d, user) => s.(insts := s.insts + [Launch(c, d, user)])
  }

  function Arrived(s: State, xs: seq<Sent>): State
    decreases |xs|
  {
    if xs == [] then s else Arrived(Arrive(s, xs[0]), xs[1..])
  }

  /** The network once the channel master has made all its sends. */
  function Settled(s: State): State
    decreases if s.fault == Healthy then 1 + Work(s.todo) else 0
  {
    if s.fault == Healthy && (s.todo.Reply? || s.todo.Forward?) then Settled(MasterSends(s)) else s
  }

  ghost predicate Consistent(reg: map<ChatId, Entry>, launches: nat) {
    forall c :: c in reg ==> reg[c].inst < launches
  }

  class Master {
    var runningChatchannelMap: map<ChatId, Entry>
    var launches: nat          // instances are numbered in the order of their launch
    var sent: seq<Sent>

    constructor ()
      ensures runningChatchannelMap == map[] && launches == 0 && sent == []
    {
      runningChatchannelMap, launches, sent := map[], 0, [];
    }

    /** The table and the launches, as part of the network. */
    ghost predicate IsIn(s: State) reads this {
      s.reg == runningChatchannelMap && |s.insts| == launches && s.fault == Healthy
    }

    /** The channel exists already, or its goroutine is launched. */
    method JoinChatChannel(c: ChatId, d: DopId, user: int)
      requires c != 0
      modifies this
      ensures var reg := old(runningChatchannelMap);
        if c in reg then
          && runningChatchannelMap == reg[c := Entry(reg[c].count + 1, reg[c].inst)]
          && launches == old(launches)
          && sent == old(sent) + [ToChannel(reg[c].inst, Enter(d, user))]
        else
          && runningChatchannelMap == reg[c := Entry(1, old(launches))]
          && launches == old(launches) + 1
          && sent == old(sent) + [Launched(c, d, user)]
    {
      if c !in runningChatchannelMap {
        runningChatchannelMap := runningChatchannelMap[c := Entry(1, launches)];
        sent := sent + [Launched(c, d, user)];
        launches := launches + 1;
        return;
      }
      var e := runningChatchannelMap[c];
      runningChatchannelMap := runningChatchannelMap[c := e.(count := e.count + 1)];
      sent := sent + [ToChannel(e.inst, Enter(d, user))];
    }

    method WhoIsOnChatChannel(c: ChatId, d: DopId)
      modifies this`sent
      ensures var reg := runningChatchannelMap;
        sent == old(sent) + if c in reg then [ToChannel(reg[c].inst, Roster(d))] else []
    {
      if c !in runningChatchannelMap { return; }
      sent := sent + [ToChannel(runningChatchannelMap[c].inst, Roster(d))];
    }

    /** One member fewer; the last one out shuts the channel down and takes it off the
        table. */
    method Discount(c: ChatId)
      requires c in runningChatchannelMap
      modifies this`runningChatchannelMap, this`sent
      ensures var e := old(runningChatchannelMap)[c];
        if e.count == 1 then
          && runningChatchannelMap == old(runningChatchannelMap) - {c}
          && sent == old(sent) + [ToChannel(e.inst, Shutdown)]
        else
          && runningChatchannelMap == old(runningChatchannelMap)[c := Entry(e.count - 1, e.inst)]
          && sent == old(sent)
    {
      var e := runningChatchannelMap[c];
      runningChatchannelMap := runningChatchannelMap[c := e.(count := e.count - 1)];
      if runningChatchannelMap[c].count == 0 {
        sent := sent + [ToChannel(runningChatchannelMap[c].inst, Shutdown)];
        runningChatchannelMap := runningChatchannelMap - {c};
      }
    }

    /** A message from a doppelganger.  In any network in which the channel master has this
        table, taking the message and making the sends step by step, unless it panics,
        leads to the new table and to where these sends arrive. */
    method HandleDoppelganger(m: ToMaster, found: nat, ghost s: State) returns (halted: bool)
      requires IsIn(s) && s.todo == Idle && s.masterQ != [] && s.masterQ[0] == m
      requires Consistent(runningChatchannelMap, launches)
      modifies this
      ensures Consistent(runningChatchannelMap, launches)
      ensures old(sent) <= sent
      ensures halted <==> m.Exit? && m.c != 0 && m.c !in old(runningChatchannelMap)
      ensures var t := Settled(MasterTakes(s, found));
        t.fault == Healthy ==>
          t == Arrived(s.(masterQ := s.masterQ[1..]), sent[|old(sent)|..])
                 .(reg := runningChatchannelMap, todo := if halted then Halted(m.c) else Idle)
    {
      halted := false;
      match m
      case Join(_, _, _) => HandleJoin(m, found, s);
      case Who(c, d) =>
        WhoIsOnChatChannel(c, d);
      case Exit(_, _) => halted := HandleExit(m, found, s);
    }

    /** What the network is when the message has been dealt with. */
    ghost predicate DealtWith(s: State, found: nat, before: seq<Sent>, halt: Todo)
      requires s.masterQ != []
      reads this
    {
      && before <= sent
      && var t := Settled(MasterTakes(s, found));
         t.fault == Healthy ==>
           t == Arrived(s.(masterQ := s.masterQ[1..]), sent[|before|..]).(reg := runningChatchannelMap, todo := halt)
    }

    method HandleJoin(m: ToMaster, found: nat, ghost s: State)
      requires IsIn(s) && s.todo == Idle && s.masterQ != [] && s.masterQ[0] == m && m.Join?
      requires Consistent(runningChatchannelMap, launches)
      modifies this
      ensures Consistent(runningChatchannelMap, launches)
      ensures DealtWith(s, found, old(sent), Idle)
    {
      if m.name == "" || found == 0 {
        sent := sent + [ToDoppelganger(m.d, Refused)];
      } else {
        JoinChatChannel(found, m.d, m.user);
      }
    }

    method HandleExit(m: ToMaster, found: nat, ghost s: State) returns (halted: bool)
      requires IsIn(s) && s.todo == Idle && s.masterQ != [] && s.masterQ[0] == m && m.Exit?
      requires Consistent(runningChatchannelMap, launches)
      modifies this
      ensures Consistent(runningChatchannelMap, launches)
      ensures halted <==> m.c != 0 && m.c !in old(runningChatchannelMap)
      ensures DealtWith(s, found, old(sent), if halted then Halted(m.c) else Idle)
    {
      halted := false;
      if m.c == 0 {
        sent := sent + [ToDoppelganger(m.d, GenericText)];
      } else if m.c !in runningChatchannelMap {
        halted := true;
      } else {
        sent := sent + [ToChannel(runningChatchannelMap[m.c].inst, Leave(m.d))];
        Discount(m.c);
        ExitSettles(s, found, m.c, m.d, sent[|old(sent)|..]);
      }
    }

    /** A join denial from a chat channel, for one that is on the table; for one that is
        not the lookup gives nil and the server panics. */
    method HandleChatChannel(c: ChatId, ghost s: State) returns (panicked: bool)
      requires IsIn(s) && s.todo == Idle && s.denials != [] && s.denials[0] == c
      requires Consistent(runningChatchannelMap, launches)
      modifies this
      ensures Consistent(runningChatchannelMap, launches)
      ensures panicked <==> c !in old(runningChatchannelMap)
      ensures panicked <==> MasterHears(s).fault == NoEntry(c)
      ensures old(sent) <= sent
      ensures var t := Settled(MasterHears(s));
        t.fault == Healthy ==>
          t == Arrived(s.(denials := s.denials[1..]), sent[|old(sent)|..]).(reg := runningChatchannelMap)
    {
      panicked := c !in runningChatchannelMap;
      if !panicked { Discount(c); }
    }
  }

  /** The exit of the last member, and of another. */
  lemma ExitSettles(s: State, found: nat, c: ChatId, d: DopId, xs: seq<Sent>)
    requires s.fault == Healthy && s.todo == Idle && s.masterQ != [] && s.masterQ[0] == Exit(c, d)
    requires c != 0 && c in s.reg
    requires xs == [ToChannel(s.reg[c].inst, Leave(d))]
                   + if s.reg[c].count == 1 then [ToChannel(s.reg[c].inst, Shutdown)] else []
    ensures var t := Settled(MasterTakes(s, found));
      t.fault == Healthy ==>
        t == Arrived(s.(masterQ := s.masterQ[1..]), xs).(
               reg := if s.reg[c].count == 1 then s.reg - {c} else s.reg[c := Entry(s.reg[c].count - 1, s.reg[c].inst)],
               todo := Idle)
  {
    var e := s.reg[c];
    var s1 := MasterTakes(s, found);
    var s2 := MasterSends(s1);
    var q := s.(masterQ := s.masterQ[1..]);
    if e.count == 1 {
      assert xs[1..] == [ToChannel(e.inst, Shutdown)] && xs[1..][1..] == [];
      assert Arrived(q, xs) == Arrived(Arrive(q, xs[0]), xs[1..]) == Arrive(Arrive(q, xs[0]), xs[1]);
      assert s.reg[c := Entry(0, e.inst)] - {c} == s.reg - {c};
      assert Settled(s1) == Settled(s2) && (s2.fault == Healthy ==> Settled(s2) == Settled(MasterSends(s2)));
    } else {
      assert xs[1..] == [];
    }
  }
}
