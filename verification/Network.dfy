/** The running server as one step system: every doppelganger, every launched chat
    channel goroutine and the channel master, with the go channels between them.

    A step is one receive, or one send, together with the assignments to the
    goroutine's own variables that come before its next receive or send; nothing
    another goroutine can see happens in between. */
module Network {
  import opened Wire
  import opened Client
  import opened ChatRoom

  datatype Entry = Entry(count: int, inst: InstId)   // perChatChanInfo

  /** What the channel master has to send before it receives again. */
  datatype Todo =
    | Idle
    | Reply(d: DopId, r: FromMaster)
    | Forward(c: ChatId, m: ToChat)
    | Halted(c: ChatId)    // the goroutine returned on an exit for an unregistered id

  /** Why the server process panicked, if it did. */
  datatype Fault =
    | Healthy
    | ClosedDoppelganger(d: DopId)    // send on a doppelganger's closed callback
    | ClosedInstance(i: InstId)       // channel master sent to a closed chat channel
    | ClosedInbox(d: DopId)           // doppelganger d spoke to a closed chat channel
    | EmptyRoster(i: InstId)          // memberStr[2:] of an empty string
    | NoEntry(c: ChatId)              // nil dereference in runningChatchannelMap

  datatype State = State(
    dops: map<DopId, Dop>,
    insts: seq<Inst>,
    reg: map<ChatId, Entry>,          // runningChatchannelMap
    todo: Todo,
    masterQ: seq<ToMaster>,
    denials: seq<ChatId>,             // chat channel -> channel master: join denied
    fault: Fault)

  const INIT := State(map[], [], map[], Idle, [], [], Healthy)

  /** A doppelganger not in the map has logged in and done nothing yet. */
  function At(s: State, d: DopId): Dop {
    if d in s.dops then s.dops[d] else NEW_DOP
  }

  function Put(s: State, d: DopId, x: Dop): State {
    s.(dops := s.dops[d := x])
  }

  function PutInst(s: State, i: InstId, r: Inst): State
    requires i < |s.insts|
  {
    s.(insts := s.insts[i := r])
  }

  datatype Action =
    | Lose(d: DopId)                                   // a prompt could not be written
    | Issue(d: DopId, cmd: Command, lost: bool)
    | GetFromMaster(d: DopId, lost: bool)
    | GetFromChat(d: DopId, lost: bool)
    | ExitProcedure(d: DopId)
    | MasterTake(found: nat)                           // found: what the name lookup gives
    | MasterHear
    | MasterSend
    | ChatTake(i: InstId, order: seq<DopId>)
    | ChatListen(i: InstId, order: seq<DopId>)
    | ChatStep(i: InstId)

  ghost predicate Enabled(s: State, a: Action) {
    && s.fault == Healthy
    && match a
       case Lose(d) => !At(s, d).closed && !At(s, d).unwinding
       case Issue(d, _, _) => !At(s, d).closed && !At(s, d).unwinding
       case GetFromMaster(d, _) => !At(s, d).closed && !At(s, d).unwinding && At(s, d).fromMaster != []
       case GetFromChat(d, _) => !At(s, d).closed && !At(s, d).unwinding && At(s, d).fromChat != []
       case ExitProcedure(d) => !At(s, d).closed && At(s, d).unwinding
       case MasterTake(_) => s.todo == Idle && s.masterQ != []
       case MasterHear => s.todo == Idle && s.denials != []
       case MasterSend => s.todo.Reply? || s.todo.Forward?
       case ChatTake(i, order) =>
         && i < |s.insts| && !s.insts[i].closed && s.insts[i].script == [] && s.insts[i].queue != []
         && Lists(order, Audience(s.insts[i].members, s.insts[i].queue[0]))
       case ChatListen(i, order) =>
         && i < |s.insts| && !s.insts[i].closed && s.insts[i].script == [] && s.insts[i].inbox != []
         && Lists(order, s.insts[i].members.Keys)
       case ChatStep(i) => i < |s.insts| && !s.insts[i].closed && s.insts[i].script != []
  }

  /** Carry out what a doppelganger's iteration sends. */
  function Dispatch(s: State, d: DopId, out: Out): State {
    match out
    case Nothing => s
    case ToTheMaster(m) => s.(masterQ := s.masterQ + [m])
    case Speak(i, line) =>
      if i < |s.insts| && !s.insts[i].closed
      then PutInst(s, i, s.insts[i].(inbox := s.insts[i].inbox + [line]))
      else s.(fault := ClosedInbox(d))
  }

  /** channelMasterGoroutine, a message from a doppelganger, up to its first send. */
  function MasterTakes(s: State, found: nat): State
    requires s.masterQ != []
  {
    var t := s.(masterQ := s.masterQ[1..]);
    match s.masterQ[0]
    case Join(d, user, name) =>
      if name == "" || found == 0 then t.(todo := Reply(d, Refused))
      else if found !in s.reg then
        t.(reg := s.reg[found := Entry(1, |s.insts|)], insts := s.insts + [Launch(found, d, user)])
      else
        t.(reg := s.reg[found := s.reg[found].(count := s.reg[found].count + 1)],
           todo := Forward(found, Enter(d, user)))
    case Who(c, d) =>
      if c !in s.reg then t else t.(todo := Forward(c, Roster(d)))
    case Exit(c, d) =>
      if c == 0 then t.(todo := Reply(d, GenericText))
      else if c !in s.reg then t.(todo := Halted(c))
      else t.(todo := Forward(c, Leave(d)))
  }

  /** One fewer member: the last one out makes the channel master send Shutdown. */
  function Discount(s: State, c: ChatId): State
    requires c in s.reg
  {
    var n := s.reg[c].count - 1;
    s.(reg := s.reg[c := s.reg[c].(count := n)], todo := if n == 0 then Forward(c, Shutdown) else Idle)
  }

  /** channelMasterGoroutine, a join denial from a chat channel. */
  function MasterHears(s: State): State
    requires s.denials != []
  {
    var c := s.denials[0];
    var t := s.(denials := s.denials[1..]);
    if c in s.reg then Discount(t, c) else t.(fault := NoEntry(c))
  }

  function Push(s: State, c: ChatId, m: ToChat): State
    requires c in s.reg && s.reg[c].inst < |s.insts|
  {
    var r := s.insts[s.reg[c].inst];
    PutInst(s, s.reg[c].inst,
            r.(queue := r.queue + [m], tickets := if m.Leave? then r.tickets - multiset{m.d} else r.tickets))
  }

  /** channelMasterGoroutine, the send it has pending. */
  function MasterSends(s: State): State
    requires s.todo.Reply? || s.todo.Forward?
  {
    match s.todo
    case Reply(d, r) =>
      if At(s, d).closed then s.(fault := ClosedDoppelganger(d))
      else Put(s, d, At(s, d).(fromMaster := At(s, d).fromMaster + [r])).(todo := Idle)
    case Forward(c, m) =>
      if c !in s.reg then s.(fault := NoEntry(c))
      else if s.reg[c].inst >= |s.insts| || s.insts[s.reg[c].inst].closed
      then s.(fault := ClosedInstance(s.reg[c].inst))
      else
        var t := Push(s, c, m);
        if m.Leave? then Discount(t, c)
        else if m.Shutdown? then t.(reg := s.reg - {c}, todo := Idle)
        else t.(todo := Idle)
  }

  /** How many sends may be pending. */
  function Work(todo: Todo): nat {
    match todo
    case Forward(_, m) => if m.Leave? then 2 else 1
    case Reply(_, _) => 1
    case _ => 0
  }

  function Deliver(s: State, d: DopId, m: FromChat): State {
    if At(s, d).closed then s.(fault := ClosedDoppelganger(d))
    else Put(s, d, At(s, d).(fromChat := At(s, d).fromChat + [m]))
  }

  /** chatChannelGoRoutine, the next operation of its script. */
  function ChatSteps(s: State, i: InstId): State
    requires i < |s.insts| && s.insts[i].script != []
  {
    var r := s.insts[i];
    var t := PutInst(s, i, Perform(r));
    match r.script[0]
    case Admit(d, _) => Deliver(t, d, Joined(r.cid, i))
    case Refuse(_) => t.(denials := s.denials + [r.cid])
    case Send(d, m) => Deliver(t, d, m)
    case ShowRoster(d) => if r.members == map[] then t.(fault := EmptyRoster(i)) else Deliver(t, d, Notice)
    case Drop(_) => t
    case Record(_) => t
  }

  function Apply(s: State, a: Action): State {
    match a
    case Lose(d) => Put(s, d, At(s, d).(gone := true))
    case Issue(d, cmd, lost) =>
      var (x, out) := Obey(At(s, d), d, cmd, lost);
      Dispatch(Put(s, d, x), d, out)
    case GetFromMaster(d, lost) =>
      var x := At(s, d);
      if x.fromMaster == [] then s
      else Put(s, d, HearMaster(x.(fromMaster := x.fromMaster[1..]), x.fromMaster[0], lost))
    case GetFromChat(d, lost) =>
      var x := At(s, d);
      if x.fromChat == [] then s
      else Put(s, d, HearChat(x.(fromChat := x.fromChat[1..]), d, x.fromChat[0], lost))
    case ExitProcedure(d) =>
      var (x, out) := Unwind(At(s, d), d);
      Dispatch(Put(s, d, x), d, out)
    case MasterTake(found) => if s.masterQ == [] then s else MasterTakes(s, found)
    case MasterHear => if s.denials == [] then s else MasterHears(s)
    case MasterSend => if s.todo.Reply? || s.todo.Forward? then MasterSends(s) else s
    case ChatTake(i, order) =>
      if i >= |s.insts| || s.insts[i].queue == [] then s else PutInst(s, i, Take(s.insts[i], order))
    case ChatListen(i, order) =>
      if i >= |s.insts| || s.insts[i].inbox == [] then s else PutInst(s, i, Listen(s.insts[i], order))
    case ChatStep(i) =>
      if i >= |s.insts| || s.insts[i].script == [] then s else ChatSteps(s, i)
  }

  /** The state after a history of actions, and which histories can happen. */
  function After(h: seq<Action>): State {
    if h == [] then INIT else Apply(After(h[..|h| - 1]), h[|h| - 1])
  }

  ghost predicate Possible(h: seq<Action>) {
    h == [] || (Possible(h[..|h| - 1]) && Enabled(After(h[..|h| - 1]), h[|h| - 1]))
  }

  /** One more action at the end of a history. */
  lemma Then(h: seq<Action>, a: Action)
    requires Possible(h) && Enabled(After(h), a)
    ensures Possible(h + [a]) && After(h + [a]) == Apply(After(h), a)
  {
    assert (h + [a])[..|h|] == h;
  }
}
