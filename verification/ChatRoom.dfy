/** One chat channel goroutine.  Handling a message is a script of operations,
    executed one at a time, so that a doppelganger can act between two sends of
    the same broadcast.  Go iterates over a map in an arbitrary order: `order`. */
module ChatRoom {
  import opened Options
  import opened Wire

  const MAX_MEMBERS: nat := 6

  datatype Op =
    | Admit(d: DopId, user: int)    // send Joined, then add to memberList
    | Refuse(d: DopId)              // tell the channel master that the join was denied
    | Send(d: DopId, m: FromChat)
    | ShowRoster(d: DopId)          // tellWhoIsOnChannel
    | Drop(d: DopId)                // delete from memberList
    | Record(line: Speech)          // append to the conversation log

  /** Whom operation op of a chat channel is sent to, if to anyone. */
  function Addressee(op: Op): Option<DopId> {
    match op
    case Admit(d, _) => Some(d)
    case Send(d, _) => Some(d)
    case ShowRoster(d) => Some(d)
    case _ => None
  }

  /** What one member heard of the conversation: its first line in the log and the lines. */
  datatype Stretch = Stretch(d: DopId, from: nat, lines: seq<Speech>)

  datatype Inst = Inst(
    cid: ChatId,
    queue: seq<ToChat>,             // incomingFromChannelMaster
    inbox: seq<Speech>,             // incomingFromDoppelganger
    script: seq<Op>,                // what is left of the message being handled
    members: map<DopId, int>,       // memberList: doppelganger ID to user ID
    closed: bool,                   // both input channels closed, goroutine returned
    tickets: multiset<DopId>,       // history: joins accepted less exits forwarded
    log: seq<Speech>,               // the conversation log's user messages
    present: map<DopId, Stretch>,   // history: what each member has been sent so far
    past: seq<Stretch>)             // history: what former members had been sent

  /** `order` runs through the elements of `ids`, each once. */
  ghost predicate Lists(order: seq<DopId>, ids: set<DopId>) {
    && (forall k :: 0 <= k < |order| ==> order[k] in ids)
    && (forall d :: d in ids ==> d in order)
    && (forall j, k :: 0 <= j < k < |order| ==> order[j] != order[k])
  }

  /** There is always such an order. */
  lemma OrderOf(ids: set<DopId>) returns (order: seq<DopId>)
    ensures Lists(order, ids)
  {
    if ids == {} {
      order := [];
    } else {
      var d :| d in ids;
      var rest := OrderOf(ids - {d});
      order := [d] + rest;
      OneMoreInOrder(ids, d, rest);
    }
  }

  lemma OneMoreInOrder(ids: set<DopId>, d: DopId, rest: seq<DopId>)
    requires d in ids && Lists(rest, ids - {d})
    ensures Lists([d] + rest, ids)
  {
    var order := [d] + rest;
    forall k | 0 <= k < |order| ensures order[k] in ids && (k > 0 ==> order[k] == rest[k - 1] != d) {
      if k > 0 { assert rest[k - 1] in ids - {d}; }
    }
    forall e | e in ids ensures e in order {
      if e != d { assert e in rest; }
    }
  }

  function Broadcast(order: seq<DopId>, m: FromChat): (ops: seq<Op>)
    ensures |ops| == |order|
    ensures forall k :: 0 <= k < |order| ==> ops[k] == Send(order[k], m)
  {
    if order == [] then [] else [Send(order[0], m)] + Broadcast(order[1..], m)
  }

  /** Tell every listed member of another user that someone joined. */
  function Announce(order: seq<DopId>, members: map<DopId, int>, user: int): (ops: seq<Op>)
    ensures forall op :: op in ops ==> op.Send? && op.m == Notice && op.d in order && op.d in members
  {
    if order == [] then []
    else
      (if order[0] in members && members[order[0]] != user then [Send(order[0], Notice)] else [])
      + Announce(order[1..], members, user)
  }

  function Accept(members: map<DopId, int>, d: DopId, user: int, order: seq<DopId>): seq<Op> {
    [Admit(d, user), ShowRoster(d)] + Announce(order, members[d := user], user)
  }

  /** The members a broadcast triggered by `m` runs through. */
  function Audience(members: map<DopId, int>, m: ToChat): set<DopId> {
    if m.Enter? then members.Keys + {m.d} else members.Keys
  }

  /** processMessageFromChannelMaster */
  function Script(members: map<DopId, int>, m: ToChat, order: seq<DopId>): seq<Op> {
    match m
    case Enter(d, user) =>
      if |members| >= MAX_MEMBERS then [Refuse(d), Send(d, Denied)]
      else Accept(members, d, user, order)
    case Roster(d) => [ShowRoster(d)]
    case Leave(d) => Broadcast(order, Left(d)) + [Drop(d)]
    case Shutdown => []
  }

  /** distributeMessageToEveryoneInChatChannel, and the log line after it */
  function SpeechScript(line: Speech, order: seq<DopId>): seq<Op> {
    Broadcast(order, Said(line)) + [Record(line)]
  }

  /** A chat channel goroutine as launched: its first message is a parameter, not queued. */
  function Launch(c: ChatId, d: DopId, user: int): Inst {
    Inst(c, [], [], Accept(map[], d, user, [d]), map[], false, multiset{}, [], map[], [])
  }

  /** Receive from the channel master. */
  function Take(r: Inst, order: seq<DopId>): Inst
    requires r.queue != []
  {
    r.(queue := r.queue[1..],
       script := Script(r.members, r.queue[0], order),
       closed := r.queue[0].Shutdown?)
  }

  /** Receive from a member. */
  function Listen(r: Inst, order: seq<DopId>): Inst
    requires r.inbox != []
  {
    r.(inbox := r.inbox[1..], script := SpeechScript(r.inbox[0], order))
  }

  /** What the next operation does to the goroutine's own state. */
  function Perform(r: Inst): Inst
    requires r.script != []
  {
    var q := r.(script := r.script[1..]);
    match r.script[0]
    case Admit(d, user) =>
      q.(members := r.members[d := user],
         tickets := r.tickets + multiset{d},
         present := if d in r.members then r.present else r.present[d := Stretch(d, |r.log|, [])])
    case Refuse(_) => q
    case Send(d, m) =>
      if m.Said? && d in r.present
      then q.(present := r.present[d := r.present[d].(lines := r.present[d].lines + [m.line])])
      else q
    case ShowRoster(_) => q
    case Drop(d) =>
      q.(members := r.members - {d},
         present := r.present - {d},
         past := if d in r.present then r.past + [r.present[d]] else r.past)
    case Record(line) => q.(log := r.log + [line])
  }
}
