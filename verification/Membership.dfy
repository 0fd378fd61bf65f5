/** The books of the channel master balance in every run, whatever the users type. */
module Membership {
  import opened Options
  import opened Wire
  import opened Client
  import opened ChatRoom
  import opened Network

  // ------------------------------------------------------------------ counting

  /** Joins waiting in a chat channel's queue. */
  function QueuedJoins(q: seq<ToChat>): nat {
    if q == [] then 0 else (if q[0].Enter? then 1 else 0) + QueuedJoins(q[1..])
  }

  lemma {:induction false} QueuedJoinsAppend(q: seq<ToChat>, m: ToChat)
    ensures QueuedJoins(q + [m]) == QueuedJoins(q) + (if m.Enter? then 1 else 0)
  {
    if q == [] {
      assert q + [m] == [m];
    } else {
      assert (q + [m])[1..] == q[1..] + [m];
      QueuedJoinsAppend(q[1..], m);
    }
  }

  /** A join taken off the queue and not yet decided. */
  function OpenJoin(script: seq<Op>): nat {
    if script != [] && (script[0].Admit? || script[0].Refuse?) then 1 else 0
  }

  /** A join the channel master has counted and not yet sent. */
  function JoinInHand(todo: Todo, c: ChatId): nat {
    if todo.Forward? && todo.c == c && todo.m.Enter? then 1 else 0
  }

  function Bit(b: bool): nat { if b then 1 else 0 }

  /** Exits of d from c that are on their way to the instance. */
  function UnderWay(s: State, d: DopId, c: ChatId): nat {
    multiset(s.masterQ)[Exit(c, d)] + Bit(s.todo == Forward(c, Leave(d)))
  }

  /** What doppelganger d may still turn into an exit from registered channel c. */
  function Claims(s: State, d: DopId, c: ChatId): nat
    requires c in s.reg
  {
    Bit(At(s, d).id == c)
    + multiset(At(s, d).fromChat)[Joined(c, s.reg[c].inst)]
    + UnderWay(s, d, c)
  }

  lemma MultisetTail<T>(q: seq<T>)
    requires q != []
    ensures multiset(q) == multiset{q[0]} + multiset(q[1..])
  {
    assert q == [q[0]] + q[1..];
  }

  // ------------------------------------------------------------------ the invariant

  predicate Registered(s: State, i: InstId) {
    i < |s.insts| && s.insts[i].cid in s.reg && s.reg[s.insts[i].cid].inst == i
  }

  function Joins(r: Inst): nat { QueuedJoins(r.queue) + OpenJoin(r.script) }

  /** Tickets of d at the registered instance of chat channel c. */
  function Tickets(s: State, d: DopId, c: ChatId): nat {
    if c in s.reg && s.reg[c].inst < |s.insts| then s.insts[s.reg[c].inst].tickets[d] else 0
  }

  /** memberCount is exactly: joins on their way to the instance or undecided there,
      denials on their way back, and joins accepted less exits forwarded. */
  ghost predicate EntryOk(s: State, c: ChatId)
    requires c in s.reg
  {
    var e := s.reg[c];
    && 0 < c
    && e.inst < |s.insts|
    && s.insts[e.inst].cid == c
    && e.count == Joins(s.insts[e.inst]) + JoinInHand(s.todo, c) + multiset(s.denials)[c] + |s.insts[e.inst].tickets|
    && (e.count == 0 <==> s.todo == Forward(c, Shutdown))
  }

  /** One chat channel goroutine, knowing whether the channel master still lists it. */
  ghost predicate RoomOk(r: Inst, registered: bool) {
    && 0 < r.cid
    && (forall k :: 0 <= k < |r.queue| && r.queue[k].Shutdown? ==> k == |r.queue| - 1)
    && (forall k :: 0 < k < |r.script| ==> !r.script[k].Admit? && !r.script[k].Refuse?)
    && (forall k :: 0 <= k < |r.script| && r.script[k].Send? ==> !r.script[k].m.Joined?)
    && (registered ==> !r.closed && Shutdown !in r.queue)
    && (!registered ==>
          Joins(r) == 0 && r.tickets == multiset{}
          && (r.closed || (r.queue != [] && r.queue[|r.queue| - 1] == Shutdown)))
    && (r.closed ==> r.queue == [] && r.script == [] && r.members == map[])
    && (forall d :: d in r.members ==> d in r.tickets || Leave(d) in r.queue || Drop(d) in r.script)
  }

  ghost predicate DopOk(s: State, d: DopId) {
    var x := At(s, d);
    && -1 <= x.id
    && (0 < x.id ==> x.id in s.reg && x.link == Some(s.reg[x.id].inst))
    && (forall k :: 0 <= k < |x.fromChat| && x.fromChat[k].Joined? ==>
          x.fromChat[k].c in s.reg && s.reg[x.fromChat[k].c].inst == x.fromChat[k].inst)
    && (forall c :: c in s.reg ==> Claims(s, d, c) <= Tickets(s, d, c))
  }

  ghost predicate MasterOk(s: State) {
    && (s.todo.Forward? ==> s.todo.c in s.reg)
    && (s.todo.Halted? ==> s.todo.c == -1)
    && (forall k :: 0 <= k < |s.masterQ| && s.masterQ[k].Exit? ==>
          s.masterQ[k].c == -1 || s.masterQ[k].c in s.reg)
    && (forall k :: 0 <= k < |s.denials| ==> s.denials[k] in s.reg)
  }

  ghost predicate EntriesOk(s: State) { forall c :: c in s.reg ==> EntryOk(s, c) }

  ghost predicate RoomsOk(s: State) {
    forall i :: 0 <= i < |s.insts| ==> RoomOk(s.insts[i], Registered(s, i))
  }

  ghost predicate DopsOk(s: State) { forall d: DopId :: DopOk(s, d) }

  ghost predicate Books(s: State) {
    MasterOk(s) && EntriesOk(s) && RoomsOk(s) && DopsOk(s)
  }

  // ------------------------------------------------------------------ preservation

  /** The step of a doppelganger keeps the books when it asserts nothing new: what it
      now claims of each channel is bounded by what it claimed before. */
  lemma BooksDop(s: State, t: State, d: DopId)
    requires Books(s)
    requires t.insts == s.insts && t.reg == s.reg && t.denials == s.denials
    requires t.todo == s.todo || (s.todo.Reply? && t.todo == Idle)
    requires t.dops == s.dops[d := At(t, d)]
    requires MasterOk(t)
    requires forall e: DopId, c :: e != d && c in s.reg ==>
               multiset(t.masterQ)[Exit(c, e)] == multiset(s.masterQ)[Exit(c, e)]
    requires DopOk(t, d)
    ensures Books(t)
  {
    assert EntriesOk(t) by {
      forall c | c in t.reg ensures EntryOk(t, c) { assert EntryOk(s, c); }
    }
    assert RoomsOk(t) by {
      forall i | 0 <= i < |t.insts| ensures RoomOk(t.insts[i], Registered(t, i)) {
        assert RoomOk(s.insts[i], Registered(s, i));
      }
    }
    assert DopsOk(t) by {
      forall e: DopId ensures DopOk(t, e) {
        assert DopOk(s, e);
        if e != d {
          assert At(t, e) == At(s, e);
          forall c | c in t.reg ensures Claims(t, e, c) <= Tickets(t, e, c) {
            assert Claims(s, e, c) <= Tickets(s, e, c);
          }
        }
      }
    }
  }

  lemma BooksLose(s: State, d: DopId)
    requires Books(s) && Enabled(s, Lose(d))
    ensures Books(Apply(s, Lose(d)))
  {
    var t := Apply(s, Lose(d));
    assert DopOk(s, d);
    forall c | c in t.reg ensures Claims(t, d, c) <= Tickets(t, d, c) {
      assert Claims(s, d, c) <= Tickets(s, d, c);
    }
    BooksDop(s, t, d);
  }

  lemma BooksGetFromMaster(s: State, d: DopId, lost: bool)
    requires Books(s) && Enabled(s, GetFromMaster(d, lost))
    ensures Books(Apply(s, GetFromMaster(d, lost)))
  {
    var t := Apply(s, GetFromMaster(d, lost));
    assert DopOk(s, d);
    forall c | c in t.reg ensures Claims(t, d, c) <= Tickets(t, d, c) {
      assert Claims(s, d, c) <= Tickets(s, d, c);
      assert EntryOk(s, c);
    }
    BooksDop(s, t, d);
  }

  lemma BooksGetFromChat(s: State, d: DopId, lost: bool)
    requires Books(s) && Enabled(s, GetFromChat(d, lost))
    ensures Books(Apply(s, GetFromChat(d, lost)))
  {
    DopGetFromChat(s, d, lost);
    BooksDop(s, Apply(s, GetFromChat(d, lost)), d);
  }

  lemma DopGetFromChat(s: State, d: DopId, lost: bool)
    requires Books(s) && Enabled(s, GetFromChat(d, lost))
    ensures DopOk(Apply(s, GetFromChat(d, lost)), d)
  {
    var t := Apply(s, GetFromChat(d, lost));
    assert DopOk(s, d);
    assert At(t, d).fromChat == At(s, d).fromChat[1..];
    forall c | c in t.reg ensures Claims(t, d, c) <= Tickets(t, d, c) {
      ClaimsGetFromChat(s, d, lost, c);
    }
  }

  /** The Joined message becomes the id; nothing else adds to the claims. */
  lemma ClaimsGetFromChat(s: State, d: DopId, lost: bool, c: ChatId)
    requires Books(s) && Enabled(s, GetFromChat(d, lost)) && c in s.reg
    ensures var t := Apply(s, GetFromChat(d, lost));
      c in t.reg && Claims(t, d, c) <= Tickets(t, d, c)
  {
    assert DopOk(s, d);
    assert Claims(s, d, c) <= Tickets(s, d, c);
    assert EntryOk(s, c);
    HearingCounts(At(s, d), d, lost, c, s.reg[c].inst);
  }

  lemma HearingCounts(x: Dop, me: DopId, lost: bool, c: ChatId, i: InstId)
    requires x.fromChat != [] && c != 0
    requires x.fromChat[0].Joined? && x.fromChat[0].c == c ==> x.fromChat[0].inst == i
    ensures var q := x.fromChat;
      var y := HearChat(x.(fromChat := q[1..]), me, q[0], lost);
      && y.fromChat == q[1..]
      && Bit(y.id == c) + multiset(q[1..])[Joined(c, i)] <= Bit(x.id == c) + multiset(q)[Joined(c, i)]
  {
    MultisetTail(x.fromChat);
  }

  lemma ExitsGrow(q: seq<ToMaster>, m: ToMaster)
    ensures forall e: DopId, c :: multiset(q + [m])[Exit(c, e)] == multiset(q)[Exit(c, e)] + Bit(m == Exit(c, e))
  {
    assert multiset(q + [m]) == multiset(q) + multiset{m};
  }

  /** Sending on the way to the channel master. */
  lemma BooksRequest(s: State, t: State, d: DopId, out: Out)
    requires Books(s)
    requires out.Nothing? || (out.ToTheMaster? && (out.m.Join? || out.m.d == d))
    requires t == Dispatch(Put(s, d, At(t, d)), d, out)
    requires out.ToTheMaster? && out.m.Exit? ==> out.m.c == At(s, d).id != 0
    requires At(t, d).fromChat == At(s, d).fromChat && At(t, d).link == At(s, d).link
    requires At(t, d).id == At(s, d).id || (At(t, d).id <= 0 && -1 <= At(t, d).id)
    requires out.ToTheMaster? && out.m.Exit? ==> At(t, d).id == 0
    ensures Books(t)
  {
    assert DopOk(s, d);
    if out.ToTheMaster? { ExitsGrow(s.masterQ, out.m); }
    DopRequest(s, t, d, out);
    BooksDop(s, t, d);
  }

  lemma DopRequest(s: State, t: State, d: DopId, out: Out)
    requires Books(s)
    requires out.Nothing? || (out.ToTheMaster? && (out.m.Join? || out.m.d == d))
    requires t == Dispatch(Put(s, d, At(t, d)), d, out)
    requires out.ToTheMaster? && out.m.Exit? ==> out.m.c == At(s, d).id && At(t, d).id == 0
    requires At(t, d).fromChat == At(s, d).fromChat && At(t, d).link == At(s, d).link
    requires At(t, d).id == At(s, d).id || (At(t, d).id <= 0 && -1 <= At(t, d).id)
    ensures DopOk(t, d)
  {
    assert DopOk(s, d);
    forall c | c in t.reg ensures Claims(t, d, c) <= Tickets(t, d, c) {
      assert EntryOk(s, c);
      assert Claims(s, d, c) <= Tickets(s, d, c);
      ClaimsRequest(s, t, d, out, c);
    }
  }

  /** The id becomes the exit; nothing else adds to the claims. */
  lemma ClaimsRequest(s: State, t: State, d: DopId, out: Out, c: ChatId)
    requires c in s.reg && 0 < c && Claims(s, d, c) <= Tickets(s, d, c)
    requires out.Nothing? || (out.ToTheMaster? && (out.m.Join? || out.m.d == d))
    requires t == Dispatch(Put(s, d, At(t, d)), d, out)
    requires At(t, d).fromChat == At(s, d).fromChat
    requires At(t, d).id == At(s, d).id || At(t, d).id <= 0
    requires out.ToTheMaster? && out.m.Exit? ==> out.m.c == At(s, d).id && At(t, d).id == 0
    ensures Claims(t, d, c) <= Tickets(t, d, c)
  {
    if out.ToTheMaster? { ExitsGrow(s.masterQ, out.m); }
  }

  /** Doppelgangers stay in order when no channel is struck off and nobody loses a
      ticket without an exit under way disappearing as well. */
  lemma DopsKeep(s: State, t: State)
    requires DopsOk(s)
    requires t.dops == s.dops
    requires forall c :: c in s.reg ==> c in t.reg && t.reg[c].inst == s.reg[c].inst
    requires forall c, e: DopId :: c in s.reg ==>
               UnderWay(t, e, c) + Tickets(s, e, c) <= UnderWay(s, e, c) + Tickets(t, e, c)
    requires forall c, e: DopId :: c in t.reg && c !in s.reg ==> c != -1 && c != 0 && UnderWay(t, e, c) == 0
    ensures DopsOk(t)
  {
    forall e: DopId ensures DopOk(t, e) {
      assert DopOk(s, e);
      assert At(t, e) == At(s, e);
      forall c | c in t.reg ensures Claims(t, e, c) <= Tickets(t, e, c) {
        if c in s.reg { assert Claims(s, e, c) <= Tickets(s, e, c); }
      }
    }
  }

  /** What members have said to a goroutine is not in the books. */
  lemma BooksInbox(s: State, t: State)
    requires Books(s)
    requires t == s.(insts := t.insts, fault := t.fault) && |t.insts| == |s.insts|
    requires forall j :: 0 <= j < |s.insts| ==> t.insts[j] == s.insts[j].(inbox := t.insts[j].inbox)
    ensures Books(t)
  {
    assert EntriesOk(t) by {
      forall c | c in t.reg ensures EntryOk(t, c) { assert EntryOk(s, c); }
    }
    assert RoomsOk(t) by {
      forall j | 0 <= j < |t.insts| ensures RoomOk(t.insts[j], Registered(t, j)) {
        assert RoomOk(s.insts[j], Registered(s, j));
      }
    }
    DopsKeep(s, t);
  }

  lemma BooksSpeak(s: State, d: DopId, i: InstId, line: Speech)
    requires Books(s)
    ensures Books(Dispatch(s, d, Speak(i, line)))
  {
    BooksInbox(s, Dispatch(s, d, Speak(i, line)));
  }

  lemma BooksIssue(s: State, d: DopId, cmd: Command, lost: bool)
    requires Books(s) && Enabled(s, Issue(d, cmd, lost))
    ensures Books(Apply(s, Issue(d, cmd, lost)))
  {
    var (x, out) := Obey(At(s, d), d, cmd, lost);
    assert DopOk(s, d);
    if out.Speak? {
      BooksRequest(s, Put(s, d, x), d, Nothing);
      BooksSpeak(Put(s, d, x), d, out.inst, out.line);
    } else {
      BooksRequest(s, Dispatch(Put(s, d, x), d, out), d, out);
    }
  }

  lemma BooksExitProcedure(s: State, d: DopId)
    requires Books(s) && Enabled(s, ExitProcedure(d))
    ensures Books(Apply(s, ExitProcedure(d)))
  {
    var (x, out) := Unwind(At(s, d), d);
    assert DopOk(s, d);
    BooksRequest(s, Dispatch(Put(s, d, x), d, out), d, out);
  }

  /** A message comes off the channel master's queue: nobody's exits under way grow. */
  lemma ExitsUnderWay(s: State, t: State)
    requires s.masterQ != [] && t.masterQ == s.masterQ[1..]
    requires s.todo == Idle
    requires t.todo.Forward? && t.todo.m.Leave? ==> s.masterQ[0] == Exit(t.todo.c, t.todo.m.d)
    ensures forall c, e: DopId :: UnderWay(t, e, c) <= UnderWay(s, e, c)
  {
    MultisetTail(s.masterQ);
  }

  lemma BooksLaunch(s: State, found: nat)
    requires Books(s) && Enabled(s, MasterTake(found))
    requires s.masterQ[0].Join? && s.masterQ[0].name != "" && found != 0 && found !in s.reg
    ensures Books(Apply(s, MasterTake(found)))
  {
    var t := Apply(s, MasterTake(found));
    EntriesLaunch(s, found);
    RoomsLaunch(s, found);
    assert DopsOk(t) by {
      ExitsUnderWay(s, t);
      DopsKeep(s, t);
    }
  }

  lemma EntriesLaunch(s: State, found: nat)
    requires Books(s) && Enabled(s, MasterTake(found))
    requires s.masterQ[0].Join? && s.masterQ[0].name != "" && found != 0 && found !in s.reg
    ensures EntriesOk(Apply(s, MasterTake(found)))
  {
    var t := Apply(s, MasterTake(found));
    assert found !in s.denials;
    forall c | c in t.reg ensures EntryOk(t, c) {
      if c != found { assert EntryOk(s, c); }
    }
  }

  lemma RoomsLaunch(s: State, found: nat)
    requires Books(s) && Enabled(s, MasterTake(found))
    requires s.masterQ[0].Join? && s.masterQ[0].name != "" && found != 0 && found !in s.reg
    ensures RoomsOk(Apply(s, MasterTake(found)))
  {
    var t := Apply(s, MasterTake(found));
    forall i | 0 <= i < |t.insts| ensures RoomOk(t.insts[i], Registered(t, i)) {
      if i < |s.insts| {
        assert RoomOk(s.insts[i], Registered(s, i));
        assert t.insts[i] == s.insts[i];
      }
    }
  }

  lemma BooksMasterTake(s: State, found: nat)
    requires Books(s) && Enabled(s, MasterTake(found))
    ensures Books(Apply(s, MasterTake(found)))
  {
    var m := s.masterQ[0];
    if m.Join? && m.name != "" && found != 0 && found !in s.reg {
      BooksLaunch(s, found);
    } else {
      BooksAccount(s, Apply(s, MasterTake(found)), if m.Join? then found else 0);
    }
  }

  /** The channel master takes a message and at most counts one join for channel c. */
  lemma BooksAccount(s: State, t: State, c: ChatId)
    requires Books(s) && s.todo == Idle && s.masterQ != []
    requires t.dops == s.dops && t.insts == s.insts && t.denials == s.denials && t.masterQ == s.masterQ[1..]
    requires
      || (t.reg == s.reg && !(t.todo.Forward? && (t.todo.m.Enter? || t.todo.m.Shutdown?)))
      || (c in s.reg && t.reg == s.reg[c := s.reg[c].(count := s.reg[c].count + 1)]
          && t.todo.Forward? && t.todo.c == c && t.todo.m.Enter?)
    requires t.todo.Forward? ==> t.todo.c in s.reg
    requires t.todo.Forward? && t.todo.m.Leave? ==> s.masterQ[0] == Exit(t.todo.c, t.todo.m.d)
    requires t.todo.Halted? ==> t.todo.c == -1
    ensures Books(t)
  {
    assert EntriesOk(t) by {
      forall b | b in t.reg ensures EntryOk(t, b) { assert EntryOk(s, b); }
    }
    assert RoomsOk(t) by {
      forall i | 0 <= i < |t.insts| ensures RoomOk(t.insts[i], Registered(t, i)) {
        assert RoomOk(s.insts[i], Registered(s, i));
      }
    }
    ExitsUnderWay(s, t);
    DopsKeep(s, t);
  }

  /** Registered goroutine i changes, and with it the count and the channel master's
      next send; every other account stays as it is. */
  lemma BooksOne(s: State, t: State, i: InstId)
    requires EntriesOk(s) && RoomsOk(s) && Registered(s, i)
    requires |t.insts| == |s.insts| && forall j :: 0 <= j < |s.insts| && j != i ==> t.insts[j] == s.insts[j]
    requires t.insts[i].cid == s.insts[i].cid
    requires var c := s.insts[i].cid;
      && c in t.reg && t.reg == s.reg[c := Entry(t.reg[c].count, i)] && EntryOk(t, c)
      && (forall b :: b in s.reg && b != c ==>
            && JoinInHand(t.todo, b) == JoinInHand(s.todo, b)
            && multiset(t.denials)[b] == multiset(s.denials)[b]
            && (t.todo == Forward(b, Shutdown) <==> s.todo == Forward(b, Shutdown)))
    requires RoomOk(t.insts[i], true)
    ensures EntriesOk(t) && RoomsOk(t)
  {
    forall c | c in t.reg ensures EntryOk(t, c) { assert EntryOk(s, c); }
    forall j | 0 <= j < |t.insts| ensures RoomOk(t.insts[j], Registered(t, j)) {
      assert RoomOk(s.insts[j], Registered(s, j));
    }
  }

  lemma BooksMasterHear(s: State)
    requires Books(s) && Enabled(s, MasterHear)
    ensures Books(Apply(s, MasterHear))
  {
    var t := Apply(s, MasterHear);
    var c := s.denials[0];
    assert c in s.reg;
    assert EntryOk(s, c);
    MultisetTail(s.denials);
    assert RoomOk(s.insts[s.reg[c].inst], true);
    BooksOne(s, t, s.reg[c].inst);
    DopsKeep(s, t);
  }

  lemma BooksReply(s: State)
    requires Books(s) && Enabled(s, MasterSend) && s.todo.Reply?
    ensures Books(Apply(s, MasterSend))
  {
    var t := Apply(s, MasterSend);
    var d := s.todo.d;
    if !At(s, d).closed {
      assert DopOk(t, d) by {
        assert DopOk(s, d);
        forall c | c in t.reg ensures Claims(t, d, c) <= Tickets(t, d, c) {
          assert Claims(s, d, c) <= Tickets(s, d, c);
        }
      }
      BooksDop(s, t, d);
    } else {
      BooksInbox(s, t);
    }
  }

  /** A message joins the goroutine's queue; Shutdown comes when nothing is left to settle. */
  lemma RoomPush(r: Inst, m: ToChat)
    requires RoomOk(r, true)
    requires m.Shutdown? ==> Joins(r) == 0 && r.tickets == multiset{}
    ensures var q := r.(queue := r.queue + [m], tickets := if m.Leave? then r.tickets - multiset{m.d} else r.tickets);
      && RoomOk(q, !m.Shutdown?)
      && Joins(q) == Joins(r) + (if m.Enter? then 1 else 0)
  {
    QueuedJoinsAppend(r.queue, m);
    var q := r.queue + [m];
    assert forall k :: 0 <= k < |r.queue| ==> q[k] == r.queue[k];
    assert forall d :: Leave(d) in r.queue ==> Leave(d) in q;
    assert m in q;
  }

  /** A join or a /who goes out to the chat channel. */
  lemma BooksPass(s: State)
    requires Books(s) && Enabled(s, MasterSend) && s.todo.Forward? && (s.todo.m.Enter? || s.todo.m.Roster?)
    ensures Books(Apply(s, MasterSend))
  {
    var t := Apply(s, MasterSend);
    var c := s.todo.c;
    var i := s.reg[c].inst;
    assert EntryOk(s, c);
    assert RoomOk(s.insts[i], true);
    RoomPush(s.insts[i], s.todo.m);
    BooksOne(s, t, i);
    DopsKeep(s, t);
  }

  /** An exit goes out: one ticket less, one member less. */
  lemma BooksForwardExit(s: State)
    requires Books(s) && Enabled(s, MasterSend) && s.todo.Forward? && s.todo.m.Leave?
    ensures Books(Apply(s, MasterSend))
  {
    var t := Apply(s, MasterSend);
    var c, d := s.todo.c, s.todo.m.d;
    var i := s.reg[c].inst;
    assert EntryOk(s, c);
    assert RoomOk(s.insts[i], true);
    RoomPush(s.insts[i], s.todo.m);
    ExitIsCovered(s);
    BooksOne(s, t, i);
    DopsForwardExit(s, t, i);
  }

  lemma ExitIsCovered(s: State)
    requires Books(s) && s.todo.Forward? && s.todo.m.Leave?
    ensures 0 < Tickets(s, s.todo.m.d, s.todo.c)
  {
    assert DopOk(s, s.todo.m.d);
    assert Claims(s, s.todo.m.d, s.todo.c) <= Tickets(s, s.todo.m.d, s.todo.c);
  }

  lemma DopsForwardExit(s: State, t: State, i: InstId)
    requires EntriesOk(s) && DopsOk(s) && s.todo.Forward? && s.todo.m.Leave?
    requires Registered(s, i) && s.todo.c == s.insts[i].cid
    requires t.dops == s.dops && t.masterQ == s.masterQ && !(t.todo.Forward? && t.todo.m.Leave?)
    requires s.todo.c in t.reg && t.reg == s.reg[s.todo.c := Entry(t.reg[s.todo.c].count, i)]
    requires |t.insts| == |s.insts|
    requires forall j :: 0 <= j < |s.insts| ==>
               t.insts[j].tickets
               == if j == i then s.insts[j].tickets - multiset{s.todo.m.d} else s.insts[j].tickets
    ensures DopsOk(t)
  {
    forall c, e: DopId | c in s.reg
      ensures UnderWay(t, e, c) + Tickets(s, e, c) <= UnderWay(s, e, c) + Tickets(t, e, c)
    {
      assert EntryOk(s, c);
    }
    DopsKeep(s, t);
  }

  /** Shutdown goes out and the channel is struck off: nothing was owed to it. */
  lemma BooksStrikeOff(s: State)
    requires Books(s) && Enabled(s, MasterSend) && s.todo.Forward? && s.todo.m.Shutdown?
    ensures Books(Apply(s, MasterSend))
  {
    var t := Apply(s, MasterSend);
    var c := s.todo.c;
    var i := s.reg[c].inst;
    assert EntryOk(s, c);
    assert RoomOk(s.insts[i], true);
    RoomPush(s.insts[i], Shutdown);
    assert EntriesOk(t) by {
      forall b | b in t.reg ensures EntryOk(t, b) { assert EntryOk(s, b); }
    }
    assert RoomsOk(t) by {
      forall j | 0 <= j < |t.insts| ensures RoomOk(t.insts[j], Registered(t, j)) {
        assert RoomOk(s.insts[j], Registered(s, j));
      }
    }
    DopsStrikeOff(s, t);
  }

  lemma DopsStrikeOff(s: State, t: State)
    requires Books(s) && s.todo.Forward? && s.todo.m.Shutdown?
    requires t.dops == s.dops && t.masterQ == s.masterQ && t.denials == s.denials && t.todo == Idle
    requires t.reg == s.reg - {s.todo.c}
    requires forall b, e: DopId :: b in t.reg ==> Tickets(t, e, b) == Tickets(s, e, b)
    ensures DopsOk(t) && MasterOk(t)
  {
    var c := s.todo.c;
    assert EntryOk(s, c);
    forall e: DopId ensures Claims(s, e, c) == 0 {
      assert DopOk(s, e);
      assert Claims(s, e, c) <= Tickets(s, e, c);
    }
    forall k | 0 <= k < |s.masterQ| && s.masterQ[k].Exit? ensures s.masterQ[k].c != c {
      assert multiset(s.masterQ)[s.masterQ[k]] > 0;
      assert Claims(s, s.masterQ[k].d, c) == 0;
    }
    forall k | 0 <= k < |s.denials| ensures s.denials[k] != c {
      assert s.denials[k] in multiset(s.denials);
    }
    forall e: DopId ensures DopOk(t, e) {
      assert DopOk(s, e) && Claims(s, e, c) == 0;
      forall k | 0 <= k < |At(s, e).fromChat| && At(s, e).fromChat[k].Joined?
        ensures At(s, e).fromChat[k].c != c
      {
        assert At(s, e).fromChat[k] in multiset(At(s, e).fromChat);
      }
      forall b | b in t.reg ensures Claims(t, e, b) <= Tickets(t, e, b) {
        assert Claims(s, e, b) <= Tickets(s, e, b);
      }
    }
  }

  // ------------------------------------------------------------------ chat channel goroutines

  /** Taking a message keeps the goroutine in order.  In particular Shutdown finds the
      member list empty: it is taken last, when no ticket, exit or removal is left. */
  lemma RoomTake(r: Inst, registered: bool, order: seq<DopId>)
    requires RoomOk(r, registered) && !r.closed && r.script == [] && r.queue != []
    ensures r.queue[0].Shutdown? ==> r.members == map[]
    ensures RoomOk(Take(r, order), registered)
    ensures Joins(Take(r, order)) == Joins(r)
  {
    var q := Take(r, order);
    var m := r.queue[0];
    if m.Shutdown? {
      assert !registered && |r.queue| == 1;
      assert forall d :: d !in r.members;
      assert r.members == map[];
    } else {
      ScriptBegins(r.members, m, order);
      ListTake(r, registered, order);
    }
  }

  lemma ScriptBegins(members: map<DopId, int>, m: ToChat, order: seq<DopId>)
    ensures var script := Script(members, m, order);
      && (forall k :: 0 < k < |script| ==> !script[k].Admit? && !script[k].Refuse?)
      && (forall k :: 0 <= k < |script| && script[k].Send? ==> !script[k].m.Joined?)
      && OpenJoin(script) == (if m.Enter? then 1 else 0)
  {
    if m.Enter? && |members| < MAX_MEMBERS {
      var rest := Announce(order, members[m.d := m.user], m.user);
      assert forall k :: 0 <= k < |rest| ==> rest[k] in rest;
      assert Script(members, m, order) == [Admit(m.d, m.user), ShowRoster(m.d)] + rest;
    }
  }

  lemma ListTake(r: Inst, registered: bool, order: seq<DopId>)
    requires RoomOk(r, registered) && r.script == [] && r.queue != []
    ensures var q := Take(r, order);
      forall d :: d in q.members ==> d in q.tickets || Leave(d) in q.queue || Drop(d) in q.script
  {
    var q := Take(r, order);
    forall d | d in q.members ensures d in q.tickets || Leave(d) in q.queue || Drop(d) in q.script {
      if Leave(d) in r.queue {
        var k :| 0 <= k < |r.queue| && r.queue[k] == Leave(d);
        if k == 0 {
          assert q.script[|q.script| - 1] == Drop(d);
        } else {
          assert q.queue[k - 1] == Leave(d);
        }
      }
    }
  }

  lemma RoomListen(r: Inst, registered: bool, order: seq<DopId>)
    requires RoomOk(r, registered) && !r.closed && r.script == [] && r.inbox != []
    ensures RoomOk(Listen(r, order), registered)
    ensures Joins(Listen(r, order)) == Joins(r)
  {
  }

  /** The other members' promised exits outlast one operation. */
  lemma DropsOutlast(script: seq<Op>, d: DopId)
    requires script != [] && Drop(d) in script && script[0] != Drop(d)
    ensures Drop(d) in script[1..]
  {
    assert script == [script[0]] + script[1..];
  }

  lemma RoomPerform(r: Inst, registered: bool)
    requires RoomOk(r, registered) && !r.closed && r.script != []
    requires r.script[0].Admit? ==> registered
    ensures RoomOk(Perform(r), registered)
    ensures Joins(Perform(r)) == Joins(r) - (if r.script[0].Admit? || r.script[0].Refuse? then 1 else 0)
  {
    ScriptPerform(r, registered);
    ListPerform(r, registered);
  }

  lemma ScriptPerform(r: Inst, registered: bool)
    requires RoomOk(r, registered) && r.script != []
    ensures var q := Perform(r);
      && (forall k :: 0 <= k < |q.script| ==> !q.script[k].Admit? && !q.script[k].Refuse?)
      && (forall k :: 0 <= k < |q.script| && q.script[k].Send? ==> !q.script[k].m.Joined?)
      && q.cid == r.cid && q.queue == r.queue && q.closed == r.closed
  {
    var q := Perform(r);
    assert forall k :: 0 <= k < |q.script| ==> q.script[k] == r.script[k + 1];
  }

  lemma ListPerform(r: Inst, registered: bool)
    requires RoomOk(r, registered) && !r.closed && r.script != []
    ensures var q := Perform(r);
      forall d :: d in q.members ==> d in q.tickets || Leave(d) in q.queue || Drop(d) in q.script
  {
    var q := Perform(r);
    forall d | d in q.members ensures d in q.tickets || Leave(d) in q.queue || Drop(d) in q.script {
      if d in r.members && Drop(d) in r.script { DropsOutlast(r.script, d); }
    }
  }

  /** A goroutine goes on without touching any account. */
  lemma BooksStill(s: State, t: State, i: InstId)
    requires Books(s) && i < |s.insts|
    requires |t.insts| == |s.insts| && t == s.(insts := s.insts[i := t.insts[i]])
    requires t.insts[i].cid == s.insts[i].cid && t.insts[i].tickets == s.insts[i].tickets
    requires Joins(t.insts[i]) == Joins(s.insts[i])
    requires RoomOk(t.insts[i], Registered(s, i))
    ensures Books(t)
  {
    assert EntriesOk(t) by {
      forall c | c in t.reg ensures EntryOk(t, c) { assert EntryOk(s, c); }
    }
    assert RoomsOk(t) by {
      forall j | 0 <= j < |t.insts| ensures RoomOk(t.insts[j], Registered(t, j)) {
        assert RoomOk(s.insts[j], Registered(s, j));
      }
    }
    DopsKeep(s, t);
  }

  lemma BooksChatTake(s: State, i: InstId, order: seq<DopId>)
    requires Books(s) && Enabled(s, ChatTake(i, order))
    ensures Books(Apply(s, ChatTake(i, order)))
  {
    RoomTake(s.insts[i], Registered(s, i), order);
    BooksStill(s, Apply(s, ChatTake(i, order)), i);
  }

  lemma BooksChatListen(s: State, i: InstId, order: seq<DopId>)
    requires Books(s) && Enabled(s, ChatListen(i, order))
    ensures Books(Apply(s, ChatListen(i, order)))
  {
    RoomListen(s.insts[i], Registered(s, i), order);
    BooksStill(s, Apply(s, ChatListen(i, order)), i);
  }

  /** A message other than Joined reaches a doppelganger, or fails to. */
  lemma BooksDeliver(s: State, d: DopId, m: FromChat)
    requires Books(s) && !m.Joined?
    ensures Books(Deliver(s, d, m))
  {
    var t := Deliver(s, d, m);
    if At(s, d).closed {
      BooksInbox(s, t);
    } else {
      assert DopOk(t, d) by {
        assert DopOk(s, d);
        assert At(t, d).fromChat == At(s, d).fromChat + [m];
        forall c | c in t.reg ensures Claims(t, d, c) <= Tickets(t, d, c) {
          assert Claims(s, d, c) <= Tickets(s, d, c);
        }
      }
      BooksDop(s, t, d);
    }
  }

  /** The goroutine admits d: the new ticket covers the Joined message. */
  lemma BooksAdmit(s: State, i: InstId)
    requires Books(s) && Enabled(s, ChatStep(i)) && s.insts[i].script[0].Admit?
    ensures Books(Apply(s, ChatStep(i)))
  {
    var r := s.insts[i];
    var c, d := r.cid, r.script[0].d;
    var t := PutInst(s, i, Perform(r));
    BooksTicket(s, i);
    var u := Deliver(t, d, Joined(c, i));
    if At(t, d).closed {
      BooksInbox(t, u);
    } else {
      DopAdmit(s, t, u, d, i);
      BooksDop(t, u, d);
    }
  }

  /** The goroutine's own part of it. */
  lemma BooksTicket(s: State, i: InstId)
    requires Books(s) && Enabled(s, ChatStep(i)) && s.insts[i].script[0].Admit?
    ensures Registered(s, i) && s.insts[i].cid != 0 && Books(PutInst(s, i, Perform(s.insts[i])))
  {
    var r := s.insts[i];
    assert RoomOk(r, Registered(s, i));
    RoomPerform(r, true);
    assert EntryOk(s, r.cid);
    BooksOne(s, PutInst(s, i, Perform(r)), i);
    DopsKeep(s, PutInst(s, i, Perform(r)));
  }

  lemma DopAdmit(s: State, t: State, u: State, d: DopId, i: InstId)
    requires DopsOk(s) && EntriesOk(s) && Registered(s, i) && s.insts[i].cid != 0
    requires t.dops == s.dops && t.reg == s.reg && t.masterQ == s.masterQ && t.todo == s.todo
    requires |t.insts| == |s.insts|
    requires forall j :: 0 <= j < |s.insts| ==>
               t.insts[j].tickets == s.insts[j].tickets + (if j == i then multiset{d} else multiset{})
    requires u == Put(t, d, At(t, d).(fromChat := At(t, d).fromChat + [Joined(s.insts[i].cid, i)]))
    ensures DopOk(u, d)
  {
    assert DopOk(s, d);
    assert At(t, d) == At(s, d);
    forall c | c in u.reg ensures Claims(u, d, c) <= Tickets(u, d, c) {
      assert EntryOk(s, c);
      assert Claims(s, d, c) <= Tickets(s, d, c);
      ClaimsAdmit(s, t, u, d, i, c);
    }
  }

  /** The new message is covered by the new ticket. */
  lemma ClaimsAdmit(s: State, t: State, u: State, d: DopId, i: InstId, c: ChatId)
    requires Registered(s, i) && c in s.reg && s.reg[c].inst < |s.insts| && s.insts[s.reg[c].inst].cid == c
    requires Claims(s, d, c) <= Tickets(s, d, c)
    requires t.dops == s.dops && t.reg == s.reg && t.masterQ == s.masterQ && t.todo == s.todo
    requires |t.insts| == |s.insts|
    requires forall j :: 0 <= j < |s.insts| ==>
               t.insts[j].tickets == s.insts[j].tickets + (if j == i then multiset{d} else multiset{})
    requires u == Put(t, d, At(t, d).(fromChat := At(t, d).fromChat + [Joined(s.insts[i].cid, i)]))
    ensures Claims(u, d, c) <= Tickets(u, d, c)
  {
    assert multiset(At(u, d).fromChat) == multiset(At(s, d).fromChat) + multiset{Joined(s.insts[i].cid, i)};
  }

  lemma BooksRefuse(s: State, i: InstId)
    requires Books(s) && Enabled(s, ChatStep(i)) && s.insts[i].script[0].Refuse?
    ensures Books(Apply(s, ChatStep(i)))
  {
    var r := s.insts[i];
    var t := Apply(s, ChatStep(i));
    assert RoomOk(r, Registered(s, i));
    RoomPerform(r, true);
    assert EntryOk(s, r.cid);
    assert multiset(t.denials) == multiset(s.denials) + multiset{r.cid};
    BooksOne(s, t, i);
    DopsKeep(s, t);
  }

  lemma BooksChatStep(s: State, i: InstId)
    requires Books(s) && Enabled(s, ChatStep(i))
    ensures Books(Apply(s, ChatStep(i)))
  {
    var r := s.insts[i];
    var op := r.script[0];
    if op.Admit? {
      BooksAdmit(s, i);
    } else if op.Refuse? {
      BooksRefuse(s, i);
    } else {
      BooksPerform(s, i);
      BooksTell(s, PutInst(s, i, Perform(r)), i);
    }
  }

  /** The goroutine's own part of an operation that decides no join. */
  lemma BooksPerform(s: State, i: InstId)
    requires Books(s) && Enabled(s, ChatStep(i)) && !s.insts[i].script[0].Admit? && !s.insts[i].script[0].Refuse?
    ensures Books(PutInst(s, i, Perform(s.insts[i])))
    ensures s.insts[i].script[0].Send? ==> !s.insts[i].script[0].m.Joined?
  {
    var r := s.insts[i];
    assert RoomOk(r, Registered(s, i));
    RoomPerform(r, Registered(s, i));
    PerformDecidesNothing(r);
    BooksStill(s, PutInst(s, i, Perform(r)), i);
  }

  lemma PerformDecidesNothing(r: Inst)
    requires r.script != [] && !r.script[0].Admit? && !r.script[0].Refuse?
    ensures Perform(r).cid == r.cid && Perform(r).tickets == r.tickets
  {
  }

  /** And what it sends. */
  lemma BooksTell(s: State, t: State, i: InstId)
    requires Enabled(s, ChatStep(i)) && t == PutInst(s, i, Perform(s.insts[i])) && Books(t)
    requires var op := s.insts[i].script[0];
      !op.Admit? && !op.Refuse? && (op.Send? ==> !op.m.Joined?)
    ensures Books(ChatSteps(s, i))
  {
    match s.insts[i].script[0]
    case Send(d, m) => BooksDeliver(t, d, m);
    case ShowRoster(d) =>
      if s.insts[i].members == map[] { BooksInbox(t, ChatSteps(s, i)); } else { BooksDeliver(t, d, Notice); }
    case _ =>
  }

  // ------------------------------------------------------------------ every run

  lemma BooksMasterSend(s: State)
    requires Books(s) && Enabled(s, MasterSend)
    ensures Books(Apply(s, MasterSend))
  {
    match s.todo
    case Reply(_, _) => BooksReply(s);
    case Forward(_, m) =>
      if m.Leave? { BooksForwardExit(s); } else if m.Shutdown? { BooksStrikeOff(s); } else { BooksPass(s); }
  }

  lemma BooksStep(s: State, a: Action)
    requires Books(s) && Enabled(s, a)
    ensures Books(Apply(s, a))
  {
    match a
    case Lose(d) => BooksLose(s, d);
    case Issue(d, cmd, lost) => BooksIssue(s, d, cmd, lost);
    case GetFromMaster(d, lost) => BooksGetFromMaster(s, d, lost);
    case GetFromChat(d, lost) => BooksGetFromChat(s, d, lost);
    case ExitProcedure(d) => BooksExitProcedure(s, d);
    case MasterTake(found) => BooksMasterTake(s, found);
    case MasterHear => BooksMasterHear(s);
    case MasterSend => BooksMasterSend(s);
    case ChatTake(i, order) => BooksChatTake(s, i, order);
    case ChatListen(i, order) => BooksChatListen(s, i, order);
    case ChatStep(i) => BooksChatStep(s, i);
  }

  /** The books balance after every history. */
  lemma {:induction false} BooksBalance(h: seq<Action>)
    requires Possible(h)
    ensures Books(After(h))
  {
    if h == [] {
      assert forall d: DopId :: DopOk(INIT, d);
    } else {
      BooksBalance(h[..|h| - 1]);
      BooksStep(After(h[..|h| - 1]), h[|h| - 1]);
    }
  }

  /** memberCount of a registered channel, and when it is 0: only while the channel
      master is about to send Shutdown. */
  lemma MemberCount(h: seq<Action>, c: ChatId)
    requires Possible(h) && c in After(h).reg
    ensures var s := After(h);
      var e := s.reg[c];
      && e.inst < |s.insts| && s.insts[e.inst].cid == c && !s.insts[e.inst].closed
      && e.count == QueuedJoins(s.insts[e.inst].queue) + OpenJoin(s.insts[e.inst].script) + JoinInHand(s.todo, c)
                    + multiset(s.denials)[c] + |s.insts[e.inst].tickets|
      && 0 <= e.count
      && (e.count == 0 <==> s.todo == Forward(c, Shutdown))
  {
    BooksBalance(h);
    var s := After(h);
    assert EntryOk(s, c);
    assert RoomOk(s.insts[s.reg[c].inst], Registered(s, s.reg[c].inst));
  }

  /** Whoever is listed has been admitted more often than removed. */
  lemma ListedMember(h: seq<Action>, i: InstId, d: DopId)
    requires Possible(h) && i < |After(h).insts| && d in After(h).insts[i].members
    ensures var r := After(h).insts[i];
      1 <= r.tickets[d] + multiset(r.queue)[Leave(d)] + multiset(r.script)[Drop(d)]
  {
    BooksBalance(h);
    assert RoomOk(After(h).insts[i], Registered(After(h), i));
  }

  /** A chat channel goroutine that takes Shutdown has an empty member list, so the
      complaint that it exited without one is never logged; and it was struck off. */
  lemma ShutdownFindsNobody(h: seq<Action>, i: InstId, order: seq<DopId>)
    requires Possible(h) && Enabled(After(h), ChatTake(i, order)) && After(h).insts[i].queue[0] == Shutdown
    ensures var s := After(h);
      s.insts[i].members == map[] && !Registered(s, i) && s.insts[i].queue == [Shutdown]
  {
    BooksBalance(h);
    var s := After(h);
    assert RoomOk(s.insts[i], Registered(s, i));
    RoomTake(s.insts[i], Registered(s, i), order);
  }

  /** A goroutine the channel master no longer lists owes nothing and ends with Shutdown. */
  lemma UnlistedGoroutine(h: seq<Action>, i: InstId)
    requires Possible(h) && i < |After(h).insts|
    ensures var s := After(h);
      var r := s.insts[i];
      && (Registered(s, i) ==> !r.closed && Shutdown !in r.queue)
      && (!Registered(s, i) ==>
            && r.tickets == multiset{} && QueuedJoins(r.queue) == 0
            && (r.closed || (r.queue != [] && r.queue[|r.queue| - 1] == Shutdown)))
      && (forall k :: 0 <= k < |r.queue| && r.queue[k] == Shutdown ==> k == |r.queue| - 1)
  {
    BooksBalance(h);
    assert RoomOk(After(h).insts[i], Registered(After(h), i));
  }

  /** What a doppelganger can still turn into an exit is covered by its tickets; of a
      channel that is not registered it has nothing to exit from. */
  lemma ClaimsAreCovered(h: seq<Action>, d: DopId, c: ChatId)
    requires Possible(h) && 0 < c
    ensures var s := After(h);
      if c in s.reg then
        Bit(At(s, d).id == c) + multiset(At(s, d).fromChat)[Joined(c, s.reg[c].inst)]
          + UnderWay(s, d, c) <= Tickets(s, d, c)
      else
        && At(s, d).id != c
        && (forall k :: 0 <= k < |At(s, d).fromChat| && At(s, d).fromChat[k].Joined? ==> At(s, d).fromChat[k].c != c)
        && UnderWay(s, d, c) == 0
  {
    BooksBalance(h);
    var s := After(h);
    assert DopOk(s, d);
    if c in s.reg {
      assert Claims(s, d, c) <= Tickets(s, d, c);
    } else {
      assert forall k :: 0 <= k < |s.masterQ| && s.masterQ[k].Exit? ==> s.masterQ[k].c != c;
      assert Exit(c, d) !in s.masterQ;
    }
  }

  lemma RegisteredIsPositive(s: State)
    requires EntriesOk(s)
    ensures forall c :: c in s.reg ==> 0 < c
  {
    forall c | c in s.reg ensures 0 < c { assert EntryOk(s, c); }
  }

  /** The channel master returns exactly on an exit sent while a join was pending. */
  lemma MasterHaltsExactly(h: seq<Action>, found: nat)
    requires Possible(h) && Enabled(After(h), MasterTake(found))
    ensures var s := After(h);
      Apply(s, MasterTake(found)).todo.Halted? <==> s.masterQ[0].Exit? && s.masterQ[0].c == -1
  {
    BooksBalance(h);
    var s := After(h);
    assert s.masterQ[0].Exit? && s.masterQ[0].c != -1 ==> s.masterQ[0].c in s.reg;
    RegisteredIsPositive(s);
  }

  predicate Open(s: State, i: InstId) { i < |s.insts| && !s.insts[i].closed }

  /** A doppelganger that believes itself on a channel holds the open input of the
      goroutine registered for it. */
  lemma LinkIsRegistered(h: seq<Action>, d: DopId)
    requires Possible(h) && 0 < At(After(h), d).id
    ensures var s := After(h);
      var x := At(s, d);
      x.id in s.reg && x.link == Some(s.reg[x.id].inst) && Open(s, s.reg[x.id].inst) && Registered(s, s.reg[x.id].inst)
  {
    BooksBalance(h);
    var s := After(h);
    assert DopOk(s, d) && EntryOk(s, At(s, d).id);
    assert RoomOk(s.insts[s.reg[At(s, d).id].inst], true);
  }

  /** Speech panics exactly when it is spoken with a join pending and the goroutine of
      the channel left last is gone. */
  lemma SpeechPanicsExactly(h: seq<Action>, d: DopId, line: Speech, lost: bool)
    requires Possible(h) && Enabled(After(h), Issue(d, CmdSay(line), lost))
    ensures var s := After(h);
      var x := At(s, d);
      Apply(s, Issue(d, CmdSay(line), lost)).fault != Healthy
      <==> x.id == -1 && !lost && x.link.Some? && !Open(s, x.link.value)
  {
    BooksBalance(h);
    var s := After(h);
    assert DopOk(s, d);
    if 0 < At(s, d).id { LinkIsRegistered(h, d); }
  }

  lemma SendsSafely(s: State)
    requires Books(s) && Enabled(s, MasterSend)
    ensures !MasterSends(s).fault.NoEntry? && !MasterSends(s).fault.ClosedInstance?
  {
    if s.todo.Forward? {
      assert EntryOk(s, s.todo.c);
      assert RoomOk(s.insts[s.reg[s.todo.c].inst], Registered(s, s.reg[s.todo.c].inst));
    }
  }

  lemma NoMasterFault(s: State, a: Action)
    requires Books(s) && Enabled(s, a)
    ensures !Apply(s, a).fault.NoEntry? && !Apply(s, a).fault.ClosedInstance?
  {
    match a
    case MasterHear => assert s.denials[0] in s.reg;
    case MasterSend => SendsSafely(s);
    case ChatStep(i) => RoomsBlameOthers(s, i);
    case _ =>
  }

  lemma RoomsBlameOthers(s: State, i: InstId)
    requires Enabled(s, ChatStep(i))
    ensures !ChatSteps(s, i).fault.NoEntry? && !ChatSteps(s, i).fault.ClosedInstance?
  {
  }

  /** The channel master never dereferences a missing entry and never sends to a chat
      channel that has closed its inputs. */
  lemma {:induction false} MasterNeverPanics(h: seq<Action>)
    requires Possible(h)
    ensures !After(h).fault.NoEntry? && !After(h).fault.ClosedInstance?
  {
    if h != [] {
      BooksBalance(h[..|h| - 1]);
      NoMasterFault(After(h[..|h| - 1]), h[|h| - 1]);
    }
  }
}
