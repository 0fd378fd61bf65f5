/** Runs of orderly users: nobody sends on a closed go channel, the channel master
    never halts and no roster is asked of an empty channel, whenever users
    disconnect.

    A user is orderly who types /join only when no join or exit is unanswered and
    types nothing that addresses a channel while a join is pending.  The proof
    follows, for each doppelganger, the one request or answer that is out. */
module Orderly {
  import opened Options
  import opened Wire
  import opened Client
  import opened ChatRoom
  import opened Network
  import opened Membership
  import Closing

  /** What every user does, and the 1000-round give-up not firing. */
  ghost predicate OrderlyStep(s: State, a: Action) {
    match a
    case Issue(d, cmd, _) =>
      && (cmd.CmdJoin? ==> At(s, d).awaiting == 0)
      && (cmd.CmdWho? || cmd.CmdExit? || cmd.CmdSay? ==> At(s, d).id != -1)
    case ExitProcedure(d) => At(s, d).cantExit ==> At(s, d).rounds + 1 < PATIENCE
    case _ => true
  }

  ghost predicate OrderlyRun(h: seq<Action>) {
    h == [] ||
    (var g, a := h[..|h| - 1], h[|h| - 1];
     OrderlyRun(g) && Enabled(After(g), a) && OrderlyStep(After(g), a))
  }

  /** Where a doppelganger's unanswered join or exit is. */
  datatype Token =
    | Free                   // nothing out, on no channel
    | Asked                  // Join in the channel master's queue
    | Booked                 // join counted, about to be sent to the chat channel
    | Turning                // refusal about to be sent by the channel master
    | Turned                 // refusal in incomingFromChannelMaster
    | Knocking(i: InstId)    // Enter in the chat channel's queue
    | Entering(i: InstId)    // about to be admitted
    | Refusing(i: InstId)    // about to be denied
    | Rebuffed               // Denied in incomingFromChatChannel
    | Invited(i: InstId)     // Joined in incomingFromChatChannel
    | Inside(i: InstId)      // on the channel, nothing out
    | ExitAsked(i: InstId)   // Exit in the channel master's queue
    | ExitInHand(i: InstId)  // exit about to be sent to the chat channel
    | ExitQueued(i: InstId)  // Leave in the chat channel's queue
    | ExitTelling(i: InstId) // own exit notice about to be sent
    | ExitTold               // own exit notice in incomingFromChatChannel

  type Tokens = map<DopId, Token>

  function Tok(T: Tokens, d: DopId): Token { if d in T then T[d] else Free }

  /** The instance a token is about. */
  function Room(t: Token): Option<InstId> {
    match t
    case Knocking(i) => Some(i)
    case Entering(i) => Some(i)
    case Refusing(i) => Some(i)
    case Invited(i) => Some(i)
    case Inside(i) => Some(i)
    case ExitAsked(i) => Some(i)
    case ExitInHand(i) => Some(i)
    case ExitQueued(i) => Some(i)
    case ExitTelling(i) => Some(i)
    case _ => None
  }

  /** The token's owner is on instance i and no exit of its own is being handled there. */
  predicate Present(t: Token, i: InstId) {
    t == Invited(i) || t == Inside(i) || t == ExitAsked(i) || t == ExitInHand(i) || t == ExitQueued(i)
  }

  predicate Joining(t: Token) {
    || t.Asked? || t.Booked? || t.Turning? || t.Turned?
    || t.Knocking? || t.Entering? || t.Refusing? || t.Rebuffed? || t.Invited?
  }

  predicate Exiting(t: Token) {
    t.ExitAsked? || t.ExitInHand? || t.ExitQueued? || t.ExitTelling? || t.ExitTold?
  }

  predicate Answer(m: FromChat, d: DopId) { m.Denied? || m.Joined? || m == Left(d) }

  /** Is the owner on the channel that the channel master calls c? */
  predicate AtHome(t: Token, cids: seq<ChatId>, c: ChatId) {
    (t.Inside? || t.ExitAsked?) && t.i < |cids| && cids[t.i] == c
  }

  // ------------------------------------------------------------------ the invariant

  ghost predicate DopTidy(x: Dop, d: DopId, t: Token, cids: seq<ChatId>) {
    && (Room(t).Some? ==> Room(t).value < |cids|)
    && (t.Free? ==> x.id <= 0 && x.awaiting == 0)
    && (Joining(t) ==> x.awaiting == 1 && (x.id == -1 || (x.id == 0 && x.cantExit)))
    && (Exiting(t) ==> x.awaiting == 1 && x.id == 0 && x.cantExit)
    && (t.Inside? && t.i < |cids| ==> x.awaiting == 0 && 0 < x.id == cids[t.i])
    && (x.closed ==> t.Free?)
    && (x.fromMaster != [] ==> x.fromMaster == [Refused] && t.Turned?)
    && (forall k :: 0 <= k < |x.fromChat| ==> AnswerTidy(x.fromChat[k], d, t, cids))
    && (forall j, k :: 0 <= j < k < |x.fromChat| ==> !(Answer(x.fromChat[j], d) && Answer(x.fromChat[k], d)))
  }

  predicate AnswerTidy(m: FromChat, d: DopId, t: Token, cids: seq<ChatId>) {
    && (m.Denied? ==> t.Rebuffed?)
    && (m.Joined? ==> t == Invited(m.inst) && m.inst < |cids| && cids[m.inst] == m.c)
    && (m == Left(d) ==> t.ExitTold?)
  }

  predicate RequestTidy(m: ToMaster, T: Tokens, cids: seq<ChatId>) {
    match m
    case Join(d, _, _) => Tok(T, d).Asked?
    case Who(c, d) => AtHome(Tok(T, d), cids, c)
    case Exit(c, d) => AtHome(Tok(T, d), cids, c) && Tok(T, d).ExitAsked?
  }

  /** Of one doppelganger's requests, all but the last are /who. */
  ghost predicate MasterQTidy(q: seq<ToMaster>, T: Tokens, cids: seq<ChatId>) {
    && (forall k :: 0 <= k < |q| ==> RequestTidy(q[k], T, cids))
    && (forall j, k :: 0 <= j < k < |q| && q[j].d == q[k].d ==> q[j].Who?)
  }

  predicate TodoTidy(todo: Todo, T: Tokens, cids: seq<ChatId>) {
    match todo
    case Idle => true
    case Reply(d, r) => r == Refused && Tok(T, d).Turning?
    case Forward(c, m) =>
      (match m
       case Enter(d, _) => Tok(T, d).Booked?
       case Roster(d) => AtHome(Tok(T, d), cids, c)
       case Leave(d) => Tok(T, d).ExitInHand? && Tok(T, d).i < |cids| && cids[Tok(T, d).i] == c
       case Shutdown => true)
    case Halted(_) => false
  }

  predicate Newcomer(script: seq<Op>, d: DopId) {
    script != [] && script[0].Admit? && script[0].d == d
  }

  predicate OpTidy(op: Op, script: seq<Op>, i: InstId, T: Tokens) {
    match op
    case Admit(d, _) => Tok(T, d) == Entering(i)
    case Refuse(d) => Tok(T, d) == Refusing(i)
    case Send(d, m) =>
      if m.Denied? then Tok(T, d) == Refusing(i)
      else if m == Left(d) then Tok(T, d) == ExitTelling(i)
      else Present(Tok(T, d), i) || Newcomer(script, d)
    case ShowRoster(d) => Present(Tok(T, d), i) || Newcomer(script, d)
    case Drop(_) => script != [] && !script[0].Admit?
    case Record(_) => true
  }

  predicate OrderTidy(m: ToChat, i: InstId, T: Tokens) {
    match m
    case Enter(d, _) => Tok(T, d) == Knocking(i)
    case Roster(d) => Present(Tok(T, d), i)
    case Leave(d) => Tok(T, d) == ExitQueued(i)
    case Shutdown => true
  }

  ghost predicate ScriptTidy(script: seq<Op>, i: InstId, T: Tokens) {
    && (forall k :: 0 <= k < |script| ==> OpTidy(script[k], script, i, T))
    && (forall j, k :: 0 <= j < k < |script| && script[j].Send? && script[k].Send? && script[j].d == script[k].d ==>
          !(Answer(script[j].m, script[j].d) && Answer(script[k].m, script[k].d)))
  }

  ghost predicate QueueTidy(q: seq<ToChat>, i: InstId, T: Tokens) {
    && (forall k :: 0 <= k < |q| ==> OrderTidy(q[k], i, T))
    && (forall j, k :: 0 <= j < k < |q| && !q[j].Shutdown? && !q[k].Shutdown? && q[j].d == q[k].d ==> q[j].Roster?)
  }

  ghost predicate RosterTidy(members: map<DopId, int>, script: seq<Op>, tickets: multiset<DopId>,
                             i: InstId, T: Tokens) {
    && (forall d: DopId :: Present(Tok(T, d), i) ==> d in members && Drop(d) !in script)
    && (forall d :: d in members ==> Present(Tok(T, d), i) || Drop(d) in script)
    && (forall d: DopId :: Present(Tok(T, d), i) && !Tok(T, d).ExitQueued? ==> d in tickets)
  }

  ghost predicate RoomTidy(r: Inst, i: InstId, T: Tokens) {
    ScriptTidy(r.script, i, T) && QueueTidy(r.queue, i, T) && RosterTidy(r.members, r.script, r.tickets, i, T)
  }

  function Cids(insts: seq<Inst>): (cids: seq<ChatId>)
    ensures |cids| == |insts|
    ensures forall i :: 0 <= i < |insts| ==> cids[i] == insts[i].cid
  {
    seq(|insts|, i requires 0 <= i < |insts| => insts[i].cid)
  }

  ghost predicate DopsTidy(s: State, T: Tokens) {
    forall d: DopId :: DopTidy(At(s, d), d, Tok(T, d), Cids(s.insts))
  }

  ghost predicate RoomsTidy(s: State, T: Tokens) {
    forall i :: 0 <= i < |s.insts| ==> RoomTidy(s.insts[i], i, T)
  }

  ghost predicate Tidy(s: State, T: Tokens) {
    && s.fault == Healthy
    && DopsTidy(s, T)
    && MasterQTidy(s.masterQ, T, Cids(s.insts))
    && TodoTidy(s.todo, T, Cids(s.insts))
    && RoomsTidy(s, T)
  }

  // ------------------------------------------------------------------ frames

  /** A move of a token that room i does not notice: it is about another room, before
      and after, or its owner is on channel i, before and after. */
  predicate Unnoticed(t: Token, u: Token, i: InstId) {
    || t == u
    || (Room(t) != Some(i) && Room(u) != Some(i))
    || (Present(t, i) && Present(u, i) && !t.ExitQueued? && !u.ExitQueued?)
  }

  lemma ScriptKeeps(script: seq<Op>, i: InstId, T: Tokens, d: DopId, t: Token)
    requires ScriptTidy(script, i, T) && Unnoticed(Tok(T, d), t, i)
    ensures ScriptTidy(script, i, T[d := t])
  {
    forall k | 0 <= k < |script| ensures OpTidy(script[k], script, i, T[d := t]) {
      assert OpTidy(script[k], script, i, T);
    }
  }

  lemma QueueKeeps(q: seq<ToChat>, i: InstId, T: Tokens, d: DopId, t: Token)
    requires QueueTidy(q, i, T) && Unnoticed(Tok(T, d), t, i)
    ensures QueueTidy(q, i, T[d := t])
  {
    forall k | 0 <= k < |q| ensures OrderTidy(q[k], i, T[d := t]) {
      assert OrderTidy(q[k], i, T);
    }
  }

  lemma RosterKeeps(members: map<DopId, int>, script: seq<Op>, tickets: multiset<DopId>,
                    i: InstId, T: Tokens, d: DopId, t: Token)
    requires RosterTidy(members, script, tickets, i, T) && Unnoticed(Tok(T, d), t, i)
    ensures RosterTidy(members, script, tickets, i, T[d := t])
  {
    forall e: DopId ensures Present(Tok(T[d := t], e), i) == Present(Tok(T, e), i) {}
  }

  lemma RoomKeeps(r: Inst, i: InstId, T: Tokens, d: DopId, t: Token)
    requires RoomTidy(r, i, T) && Unnoticed(Tok(T, d), t, i)
    ensures RoomTidy(r, i, T[d := t])
  {
    ScriptKeeps(r.script, i, T, d, t);
    QueueKeeps(r.queue, i, T, d, t);
    RosterKeeps(r.members, r.script, r.tickets, i, T, d, t);
  }

  /** The channel master's queue does not notice either, if it holds nothing of d's. */
  lemma MasterQKeeps(q: seq<ToMaster>, T: Tokens, cids: seq<ChatId>, d: DopId, t: Token)
    requires MasterQTidy(q, T, cids)
    requires forall k :: 0 <= k < |q| ==> q[k].d != d
    ensures MasterQTidy(q, T[d := t], cids)
  {
    forall k | 0 <= k < |q| ensures RequestTidy(q[k], T[d := t], cids) {
      assert RequestTidy(q[k], T, cids);
    }
  }

  /** Everything but doppelganger d and its token stays: the step is d's own. */
  lemma DopMoves(s: State, t: State, T: Tokens, d: DopId, u: Token)
    requires Tidy(s, T)
    requires t.insts == s.insts && t.todo == s.todo && t.fault == s.fault && t.dops == s.dops[d := At(t, d)]
    requires forall i: InstId :: Unnoticed(Tok(T, d), u, i)
    requires DopTidy(At(t, d), d, u, Cids(s.insts))
    requires MasterQTidy(t.masterQ, T[d := u], Cids(s.insts))
    requires TodoTidy(s.todo, T[d := u], Cids(s.insts))
    ensures Tidy(t, T[d := u])
  {
    assert RoomsTidy(t, T[d := u]) by {
      forall i | 0 <= i < |t.insts| ensures RoomTidy(t.insts[i], i, T[d := u]) {
        RoomKeeps(s.insts[i], i, T, d, u);
      }
    }
    assert DopsTidy(t, T[d := u]) by {
      forall e: DopId ensures DopTidy(At(t, e), e, Tok(T[d := u], e), Cids(t.insts)) {
        assert DopTidy(At(s, e), e, Tok(T, e), Cids(s.insts));
      }
    }
  }

  // ------------------------------------------------------------------ doppelgangers

  /** The token of a doppelganger once it has sent something. */
  function Sent(t: Token, out: Out): Token {
    if out.ToTheMaster? && out.m.Join? then Asked
    else if out.ToTheMaster? && out.m.Exit? && t.Inside? then ExitAsked(t.i)
    else t
  }

  /** The token after an action: at most one moves. */
  function Moved(s: State, T: Tokens, a: Action): Tokens {
    match a
    case Lose(_) => T
    case Issue(d, cmd, lost) =>
      T[d := Sent(Tok(T, d), Obey(At(s, d), d, cmd, lost).1)]
    case ExitProcedure(d) => T[d := Sent(Tok(T, d), Unwind(At(s, d), d).1)]
    case GetFromMaster(d, _) => T[d := Free]
    case GetFromChat(d, _) =>
      var q := At(s, d).fromChat;
      if q == [] || !Answer(q[0], d) then T
      else if q[0].Joined? then T[d := Inside(q[0].inst)]
      else T[d := Free]
    case MasterTake(found) =>
      if s.masterQ == [] || s.masterQ[0].Who? then T
      else
        var d := s.masterQ[0].d;
        if s.masterQ[0].Exit? then (if Tok(T, d).ExitAsked? then T[d := ExitInHand(Tok(T, d).i)] else T)
        else if s.masterQ[0].name == "" || found == 0 then T[d := Turning]
        else if found !in s.reg then T[d := Entering(|s.insts|)]
        else T[d := Booked]
    case MasterHear => T
    case MasterSend =>
      (match s.todo
       case Reply(d, _) => T[d := Turned]
       case Forward(c, m) =>
         if c !in s.reg || m.Shutdown? then T
         else T[m.d := if m.Enter? then Knocking(s.reg[c].inst)
                       else if m.Leave? then ExitQueued(s.reg[c].inst)
                       else Tok(T, m.d)]
       case _ => T)
    case ChatTake(i, _) =>
      if i >= |s.insts| || s.insts[i].queue == [] then T
      else
        (match s.insts[i].queue[0]
         case Enter(d, _) =>
           T[d := if |s.insts[i].members| >= MAX_MEMBERS then Refusing(i) else Entering(i)]
         case Leave(d) => T[d := ExitTelling(i)]
         case Roster(d) => T[d := Tok(T, d)]
         case Shutdown => T)
    case ChatListen(_, _) => T
    case ChatStep(i) =>
      if i >= |s.insts| || s.insts[i].script == [] then T
      else
        (match s.insts[i].script[0]
         case Admit(d, _) => T[d := Invited(i)]
         case Send(d, m) =>
           T[d := if m.Denied? then Rebuffed else if m == Left(d) then ExitTold else Tok(T, d)]
         case ShowRoster(d) => T[d := Tok(T, d)]
         case _ => T)
  }

  /** d's own step, its token staying where it is and the queue growing by a /who at most. */
  lemma DopStays(s: State, t: State, T: Tokens, d: DopId)
    requires Tidy(s, T)
    requires t.insts == s.insts && t.todo == s.todo && t.fault == s.fault && t.dops == s.dops[d := At(t, d)]
    requires DopTidy(At(t, d), d, Tok(T, d), Cids(s.insts))
    requires MasterQTidy(t.masterQ, T, Cids(s.insts))
    ensures Tidy(t, T)
  {
    assert DopsTidy(t, T) by {
      forall e: DopId ensures DopTidy(At(t, e), e, Tok(T, e), Cids(t.insts)) {
        assert DopTidy(At(s, e), e, Tok(T, e), Cids(s.insts));
      }
    }
  }

  /** While an answer to d is out, or nothing is, the channel master holds nothing of d's. */
  lemma NothingAsked(s: State, T: Tokens, d: DopId)
    requires Tidy(s, T)
    requires !Tok(T, d).Asked? && !Tok(T, d).Inside? && !Tok(T, d).ExitAsked?
    ensures forall k :: 0 <= k < |s.masterQ| ==> s.masterQ[k].d != d
  {
    forall k | 0 <= k < |s.masterQ| ensures s.masterQ[k].d != d {
      assert RequestTidy(s.masterQ[k], T, Cids(s.insts));
    }
  }

  lemma TidyLose(s: State, T: Tokens, d: DopId)
    requires Tidy(s, T) && Enabled(s, Lose(d))
    ensures Tidy(Apply(s, Lose(d)), T)
  {
    assert DopTidy(At(s, d), d, Tok(T, d), Cids(s.insts));
    DopStays(s, Apply(s, Lose(d)), T, d);
  }

  lemma TidyGetFromMaster(s: State, T: Tokens, d: DopId, lost: bool)
    requires Tidy(s, T) && Enabled(s, GetFromMaster(d, lost))
    ensures Tidy(Apply(s, GetFromMaster(d, lost)), T[d := Free])
  {
    var t := Apply(s, GetFromMaster(d, lost));
    assert DopTidy(At(s, d), d, Tok(T, d), Cids(s.insts));
    NothingAsked(s, T, d);
    MasterQKeeps(s.masterQ, T, Cids(s.insts), d, Free);
    DopMoves(s, t, T, d, Free);
  }

  /** Taking the first message off a callback channel. */
  lemma DopHears(x: Dop, d: DopId, t: Token, cids: seq<ChatId>, lost: bool)
    requires DopTidy(x, d, t, cids) && !x.closed && x.fromChat != []
    requires x.fromChat[0].Joined? ==> 0 < x.fromChat[0].c
    ensures var m := x.fromChat[0];
      DopTidy(HearChat(x.(fromChat := x.fromChat[1..]), d, m, lost), d,
              if !Answer(m, d) then t else if m.Joined? then Inside(m.inst) else Free, cids)
  {
    var m, q := x.fromChat[0], x.fromChat[1..];
    assert AnswerTidy(m, d, t, cids);
    forall k | 0 <= k < |q| ensures AnswerTidy(q[k], d, t, cids) && !(Answer(m, d) && Answer(q[k], d)) {
      assert q[k] == x.fromChat[k + 1];
    }
  }

  /** The answer d was waiting for arrives. */
  lemma TidyAnswered(s: State, t: State, T: Tokens, d: DopId, u: Token)
    requires Tidy(s, T)
    requires t == Put(s, d, At(t, d)) && DopTidy(At(t, d), d, u, Cids(s.insts))
    requires
      || (Tok(T, d).Invited? && u == Inside(Tok(T, d).i))
      || ((Tok(T, d).Rebuffed? || Tok(T, d).ExitTold?) && u == Free)
    ensures Tidy(t, T[d := u])
  {
    NothingAsked(s, T, d);
    MasterQKeeps(s.masterQ, T, Cids(s.insts), d, u);
    DopMoves(s, t, T, d, u);
  }

  lemma TidyGetFromChat(s: State, T: Tokens, d: DopId, lost: bool)
    requires Books(s)
    requires Tidy(s, T) && Enabled(s, GetFromChat(d, lost))
    ensures Tidy(Apply(s, GetFromChat(d, lost)), Moved(s, T, GetFromChat(d, lost)))
  {
    var t := Apply(s, GetFromChat(d, lost));
    var m := At(s, d).fromChat[0];
    assert DopTidy(At(s, d), d, Tok(T, d), Cids(s.insts));
    assert m.Joined? ==> 0 < m.c by {
      assert DopOk(s, d);
      if m.Joined? { assert EntryOk(s, m.c); }
    }
    DopHears(At(s, d), d, Tok(T, d), Cids(s.insts), lost);
    if Answer(m, d) {
      assert AnswerTidy(m, d, Tok(T, d), Cids(s.insts));
      TidyAnswered(s, t, T, d, if m.Joined? then Inside(m.inst) else Free);
    } else {
      DopStays(s, t, T, d);
    }
  }

  /** One more request at the end of the channel master's queue. */
  lemma MasterQGrows(q: seq<ToMaster>, m: ToMaster, T: Tokens, cids: seq<ChatId>, t: Token)
    requires MasterQTidy(q, T, cids)
    requires
      || (Tok(T, m.d).Free? && t.Asked? && m.Join?)
      || (Tok(T, m.d).Inside? && m.Who? && t == Tok(T, m.d) && AtHome(t, cids, m.c))
      || (Tok(T, m.d).Inside? && m.Exit? && t == ExitAsked(Tok(T, m.d).i) && AtHome(t, cids, m.c))
    ensures MasterQTidy(q + [m], T[m.d := t], cids)
  {
    var Q := q + [m];
    forall k | 0 <= k < |Q| ensures RequestTidy(Q[k], T[m.d := t], cids) && (k < |q| && Q[k].d == m.d ==> Q[k].Who?) {
      if k < |q| { assert RequestTidy(q[k], T, cids); }
    }
  }

  lemma TidyRequest(s: State, t: State, T: Tokens, m: ToMaster, u: Token)
    requires Tidy(s, T)
    requires t == Put(s, m.d, At(t, m.d)).(masterQ := s.masterQ + [m])
    requires DopTidy(At(t, m.d), m.d, u, Cids(s.insts))
    requires
      || (Tok(T, m.d).Free? && u.Asked? && m.Join?)
      || (Tok(T, m.d).Inside? && m.Who? && u == Tok(T, m.d) && AtHome(u, Cids(s.insts), m.c))
      || (Tok(T, m.d).Inside? && m.Exit? && u == ExitAsked(Tok(T, m.d).i) && AtHome(u, Cids(s.insts), m.c))
    ensures Tidy(t, T[m.d := u])
  {
    MasterQGrows(s.masterQ, m, T, Cids(s.insts), u);
    DopMoves(s, t, T, m.d, u);
  }

  /** An orderly command leaves the doppelganger waiting for what it has asked. */
  lemma DopObeys(x: Dop, d: DopId, t: Token, cids: seq<ChatId>, cmd: Command, lost: bool)
    requires DopTidy(x, d, t, cids) && !x.closed
    requires cmd.CmdJoin? ==> x.awaiting == 0
    requires cmd.CmdWho? || cmd.CmdExit? || cmd.CmdSay? ==> x.id != -1
    requires -1 <= x.id && (0 < x.id ==> x.link.Some?)
    ensures var (y, out) := Obey(x, d, cmd, lost);
      && DopTidy(y, d, Sent(t, out), cids)
      && (out.ToTheMaster? ==> RequestFits(t, out.m, d, cids))
      && (out.Speak? ==> 0 < x.id && Some(out.inst) == x.link)
  {
    var (y, out) := Obey(x, d, cmd, lost);
    forall k | 0 <= k < |x.fromChat| ensures AnswerTidy(x.fromChat[k], d, Sent(t, out), cids) {
      assert AnswerTidy(x.fromChat[k], d, t, cids);
    }
  }

  lemma DopUnwinds(x: Dop, d: DopId, t: Token, cids: seq<ChatId>)
    requires DopTidy(x, d, t, cids) && !x.closed && -1 <= x.id
    requires x.cantExit ==> x.rounds + 1 < PATIENCE
    ensures var (y, out) := Unwind(x, d);
      && DopTidy(y, d, Sent(t, out), cids)
      && !out.Speak?
      && (out.ToTheMaster? ==> RequestFits(t, out.m, d, cids))
  {
    var (y, out) := Unwind(x, d);
    forall k | 0 <= k < |x.fromChat| ensures AnswerTidy(x.fromChat[k], d, Sent(t, out), cids) {
      assert AnswerTidy(x.fromChat[k], d, t, cids);
    }
  }

  /** What a doppelganger with token t may ask of the channel master. */
  predicate RequestFits(t: Token, m: ToMaster, d: DopId, cids: seq<ChatId>) {
    && m.d == d
    && (m.Join? ==> t.Free?)
    && (!m.Join? ==> t.Inside? && AtHome(t, cids, m.c))
  }

  lemma TidyIssue(s: State, T: Tokens, d: DopId, cmd: Command, lost: bool)
    requires Books(s)
    requires Tidy(s, T) && Enabled(s, Issue(d, cmd, lost)) && OrderlyStep(s, Issue(d, cmd, lost))
    ensures Tidy(Apply(s, Issue(d, cmd, lost)), Moved(s, T, Issue(d, cmd, lost)))
  {
    var (x, out) := Obey(At(s, d), d, cmd, lost);
    var t := Put(s, d, x);
    assert DopTidy(At(s, d), d, Tok(T, d), Cids(s.insts));
    assert DopOk(s, d);
    DopObeys(At(s, d), d, Tok(T, d), Cids(s.insts), cmd, lost);
    TidySends(s, T, d, x, out);
  }

  lemma TidyExitProcedure(s: State, T: Tokens, d: DopId)
    requires Books(s)
    requires Tidy(s, T) && Enabled(s, ExitProcedure(d)) && OrderlyStep(s, ExitProcedure(d))
    ensures Tidy(Apply(s, ExitProcedure(d)), Moved(s, T, ExitProcedure(d)))
  {
    var (x, out) := Unwind(At(s, d), d);
    assert DopTidy(At(s, d), d, Tok(T, d), Cids(s.insts));
    assert DopOk(s, d);
    DopUnwinds(At(s, d), d, Tok(T, d), Cids(s.insts));
    TidySends(s, T, d, x, out);
  }

  /** Carrying out what an iteration sends. */
  lemma TidySends(s: State, T: Tokens, d: DopId, x: Dop, out: Out)
    requires Books(s) && Tidy(s, T)
    requires DopTidy(x, d, Sent(Tok(T, d), out), Cids(s.insts))
    requires out.ToTheMaster? ==> RequestFits(Tok(T, d), out.m, d, Cids(s.insts))
    requires out.Speak? ==> 0 < At(s, d).id && Some(out.inst) == At(s, d).link
    ensures Tidy(Dispatch(Put(s, d, x), d, out), T[d := Sent(Tok(T, d), out)])
  {
    var t := Put(s, d, x);
    var u := Sent(Tok(T, d), out);
    if out.ToTheMaster? {
      TidyRequest(s, Dispatch(t, d, out), T, out.m, u);
    } else {
      MasterQStill(s.masterQ, T, Cids(s.insts), d);
      DopMoves(s, t, T, d, u);
      if out.Speak? {
        assert RoomOk(s.insts[out.inst], true) by {
          assert DopOk(s, d) && EntryOk(s, At(s, d).id);
        }
        TidySpeak(t, Dispatch(t, d, out), T[d := u], out.inst);
      }
    }
  }

  lemma MasterQStill(q: seq<ToMaster>, T: Tokens, cids: seq<ChatId>, d: DopId)
    requires MasterQTidy(q, T, cids)
    ensures MasterQTidy(q, T[d := Tok(T, d)], cids)
  {
    forall k | 0 <= k < |q| ensures RequestTidy(q[k], T[d := Tok(T, d)], cids) {
      assert RequestTidy(q[k], T, cids);
    }
  }

  /** A room takes note of a speech and of nothing else. */
  lemma TidySpeak(s: State, t: State, T: Tokens, i: InstId)
    requires Tidy(s, T) && i < |s.insts| && |t.insts| == |s.insts|
    requires t == PutInst(s, i, s.insts[i].(inbox := t.insts[i].inbox))
    ensures Tidy(t, T)
  {
    assert Cids(t.insts) == Cids(s.insts);
    forall j | 0 <= j < |t.insts| ensures RoomTidy(t.insts[j], j, T) {
      assert RoomTidy(s.insts[j], j, T);
    }
    assert DopsTidy(t, T) by {
      forall d: DopId ensures DopTidy(At(t, d), d, Tok(T, d), Cids(t.insts)) {
        assert DopTidy(At(s, d), d, Tok(T, d), Cids(s.insts));
      }
    }
  }

  // ------------------------------------------------------------------ the channel master

  /** A request moves on to the next stage, or an answer gets under way: its owner,
      who hears nothing of that, stays in order. */
  lemma DopWaits(x: Dop, d: DopId, t: Token, u: Token, cids: seq<ChatId>)
    requires DopTidy(x, d, t, cids)
    requires (Joining(t) && Joining(u)) || (Exiting(t) && Exiting(u))
    requires !t.Turned? && !t.Rebuffed? && !t.Invited? && !t.ExitTold?
    requires Room(u).Some? ==> Room(u).value < |cids|
    ensures DopTidy(x, d, u, cids)
  {
    forall k | 0 <= k < |x.fromChat| ensures AnswerTidy(x.fromChat[k], d, u, cids) {
      assert AnswerTidy(x.fromChat[k], d, t, cids);
    }
  }

  /** A step of the channel master or of room i, in which d's token moves to u. */
  lemma RoomMoves(s: State, t: State, T: Tokens, d: DopId, u: Token, i: InstId)
    requires Tidy(s, T) && t.fault == Healthy
    requires |t.insts| == |s.insts| && Cids(t.insts) == Cids(s.insts)
    requires forall j :: 0 <= j < |s.insts| && j != i ==> t.insts[j] == s.insts[j] && Unnoticed(Tok(T, d), u, j)
    requires i < |s.insts| ==> RoomTidy(t.insts[i], i, T[d := u])
    requires t.dops == s.dops[d := At(t, d)] || t.dops == s.dops
    requires DopTidy(At(t, d), d, u, Cids(s.insts))
    requires MasterQTidy(t.masterQ, T[d := u], Cids(s.insts))
    requires TodoTidy(t.todo, T[d := u], Cids(s.insts))
    ensures Tidy(t, T[d := u])
  {
    assert RoomsTidy(t, T[d := u]) by {
      forall j | 0 <= j < |t.insts| ensures RoomTidy(t.insts[j], j, T[d := u]) {
        if j != i { RoomKeeps(s.insts[j], j, T, d, u); }
      }
    }
    assert DopsTidy(t, T[d := u]) by {
      forall e: DopId ensures DopTidy(At(t, e), e, Tok(T[d := u], e), Cids(t.insts)) {
        assert DopTidy(At(s, e), e, Tok(T, e), Cids(s.insts));
      }
    }
  }

  lemma MasterQShrinks(q: seq<ToMaster>, T: Tokens, cids: seq<ChatId>, u: Token)
    requires MasterQTidy(q, T, cids) && q != []
    requires q[0].Who? ==> u == Tok(T, q[0].d)
    ensures MasterQTidy(q[1..], T[q[0].d := u], cids)
  {
    var Q := q[1..];
    forall k | 0 <= k < |Q| ensures RequestTidy(Q[k], T[q[0].d := u], cids) {
      assert RequestTidy(q[k + 1], T, cids);
      assert !q[0].Who? ==> q[k + 1].d != q[0].d;
    }
  }

  /** An exit that the channel master handles finds its channel registered. */
  lemma HomeIsRegistered(s: State, T: Tokens, d: DopId, c: ChatId)
    requires Books(s) && Tidy(s, T)
    requires
      || AtHome(Tok(T, d), Cids(s.insts), c)
      || (Tok(T, d).ExitInHand? && Tok(T, d).i < |s.insts| && s.insts[Tok(T, d).i].cid == c)
    ensures c in s.reg && s.reg[c].inst == Tok(T, d).i
  {
    var i := Tok(T, d).i;
    assert RoomTidy(s.insts[i], i, T);
    assert Present(Tok(T, d), i);
    assert d in s.insts[i].tickets;
    assert RoomOk(s.insts[i], Registered(s, i));
  }

  lemma TidyMasterTake(s: State, T: Tokens, found: nat)
    requires Books(s) && Tidy(s, T) && Enabled(s, MasterTake(found))
    requires !(s.masterQ[0].Join? && s.masterQ[0].name != "" && found != 0 && found !in s.reg)
    ensures Tidy(Apply(s, MasterTake(found)), Moved(s, T, MasterTake(found)))
  {
    var t := Apply(s, MasterTake(found));
    var m := s.masterQ[0];
    assert RequestTidy(m, T, Cids(s.insts));
    if m.Join? {
      TidyNextHop(s, t, T, if t.todo.Reply? then Turning else Booked);
    } else {
      HomeIsRegistered(s, T, m.d, m.c);
      assert EntryOk(s, m.c);
      if m.Who? {
        MasterQShrinks(s.masterQ, T, Cids(s.insts), Tok(T, m.d));
        TodoTurns(s, t, T);
      } else {
        TidyNextHop(s, t, T, ExitInHand(Tok(T, m.d).i));
      }
    }
  }

  /** The channel master takes up a join or an exit. */
  lemma TidyNextHop(s: State, t: State, T: Tokens, u: Token)
    requires Tidy(s, T) && s.masterQ != [] && !s.masterQ[0].Who?
    requires t.dops == s.dops && t.insts == s.insts && t.masterQ == s.masterQ[1..] && t.fault == Healthy
    requires
      || (Tok(T, s.masterQ[0].d).Asked? && (u.Turning? || u.Booked?))
      || (Tok(T, s.masterQ[0].d).ExitAsked? && u == ExitInHand(Tok(T, s.masterQ[0].d).i))
    requires TodoTidy(t.todo, T[s.masterQ[0].d := u], Cids(s.insts))
    ensures Tidy(t, T[s.masterQ[0].d := u])
  {
    var d := s.masterQ[0].d;
    assert DopTidy(At(s, d), d, Tok(T, d), Cids(s.insts));
    DopWaits(At(s, d), d, Tok(T, d), u, Cids(s.insts));
    MasterQShrinks(s.masterQ, T, Cids(s.insts), u);
    RoomMoves(s, t, T, d, u, |s.insts|);
  }

  /** The channel master takes up a /who. */
  lemma TodoTurns(s: State, t: State, T: Tokens)
    requires Tidy(s, T) && s.masterQ != [] && s.masterQ[0].Who?
    requires t.dops == s.dops && t.insts == s.insts && t.masterQ == s.masterQ[1..] && t.fault == Healthy
    requires TodoTidy(t.todo, T, Cids(s.insts))
    ensures Tidy(t, T)
  {
    assert MasterQTidy(t.masterQ, T, Cids(t.insts)) by {
      forall k | 0 <= k < |t.masterQ| ensures RequestTidy(t.masterQ[k], T, Cids(s.insts)) {
        assert RequestTidy(s.masterQ[k + 1], T, Cids(s.insts));
      }
    }
    assert DopsTidy(t, T) by {
      forall e: DopId ensures DopTidy(At(t, e), e, Tok(T, e), Cids(t.insts)) {
        assert DopTidy(At(s, e), e, Tok(T, e), Cids(s.insts));
      }
    }
  }

  lemma TidyMasterHear(s: State, T: Tokens)
    requires Books(s) && Tidy(s, T) && Enabled(s, MasterHear)
    ensures Tidy(Apply(s, MasterHear), T)
  {
    assert s.denials[0] in s.reg;
    var t := Apply(s, MasterHear);
    assert DopsTidy(t, T) by {
      forall e: DopId ensures DopTidy(At(t, e), e, Tok(T, e), Cids(t.insts)) {
        assert DopTidy(At(s, e), e, Tok(T, e), Cids(s.insts));
      }
    }
  }

  /** A fresh goroutine, about to admit the member it was launched for. */
  lemma TidyLaunch(s: State, T: Tokens, found: nat)
    requires Books(s) && Tidy(s, T) && Enabled(s, MasterTake(found))
    requires s.masterQ[0].Join? && s.masterQ[0].name != "" && found != 0 && found !in s.reg
    ensures Tidy(Apply(s, MasterTake(found)), Moved(s, T, MasterTake(found)))
  {
    var t := Apply(s, MasterTake(found));
    var d, n := s.masterQ[0].d, |s.insts|;
    var u := Entering(n);
    assert RequestTidy(s.masterQ[0], T, Cids(s.insts));
    MasterQShrinks(s.masterQ, T, Cids(s.insts), u);
    assert Cids(s.insts) <= Cids(t.insts);
    DopsLaunch(s, t, T, d, u);
    assert RoomsTidy(t, T[d := u]) by {
      forall j | 0 <= j < |t.insts| ensures RoomTidy(t.insts[j], j, T[d := u]) {
        if j < n {
          RoomKeeps(s.insts[j], j, T, d, u);
        } else {
          LaunchTidy(s, T, found, d, s.masterQ[0].user);
        }
      }
    }
    assert MasterQTidy(t.masterQ, T[d := u], Cids(t.insts)) by {
      forall k | 0 <= k < |t.masterQ| ensures RequestTidy(t.masterQ[k], T[d := u], Cids(t.insts)) {
        assert RequestTidy(t.masterQ[k], T[d := u], Cids(s.insts));
      }
    }
  }

  lemma DopsLaunch(s: State, t: State, T: Tokens, d: DopId, u: Token)
    requires DopsTidy(s, T) && t.dops == s.dops && Cids(s.insts) <= Cids(t.insts)
    requires Tok(T, d).Asked? && u.Entering? && u.i < |t.insts|
    ensures DopsTidy(t, T[d := u])
  {
    forall e: DopId ensures DopTidy(At(t, e), e, Tok(T[d := u], e), Cids(t.insts)) {
      assert DopTidy(At(s, e), e, Tok(T, e), Cids(s.insts));
      DopGrows(At(s, e), e, Tok(T, e), Cids(s.insts), Cids(t.insts));
      if e == d { DopWaits(At(s, d), d, Tok(T, d), u, Cids(t.insts)); }
    }
  }

  lemma DopGrows(x: Dop, d: DopId, t: Token, cids: seq<ChatId>, more: seq<ChatId>)
    requires DopTidy(x, d, t, cids) && cids <= more
    ensures DopTidy(x, d, t, more)
  {
    forall k | 0 <= k < |x.fromChat| ensures AnswerTidy(x.fromChat[k], d, t, more) {
      assert AnswerTidy(x.fromChat[k], d, t, cids);
    }
  }

  lemma NobodyPresent(s: State, T: Tokens, d: DopId, n: InstId, U: Tokens)
    requires DopsTidy(s, T) && n == |s.insts| && U == T[d := Entering(n)]
    ensures forall e: DopId :: !Present(Tok(U, e), n)
  {
    forall e: DopId ensures !Present(Tok(U, e), n) {
      assert DopTidy(At(s, e), e, Tok(T, e), Cids(s.insts));
    }
  }

  lemma LaunchTidy(s: State, T: Tokens, c: ChatId, d: DopId, user: int)
    requires DopsTidy(s, T)
    ensures RoomTidy(Launch(c, d, user), |s.insts|, T[d := Entering(|s.insts|)])
  {
    var n := |s.insts|;
    var U := T[d := Entering(n)];
    var r := Launch(c, d, user);
    assert Announce([d], map[d := user], user) == [] by {
      assert [d][1..] == [];
    }
    NobodyPresent(s, T, d, n, U);
    assert RosterTidy(r.members, r.script, r.tickets, n, U);
  }

  /** The refusal reaches its doppelganger, which is there to take it. */
  lemma TidyReply(s: State, T: Tokens)
    requires Tidy(s, T) && Enabled(s, MasterSend) && s.todo.Reply?
    ensures Tidy(Apply(s, MasterSend), Moved(s, T, MasterSend))
  {
    var d := s.todo.d;
    var t := Apply(s, MasterSend);
    assert DopTidy(At(s, d), d, Tok(T, d), Cids(s.insts));
    NothingAsked(s, T, d);
    MasterQKeeps(s.masterQ, T, Cids(s.insts), d, Turned);
    DopWaits(At(s, d), d, Tok(T, d), Turned, Cids(s.insts));
    RoomMoves(s, t, T, d, Turned, |s.insts|);
  }

  /** A message about the owner of token t may join the queue of room i, moving it to u. */
  predicate Arrives(m: ToChat, i: InstId, t: Token, u: Token) {
    match m
    case Enter(_, _) => t.Booked? && u == Knocking(i)
    case Roster(_) => (t == Inside(i) || t == ExitAsked(i)) && u == t
    case Leave(_) => t == ExitInHand(i) && u == ExitQueued(i)
    case Shutdown => false
  }

  lemma QueueGrows(q: seq<ToChat>, m: ToChat, i: InstId, T: Tokens, u: Token)
    requires QueueTidy(q, i, T) && !m.Shutdown? && Arrives(m, i, Tok(T, m.d), u)
    ensures QueueTidy(q + [m], i, T[m.d := u])
  {
    var Q := q + [m];
    forall k | 0 <= k < |Q|
      ensures OrderTidy(Q[k], i, T[m.d := u]) && (k < |q| && !Q[k].Shutdown? && Q[k].d == m.d ==> Q[k].Roster?)
    {
      if k < |q| { assert OrderTidy(q[k], i, T); }
    }
  }

  lemma ScriptWaits(script: seq<Op>, m: ToChat, i: InstId, T: Tokens, u: Token)
    requires ScriptTidy(script, i, T) && !m.Shutdown? && Arrives(m, i, Tok(T, m.d), u)
    ensures ScriptTidy(script, i, T[m.d := u])
  {
    forall k | 0 <= k < |script| ensures OpTidy(script[k], script, i, T[m.d := u]) {
      assert OpTidy(script[k], script, i, T);
    }
  }

  lemma RosterWaits(r: Inst, q: Inst, m: ToChat, i: InstId, T: Tokens, u: Token)
    requires RosterTidy(r.members, r.script, r.tickets, i, T) && !m.Shutdown? && Arrives(m, i, Tok(T, m.d), u)
    requires q.members == r.members && q.script == r.script
    requires q.tickets == if m.Leave? then r.tickets - multiset{m.d} else r.tickets
    ensures RosterTidy(q.members, q.script, q.tickets, i, T[m.d := u])
  {
    var U := T[m.d := u];
    assert forall e: DopId :: e != m.d ==> Tok(U, e) == Tok(T, e);
    forall e: DopId ensures Present(Tok(U, e), i) == Present(Tok(T, e), i) {
      if e == m.d { assert Tok(U, e) == u; }
    }
    assert forall e: DopId :: e != m.d ==> q.tickets[e] == r.tickets[e];
  }

  /** A join, /who or exit reaches the room's queue. */
  lemma TidyForward(s: State, T: Tokens)
    requires Books(s) && Tidy(s, T) && Enabled(s, MasterSend) && s.todo.Forward? && !s.todo.m.Shutdown?
    ensures Tidy(Apply(s, MasterSend), Moved(s, T, MasterSend))
  {
    var c, m := s.todo.c, s.todo.m;
    var d, i := m.d, s.reg[c].inst;
    var t := Apply(s, MasterSend);
    var u := Tok(Moved(s, T, MasterSend), d);
    assert EntryOk(s, c) && RoomOk(s.insts[i], true);
    if !m.Enter? { HomeIsRegistered(s, T, d, c); }
    assert Arrives(m, i, Tok(T, d), u);
    TidyArrives(s, t, T, m, u, i);
  }

  lemma TidyArrives(s: State, t: State, T: Tokens, m: ToChat, u: Token, i: InstId)
    requires Tidy(s, T) && i < |s.insts| && !m.Shutdown? && Arrives(m, i, Tok(T, m.d), u)
    requires t.dops == s.dops && t.masterQ == s.masterQ && t.fault == Healthy
    requires t.insts == s.insts[i := s.insts[i].(
               queue := s.insts[i].queue + [m],
               tickets := if m.Leave? then s.insts[i].tickets - multiset{m.d} else s.insts[i].tickets)]
    requires t.todo == Idle || (t.todo.Forward? && t.todo.m.Shutdown?)
    ensures Tidy(t, T[m.d := u])
  {
    var d := m.d;
    assert DopTidy(At(s, d), d, Tok(T, d), Cids(s.insts));
    if m.Roster? {
      MasterQStill(s.masterQ, T, Cids(s.insts), d);
    } else {
      DopWaits(At(s, d), d, Tok(T, d), u, Cids(s.insts));
      NothingAsked(s, T, d);
      MasterQKeeps(s.masterQ, T, Cids(s.insts), d, u);
    }
    assert RoomTidy(t.insts[i], i, T[d := u]) by {
      assert RoomTidy(s.insts[i], i, T);
      QueueGrows(s.insts[i].queue, m, i, T, u);
      ScriptWaits(s.insts[i].script, m, i, T, u);
      RosterWaits(s.insts[i], t.insts[i], m, i, T, u);
    }
    assert Cids(t.insts) == Cids(s.insts);
    RoomMoves(s, t, T, d, u, i);
  }

  lemma TidyShutdown(s: State, T: Tokens)
    requires Books(s) && Tidy(s, T) && Enabled(s, MasterSend) && s.todo.Forward? && s.todo.m.Shutdown?
    ensures Tidy(Apply(s, MasterSend), T)
  {
    var i := s.reg[s.todo.c].inst;
    var t := Apply(s, MasterSend);
    assert EntryOk(s, s.todo.c) && RoomOk(s.insts[i], true);
    assert Cids(t.insts) == Cids(s.insts);
    assert DopsTidy(t, T) by {
      forall e: DopId ensures DopTidy(At(t, e), e, Tok(T, e), Cids(t.insts)) {
        assert DopTidy(At(s, e), e, Tok(T, e), Cids(s.insts));
      }
    }
    assert RoomsTidy(t, T) by {
      forall j | 0 <= j < |t.insts| ensures RoomTidy(t.insts[j], j, T) {
        assert RoomTidy(s.insts[j], j, T);
        if j == i { ShutdownQueued(s.insts[i], t.insts[i], i, T); }
      }
    }
  }

  lemma ShutdownQueued(r: Inst, q: Inst, i: InstId, T: Tokens)
    requires RoomTidy(r, i, T) && q == r.(queue := r.queue + [Shutdown])
    ensures RoomTidy(q, i, T)
  {
    forall k | 0 <= k < |q.queue| ensures OrderTidy(q.queue[k], i, T) {
      if k < |r.queue| { assert OrderTidy(r.queue[k], i, T); }
    }
  }

  // ------------------------------------------------------------------ chat channels

  /** The token's move when its room takes message m off its queue. */
  function Handled(m: ToChat, t: Token, full: bool, i: InstId): Token {
    match m
    case Enter(_, _) => if full then Refusing(i) else Entering(i)
    case Leave(_) => ExitTelling(i)
    case _ => t
  }

  lemma QueueShrinks(q: seq<ToChat>, i: InstId, T: Tokens, u: Token)
    requires QueueTidy(q, i, T) && q != [] && !q[0].Shutdown?
    requires q[0].Roster? ==> u == Tok(T, q[0].d)
    ensures QueueTidy(q[1..], i, T[q[0].d := u])
  {
    var Q := q[1..];
    forall k | 0 <= k < |Q| ensures OrderTidy(Q[k], i, T[q[0].d := u]) {
      assert OrderTidy(q[k + 1], i, T);
      assert !q[0].Roster? && !q[k + 1].Shutdown? ==> q[k + 1].d != q[0].d;
    }
  }

  /** Admitting d: the script addresses d and members, and removes nobody. */
  lemma AcceptTidy(members: map<DopId, int>, d: DopId, user: int, order: seq<DopId>, i: InstId, U: Tokens)
    requires Tok(U, d) == Entering(i)
    requires forall e :: e in members && e != d ==> Present(Tok(U, e), i)
    ensures ScriptTidy(Accept(members, d, user, order), i, U)
    ensures forall e: DopId :: Drop(e) !in Accept(members, d, user, order)
  {
    var script := Accept(members, d, user, order);
    var rest := Announce(order, members[d := user], user);
    forall k | 2 <= k < |script| ensures script[k].Send? && script[k].m == Notice && script[k].d in members[d := user] {
      assert script[k] == rest[k - 2];
      assert script[k] in rest;
    }
    forall k | 0 <= k < |script| ensures OpTidy(script[k], script, i, U) {
      if 2 <= k { assert script[k].d != d ==> Present(Tok(U, script[k].d), i); }
    }
  }

  /** Broadcasting to members, and then an operation of another kind. */
  lemma BroadcastTidy(order: seq<DopId>, m: FromChat, last: Op, i: InstId, U: Tokens)
    requires last.Drop? || last.Record?
    requires
      || (m.Left? && last == Drop(m.d) && (m.d in order ==> Tok(U, m.d) == ExitTelling(i)))
      || (m.Said? && last.Record?)
    requires forall k :: 0 <= k < |order| && m != Left(order[k]) ==> Present(Tok(U, order[k]), i)
    requires forall j, k :: 0 <= j < k < |order| ==> order[j] != order[k]
    ensures ScriptTidy(Broadcast(order, m) + [last], i, U)
    ensures forall e: DopId :: Drop(e) in Broadcast(order, m) + [last] <==> last == Drop(e)
  {
    var script := Broadcast(order, m) + [last];
    assert script[|order|] == last;
    forall k | 0 <= k < |script| ensures OpTidy(script[k], script, i, U) {
      if k < |order| { assert script[k] == Send(order[k], m); }
    }
  }

  lemma EnterBegins(r: Inst, i: InstId, T: Tokens, order: seq<DopId>, m: ToChat, u: Token)
    requires RosterTidy(r.members, r.script, r.tickets, i, T) && r.script == [] && m.Enter? && OrderTidy(m, i, T)
    requires u == if |r.members| >= MAX_MEMBERS then Refusing(i) else Entering(i)
    ensures ScriptTidy(Script(r.members, m, order), i, T[m.d := u])
    ensures RosterTidy(r.members, Script(r.members, m, order), r.tickets, i, T[m.d := u])
  {
    var U := T[m.d := u];
    assert forall e: DopId :: Present(Tok(U, e), i) == Present(Tok(T, e), i);
    assert forall e :: e in r.members ==> Present(Tok(T, e), i);
    if u.Entering? {
      AcceptTidy(r.members, m.d, m.user, order, i, U);
    } else {
      RefusalTidy(m.d, i, U);
    }
  }

  lemma RefusalTidy(d: DopId, i: InstId, U: Tokens)
    requires Tok(U, d) == Refusing(i)
    ensures ScriptTidy([Refuse(d), Send(d, Denied)], i, U)
    ensures forall e: DopId :: Drop(e) !in [Refuse(d), Send(d, Denied)]
  {
  }

  lemma LeaveScriptTidy(members: map<DopId, int>, d: DopId, order: seq<DopId>, i: InstId, U: Tokens)
    requires Tok(U, d) == ExitTelling(i) && Lists(order, members.Keys)
    requires forall e :: e in members && e != d ==> Present(Tok(U, e), i)
    ensures ScriptTidy(Script(members, Leave(d), order), i, U)
    ensures forall e: DopId :: Drop(e) in Script(members, Leave(d), order) <==> e == d
  {
    BroadcastTidy(order, Left(d), Drop(d), i, U);
  }

  lemma LeaveRosterTidy(r: Inst, i: InstId, T: Tokens, d: DopId, script: seq<Op>)
    requires RosterTidy(r.members, r.script, r.tickets, i, T) && r.script == [] && Tok(T, d) == ExitQueued(i)
    requires forall e: DopId :: Drop(e) in script <==> e == d
    ensures RosterTidy(r.members, script, r.tickets, i, T[d := ExitTelling(i)])
  {
    var U := T[d := ExitTelling(i)];
    forall e: DopId | e != d ensures Tok(U, e) == Tok(T, e) && Drop(e) !in r.script {}
  }

  lemma LeaveBegins(r: Inst, i: InstId, T: Tokens, order: seq<DopId>, d: DopId)
    requires RosterTidy(r.members, r.script, r.tickets, i, T) && r.script == [] && Tok(T, d) == ExitQueued(i)
    requires Lists(order, r.members.Keys)
    ensures ScriptTidy(Script(r.members, Leave(d), order), i, T[d := ExitTelling(i)])
    ensures RosterTidy(r.members, Script(r.members, Leave(d), order), r.tickets, i, T[d := ExitTelling(i)])
  {
    forall e | e in r.members && e != d ensures Present(Tok(T[d := ExitTelling(i)], e), i) {
      assert Tok(T[d := ExitTelling(i)], e) == Tok(T, e);
    }
    LeaveScriptTidy(r.members, d, order, i, T[d := ExitTelling(i)]);
    LeaveRosterTidy(r, i, T, d, Script(r.members, Leave(d), order));
  }

  lemma RosterBegins(r: Inst, i: InstId, T: Tokens, d: DopId)
    requires RosterTidy(r.members, r.script, r.tickets, i, T) && r.script == [] && Present(Tok(T, d), i)
    ensures ScriptTidy([ShowRoster(d)], i, T[d := Tok(T, d)])
    ensures RosterTidy(r.members, [ShowRoster(d)], r.tickets, i, T[d := Tok(T, d)])
  {
    assert forall e: DopId :: Tok(T[d := Tok(T, d)], e) == Tok(T, e);
  }

  /** Room i takes m off its queue and starts on it. */
  lemma RoomTakes(r: Inst, i: InstId, T: Tokens, order: seq<DopId>, u: Token)
    requires RoomTidy(r, i, T) && r.script == [] && r.queue != [] && !r.queue[0].Shutdown?
    requires Lists(order, Audience(r.members, r.queue[0]))
    requires u == Handled(r.queue[0], Tok(T, r.queue[0].d), |r.members| >= MAX_MEMBERS, i)
    ensures RoomTidy(Take(r, order), i, T[r.queue[0].d := u])
  {
    var m := r.queue[0];
    var q := Take(r, order);
    assert OrderTidy(m, i, T);
    assert QueueTidy(q.queue, i, T[m.d := u]) by { QueueShrinks(r.queue, i, T, u); }
    assert ScriptTidy(q.script, i, T[m.d := u]) && RosterTidy(q.members, q.script, q.tickets, i, T[m.d := u]) by {
      match m
      case Enter(_, _) => EnterBegins(r, i, T, order, m, u);
      case Leave(d) => LeaveBegins(r, i, T, order, d);
      case Roster(d) => RosterBegins(r, i, T, d);
    }
  }

  lemma TidyChatTake(s: State, T: Tokens, i: InstId, order: seq<DopId>)
    requires Tidy(s, T) && Enabled(s, ChatTake(i, order)) && !s.insts[i].queue[0].Shutdown?
    ensures Tidy(Apply(s, ChatTake(i, order)), Moved(s, T, ChatTake(i, order)))
  {
    var r := s.insts[i];
    var m := r.queue[0];
    var u := Handled(m, Tok(T, m.d), |r.members| >= MAX_MEMBERS, i);
    HandledAsMoved(r, i, T, u);
    ChatTakeMoves(s, T, i, order, u);
    RoomTakes(r, i, T, order, u);
    TidyTaken(s, PutInst(s, i, Take(r, order)), T, m.d, u, i);
  }

  lemma ChatTakeMoves(s: State, T: Tokens, i: InstId, order: seq<DopId>, u: Token)
    requires i < |s.insts| && s.insts[i].queue != [] && !s.insts[i].queue[0].Shutdown?
    requires u == Handled(s.insts[i].queue[0], Tok(T, s.insts[i].queue[0].d), |s.insts[i].members| >= MAX_MEMBERS, i)
    ensures Apply(s, ChatTake(i, order)) == PutInst(s, i, Take(s.insts[i], order))
    ensures Moved(s, T, ChatTake(i, order)) == T[s.insts[i].queue[0].d := u]
  {
  }

  lemma HandledAsMoved(r: Inst, i: InstId, T: Tokens, u: Token)
    requires RoomTidy(r, i, T) && r.queue != [] && !r.queue[0].Shutdown?
    requires u == Handled(r.queue[0], Tok(T, r.queue[0].d), |r.members| >= MAX_MEMBERS, i)
    ensures var t := Tok(T, r.queue[0].d);
      || (t == Knocking(i) && (u == Entering(i) || u == Refusing(i)))
      || (t == ExitQueued(i) && u == ExitTelling(i))
      || u == t
  {
    assert OrderTidy(r.queue[0], i, T);
  }

  /** d's request is being handled by room i; d itself hears of it later. */
  lemma TidyTaken(s: State, t: State, T: Tokens, d: DopId, u: Token, i: InstId)
    requires Tidy(s, T) && i < |s.insts| && |t.insts| == |s.insts|
    requires t == PutInst(s, i, t.insts[i]) && t.insts[i].cid == s.insts[i].cid
    requires
      || (Tok(T, d) == Knocking(i) && (u == Entering(i) || u == Refusing(i)))
      || (Tok(T, d) == ExitQueued(i) && u == ExitTelling(i))
      || u == Tok(T, d)
    requires RoomTidy(t.insts[i], i, T[d := u])
    ensures Tidy(t, T[d := u])
  {
    assert DopTidy(At(s, d), d, Tok(T, d), Cids(s.insts));
    if u != Tok(T, d) { DopWaits(At(s, d), d, Tok(T, d), u, Cids(s.insts)); }
    MasterIgnores(s, T, d, u);
    assert Cids(t.insts) == Cids(s.insts);
    RoomMoves(s, t, T, d, u, i);
  }

  /** A room goes on without any token moving. */
  lemma RoomStays(s: State, t: State, T: Tokens, i: InstId)
    requires Tidy(s, T) && i < |s.insts| && |t.insts| == |s.insts|
    requires t == PutInst(s, i, t.insts[i]).(denials := t.denials) && t.insts[i].cid == s.insts[i].cid
    requires RoomTidy(t.insts[i], i, T)
    ensures Tidy(t, T)
  {
    assert Cids(t.insts) == Cids(s.insts);
    assert RoomsTidy(t, T) by {
      forall j | 0 <= j < |t.insts| ensures RoomTidy(t.insts[j], j, T) {
        assert RoomTidy(s.insts[j], j, T);
      }
    }
    assert DopsTidy(t, T) by {
      forall e: DopId ensures DopTidy(At(t, e), e, Tok(T, e), Cids(t.insts)) {
        assert DopTidy(At(s, e), e, Tok(T, e), Cids(s.insts));
      }
    }
  }

  lemma TidyChatClose(s: State, T: Tokens, i: InstId, order: seq<DopId>)
    requires Books(s) && Tidy(s, T) && Enabled(s, ChatTake(i, order)) && s.insts[i].queue[0].Shutdown?
    ensures Tidy(Apply(s, ChatTake(i, order)), T)
  {
    var r := s.insts[i];
    assert RoomTidy(r, i, T) && RoomOk(r, Registered(s, i));
    assert r.queue[1..] == [];
    RoomStays(s, Apply(s, ChatTake(i, order)), T, i);
  }

  lemma TidyChatListen(s: State, T: Tokens, i: InstId, order: seq<DopId>)
    requires Tidy(s, T) && Enabled(s, ChatListen(i, order))
    ensures Tidy(Apply(s, ChatListen(i, order)), T)
  {
    var r := s.insts[i];
    assert RoomTidy(r, i, T);
    assert forall e :: e in r.members ==> Present(Tok(T, e), i);
    BroadcastTidy(order, Said(r.inbox[0]), Record(r.inbox[0]), i, T);
    RoomStays(s, Apply(s, ChatListen(i, order)), T, i);
  }

  /** A message arrives at a doppelganger that is waiting for it, or is on the channel. */
  lemma DopReceives(x: Dop, d: DopId, m: FromChat, t: Token, u: Token, cids: seq<ChatId>)
    requires DopTidy(x, d, t, cids)
    requires Room(u).Some? ==> Room(u).value < |cids|
    requires
      if m.Denied? then t.Refusing? && u.Rebuffed?
      else if m.Joined? then t == Entering(m.inst) && u == Invited(m.inst) && m.inst < |cids| && cids[m.inst] == m.c
      else if m == Left(d) then t.ExitTelling? && u.ExitTold?
      else !t.Free? && u == t
    ensures !x.closed
    ensures DopTidy(x.(fromChat := x.fromChat + [m]), d, u, cids)
  {
    var q := x.fromChat + [m];
    forall k | 0 <= k < |q|
      ensures AnswerTidy(q[k], d, u, cids) && (k < |x.fromChat| && Answer(m, d) ==> !Answer(q[k], d))
    {
      if k < |x.fromChat| { assert AnswerTidy(x.fromChat[k], d, t, cids); }
    }
  }

  /** The token's move when its room performs an operation. */
  function Performed(op: Op, t: Token, i: InstId): Token {
    match op
    case Admit(_, _) => Invited(i)
    case Send(d, m) => if m.Denied? then Rebuffed else if m == Left(d) then ExitTold else t
    case _ => t
  }

  predicate Unpaired(script: seq<Op>) {
    forall k :: 0 < k < |script| ==> !script[k].Admit? && !script[k].Refuse?
  }

  /** The rest of a script, once its first operation is done. */
  lemma ScriptGoesOn(script: seq<Op>, i: InstId, T: Tokens, u: Token)
    requires ScriptTidy(script, i, T) && script != [] && Unpaired(script)
    requires script[0].Admit? || script[0].Send? || script[0].ShowRoster? || script[0].Refuse?
    requires u == Performed(script[0], Tok(T, script[0].d), i)
    ensures ScriptTidy(script[1..], i, T[script[0].d := u])
  {
    var S, d := script[1..], script[0].d;
    assert OpTidy(script[0], script, i, T);
    forall k | 0 <= k < |S| ensures OpTidy(S[k], S, i, T[d := u]) {
      assert OpTidy(script[k + 1], script, i, T);
      assert script[k + 1].Send? && script[0].Send? && script[k + 1].d == d ==>
          !(Answer(script[0].m, d) && Answer(script[k + 1].m, d));
    }
  }

  /** The channel master has nothing of d's once d's request has gone past it. */
  lemma MasterIgnores(s: State, T: Tokens, d: DopId, u: Token)
    requires Tidy(s, T)
    requires var t := Tok(T, d); u == t || t.Refusing? || t.Entering? || t.ExitTelling? || t.Knocking? || t.ExitQueued?
    ensures MasterQTidy(s.masterQ, T[d := u], Cids(s.insts))
    ensures TodoTidy(s.todo, T[d := u], Cids(s.insts))
  {
    if u == Tok(T, d) {
      MasterQStill(s.masterQ, T, Cids(s.insts), d);
    } else {
      NothingAsked(s, T, d);
      MasterQKeeps(s.masterQ, T, Cids(s.insts), d, u);
    }
  }

  /** A message of room i reaches doppelganger d, which is there to take it. */
  lemma TidyDelivered(s: State, T: Tokens, i: InstId, r: Inst, d: DopId, m: FromChat, u: Token)
    requires Tidy(s, T) && i < |s.insts| && r.cid == s.insts[i].cid
    requires
      if m.Denied? then Tok(T, d) == Refusing(i) && u == Rebuffed
      else if m.Joined? then m == Joined(r.cid, i) && Tok(T, d) == Entering(i) && u == Invited(i)
      else if m == Left(d) then Tok(T, d) == ExitTelling(i) && u == ExitTold
      else Present(Tok(T, d), i) && u == Tok(T, d)
    requires RoomTidy(r, i, T[d := u])
    ensures Tidy(Deliver(PutInst(s, i, r), d, m), T[d := u])
  {
    var x := At(s, d).(fromChat := At(s, d).fromChat + [m]);
    assert !At(s, d).closed && DopTidy(x, d, u, Cids(s.insts)) by {
      assert DopTidy(At(s, d), d, Tok(T, d), Cids(s.insts));
      DopReceives(At(s, d), d, m, Tok(T, d), u, Cids(s.insts));
    }
    MasterIgnores(s, T, d, u);
    TidyHandedOver(s, T, i, r, d, x, u);
  }

  lemma TidyHandedOver(s: State, T: Tokens, i: InstId, r: Inst, d: DopId, x: Dop, u: Token)
    requires Tidy(s, T) && i < |s.insts| && r.cid == s.insts[i].cid
    requires Room(u) != Some(i) && Room(u).Some? ==> u == Tok(T, d)
    requires Room(Tok(T, d)) != Some(i) && Room(Tok(T, d)).Some? ==> u == Tok(T, d)
    requires RoomTidy(r, i, T[d := u])
    requires DopTidy(x, d, u, Cids(s.insts))
    requires MasterQTidy(s.masterQ, T[d := u], Cids(s.insts))
    requires TodoTidy(s.todo, T[d := u], Cids(s.insts))
    ensures Tidy(Put(PutInst(s, i, r), d, x), T[d := u])
  {
    var t := Put(PutInst(s, i, r), d, x);
    assert Cids(t.insts) == Cids(s.insts);
    RoomMoves(s, t, T, d, u, i);
  }

  lemma TidyAdmit(s: State, T: Tokens, i: InstId)
    requires Books(s) && Tidy(s, T) && Enabled(s, ChatStep(i)) && s.insts[i].script[0].Admit?
    ensures Tidy(Apply(s, ChatStep(i)), Moved(s, T, ChatStep(i)))
  {
    var r := s.insts[i];
    var d := r.script[0].d;
    assert RoomTidy(r, i, T) && OpTidy(r.script[0], r.script, i, T);
    assert Unpaired(r.script) by { assert RoomOk(r, Registered(s, i)); }
    RoomAdmits(r, i, T);
    TidyDelivered(s, T, i, Perform(r), d, Joined(r.cid, i), Invited(i));
  }

  /** Token t of d is not about anything in the room's queue. */
  lemma QueueIgnores(q: seq<ToChat>, i: InstId, T: Tokens, d: DopId, u: Token)
    requires QueueTidy(q, i, T)
    requires Tok(T, d) == Entering(i) || Tok(T, d) == Refusing(i) || Tok(T, d) == ExitTelling(i) || u == Tok(T, d)
    ensures QueueTidy(q, i, T[d := u])
  {
    forall k | 0 <= k < |q| ensures OrderTidy(q[k], i, T[d := u]) {
      assert OrderTidy(q[k], i, T);
    }
  }

  lemma RoomAdmits(r: Inst, i: InstId, T: Tokens)
    requires RoomTidy(r, i, T) && r.script != [] && r.script[0].Admit? && Unpaired(r.script)
    ensures RoomTidy(Perform(r), i, T[r.script[0].d := Invited(i)])
  {
    var d := r.script[0].d;
    assert OpTidy(r.script[0], r.script, i, T);
    ScriptGoesOn(r.script, i, T, Invited(i));
    QueueIgnores(r.queue, i, T, d, Invited(i));
    forall k | 0 <= k < |r.script| ensures !r.script[k].Drop? {
      assert OpTidy(r.script[k], r.script, i, T);
    }
    assert forall e: DopId :: e != d ==> Tok(T[d := Invited(i)], e) == Tok(T, e);
  }

  /** A message of a script reaches the doppelganger it is for. */
  lemma TidyTells(s: State, T: Tokens, i: InstId, m: FromChat)
    requires Books(s) && Tidy(s, T) && Enabled(s, ChatStep(i))
    requires var op := s.insts[i].script[0];
      (op.Send? && op.m == m) || (op.ShowRoster? && m == Notice && s.insts[i].members != map[])
    ensures var d := s.insts[i].script[0].d;
      Tidy(Apply(s, ChatStep(i)), T[d := Performed(s.insts[i].script[0], Tok(T, d), i)])
  {
    var r := s.insts[i];
    var d := r.script[0].d;
    var u := Performed(r.script[0], Tok(T, d), i);
    assert RoomTidy(r, i, T) && OpTidy(r.script[0], r.script, i, T);
    assert Unpaired(r.script) && !m.Joined? by { assert RoomOk(r, Registered(s, i)); }
    RoomTells(r, i, T, u);
    TidyDelivered(s, T, i, Perform(r), d, m, u);
  }

  lemma RoomTells(r: Inst, i: InstId, T: Tokens, u: Token)
    requires RoomTidy(r, i, T) && r.script != [] && Unpaired(r.script) && (r.script[0].Send? || r.script[0].ShowRoster?)
    requires u == Performed(r.script[0], Tok(T, r.script[0].d), i)
    ensures RoomTidy(Perform(r), i, T[r.script[0].d := u])
  {
    var d := r.script[0].d;
    assert OpTidy(r.script[0], r.script, i, T);
    ScriptGoesOn(r.script, i, T, u);
    QueueIgnores(r.queue, i, T, d, u);
    RosterGoesOn(r.members, r.script, r.tickets, i, T, d, u);
  }

  lemma RosterGoesOn(members: map<DopId, int>, script: seq<Op>, tickets: multiset<DopId>,
                     i: InstId, T: Tokens, d: DopId, u: Token)
    requires RosterTidy(members, script, tickets, i, T) && script != [] && !script[0].Drop?
    requires Present(u, i) ==> u == Tok(T, d)
    requires Present(Tok(T, d), i) ==> u == Tok(T, d)
    ensures RosterTidy(members, script[1..], tickets, i, T[d := u])
  {
    forall e: DopId
      ensures Present(Tok(T[d := u], e), i) == Present(Tok(T, e), i)
      ensures Drop(e) in script <==> Drop(e) in script[1..]
    {
      assert script == [script[0]] + script[1..];
    }
  }

  lemma TidyPrivate(s: State, T: Tokens, i: InstId)
    requires Books(s) && Tidy(s, T) && Enabled(s, ChatStep(i))
    requires var op := s.insts[i].script[0]; op.Refuse? || op.Drop? || op.Record?
    ensures Tidy(Apply(s, ChatStep(i)), T)
  {
    var r := s.insts[i];
    assert RoomTidy(r, i, T) && RoomOk(r, Registered(s, i));
    RoomPrivate(r, i, T);
    PrivateStep(s, i);
    RoomStays(s, ChatSteps(s, i), T, i);
  }

  lemma PrivateStep(s: State, i: InstId)
    requires Enabled(s, ChatStep(i))
    requires var op := s.insts[i].script[0]; op.Refuse? || op.Drop? || op.Record?
    ensures ChatSteps(s, i) == PutInst(s, i, Perform(s.insts[i])).(denials := ChatSteps(s, i).denials)
    ensures Perform(s.insts[i]).cid == s.insts[i].cid
  {
  }

  lemma RoomPrivate(r: Inst, i: InstId, T: Tokens)
    requires RoomTidy(r, i, T) && r.script != [] && Unpaired(r.script)
    requires r.script[0].Refuse? || r.script[0].Drop? || r.script[0].Record?
    ensures RoomTidy(Perform(r), i, T)
  {
    var q := Perform(r);
    assert ScriptTidy(q.script, i, T) by {
      forall k | 0 <= k < |q.script| ensures OpTidy(q.script[k], q.script, i, T) {
        assert OpTidy(r.script[k + 1], r.script, i, T);
      }
    }
    assert RosterTidy(q.members, q.script, q.tickets, i, T) by {
      assert r.script == [r.script[0]] + q.script;
      assert r.script[0] in r.script;
      forall e: DopId ensures Drop(e) in r.script <==> r.script[0] == Drop(e) || Drop(e) in q.script {}
    }
  }

  lemma TidyChatStep(s: State, T: Tokens, i: InstId)
    requires Books(s) && Tidy(s, T) && Enabled(s, ChatStep(i))
    ensures Tidy(Apply(s, ChatStep(i)), Moved(s, T, ChatStep(i)))
  {
    var r := s.insts[i];
    match r.script[0]
    case Admit(_, _) => TidyAdmit(s, T, i);
    case Send(_, m) => TidyTells(s, T, i, m);
    case ShowRoster(d) =>
      assert d in r.members by {
        assert RoomTidy(r, i, T) && OpTidy(r.script[0], r.script, i, T);
      }
      TidyTells(s, T, i, Notice);
    case _ => TidyPrivate(s, T, i);
  }

  // ------------------------------------------------------------------ every orderly run

  lemma TidyStep(s: State, T: Tokens, a: Action)
    requires Books(s) && Tidy(s, T) && Enabled(s, a) && OrderlyStep(s, a)
    ensures Tidy(Apply(s, a), Moved(s, T, a))
  {
    match a
    case Lose(d) => TidyLose(s, T, d);
    case Issue(d, cmd, lost) => TidyIssue(s, T, d, cmd, lost);
    case GetFromMaster(d, lost) => TidyGetFromMaster(s, T, d, lost);
    case GetFromChat(d, lost) => TidyGetFromChat(s, T, d, lost);
    case ExitProcedure(d) => TidyExitProcedure(s, T, d);
    case MasterTake(found) => TidyTakes(s, T, found);
    case MasterHear => TidyMasterHear(s, T);
    case MasterSend => TidySending(s, T);
    case _ => TidyRooms(s, T, a);
  }

  lemma TidyTakes(s: State, T: Tokens, found: nat)
    requires Books(s) && Tidy(s, T) && Enabled(s, MasterTake(found))
    ensures Tidy(Apply(s, MasterTake(found)), Moved(s, T, MasterTake(found)))
  {
    if s.masterQ[0].Join? && s.masterQ[0].name != "" && found != 0 && found !in s.reg {
      TidyLaunch(s, T, found);
    } else {
      TidyMasterTake(s, T, found);
    }
  }

  lemma TidySending(s: State, T: Tokens)
    requires Books(s) && Tidy(s, T) && Enabled(s, MasterSend)
    ensures Tidy(Apply(s, MasterSend), Moved(s, T, MasterSend))
  {
    if s.todo.Reply? {
      TidyReply(s, T);
    } else if s.todo.m.Shutdown? {
      TidyShutdown(s, T);
    } else {
      TidyForward(s, T);
    }
  }

  lemma TidyRooms(s: State, T: Tokens, a: Action)
    requires Books(s) && Tidy(s, T) && Enabled(s, a) && (a.ChatTake? || a.ChatListen? || a.ChatStep?)
    ensures Tidy(Apply(s, a), Moved(s, T, a))
  {
    match a
    case ChatTake(i, order) =>
      if s.insts[i].queue[0].Shutdown? { TidyChatClose(s, T, i, order); } else { TidyChatTake(s, T, i, order); }
    case ChatListen(i, order) => TidyChatListen(s, T, i, order);
    case ChatStep(i) => TidyChatStep(s, T, i);
  }

  lemma {:induction false} OrderlyIsPossible(h: seq<Action>)
    requires OrderlyRun(h)
    ensures Possible(h)
  {
    if h != [] { OrderlyIsPossible(h[..|h| - 1]); }
  }

  /** Every orderly history leaves the server tidy. */
  lemma {:induction false} OrderlyIsTidy(h: seq<Action>) returns (T: Tokens)
    requires OrderlyRun(h)
    ensures Books(After(h)) && Tidy(After(h), T)
  {
    OrderlyIsPossible(h);
    BooksBalance(h);
    if h == [] {
      T := map[];
      assert forall d: DopId :: DopTidy(At(INIT, d), d, Tok(T, d), Cids(INIT.insts));
    } else {
      var g, a := h[..|h| - 1], h[|h| - 1];
      var U := OrderlyIsTidy(g);
      TidyStep(After(g), U, a);
      T := Moved(After(g), U, a);
    }
  }

  /** No orderly history, with disconnects at any point, makes a goroutine send on a
      closed go channel, list an empty roster, or the channel master panic or halt. */
  lemma OrderlyRunsAreSafe(h: seq<Action>)
    requires OrderlyRun(h)
    ensures After(h).fault == Healthy && !After(h).todo.Halted?
  {
    var T := OrderlyIsTidy(h);
  }

  /** A doppelganger that has closed its callbacks is forgotten: no queue, no pending send
      and no script names it, and a goroutine that still lists it is about to take it off. */
  lemma ClosedIsForgotten(h: seq<Action>, d: DopId)
    requires OrderlyRun(h) && At(After(h), d).closed
    ensures Closing.Forgotten(After(h), d)
  {
    var T := OrderlyIsTidy(h);
    ClosedIsUnnamed(After(h), T, d);
  }

  lemma ClosedIsUnnamed(s: State, T: Tokens, d: DopId)
    requires Tidy(s, T) && At(s, d).closed
    ensures Closing.Forgotten(s, d)
  {
    assert DopTidy(At(s, d), d, Tok(T, d), Cids(s.insts));
    forall k | 0 <= k < |s.masterQ| ensures !Closing.Asks(s.masterQ[k], d) {
      assert RequestTidy(s.masterQ[k], T, Cids(s.insts));
    }
    forall i | 0 <= i < |s.insts| ensures !Closing.RoomNames(s.insts[i], d) {
      assert RoomTidy(s.insts[i], i, T);
      RoomForgets(s.insts[i], i, T, d);
    }
  }

  lemma RoomForgets(r: Inst, i: InstId, T: Tokens, d: DopId)
    requires RoomTidy(r, i, T) && Tok(T, d).Free?
    ensures !Closing.RoomNames(r, d)
  {
    forall k | 0 <= k < |r.queue| ensures !Closing.Owes(r.queue[k], d) {
      assert OrderTidy(r.queue[k], i, T);
    }
    forall k | 0 <= k < |r.script| ensures Addressee(r.script[k]) != Some(d) {
      assert OpTidy(r.script[k], r.script, i, T);
      assert OpTidy(r.script[0], r.script, i, T);
    }
  }

  /** An orderly user has at most one answer to come, so at most one Joined. */
  lemma OneAnswerToCome(h: seq<Action>, d: DopId)
    requires OrderlyRun(h)
    ensures At(After(h), d).awaiting <= 1
    ensures forall j, k :: 0 <= j < k < |At(After(h), d).fromChat| ==>
              !(At(After(h), d).fromChat[j].Joined? && At(After(h), d).fromChat[k].Joined?)
  {
    var T := OrderlyIsTidy(h);
    assert DopTidy(At(After(h), d), d, Tok(T, d), Cids(After(h).insts));
  }

  /** Apart from goroutines about to take it off, at most one lists a doppelganger. */
  lemma OneChannelAtATime(h: seq<Action>, d: DopId, i: InstId, j: InstId)
    requires OrderlyRun(h) && i < |After(h).insts| && j < |After(h).insts| && i != j
    requires d in After(h).insts[i].members && d in After(h).insts[j].members
    ensures Drop(d) in After(h).insts[i].script || Drop(d) in After(h).insts[j].script
  {
    var T := OrderlyIsTidy(h);
    ListedInOneRoom(After(h), T, d, i, j);
  }

  lemma ListedInOneRoom(s: State, T: Tokens, d: DopId, i: InstId, j: InstId)
    requires Tidy(s, T) && i < |s.insts| && j < |s.insts| && i != j
    requires d in s.insts[i].members && d in s.insts[j].members
    ensures Drop(d) in s.insts[i].script || Drop(d) in s.insts[j].script
  {
    assert RoomTidy(s.insts[i], i, T) && RoomTidy(s.insts[j], j, T);
  }
}
