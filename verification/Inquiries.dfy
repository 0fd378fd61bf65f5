/** In every run: of the requests for the roster that the channel master takes, exactly
    those sent while a join was pending find no channel.  A doppelganger's exits ahead of
    its request do not use up its tickets. */
module Inquiries {
  import opened Options
  import opened Wire
  import opened Client
  import opened ChatRoom
  import opened Network
  import opened Membership

  /** Exits of d from c that reach the instance before what is k-th in the queue does. */
  function Ahead(s: State, k: nat, c: ChatId, d: DopId): nat
    requires k <= |s.masterQ|
  {
    multiset(s.masterQ[..k])[Exit(c, d)] + Bit(s.todo == Forward(c, Leave(d)))
  }

  ghost predicate InquiryOk(s: State, k: nat)
    requires k < |s.masterQ|
  {
    var m := s.masterQ[k];
    m.Who? ==> m.c == -1 || (m.c in s.reg && Ahead(s, k, m.c, m.d) < Tickets(s, m.d, m.c))
  }

  ghost predicate InquiriesOk(s: State) {
    forall k :: 0 <= k < |s.masterQ| ==> InquiryOk(s, k)
  }

  /** Nobody loses a ticket but by an exit that was under way. */
  ghost predicate TicketsKeep(s: State, t: State) {
    && (forall c :: c in s.reg ==> c in t.reg)
    && (forall c, d: DopId :: c in s.reg ==>
          Bit(t.todo == Forward(c, Leave(d))) + Tickets(s, d, c)
            <= Bit(s.todo == Forward(c, Leave(d))) + Tickets(t, d, c))
  }

  lemma InquiriesStay(s: State, t: State)
    requires InquiriesOk(s) && TicketsKeep(s, t) && t.masterQ == s.masterQ
    ensures InquiriesOk(t)
  {
    forall k | 0 <= k < |t.masterQ| ensures InquiryOk(t, k) {
      assert InquiryOk(s, k);
    }
  }

  /** One more request; if it asks for a roster, its sender is on the channel. */
  lemma InquiriesGrow(s: State, t: State, m: ToMaster)
    requires InquiriesOk(s) && t == s.(dops := t.dops, masterQ := s.masterQ + [m])
    requires m.Who? ==> m.c == -1 || (m.c in s.reg && UnderWay(s, m.d, m.c) < Tickets(s, m.d, m.c))
    ensures InquiriesOk(t)
  {
    forall k | 0 <= k < |t.masterQ| ensures InquiryOk(t, k) {
      if k < |s.masterQ| {
        assert InquiryOk(s, k);
        assert t.masterQ[..k] == s.masterQ[..k];
      } else {
        assert t.masterQ[..k] == s.masterQ;
      }
    }
  }

  /** The head of the queue is taken; an exit at the head is now about to be forwarded. */
  lemma InquiriesShrink(s: State, t: State)
    requires InquiriesOk(s) && s.todo == Idle && s.masterQ != [] && t.masterQ == s.masterQ[1..]
    requires forall c :: c in s.reg ==> c in t.reg
    requires forall c, d: DopId :: c in s.reg ==> Tickets(s, d, c) <= Tickets(t, d, c)
    requires t.todo.Forward? && t.todo.m.Leave? ==> s.masterQ[0] == Exit(t.todo.c, t.todo.m.d)
    ensures InquiriesOk(t)
  {
    forall k | 0 <= k < |t.masterQ| ensures InquiryOk(t, k) {
      assert InquiryOk(s, k + 1);
      assert s.masterQ[..k + 1] == [s.masterQ[0]] + t.masterQ[..k];
      MultisetTail(s.masterQ[..k + 1]);
      assert s.masterQ[..k + 1][1..] == t.masterQ[..k];
    }
  }

  lemma InquiriesMasterTake(s: State, found: nat)
    requires Books(s) && InquiriesOk(s) && Enabled(s, MasterTake(found))
    ensures InquiriesOk(Apply(s, MasterTake(found)))
  {
    forall c, d: DopId | c in s.reg ensures Tickets(s, d, c) <= Tickets(Apply(s, MasterTake(found)), d, c) {
      TakingCostsNothing(s, found, c, d);
    }
    InquiriesShrink(s, Apply(s, MasterTake(found)));
  }

  lemma TakingCostsNothing(s: State, found: nat, c: ChatId, d: DopId)
    requires EntriesOk(s) && Enabled(s, MasterTake(found)) && c in s.reg
    ensures Tickets(s, d, c) <= Tickets(Apply(s, MasterTake(found)), d, c)
  {
    assert EntryOk(s, c);
  }

  /** Sending: an exit that goes out takes its ticket along. */
  lemma InquiriesMasterSend(s: State)
    requires Books(s) && InquiriesOk(s) && Enabled(s, MasterSend) && !(s.todo.Forward? && s.todo.m.Shutdown?)
    ensures InquiriesOk(Apply(s, MasterSend))
  {
    var t := Apply(s, MasterSend);
    forall c, d: DopId | c in s.reg
      ensures Bit(t.todo == Forward(c, Leave(d))) + Tickets(s, d, c)
           <= Bit(s.todo == Forward(c, Leave(d))) + Tickets(t, d, c)
    {
      if s.todo.Forward? { SendingCostsTheTicket(s, c, d); }
    }
    InquiriesStay(s, t);
  }

  lemma SendingCostsTheTicket(s: State, c: ChatId, d: DopId)
    requires EntriesOk(s) && s.todo.Forward? && !s.todo.m.Shutdown? && c in s.reg
    ensures var t := MasterSends(s);
      Bit(t.todo == Forward(c, Leave(d))) + Tickets(s, d, c)
        <= Bit(s.todo == Forward(c, Leave(d))) + Tickets(t, d, c)
  {
    assert EntryOk(s, c);
    assert s.todo.c in s.reg ==> EntryOk(s, s.todo.c);
  }

  /** A channel that is struck off has no tickets, so nobody waits to hear of it. */
  lemma InquiriesStrikeOff(s: State)
    requires Books(s) && InquiriesOk(s) && Enabled(s, MasterSend) && s.todo.Forward? && s.todo.m.Shutdown?
    ensures InquiriesOk(Apply(s, MasterSend))
  {
    var t := Apply(s, MasterSend);
    var c := s.todo.c;
    assert EntryOk(s, c);
    SendsSafely(s);
    forall k | 0 <= k < |t.masterQ| ensures InquiryOk(t, k) {
      assert InquiryOk(s, k);
      if s.masterQ[k].Who? && s.masterQ[k].c in s.reg && s.masterQ[k].c != c { assert EntryOk(s, s.masterQ[k].c); }
    }
  }

  lemma InquiriesRoom(s: State, t: State)
    requires InquiriesOk(s) && t.masterQ == s.masterQ && t.todo == s.todo && t.reg == s.reg && |t.insts| == |s.insts|
    requires forall i, d: DopId :: 0 <= i < |s.insts| ==> s.insts[i].tickets[d] <= t.insts[i].tickets[d]
    ensures InquiriesOk(t)
  {
    InquiriesStay(s, t);
  }

  lemma InquiriesIssue(s: State, d: DopId, cmd: Command, lost: bool)
    requires Books(s) && InquiriesOk(s) && Enabled(s, Issue(d, cmd, lost))
    ensures InquiriesOk(Apply(s, Issue(d, cmd, lost)))
  {
    var (x, out) := Obey(At(s, d), d, cmd, lost);
    var t := Apply(s, Issue(d, cmd, lost));
    assert DopOk(s, d);
    if out.ToTheMaster? {
      if out.m.Who? && out.m.c != -1 { assert Claims(s, d, out.m.c) <= Tickets(s, d, out.m.c); }
      InquiriesGrow(s, t, out.m);
    } else {
      InquiriesRoom(s, t);
    }
  }

  lemma InquiriesExitProcedure(s: State, d: DopId)
    requires Books(s) && InquiriesOk(s) && Enabled(s, ExitProcedure(d))
    ensures InquiriesOk(Apply(s, ExitProcedure(d)))
  {
    var (x, out) := Unwind(At(s, d), d);
    var t := Apply(s, ExitProcedure(d));
    if out.ToTheMaster? { InquiriesGrow(s, t, out.m); } else { InquiriesRoom(s, t); }
  }

  lemma InquiriesStep(s: State, a: Action)
    requires Books(s) && InquiriesOk(s) && Enabled(s, a)
    ensures InquiriesOk(Apply(s, a))
  {
    match a
    case Issue(d, cmd, lost) => InquiriesIssue(s, d, cmd, lost);
    case ExitProcedure(d) => InquiriesExitProcedure(s, d);
    case MasterTake(found) => InquiriesMasterTake(s, found);
    case MasterSend =>
      if s.todo.Forward? && s.todo.m.Shutdown? { InquiriesStrikeOff(s); } else { InquiriesMasterSend(s); }
    case MasterHear =>
      assert s.denials[0] in s.reg;
      InquiriesStay(s, Apply(s, a));
    case ChatTake(_, _) => InquiriesChat(s, a);
    case ChatListen(_, _) => InquiriesChat(s, a);
    case ChatStep(_) => InquiriesChat(s, a);
    case _ => InquiriesStay(s, Apply(s, a));
  }

  lemma InquiriesChat(s: State, a: Action)
    requires InquiriesOk(s) && Enabled(s, a) && (a.ChatTake? || a.ChatListen? || a.ChatStep?)
    ensures InquiriesOk(Apply(s, a))
  {
    if a.ChatStep? { InquiriesChatStep(s, a.i); } else { InquiriesRoom(s, Apply(s, a)); }
  }

  lemma StepTouches(s: State, i: InstId)
    requires Enabled(s, ChatStep(i))
    ensures var t := ChatSteps(s, i);
      t == s.(insts := s.insts[i := Perform(s.insts[i])], dops := t.dops, denials := t.denials, fault := t.fault)
  {
  }

  lemma InquiriesChatStep(s: State, i: InstId)
    requires InquiriesOk(s) && Enabled(s, ChatStep(i))
    ensures InquiriesOk(ChatSteps(s, i))
  {
    var t := ChatSteps(s, i);
    StepTouches(s, i);
    InquiriesRoom(s, t);
  }

  lemma {:induction false} HistoriesInquire(h: seq<Action>)
    requires Possible(h)
    ensures InquiriesOk(After(h))
  {
    if h != [] {
      BooksBalance(h[..|h| - 1]);
      HistoriesInquire(h[..|h| - 1]);
      InquiriesStep(After(h[..|h| - 1]), h[|h| - 1]);
    }
  }

  /** The channel master finds no channel to ask exactly when the request was sent while
      a join was pending. */
  lemma WhoFindsNothingExactly(h: seq<Action>, found: nat)
    requires Possible(h) && Enabled(After(h), MasterTake(found)) && After(h).masterQ[0].Who?
    ensures var s := After(h);
      Apply(s, MasterTake(found)).todo == Idle <==> s.masterQ[0].c == -1
  {
    HistoriesInquire(h);
    BooksBalance(h);
    RegisteredIsPositive(After(h));
    assert InquiryOk(After(h), 0);
  }
}
