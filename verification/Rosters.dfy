/** A roster asked of a chat channel: what its list will be by then is decided by what is
    ahead in the queue, whatever else happens in the meantime. */
module Rosters {
  import opened Wire
  import opened ChatRoom
  import opened Network
  import opened ChatChannel
  import opened Closing
  import opened Conversation
  import opened Reckoning

  /** The list after a message has been dealt with. */
  function Served(members: map<DopId, int>, m: ToChat): map<DopId, int> {
    if m.Leave? then members - {m.d} else Admitted(members, m)
  }

  function ServedAll(members: map<DopId, int>, q: seq<ToChat>): map<DopId, int>
    decreases |q|
  {
    if q == [] then members else ServedAll(Served(members, q[0]), q[1..])
  }

  /** The list when the k-th message of the queue is taken. */
  function Due(r: Inst, k: nat): map<DopId, int>
    requires k <= |r.queue|
  {
    ServedAll(Coming(r), r.queue[..k])
  }

  lemma ScriptServes(members: map<DopId, int>, m: ToChat, order: seq<DopId>)
    ensures Roll(members, Script(members, m, order)) == Served(members, m)
  {
    if m.Leave? { LeaveScript(0, 0, members, [], m.d, order); } else { ScriptAdmits(members, m, order); }
  }

  lemma TakeKeepsDue(r: Inst, order: seq<DopId>, k: nat)
    requires r.script == [] && 0 < k <= |r.queue|
    ensures Due(Take(r, order), k - 1) == Due(r, k)
  {
    ScriptServes(r.members, r.queue[0], order);
    assert r.queue[..k][1..] == r.queue[1..][..k - 1];
  }

  lemma ListenKeepsDue(r: Inst, order: seq<DopId>, k: nat)
    requires r.script == [] && r.inbox != [] && k <= |r.queue|
    ensures Due(Listen(r, order), k) == Due(r, k)
  {
    SpokenScript(0, 0, r.members, [], r.inbox[0], order);
  }

  lemma PerformKeepsDue(r: Inst, k: nat)
    requires r.script != [] && k <= |r.queue|
    ensures Perform(r).queue == r.queue && Due(Perform(r), k) == Due(r, k)
  {
  }

  /** Other goroutines only add to the queue. */
  lemma QueueOnlyGrows(s: State, a: Action, i: InstId)
    requires Enabled(s, a) && i < |s.insts| && !(a.ChatTake? && a.i == i)
    ensures i < |Apply(s, a).insts| && s.insts[i].queue <= Apply(s, a).insts[i].queue
  {
    RoomBecomes(s, a, i);
    match a
    case MasterTake(found) => MasterTakesOrLaunches(s, found, i);
    case MasterSend => SendingOnlyAdds(s, i);
    case ChatStep(j) => RoomStepsItself(s, i, j);
    case ChatTake(_, _) =>
    case ChatListen(_, _) =>
    case MasterHear =>
    case _ => UsersOnlySpeak(s, a);
  }

  lemma SendingOnlyAdds(s: State, i: InstId)
    requires Enabled(s, MasterSend) && i < |s.insts|
    ensures i < |MasterSends(s).insts| && s.insts[i].queue <= MasterSends(s).insts[i].queue
  {
  }

  predicate Takes(a: Action, i: InstId) { a.ChatTake? && a.i == i }

  function Taken(g: seq<Action>, i: InstId): nat {
    if g == [] then 0 else Taken(g[..|g| - 1], i) + if Takes(g[|g| - 1], i) then 1 else 0
  }

  /** What is k-th in the queue of instance i in s is j-th in t, and due at the same list. */
  predicate SameTurn(s: State, k: nat, t: State, j: nat, i: InstId) {
    && i < |s.insts| && i < |t.insts| && k < |s.insts[i].queue| && j < |t.insts[i].queue|
    && t.insts[i].queue[j] == s.insts[i].queue[k] && Due(t.insts[i], j) == Due(s.insts[i], k)
  }

  lemma DueStep(s: State, a: Action, i: InstId, k: nat)
    requires Enabled(s, a) && i < |s.insts| && k < |s.insts[i].queue| && (Takes(a, i) ==> 0 < k)
    ensures SameTurn(s, k, Apply(s, a), if Takes(a, i) then k - 1 else k, i)
  {
    RoomBecomes(s, a, i);
    var r, q := s.insts[i], Apply(s, a).insts[i];
    if Takes(a, i) {
      TakeKeepsDue(r, a.order, k);
    } else {
      QueueOnlyGrows(s, a, i);
      assert q.queue[..k] == r.queue[..k];
      if a.ChatListen? && a.i == i {
        ListenKeepsDue(r, a.order, k);
      } else if a == ChatStep(i) {
        RoomStepsItself(s, i, i);
        PerformKeepsDue(r, k);
      }
    }
  }

  /** However the run goes on, what is k-th in the queue stays due at the same list until
      it is its turn. */
  lemma {:induction false} DueInTheEnd(h: seq<Action>, g: seq<Action>, i: InstId, k: nat)
    requires Possible(h + g) && Possible(h) && i < |After(h).insts| && k < |After(h).insts[i].queue|
    requires Taken(g, i) <= k
    ensures SameTurn(After(h), k, After(h + g), k - Taken(g, i), i)
    decreases |g|
  {
    if g == [] {
      assert h + g == h;
    } else {
      var m := |g| - 1;
      LastOf(h, g);
      DueInTheEnd(h, g[..m], i, k);
      DueNext(After(h), k, After(h + g[..m]), k - Taken(g[..m], i), g[m], i);
    }
  }

  lemma DueNext(s: State, k: nat, t: State, j: nat, a: Action, i: InstId)
    requires SameTurn(s, k, t, j, i) && Enabled(t, a) && (Takes(a, i) ==> 0 < j)
    ensures SameTurn(s, k, Apply(t, a), if Takes(a, i) then j - 1 else j, i)
  {
    DueStep(t, a, i, j);
  }

  lemma LastOf(h: seq<Action>, g: seq<Action>)
    requires g != [] && Possible(h + g)
    ensures var m := |g| - 1;
      Possible(h + g[..m]) && Enabled(After(h + g[..m]), g[m]) && After(h + g) == Apply(After(h + g[..m]), g[m])
  {
    var m := |g| - 1;
    assert (h + g)[..|h + g| - 1] == h + g[..m];
    assert (h + g)[|h + g| - 1] == g[m];
  }

  /** A request for the roster that is k-th in the queue panics if and only if what is ahead
      of it leaves the list empty, whatever happens before its turn comes. */
  lemma RosterPanicsExactly(h: seq<Action>, g: seq<Action>, i: InstId, k: nat, order: seq<DopId>)
    requires Possible(h) && i < |After(h).insts| && k < |After(h).insts[i].queue| && After(h).insts[i].queue[k].Roster?
    requires Taken(g, i) == k && Possible(h + g) && Enabled(After(h + g), ChatTake(i, order))
    ensures var t := Apply(After(h + g), ChatTake(i, order));
      && Enabled(t, ChatStep(i))
      && (Apply(t, ChatStep(i)).fault == EmptyRoster(i) <==> Due(After(h).insts[i], k) == map[])
  {
    DueInTheEnd(h, g, i, k);
    var s := After(h + g);
    RosterTurn(s, i, order);
  }

  lemma RosterTurn(s: State, i: InstId, order: seq<DopId>)
    requires Enabled(s, ChatTake(i, order)) && s.insts[i].queue[0].Roster?
    ensures var t := Apply(s, ChatTake(i, order));
      && Enabled(t, ChatStep(i))
      && (Apply(t, ChatStep(i)).fault == EmptyRoster(i) <==> Due(s.insts[i], 0) == map[])
  {
    EmptyRosterExactly(Apply(s, ChatTake(i, order)), ChatStep(i), i);
    assert s.insts[i].queue[..0] == [];
  }
}
