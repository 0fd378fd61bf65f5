/** Six at a time: no chat channel ever lists more members than it may. */
module Capacity {
  import opened Wire
  import opened ChatRoom
  import opened Network
  import opened Conversation
  import opened ChatChannel

  /** The list is within its limit, and has a place for whoever is about to be admitted. */
  ghost predicate Uncrowded(r: Inst) {
    && |r.members| <= MAX_MEMBERS
    && (r.script != [] && r.script[0].Admit? ==> |r.members| < MAX_MEMBERS)
    && (forall k :: 0 < k < |r.script| ==> !r.script[k].Admit?)
  }

  lemma AnnouncingAdmitsNobody(order: seq<DopId>, members: map<DopId, int>, user: int)
    ensures forall k :: 0 <= k < |Announce(order, members, user)| ==> !Announce(order, members, user)[k].Admit?
  {
    forall k | 0 <= k < |Announce(order, members, user)| ensures !Announce(order, members, user)[k].Admit? {
      assert Announce(order, members, user)[k] in Announce(order, members, user);
    }
  }

  lemma AcceptAdmitsOne(members: map<DopId, int>, d: DopId, user: int, order: seq<DopId>)
    ensures forall k :: 0 < k < |Accept(members, d, user, order)| ==> !Accept(members, d, user, order)[k].Admit?
  {
    AnnouncingAdmitsNobody(order, members[d := user], user);
    assert Accept(members, d, user, order)
        == [Admit(d, user), ShowRoster(d)] + Announce(order, members[d := user], user);
  }

  lemma TakeUncrowded(r: Inst, order: seq<DopId>)
    requires Uncrowded(r) && r.queue != []
    ensures Uncrowded(Take(r, order))
  {
    if r.queue[0].Enter? { AcceptAdmitsOne(r.members, r.queue[0].d, r.queue[0].user, order); }
  }

  lemma PerformUncrowded(r: Inst)
    requires Uncrowded(r) && r.script != []
    ensures Uncrowded(Perform(r))
  {
    NoAdmissionLeft(r);
    match r.script[0]
    case Admit(d, user) => GrowsByOne(r.members, d, user);
    case Drop(d) => ShrinksAtMost(r.members, d);
    case _ =>
  }

  lemma NoAdmissionLeft(r: Inst)
    requires Uncrowded(r) && r.script != []
    ensures Perform(r).script == r.script[1..]
    ensures forall k :: 0 <= k < |r.script| - 1 ==> !r.script[1..][k].Admit?
  {
    assert forall k :: 0 <= k < |r.script| - 1 ==> r.script[1..][k] == r.script[k + 1];
  }

  lemma UncrowdedStep(s: State, a: Action, i: InstId)
    requires Enabled(s, a) && i < |Apply(s, a).insts| && (i < |s.insts| ==> Uncrowded(s.insts[i]))
    ensures Uncrowded(Apply(s, a).insts[i])
  {
    if i < |s.insts| {
      RoomBecomes(s, a, i);
      match a
      case ChatTake(j, order) => if j == i { TakeUncrowded(s.insts[i], order); }
      case ChatStep(j) => if j == i { PerformUncrowded(s.insts[i]); }
      case _ =>
    } else {
      OnlyMasterTakeLaunches(s, a, i);
      MasterTakesOrLaunches(s, a.found, i);
      AcceptAdmitsOne(map[], s.masterQ[0].d, s.masterQ[0].user, [s.masterQ[0].d]);
    }
  }

  /** In every run. */
  lemma {:induction false} AtMostSix(h: seq<Action>, i: InstId)
    requires Possible(h) && i < |After(h).insts|
    ensures Uncrowded(After(h).insts[i])
    ensures |After(h).insts[i].members| <= 6
  {
    if h != [] {
      var g := h[..|h| - 1];
      if i < |After(g).insts| { AtMostSix(g, i); }
      UncrowdedStep(After(g), h[|h| - 1], i);
    }
  }
}
