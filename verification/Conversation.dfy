/** One authoritative conversation: what a chat channel sends its members is what it logs. */
module Conversation {
  import opened Options
  import opened Wire
  import opened Client
  import opened ChatRoom
  import opened Network

  /** The goroutine is distributing a line, which it will log when it is done. */
  predicate Speaking(script: seq<Op>) {
    script != [] && script[|script| - 1].Record?
  }

  /** A stretch is a contiguous block of the log. */
  predicate Block(s: Stretch, log: seq<Speech>) {
    s.from + |s.lines| <= |log| && s.lines == log[s.from..s.from + |s.lines|]
  }

  /** A member has been sent the log from its admission to the end, and the line being
      distributed unless it is still to be sent. */
  predicate UpToDate(s: Stretch, d: DopId, log: seq<Speech>, script: seq<Op>) {
    && s.from <= |log|
    && if Speaking(script) then
         var m := script[|script| - 1].line;
         s.lines == log[s.from..] + (if Send(d, Said(m)) in script then [] else [m])
       else s.lines == log[s.from..]
  }

  ghost predicate ScriptOk(script: seq<Op>) {
    if Speaking(script) then
      && (forall k :: 0 <= k < |script| - 1 ==> script[k].Send? && script[k].m == Said(script[|script| - 1].line))
      && (forall j, k :: 0 <= j < k < |script| - 1 ==> script[j].d != script[k].d)
    else
      forall k :: 0 <= k < |script| ==> !script[k].Record? && !(script[k].Send? && script[k].m.Said?)
  }

  ghost predicate Faithful(r: Inst) {
    && ScriptOk(r.script)
    && r.present.Keys == r.members.Keys
    && (Speaking(r.script) ==> forall k :: 0 <= k < |r.script| - 1 ==> r.script[k].d in r.members)
    && (forall d :: d in r.present ==> UpToDate(r.present[d], d, r.log, r.script))
    && (forall k :: 0 <= k < |r.past| ==> Block(r.past[k], r.log))
  }

  lemma LaunchIsFaithful(c: ChatId, d: DopId, user: int)
    ensures Faithful(Launch(c, d, user))
  {
    QuietAccept(map[], d, user, [d]);
  }

  lemma QuietAccept(members: map<DopId, int>, d: DopId, user: int, order: seq<DopId>)
    ensures var s := Accept(members, d, user, order); !Speaking(s) && ScriptOk(s)
  {
    var s := Accept(members, d, user, order);
    var rest := Announce(order, members[d := user], user);
    forall k | 2 <= k < |s| ensures s[k].Send? && s[k].m == Notice {
      assert s[k] == rest[k - 2];
      assert s[k] in rest;
    }
  }

  lemma TakeIsFaithful(r: Inst, order: seq<DopId>)
    requires Faithful(r) && r.script == [] && r.queue != []
    ensures Faithful(Take(r, order))
  {
    var q := Take(r, order);
    assert !Speaking(q.script) && ScriptOk(q.script) by {
      match r.queue[0]
      case Enter(d, user) => if |r.members| < MAX_MEMBERS { QuietAccept(r.members, d, user, order); }
      case Leave(d) => assert q.script[|order|] == Drop(d);
      case _ =>
    }
    forall d | d in q.present ensures UpToDate(q.present[d], d, q.log, q.script) {
      assert UpToDate(r.present[d], d, r.log, r.script);
    }
  }

  lemma ListenIsFaithful(r: Inst, order: seq<DopId>)
    requires Faithful(r) && r.script == [] && r.inbox != [] && Lists(order, r.members.Keys)
    ensures Faithful(Listen(r, order))
  {
    var q := Listen(r, order);
    var m := r.inbox[0];
    SpeechIsSpeaking(m, order);
    forall d | d in q.present ensures UpToDate(q.present[d], d, q.log, q.script) {
      assert UpToDate(r.present[d], d, r.log, r.script);
      assert d in order;
    }
  }

  lemma SpeechIsSpeaking(m: Speech, order: seq<DopId>)
    requires forall j, k :: 0 <= j < k < |order| ==> order[j] != order[k]
    ensures var script := SpeechScript(m, order);
      && Speaking(script) && ScriptOk(script) && script[|script| - 1] == Record(m)
      && forall d :: d in order ==> Send(d, Said(m)) in script
  {
    var script := SpeechScript(m, order);
    assert |script| == |order| + 1 && script[|order|] == Record(m);
    assert forall k :: 0 <= k < |order| ==> script[k] == Send(order[k], Said(m));
  }

  lemma SpeakingGoesOn(r: Inst)
    requires Faithful(r) && Speaking(r.script) && 1 < |r.script|
    ensures Faithful(Perform(r))
  {
    var q := Perform(r);
    var m := r.script[|r.script| - 1].line;
    assert q.script[|q.script| - 1] == Record(m);
    assert forall k :: 0 <= k < |q.script| ==> q.script[k] == r.script[k + 1];
    forall d | d in q.present ensures UpToDate(q.present[d], d, q.log, q.script) {
      StaysUpToDate(r, d);
    }
  }

  lemma StaysUpToDate(r: Inst, d: DopId)
    requires Faithful(r) && Speaking(r.script) && 1 < |r.script| && d in r.present
    ensures var q := Perform(r);
      d in q.present && UpToDate(q.present[d], d, q.log, q.script)
  {
    var q := Perform(r);
    var m := r.script[|r.script| - 1].line;
    assert r.script == [r.script[0]] + q.script;
    assert UpToDate(r.present[d], d, r.log, r.script);
    assert Send(d, Said(m)) in r.script <==> r.script[0] == Send(d, Said(m)) || Send(d, Said(m)) in q.script;
  }

  lemma RecordIsFaithful(r: Inst)
    requires Faithful(r) && Speaking(r.script) && |r.script| == 1
    ensures Faithful(Perform(r))
  {
    var q := Perform(r);
    forall d | d in q.present ensures UpToDate(q.present[d], d, q.log, q.script) {
      assert UpToDate(r.present[d], d, r.log, r.script);
      assert r.script == [Record(r.script[0].line)];
    }
    forall k | 0 <= k < |q.past| ensures Block(q.past[k], q.log) {
      assert Block(r.past[k], r.log);
    }
  }

  lemma QuietIsFaithful(r: Inst)
    requires Faithful(r) && r.script != [] && !Speaking(r.script)
    ensures Faithful(Perform(r))
  {
    var q := Perform(r);
    QuietGoesOn(r);
    forall d | d in q.present ensures UpToDate(q.present[d], d, q.log, q.script) { QuietStaysUpToDate(r, d); }
    forall k | 0 <= k < |q.past| ensures Block(q.past[k], q.log) { QuietLeavesBlock(r, k); }
  }

  lemma QuietStaysUpToDate(r: Inst, d: DopId)
    requires Faithful(r) && r.script != [] && !Speaking(r.script) && d in Perform(r).present
    ensures UpToDate(Perform(r).present[d], d, Perform(r).log, Perform(r).script)
  {
    QuietGoesOn(r);
    if d in r.present { assert UpToDate(r.present[d], d, r.log, r.script); }
  }

  lemma QuietLeavesBlock(r: Inst, k: nat)
    requires Faithful(r) && r.script != [] && !Speaking(r.script) && k < |Perform(r).past|
    ensures Block(Perform(r).past[k], Perform(r).log)
  {
    QuietGoesOn(r);
    if k < |r.past| {
      assert Block(r.past[k], r.log);
    } else {
      assert UpToDate(Perform(r).past[k], r.script[0].d, r.log, r.script);
    }
  }

  lemma QuietGoesOn(r: Inst)
    requires ScriptOk(r.script) && r.script != [] && !Speaking(r.script)
    ensures ScriptOk(Perform(r).script) && !Speaking(Perform(r).script) && Perform(r).log == r.log
  {
    assert !r.script[0].Record?;
  }

  lemma PerformIsFaithful(r: Inst)
    requires Faithful(r) && r.script != []
    ensures Faithful(Perform(r))
  {
    if Speaking(r.script) {
      if |r.script| == 1 { RecordIsFaithful(r); } else { SpeakingGoesOn(r); }
    } else {
      QuietIsFaithful(r);
    }
  }

  ghost predicate AllFaithful(s: State) {
    forall i :: 0 <= i < |s.insts| ==> Faithful(s.insts[i])
  }

  /** What is queued up for a goroutine does not matter. */
  lemma QueuesDoNotMatter(r: Inst, q: Inst)
    requires Faithful(r) && SameButQueues(r, q)
    ensures Faithful(q)
  {
    forall d | d in q.present ensures UpToDate(q.present[d], d, q.log, q.script) {
      assert UpToDate(r.present[d], d, r.log, r.script);
    }
    forall k | 0 <= k < |q.past| ensures Block(q.past[k], q.log) {
      assert Block(r.past[k], r.log);
    }
  }

  predicate SameButQueues(r: Inst, q: Inst) {
    q == r.(queue := q.queue, inbox := q.inbox, tickets := q.tickets)
  }

  lemma MasterSendsToQueues(s: State, i: InstId)
    requires Enabled(s, MasterSend) && i < |s.insts|
    ensures |MasterSends(s).insts| == |s.insts| && SameButQueues(s.insts[i], MasterSends(s).insts[i])
  {
  }

  lemma MasterTakesOrLaunches(s: State, found: nat, i: InstId)
    requires Enabled(s, MasterTake(found)) && i < |MasterTakes(s, found).insts|
    ensures
      if i < |s.insts| then MasterTakes(s, found).insts[i] == s.insts[i]
      else s.masterQ[0].Join? && MasterTakes(s, found).insts[i] == Launch(found, s.masterQ[0].d, s.masterQ[0].user)
  {
  }

  lemma RoomStepsItself(s: State, i: InstId, j: InstId)
    requires Enabled(s, ChatStep(j)) && i < |s.insts|
    ensures |ChatSteps(s, j).insts| == |s.insts|
    ensures ChatSteps(s, j).insts[i] == if i == j then Perform(s.insts[i]) else s.insts[i]
  {
  }

  lemma UserTouchesInboxes(s: State, a: Action, i: InstId)
    requires Enabled(s, a) && i < |s.insts|
    requires a.Lose? || a.Issue? || a.GetFromMaster? || a.GetFromChat? || a.ExitProcedure?
    ensures i < |Apply(s, a).insts| && SameButQueues(s.insts[i], Apply(s, a).insts[i])
  {
  }

  lemma MasterKeepsFaith(s: State, a: Action, i: InstId)
    requires AllFaithful(s) && Enabled(s, a) && i < |Apply(s, a).insts|
    requires a.MasterTake? || a.MasterHear? || a.MasterSend?
    ensures Faithful(Apply(s, a).insts[i])
  {
    if a.MasterTake? {
      MasterTakesOrLaunches(s, a.found, i);
      if i >= |s.insts| { LaunchIsFaithful(a.found, s.masterQ[0].d, s.masterQ[0].user); }
    } else if a.MasterSend? {
      MasterSendsToQueues(s, i);
      QueuesDoNotMatter(s.insts[i], Apply(s, a).insts[i]);
    }
  }

  lemma RoomsKeepFaith(s: State, a: Action, i: InstId)
    requires AllFaithful(s) && Enabled(s, a) && i < |s.insts|
    requires a.ChatTake? || a.ChatListen? || a.ChatStep?
    ensures |Apply(s, a).insts| == |s.insts| && Faithful(Apply(s, a).insts[i])
  {
    if a.ChatStep? { RoomStepsItself(s, i, a.i); }
    if a.i == i {
      match a
      case ChatTake(_, order) => TakeIsFaithful(s.insts[i], order);
      case ChatListen(_, order) => ListenIsFaithful(s.insts[i], order);
      case ChatStep(_) => PerformIsFaithful(s.insts[i]);
    }
  }

  lemma StepIsFaithful(s: State, a: Action)
    requires AllFaithful(s) && Enabled(s, a)
    ensures AllFaithful(Apply(s, a))
  {
    forall i | 0 <= i < |Apply(s, a).insts| ensures Faithful(Apply(s, a).insts[i]) {
      if a.MasterTake? || a.MasterHear? || a.MasterSend? {
        MasterKeepsFaith(s, a, i);
      } else if a.ChatTake? || a.ChatListen? || a.ChatStep? {
        if i < |s.insts| { RoomsKeepFaith(s, a, i); } else { RoomsKeepFaith(s, a, a.i); }
      } else {
        if i < |s.insts| { UserTouchesInboxes(s, a, i); QueuesDoNotMatter(s.insts[i], Apply(s, a).insts[i]); }
        else { UserAddsNoRoom(s, a); }
      }
    }
  }

  lemma UserAddsNoRoom(s: State, a: Action)
    requires Enabled(s, a) && (a.Lose? || a.Issue? || a.GetFromMaster? || a.GetFromChat? || a.ExitProcedure?)
    ensures |Apply(s, a).insts| == |s.insts|
  {
  }

  lemma {:induction false} HistoriesAreFaithful(h: seq<Action>)
    requires Possible(h)
    ensures AllFaithful(After(h))
  {
    if h != [] {
      HistoriesAreFaithful(h[..|h| - 1]);
      StepIsFaithful(After(h[..|h| - 1]), h[|h| - 1]);
    }
  }

  /** What a former member was sent is the block of the log between its admission and
      its removal; what a member has been sent is the log from its admission on, and a
      line still being distributed unless its turn is yet to come.  In log order, one
      copy each. */
  lemma MembersSeeTheLog(h: seq<Action>, i: InstId)
    requires Possible(h) && i < |After(h).insts|
    ensures var r := After(h).insts[i];
      && r.present.Keys == r.members.Keys
      && (forall k :: 0 <= k < |r.past| ==> Block(r.past[k], r.log))
      && (forall d :: d in r.members ==>
            r.present[d].from <= |r.log| && r.log[r.present[d].from..] <= r.present[d].lines)
      && (forall d :: d in r.members ==>
            r.present[d].lines == r.log[r.present[d].from..]
            || (Speaking(r.script) && Send(d, Said(r.script[|r.script| - 1].line)) !in r.script
                && r.present[d].lines == r.log[r.present[d].from..] + [r.script[|r.script| - 1].line]))
  {
    HistoriesAreFaithful(h);
    var r := After(h).insts[i];
    assert Faithful(r);
    forall d | d in r.members ensures UpToDate(r.present[d], d, r.log, r.script) {}
  }

  /** A member leaves with everything that was logged since it came. */
  lemma LeaversHaveTheirBlock(h: seq<Action>, i: InstId, d: DopId)
    requires Possible(h) && Enabled(After(h), ChatStep(i)) && After(h).insts[i].script[0] == Drop(d)
    requires d in After(h).insts[i].members
    ensures var r := After(h).insts[i];
      var q := Apply(After(h), ChatStep(i)).insts[i];
      && d in r.present && r.present[d].from <= |r.log|
      && q.past == r.past + [r.present[d]] && d !in q.members
      && r.present[d].lines == r.log[r.present[d].from..]
  {
    HistoriesAreFaithful(h);
    var r := After(h).insts[i];
    assert Faithful(r) && UpToDate(r.present[d], d, r.log, r.script);
    assert !Speaking(r.script);
  }

  /** Any two views agree where they overlap. */
  lemma ViewsAgree(h: seq<Action>, i: InstId, p: Stretch, q: Stretch, n: nat)
    requires Possible(h) && i < |After(h).insts|
    requires var r := After(h).insts[i];
      && (p in r.past || p in r.present.Values) && (q in r.past || q in r.present.Values)
    requires p.from <= n < p.from + |p.lines| && q.from <= n < q.from + |q.lines|
    ensures p.lines[n - p.from] == q.lines[n - q.from]
  {
    HistoriesAreFaithful(h);
    var r := After(h).insts[i];
    assert Faithful(r);
    LineOf(r, p, n);
    LineOf(r, q, n);
  }

  /** Line n of a view is line n of the log, or the line being distributed. */
  lemma LineOf(r: Inst, p: Stretch, n: nat)
    requires Faithful(r) && (p in r.past || p in r.present.Values)
    requires p.from <= n < p.from + |p.lines|
    ensures n < |r.log| ==> p.lines[n - p.from] == r.log[n]
    ensures n >= |r.log| ==> n == |r.log| && Speaking(r.script) && p.lines[n - p.from] == r.script[|r.script| - 1].line
  {
    if p in r.past {
      var k :| 0 <= k < |r.past| && r.past[k] == p;
      assert Block(r.past[k], r.log);
    } else {
      var d :| d in r.present && r.present[d] == p;
      assert UpToDate(r.present[d], d, r.log, r.script);
    }
  }

  /** A line sent to a doppelganger goes to a member, and into that member's view. */
  lemma DeliveriesAreViews(h: seq<Action>, i: InstId)
    requires Possible(h) && Enabled(After(h), ChatStep(i))
    requires After(h).insts[i].script[0].Send? && After(h).insts[i].script[0].m.Said?
    ensures var s := After(h);
      var t := Apply(s, ChatStep(i));
      var d, m := s.insts[i].script[0].d, s.insts[i].script[0].m;
      && d in s.insts[i].present && d in t.insts[i].present
      && t.insts[i].present[d].lines == s.insts[i].present[d].lines + [m.line]
      && (!At(s, d).closed ==> At(t, d).fromChat == At(s, d).fromChat + [m])
  {
    HistoriesAreFaithful(h);
    assert Faithful(After(h).insts[i]);
  }

  /** What a step can make of a goroutine that is there. */
  lemma RoomBecomes(s: State, a: Action, i: InstId)
    requires Enabled(s, a) && i < |s.insts|
    ensures i < |Apply(s, a).insts|
    ensures var r, q := s.insts[i], Apply(s, a).insts[i];
      || SameButQueues(r, q)
      || (a.ChatTake? && a.i == i && q == Take(r, a.order))
      || (a.ChatListen? && a.i == i && q == Listen(r, a.order))
      || (a == ChatStep(i) && q == Perform(r))
  {
    match a
    case MasterTake(found) => MasterTakesOrLaunches(s, found, i);
    case MasterHear =>
    case MasterSend => MasterSendsToQueues(s, i);
    case ChatTake(_, _) =>
    case ChatListen(_, _) =>
    case ChatStep(j) => RoomStepsItself(s, i, j);
    case _ => UserTouchesInboxes(s, a, i);
  }

  /** The view of a member who stays one grows in no other step. */
  lemma ViewsGrowByDeliveries(h: seq<Action>, a: Action, i: InstId, d: DopId)
    requires Possible(h) && Enabled(After(h), a) && i < |After(h).insts| && d in After(h).insts[i].present
    ensures var s, t := After(h), Apply(After(h), a);
      && i < |t.insts|
      && (d in t.insts[i].present ==>
            (t.insts[i].present[d] != s.insts[i].present[d] <==> a == ChatStep(i) && SaysTo(s.insts[i], d)))
  {
    HistoriesAreFaithful(h);
    assert Faithful(After(h).insts[i]);
    ViewGrows(After(h), a, i, d);
  }

  /** The step that adds to d's view at instance i. */
  predicate SaysTo(r: Inst, d: DopId) {
    r.script != [] && r.script[0].Send? && r.script[0].d == d && r.script[0].m.Said?
  }

  lemma ViewGrows(s: State, a: Action, i: InstId, d: DopId)
    requires Enabled(s, a) && i < |s.insts| && d in s.insts[i].present
    requires s.insts[i].present.Keys == s.insts[i].members.Keys
    ensures i < |Apply(s, a).insts|
    ensures var r, q := s.insts[i], Apply(s, a).insts[i];
      d in q.present ==> (q.present[d] != r.present[d] <==> a == ChatStep(i) && SaysTo(r, d))
  {
    RoomBecomes(s, a, i);
    if a == ChatStep(i) {
      RoomStepsItself(s, i, i);
      if d in Perform(s.insts[i]).present { PerformGrows(s.insts[i], d); }
    }
  }

  lemma PerformGrows(r: Inst, d: DopId)
    requires r.script != [] && d in r.present && d in Perform(r).present && r.present.Keys == r.members.Keys
    ensures Perform(r).present[d] != r.present[d] <==> SaysTo(r, d)
  {
    if SaysTo(r, d) {
      assert |Perform(r).present[d].lines| == |r.present[d].lines| + 1;
    }
  }

  // ------------------------------------------------------------------ what was said

  /** The command speaks to instance i, whose input is open. */
  predicate Speaks(s: State, a: Action, i: InstId) {
    && a.Issue? && a.cmd.CmdSay? && !a.lost
    && At(s, a.d).id != 0 && At(s, a.d).link == Some(i)
    && i < |s.insts| && !s.insts[i].closed
  }

  /** All lines spoken to instance i, told from the commands alone. */
  function Spoken(h: seq<Action>, i: InstId): seq<Speech> {
    if h == [] then []
    else
      var g, a := h[..|h| - 1], h[|h| - 1];
      Spoken(g, i) + if Speaks(After(g), a, i) then [a.cmd.line] else []
  }

  /** The line being distributed. */
  function InMouth(script: seq<Op>): seq<Speech> {
    if Speaking(script) then [script[|script| - 1].line] else []
  }

  /** What has been logged, what is being distributed and what is waiting. */
  function Ledger(r: Inst): seq<Speech> { r.log + InMouth(r.script) + r.inbox }

  lemma InboxBecomes(s: State, a: Action, i: InstId)
    requires Enabled(s, a) && i < |s.insts| && i < |Apply(s, a).insts|
    ensures var r, q := s.insts[i], Apply(s, a).insts[i];
      if a.ChatListen? && a.i == i then q.inbox == r.inbox[1..]
      else if Speaks(s, a, i) then q.inbox == r.inbox + [a.cmd.line]
      else q.inbox == r.inbox
  {
    match a
    case MasterTake(found) => MasterTakesOrLaunches(s, found, i);
    case MasterHear =>
    case MasterSend => MasterLeavesInboxes(s, i);
    case ChatTake(_, _) =>
    case ChatListen(_, _) =>
    case ChatStep(j) => RoomStepsItself(s, i, j);
    case _ => UserFillsInbox(s, a, i);
  }

  lemma MasterLeavesInboxes(s: State, i: InstId)
    requires Enabled(s, MasterSend) && i < |s.insts|
    ensures i < |MasterSends(s).insts| && MasterSends(s).insts[i].inbox == s.insts[i].inbox
  {
  }

  lemma UserFillsInbox(s: State, a: Action, i: InstId)
    requires Enabled(s, a) && i < |s.insts|
    requires a.Lose? || a.Issue? || a.GetFromMaster? || a.GetFromChat? || a.ExitProcedure?
    ensures i < |Apply(s, a).insts|
    ensures Apply(s, a).insts[i].inbox == s.insts[i].inbox + if Speaks(s, a, i) then [a.cmd.line] else []
  {
  }

  lemma PerformKeepsLedger(r: Inst)
    requires Faithful(r) && r.script != []
    ensures Ledger(Perform(r)) == Ledger(r)
  {
    var q := Perform(r);
    if Speaking(r.script) {
      if |r.script| > 1 {
        assert q.script[|q.script| - 1] == r.script[|r.script| - 1];
      } else {
        assert q.log == r.log + [r.script[0].line];
      }
    } else {
      assert !r.script[0].Record? && !Speaking(q.script);
    }
  }

  lemma TakeKeepsLedger(r: Inst, order: seq<DopId>)
    requires r.script == [] && r.queue != []
    ensures Ledger(Take(r, order)) == Ledger(r)
  {
    match r.queue[0]
    case Enter(d, user) => QuietAccept(r.members, d, user, order);
    case Leave(d) => assert Take(r, order).script[|order|] == Drop(d);
    case _ =>
  }

  lemma ListenKeepsLedger(r: Inst, order: seq<DopId>)
    requires r.script == [] && r.inbox != []
    ensures Ledger(Listen(r, order)) == Ledger(r)
  {
    assert r.inbox == [r.inbox[0]] + r.inbox[1..];
    assert Listen(r, order).script[|order|] == Record(r.inbox[0]);
  }

  lemma LedgerStep(s: State, a: Action, i: InstId)
    requires AllFaithful(s) && Enabled(s, a) && i < |s.insts|
    ensures i < |Apply(s, a).insts|
    ensures Ledger(Apply(s, a).insts[i]) == Ledger(s.insts[i]) + if Speaks(s, a, i) then [a.cmd.line] else []
  {
    RoomBecomes(s, a, i);
    InboxBecomes(s, a, i);
    var r := s.insts[i];
    assert Faithful(r);
    if a.ChatTake? && a.i == i { TakeKeepsLedger(r, a.order); }
    if a.ChatListen? && a.i == i { ListenKeepsLedger(r, a.order); }
    if a == ChatStep(i) { PerformKeepsLedger(r); }
  }

  lemma RoomsGrow(s: State, a: Action)
    requires Enabled(s, a)
    ensures |s.insts| <= |Apply(s, a).insts|
  {
    if s.insts != [] { RoomBecomes(s, a, |s.insts| - 1); }
  }

  lemma LaunchedSilent(s: State, a: Action, i: InstId)
    requires AllFaithful(s) && Enabled(s, a) && |s.insts| <= i < |Apply(s, a).insts|
    ensures Ledger(Apply(s, a).insts[i]) == []
  {
    OnlyMasterTakeLaunches(s, a, i);
    MasterTakesOrLaunches(s, a.found, i);
    QuietAccept(map[], s.masterQ[0].d, s.masterQ[0].user, [s.masterQ[0].d]);
  }

  lemma OnlyMasterTakeLaunches(s: State, a: Action, i: InstId)
    requires Enabled(s, a) && |s.insts| <= i < |Apply(s, a).insts|
    ensures a.MasterTake?
  {
    match a
    case MasterSend => if |s.insts| > 0 { MasterSendsToQueues(s, 0); }
    case ChatStep(j) => RoomStepsItself(s, j, j);
    case _ =>
  }

  /** In every run the log of a chat channel, the line being distributed and the lines
      waiting are exactly what was said to it, in order, once each. */
  lemma {:induction false} WhatIsSaidIsKept(h: seq<Action>, i: InstId)
    requires Possible(h)
    ensures Spoken(h, i) == if i < |After(h).insts| then Ledger(After(h).insts[i]) else []
  {
    if h != [] {
      var g, a := h[..|h| - 1], h[|h| - 1];
      WhatIsSaidIsKept(g, i);
      HistoriesAreFaithful(g);
      RoomsGrow(After(g), a);
      if i < |After(g).insts| {
        LedgerStep(After(g), a, i);
      } else if i < |After(h).insts| {
        LaunchedSilent(After(g), a, i);
      }
    }
  }

  /** This is a contiguous block of what was said. */
  predicate Quotes(s: Stretch, spoken: seq<Speech>) {
    s.from + |s.lines| <= |spoken| && s.lines == spoken[s.from..s.from + |s.lines|]
  }

  /** What a member has been sent, or had been when it left, is what was said, line by line,
      from its admission on; for a member up to the lines that still wait, and the one
      being distributed. */
  lemma WhatIsSaidIsHeard(h: seq<Action>, i: InstId, p: Stretch)
    requires Possible(h) && i < |After(h).insts|
    requires p in After(h).insts[i].past || p in After(h).insts[i].present.Values
    ensures Quotes(p, Spoken(h, i))
    ensures var r := After(h).insts[i];
      p in r.present.Values ==> |Spoken(h, i)| - |r.inbox| - |InMouth(r.script)| <= p.from + |p.lines|
  {
    WhatIsSaidIsKept(h, i);
    HistoriesAreFaithful(h);
    var r := After(h).insts[i];
    assert Faithful(r);
    if p in r.present.Values {
      var d :| d in r.present && r.present[d] == p;
      assert UpToDate(r.present[d], d, r.log, r.script);
    }
    if p in r.past {
      var k :| 0 <= k < |r.past| && r.past[k] == p;
      assert Block(r.past[k], r.log);
    }
  }
}
