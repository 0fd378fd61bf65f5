/** Who a user becomes and where, over every history of one connection, told from the
    lines entered, the answers of the database and the messages heard. */
module Accounts {
  import opened Telnet
  import opened Keyboard
  import opened Console
  import opened Login

  /** The line that event j ends, [] for none. */
  function Entered(h: seq<Event>, j: nat): Line
    requires j < |h|
  {
    LineOf(After(h[..j]), h[j])
  }

  function LineOf(c: Console, e: Event): Line
    requires KeysOk(c.keys)
  {
    if e.Key? then Press(c.keys, e.b).1 else []
  }

  predicate During(h: seq<Event>, j: nat, k: nat, modes: set<Mode>)
    requires k <= |h|
  {
    forall m :: j < m <= k ==> After(h[..m]).mode in modes
  }

  // ------------------------------------------------------------------ one line

  /** What a line entered leads to, by the mode it is entered in. */
  lemma LinesLead(c: Console, e: Event)
    requires Sound(c) && (e.Key? || c.mode == Commanding)
    ensures var l, d := LineOf(c, e), Turn(c, e).c;
      if l == [] || c.mode == Commanding then
        d.mode == c.mode && d.attempting == c.attempting && d.userId == c.userId && d.userName == c.userName
        && !Turn(c, e).ask.Register?
      else
        && (c.mode == Username ==>
              d.attempting == l && d.mode == if e.a.found then RegularPassword else NewUserYN)
        && (c.mode == NewUserYN ==> d.mode == if l[0] == 89 || l[0] == 121 then NewPassword1 else Username)
        && (c.mode == NewPassword1 ==> d.mode == if |l| < 4 then NewPassword1 else NewPassword2)
        && (c.mode == NewPassword2 ==> d.mode == if l == c.newPassword then Username else NewPassword1)
        && (c.mode == RegularPassword ==>
              && d.mode == (if e.a.account == 0 then Username else Commanding)
              && d.userId == e.a.account && (e.a.account != 0 ==> d.userName == e.a.name))
        && (c.mode != Username ==> d.attempting == c.attempting)
        && Turn(c, e).ask == if c.mode == NewPassword2 && l == c.newPassword then Register(c.attempting, l) else Nothing
  {
    PromptLeavesNames(React(c, e).c);
    if e.Key? && LineOf(c, e) != [] {
      if c.mode == Commanding {
        CommandsLeaveNames(Edited(c, e.b), Meaning(c.userName, Expand(LineOf(c, e))), e.a);
      } else {
        LoginLeads(Edited(c, e.b), LineOf(c, e), e.a);
      }
    } else if !e.Key? {
      NewsLeavesNames(c, e);
    }
  }

  lemma PromptLeavesNames(c: Console)
    requires KeysOk(c.keys)
    ensures var d := Prompt(c).0; d == c.(promptLen := d.promptLen, echo := d.echo)
  {
  }

  lemma NewsLeavesNames(c: Console, e: Event)
    requires !e.Key?
    ensures var s := Heard(c, e);
      && s.c == c.(room := s.c.room, roomName := s.c.roomName, promptNeeded := s.c.promptNeeded)
      && !s.ask.Register?
  {
  }

  lemma CommandsLeaveNames(c: Console, intent: Intent, a: Answers)
    ensures var s := Obeyed(c, intent, a);
      && s.c == c.(room := s.c.room, roomName := s.c.roomName, promptNeeded := s.c.promptNeeded)
      && !s.ask.Register?
  {
  }

  lemma LoginLeads(c: Console, l: Line, a: Answers)
    requires c.mode != Commanding && l != []
    ensures var s := Submit(c, l, a);
      && s.c == c.(mode := s.c.mode, attempting := if c.mode == Username then l else c.attempting,
                   newPassword := s.c.newPassword, echo := s.c.echo, promptNeeded := s.c.promptNeeded,
                   userId := if c.mode == RegularPassword then a.account else c.userId,
                   userName := if c.mode != RegularPassword then c.userName
                               else if a.account == 0 then [] else a.name)
      && s.c.mode == (match c.mode
                      case Username => if a.found then RegularPassword else NewUserYN
                      case NewUserYN => if l[0] == 89 || l[0] == 121 then NewPassword1 else Username
                      case NewPassword1 => if |l| < 4 then NewPassword1 else NewPassword2
                      case NewPassword2 => if l == c.newPassword then Username else NewPassword1
                      case _ => if a.account == 0 then Username else Commanding)
      && s.ask == if c.mode == NewPassword2 && l == c.newPassword then Register(c.attempting, l) else Nothing
  {
  }

  // ------------------------------------------------------------------ how a mode came about

  /** A name entered at the first prompt, and whether there is such a user. */
  predicate NameGiven(h: seq<Event>, j: nat, name: Line, found: bool) {
    && j < |h| && After(h[..j]).mode == Username
    && h[j].Key? && Entered(h, j) == name != [] && h[j].a.found == found
  }

  lemma PrefixKeeps(h: seq<Event>, m: nat)
    requires m < |h|
    ensures h[..|h| - 1][..m] == h[..m]
    ensures m < |h| - 1 ==> h[..|h| - 1][m] == h[m]
  {
  }

  lemma DuringLonger(h: seq<Event>, j: nat, modes: set<Mode>)
    requires h != [] && j < |h| && During(h[..|h| - 1], j, |h| - 1, modes) && After(h).mode in modes
    ensures During(h, j, |h|, modes)
  {
    forall m | j < m <= |h| ensures After(h[..m]).mode in modes {
      if m == |h| { assert h[..m] == h; } else { PrefixKeeps(h, m); assert After(h[..|h| - 1][..m]).mode in modes; }
    }
  }

  lemma DuringPrefix(h: seq<Event>, j: nat, k: nat, modes: set<Mode>)
    requires h != [] && k < |h| && During(h[..|h| - 1], j, k, modes)
    ensures During(h, j, k, modes)
  {
    forall m | j < m <= k ensures After(h[..m]).mode in modes {
      PrefixKeeps(h, m);
      assert After(h[..|h| - 1][..m]).mode in modes;
    }
  }

  lemma NameStill(h: seq<Event>, j: nat, name: Line, found: bool)
    requires h != [] && NameGiven(h[..|h| - 1], j, name, found)
    ensures NameGiven(h, j, name, found)
  {
    PrefixKeeps(h, j);
  }

  /** The mode after the last event, from the mode before. */
  lemma ModeBefore(h: seq<Event>)
    requires Plausible(h) && h != []
    ensures var g, m := h[..|h| - 1], |h| - 1;
      var c, d, l := After(g), After(h), Entered(h, m);
      && Plausible(g)
      && (d.mode == RegularPassword || d.mode == NewUserYN ==>
            (c.mode == d.mode && c.attempting == d.attempting)
            || NameGiven(h, m, d.attempting, d.mode == RegularPassword))
      && (d.mode == NewPassword1 || d.mode == NewPassword2 ==>
            c.attempting == d.attempting
            && (c.mode == NewPassword1 || c.mode == NewPassword2
                || (c.mode == NewUserYN && l != [] && (l[0] == 89 || l[0] == 121))))
      && (d.mode == Commanding ==>
            c.attempting == d.attempting
            && ((c.mode == Commanding && c.userId == d.userId && c.userName == d.userName)
                || (c.mode == RegularPassword && Accepted(h, m, d))))
  {
    var g, m := h[..|h| - 1], |h| - 1;
    LoginIsSound(g);
    assert h[..m] == g;
    LinesLead(After(g), h[m]);
  }

  lemma WholeDuring(h: seq<Event>, modes: set<Mode>)
    requires h != [] && After(h).mode in modes
    ensures During(h, |h| - 1, |h|, modes)
  {
    assert h[..|h|] == h;
  }

  /** Whoever is asked for a password has named a user that there is, whoever is asked
      about a new account one that there is not, and no line has been entered since. */
  lemma {:induction false} NameWasGiven(h: seq<Event>) returns (j: nat)
    requires Plausible(h) && (After(h).mode == RegularPassword || After(h).mode == NewUserYN)
    ensures NameGiven(h, j, After(h).attempting, After(h).mode == RegularPassword)
    ensures During(h, j, |h|, {After(h).mode})
  {
    var mode, name := After(h).mode, After(h).attempting;
    if h == [] {
      assert false;
    } else {
      ModeBefore(h);
      if NameGiven(h, |h| - 1, name, mode == RegularPassword) {
        j := |h| - 1;
        WholeDuring(h, {mode});
      } else {
        j := NameWasGiven(h[..|h| - 1]);
        NameStill(h, j, name, mode == RegularPassword);
        DuringLonger(h, j, {mode});
      }
    }
  }

  /** The line that answered the question about a new account with yes, with none since the
      name of which there is no user. */
  predicate Agreed(h: seq<Event>, j: nat, k: nat, name: Line) {
    && NameGiven(h, j, name, false)
    && j < k < |h| && During(h, j, k, {NewUserYN})
    && Entered(h, k) != [] && (Entered(h, k)[0] == 89 || Entered(h, k)[0] == 121)
  }

  lemma AgreedStill(h: seq<Event>, j: nat, k: nat, name: Line)
    requires h != [] && Agreed(h[..|h| - 1], j, k, name)
    ensures Agreed(h, j, k, name)
  {
    NameStill(h, j, name, false);
    DuringPrefix(h, j, k, {NewUserYN});
    PrefixKeeps(h, k);
  }

  lemma AgreedNow(h: seq<Event>, j: nat, name: Line)
    requires h != [] && NameGiven(h[..|h| - 1], j, name, false) && During(h[..|h| - 1], j, |h| - 1, {NewUserYN})
    requires Entered(h, |h| - 1) != [] && (Entered(h, |h| - 1)[0] == 89 || Entered(h, |h| - 1)[0] == 121)
    ensures Agreed(h, j, |h| - 1, name)
  {
    NameStill(h, j, name, false);
    DuringPrefix(h, j, |h| - 1, {NewUserYN});
  }

  lemma {:induction false} AgreementWasGiven(h: seq<Event>) returns (j: nat, k: nat)
    requires Plausible(h) && (After(h).mode == NewPassword1 || After(h).mode == NewPassword2)
    ensures Agreed(h, j, k, After(h).attempting)
    ensures During(h, k, |h|, {NewPassword1, NewPassword2})
  {
    if h == [] {
      assert false;
    } else {
      var g := h[..|h| - 1];
      ModeBefore(h);
      if After(g).mode == NewUserYN {
        j := NameWasGiven(g);
        k := |h| - 1;
        AgreedNow(h, j, After(h).attempting);
        WholeDuring(h, {NewPassword1, NewPassword2});
      } else {
        j, k := AgreementWasGiven(g);
        AgreedStill(h, j, k, After(h).attempting);
        DuringLonger(h, k, {NewPassword1, NewPassword2});
      }
    }
  }

  /** An account is made only under a name entered of which there was no user, after a yes. */
  lemma AccountsAreAskedFor(h: seq<Event>, e: Event) returns (j: nat, k: nat)
    requires Plausible(h + [e]) && Turn(After(h), e).ask.Register?
    ensures Agreed(h, j, k, Turn(After(h), e).ask.name)
    ensures During(h, k, |h|, {NewPassword1, NewPassword2})
  {
    assert (h + [e])[..|h|] == h;
    LoginIsSound(h);
    SoundTurn(After(h), e);
    j, k := AgreementWasGiven(h);
  }

  /** Event j ended a line that the database accepted, and c has the ID and name it gave. */
  predicate Accepted(h: seq<Event>, j: nat, c: Console) {
    && j < |h| && h[j].Key? && Entered(h, j) != []
    && h[j].a.account == c.userId != 0 && h[j].a.name == c.userName
  }

  /** The password accepted for a user that there is. */
  predicate Admitted(h: seq<Event>, i: nat, j: nat, c: Console) {
    NameGiven(h, i, c.attempting, true) && i < j && Accepted(h, j, c) && During(h, i, j, {RegularPassword})
  }

  lemma AdmittedStill(h: seq<Event>, i: nat, j: nat, c: Console)
    requires h != [] && Admitted(h[..|h| - 1], i, j, c)
    ensures Admitted(h, i, j, c)
  {
    NameStill(h, i, c.attempting, true);
    DuringPrefix(h, i, j, {RegularPassword});
    PrefixKeeps(h, j);
  }

  lemma AdmittedNow(h: seq<Event>, i: nat, c: Console)
    requires h != [] && NameGiven(h[..|h| - 1], i, c.attempting, true) && Accepted(h, |h| - 1, c)
    requires During(h[..|h| - 1], i, |h| - 1, {RegularPassword})
    ensures Admitted(h, i, |h| - 1, c)
  {
    NameStill(h, i, c.attempting, true);
    DuringPrefix(h, i, |h| - 1, {RegularPassword});
  }

  /** Whoever gives commands has named a user that there is, has then entered one line, and
      is the user that the database made of the two. */
  lemma {:induction false} LoggedInAs(h: seq<Event>) returns (i: nat, j: nat)
    requires Plausible(h) && After(h).mode == Commanding
    ensures Admitted(h, i, j, After(h)) && During(h, j, |h|, {Commanding})
  {
    if h == [] {
      assert false;
    } else {
      var g := h[..|h| - 1];
      ModeBefore(h);
      if After(g).mode == RegularPassword {
        i := NameWasGiven(g);
        j := |h| - 1;
        AdmittedNow(h, i, After(h));
        WholeDuring(h, {Commanding});
      } else {
        i, j := LoggedInAs(g);
        AdmittedStill(h, i, j, After(h));
        DuringLonger(h, j, {Commanding});
      }
    }
  }

  // ------------------------------------------------------------------ on which channel

  /** Events that say something else about the channel that the user is on. */
  predicate Moves(h: seq<Event>, k: nat)
    requires k < |h|
  {
    || h[k].Refusal? || h[k].JoinedRoom? || (h[k].Exited? && h[k].mine)
    || Turn(After(h[..k]), h[k]).ask.AskJoin? || Turn(After(h[..k]), h[k]).ask.AskExit?
  }

  /** Event j was the last of them, the news of having joined this channel. */
  predicate JoinedAt(h: seq<Event>, j: nat, room: int, name: Line) {
    j < |h| && h[j] == JoinedRoom(room, name) && Unmoved(h, j)
  }

  predicate Unmoved(h: seq<Event>, j: nat) { forall k :: j < k < |h| ==> !Moves(h, k) }

  lemma UnmovedStill(h: seq<Event>, j: nat)
    requires h != [] && !Moves(h, |h| - 1)
    ensures Unmoved(h, j) <==> Unmoved(h[..|h| - 1], j)
  {
    var g := h[..|h| - 1];
    if Unmoved(g, j) {
      forall k | j < k < |h| ensures !Moves(h, k) {
        if k < |g| { MovesStill(h, k); }
      }
    }
    if Unmoved(h, j) {
      forall k | j < k < |g| ensures !Moves(g, k) { MovesStill(h, k); }
    }
  }

  lemma RoomStep(c: Console, e: Event)
    requires KeysOk(c.keys)
    ensures var t := Turn(c, e);
      && (e.JoinedRoom? ==> t.c.room == e.room && t.c.roomName == e.name)
      && (e.Refusal? || (e.Exited? && e.mine) || t.ask.AskExit? ==> t.c.room == 0)
      && ((e.Exited? && e.mine) || t.ask.AskExit? ==> t.c.roomName == NO_CHANNEL)
      && (e.Refusal? || t.ask.AskJoin? ==> t.c.roomName == c.roomName)
      && (t.ask.AskJoin? ==> t.c.room == -1)
      && (!(e.Refusal? || e.JoinedRoom? || (e.Exited? && e.mine) || t.ask.AskJoin? || t.ask.AskExit?) ==>
            t.c.room == c.room && t.c.roomName == c.roomName)
  {
    if e.Key? { RoomStruck(c, e.b, e.a); }
  }

  lemma RoomStruck(c: Console, b: Byte, a: Answers)
    requires KeysOk(c.keys)
    ensures var r := Struck(c, b, a);
      && (r.ask.AskExit? ==> r.c.room == 0 && r.c.roomName == NO_CHANNEL)
      && (r.ask.AskJoin? ==> r.c.room == -1 && r.c.roomName == c.roomName)
      && (!r.ask.AskJoin? && !r.ask.AskExit? ==> r.c.room == c.room && r.c.roomName == c.roomName)
  {
    var l := Press(c.keys, b).1;
    if l != [] {
      if c.mode == Commanding {
        RoomObeyed(Edited(c, b), Meaning(c.userName, Expand(l)), a);
      } else {
        RoomLogin(Edited(c, b), l, a);
      }
    }
  }

  lemma RoomObeyed(c: Console, intent: Intent, a: Answers)
    ensures var s := Obeyed(c, intent, a);
      && (s.ask.AskExit? ==> s.c.room == 0 && s.c.roomName == NO_CHANNEL)
      && (s.ask.AskJoin? ==> s.c.room == -1 && s.c.roomName == c.roomName)
      && (!s.ask.AskJoin? && !s.ask.AskExit? ==> s.c.room == c.room && s.c.roomName == c.roomName)
  {
  }

  lemma RoomLogin(c: Console, l: Line, a: Answers)
    requires c.mode != Commanding && l != []
    ensures var s := Submit(c, l, a);
      s.c.room == c.room && s.c.roomName == c.roomName && !s.ask.AskJoin? && !s.ask.AskExit?
  {
  }

  /** A user is on a channel, by that ID and with that name in the prompt, if and only if
      this is what was heard last about it. */
  lemma {:induction false} RoomIsTheOneJoined(h: seq<Event>, room: int, name: Line)
    requires room != 0 && room != -1
    ensures After(h).room == room && After(h).roomName == name <==> exists j :: JoinedAt(h, j, room, name)
  {
    if h == [] {
      assert forall j: nat :: !JoinedAt(h, j, room, name);
    } else {
      var g, m := h[..|h| - 1], |h| - 1;
      RoomIsTheOneJoined(g, room, name);
      RoomStep(After(g), h[m]);
      if Moves(h, m) {
        if After(h).room == room && After(h).roomName == name { assert JoinedAt(h, m, room, name); }
        if j :| JoinedAt(h, j, room, name) { assert j == m; }
      } else {
        forall j: nat ensures JoinedAt(h, j, room, name) <==> JoinedAt(g, j, room, name) {
          JoinedStill(h, j, room, name);
        }
      }
    }
  }

  lemma JoinedStill(h: seq<Event>, j: nat, room: int, name: Line)
    requires h != [] && !Moves(h, |h| - 1)
    ensures JoinedAt(h, j, room, name) <==> JoinedAt(h[..|h| - 1], j, room, name)
  {
    UnmovedStill(h, j);
    if j < |h| - 1 {
      PrefixKeeps(h, j);
    } else if j == |h| - 1 {
      assert !h[j].JoinedRoom?;
    }
  }

  lemma MovesStill(h: seq<Event>, k: nat)
    requires k < |h| - 1
    ensures Moves(h[..|h| - 1], k) == Moves(h, k) && h[..|h| - 1][k] == h[k]
  {
    PrefixKeeps(h, k);
  }
}
