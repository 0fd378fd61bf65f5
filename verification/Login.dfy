/** The login modes, over every history of one connection: what the modes imply, and
    that the terminal never tells one password from another. */
module Login {
  import opened Telnet
  import opened Keyboard
  import opened Console

  // ------------------------------------------------------------------ every history

  /** A request that hands the doppelganger's callbacks to the channel master. */
  predicate Calls(ask: Request) { ask.AskJoin? || ask.AskWho? || ask.AskExit? }

  predicate Asked(h: seq<Event>) {
    h != [] && (Asked(h[..|h| - 1]) || Calls(Turn(After(h[..|h| - 1]), h[|h| - 1]).ask))
  }

  /** Nobody has the callbacks before the doppelganger has sent them. */
  predicate Plausible(h: seq<Event>) {
    h == [] || (Plausible(h[..|h| - 1]) && (h[|h| - 1].Key? || Asked(h[..|h| - 1])))
  }

  predicate Sound(c: Console) {
    && KeysOk(c.keys)
    && (c.userId != 0 <==> c.mode == Commanding)
    && (c.room != 0 ==> c.mode == Commanding)
    && (c.echo <==> !Secret(c.mode))
    && (c.mode == NewPassword2 ==> |c.newPassword| >= 4)
  }

  lemma SoundObeyed(c: Console, intent: Intent, a: Answers)
    ensures var d := Obeyed(c, intent, a).c;
      && d.mode == c.mode && d.userId == c.userId && d.echo == c.echo && d.newPassword == c.newPassword
      && !Obeyed(c, intent, a).ask.Register?
  {
  }

  /** Leaving or entering a mode brings a new prompt, which turns echo off where needed. */
  ghost predicate Turns(c: Console, s: Step) {
    var d := s.c;
    && (d.userId != 0 <==> d.mode == Commanding)
    && (d.room != 0 ==> d.mode == Commanding)
    && (d.mode == NewPassword2 ==> |d.newPassword| >= 4)
    && ((d.echo <==> !Secret(d.mode)) || (d.echo && d.promptNeeded))
    && (Calls(s.ask) ==> c.mode == Commanding)
    && (c.mode == Commanding ==> d.mode == Commanding)
  }

  lemma SoundSubmit(c: Console, l: Line, a: Answers)
    requires Sound(c) && l != []
    ensures Turns(c, Submit(c, l, a))
    ensures var ask := Submit(c, l, a).ask;
      ask.Register? ==> c.mode == NewPassword2 && ask == Register(c.attempting, l) && l == c.newPassword
  {
    if c.mode == Commanding { SoundObeyed(c, Meaning(c.userName, Expand(l)), a); }
  }

  lemma SoundTurn(c: Console, e: Event)
    requires Sound(c) && (e.Key? || c.mode == Commanding)
    ensures Sound(Turn(c, e).c)
    ensures Calls(Turn(c, e).ask) ==> c.mode == Commanding
    ensures c.mode == Commanding ==> Turn(c, e).c.mode == Commanding
    ensures var ask := Turn(c, e).ask;
      ask.Register? ==>
        && c.mode == NewPassword2 && e.Key? && ask.name == c.attempting
        && |ask.password| >= 4 && ask.password == c.newPassword == Press(c.keys, e.b).1
  {
    if e.Key? {
      var command := Press(c.keys, e.b).1;
      if command != [] { SoundSubmit(Edited(c, e.b), command, e.a); }
    }
  }

  /** At every select of every history: whoever gives commands is logged in, so the
      branches of doCommand for users who are not are never reached; whoever is on a
      channel gives commands; echo is off exactly while a password is typed; and a new
      password is long enough. */
  lemma {:induction false} LoginIsSound(h: seq<Event>)
    requires Plausible(h)
    ensures Sound(After(h))
    ensures Asked(h) ==> After(h).mode == Commanding
  {
    if h != [] {
      LoginIsSound(h[..|h| - 1]);
      SoundTurn(After(h[..|h| - 1]), h[|h| - 1]);
    }
  }

  /** How the second password comes to be asked for: the first has just been accepted. */
  lemma SecondIsAsked(c: Console, e: Event)
    requires Sound(c) && (e.Key? || c.mode == Commanding) && Turn(c, e).c.mode == NewPassword2
    ensures c.mode == NewPassword2 ==> Turn(c, e).c.newPassword == c.newPassword
    ensures c.mode != NewPassword2 ==>
      c.mode == NewPassword1 && e.Key? && Turn(c, e).c.newPassword == Press(c.keys, e.b).1
  {
    if e.Key? {
      var command := Press(c.keys, e.b).1;
      if command != [] { SubmitAsks(Edited(c, e.b), command, e.a); }
    }
  }

  lemma SubmitAsks(c: Console, l: Line, a: Answers)
    requires Sound(c) && l != [] && Submit(c, l, a).c.mode == NewPassword2
    ensures c.mode == NewPassword1 && Submit(c, l, a).c.newPassword == l
  {
    if c.mode == Commanding { SoundObeyed(c, Meaning(c.userName, Expand(l)), a); }
  }

  /** The line ended by event j was accepted as a new password, and none has been since. */
  predicate AcceptedAt(h: seq<Event>, j: nat, password: Line) {
    && j < |h| && h[j].Key? && After(h[..j]).mode == NewPassword1
    && Press(After(h[..j]).keys, h[j].b).1 == password
    && forall k :: j < k <= |h| ==> After(h[..k]).mode == NewPassword2
  }

  lemma AcceptedStill(g: seq<Event>, h: seq<Event>, j: nat, password: Line)
    requires AcceptedAt(g, j, password) && h != [] && g == h[..|h| - 1] && After(h).mode == NewPassword2
    ensures AcceptedAt(h, j, password)
  {
    PrefixOfPrefix(g, h, j);
    forall k | j < k <= |h| ensures After(h[..k]).mode == NewPassword2 {
      PrefixOfPrefix(g, h, k);
    }
  }

  lemma PrefixOfPrefix(g: seq<Event>, h: seq<Event>, k: nat)
    requires h != [] && g == h[..|h| - 1] && k <= |h|
    ensures if k <= |g| then h[..k] == g[..k] else h[..k] == h
    ensures k < |g| ==> h[k] == g[k]
  {
  }

  lemma AcceptedNow(h: seq<Event>, password: Line)
    requires h != [] && h[|h| - 1].Key? && After(h[..|h| - 1]).mode == NewPassword1 && After(h).mode == NewPassword2
    requires Press(After(h[..|h| - 1]).keys, h[|h| - 1].b).1 == password
    ensures AcceptedAt(h, |h| - 1, password)
  {
    assert h[..|h|] == h;
  }

  /** The password to be repeated is the line accepted last. */
  lemma {:induction false} FirstTyped(h: seq<Event>) returns (j: nat)
    requires Plausible(h) && After(h).mode == NewPassword2
    ensures AcceptedAt(h, j, After(h).newPassword)
  {
    if h == [] {
      assert false;
    } else {
      var m := |h| - 1;
      LoginIsSound(h[..m]);
      SecondIsAsked(After(h[..m]), h[m]);
      if After(h[..m]).mode == NewPassword2 {
        j := FirstTyped(h[..m]);
        AcceptedStill(h[..m], h, j, After(h).newPassword);
      } else {
        j := m;
        AcceptedNow(h, After(h).newPassword);
      }
    }
  }

  /** An account is made only of a password of four bytes or more that was accepted at one
      return key and typed again at the next that ended a line. */
  lemma AccountsAreConfirmed(h: seq<Event>, e: Event) returns (j: nat)
    requires Plausible(h + [e]) && Turn(After(h), e).ask.Register?
    ensures var ask := Turn(After(h), e).ask;
      && ask.name == After(h).attempting
      && |ask.password| >= 4
      && After(h).mode == NewPassword2 && e.Key? && ask.password == Press(After(h).keys, e.b).1
      && AcceptedAt(h, j, ask.password)
  {
    assert (h + [e])[..|h|] == h;
    LoginIsSound(h);
    SoundTurn(After(h), e);
    j := FirstTyped(h);
  }

  // ------------------------------------------------------------------ secrecy

  /** What the code finds out about a line typed as a password. */
  datatype Verdict = Blank | Bad | Good

  function Judge(c: Console): Verdict
    requires KeysOk(c.keys)
  {
    var l := Trim(Typed(c.keys));
    if l == [] then Blank
    else if c.mode == NewPassword1 && |l| < 4 then Bad
    else if c.mode == NewPassword2 && l != c.newPassword then Bad
    else Good
  }

  /** Two connections that differ in passwords at most. */
  predicate Alike(c: Console, d: Console) {
    && KeysOk(c.keys) && KeysOk(d.keys)
    && c.(keys := NO_KEYS, newPassword := []) == d.(keys := NO_KEYS, newPassword := [])
    && c.keys.pending == d.keys.pending
    && (Secret(c.mode) || Typed(c.keys) == Typed(d.keys))
  }

  /** The same event, or two keys in a password, whatever they are, that end the line at
      the same time and get the same verdict, from the database too. */
  ghost predicate Indistinct(c: Console, e: Event, d: Console, f: Event)
    requires KeysOk(c.keys) && KeysOk(d.keys)
  {
    if Secret(c.mode) && e.Key? then
      && f.Key? && e.a == f.a
      && var (p, x) := Sift(c.keys.pending, e.b);
         var (q, y) := Sift(d.keys.pending, f.b);
         && p == q && Return(x) == Return(y)
         && (Return(x) ==> Judge(c) == Judge(d))
    else e == f
  }

  lemma PressTyped(k: Keys, b: Byte)
    requires KeysOk(k)
    ensures var (pending, x) := Sift(k.pending, b);
      var (l, command) := Press(k, b);
      && l.pending == pending
      && command == (if Return(x) then Trim(Typed(k)) else [])
      && Typed(l) == (if command != [] then []
                      else if x == BS then Pop(Typed(k))
                      else if x < 32 then Typed(k) else Typed(k) + [x])
  {
    EditTyped(k, Sift(k.pending, b).1);
  }

  /** The same but for what has been typed and the password. */
  predicate SameFrame(c: Console, d: Console) {
    c.(keys := NO_KEYS, newPassword := []) == d.(keys := NO_KEYS, newPassword := [])
  }

  lemma SameObeyed(c: Console, d: Console, intent: Intent, a: Answers)
    requires SameFrame(c, d) && c.keys.column == d.keys.column
    ensures var s, t := Obeyed(c, intent, a), Obeyed(d, intent, a);
      s.reply == t.reply && SameFrame(s.c, t.c)
  {
  }

  /** The same line, typed in the open. */
  lemma SameSubmit(c: Console, d: Console, l: Line, a: Answers)
    requires SameFrame(c, d) && c.keys.column == d.keys.column && !Secret(c.mode) && l != []
    ensures var s, t := Submit(c, l, a), Submit(d, l, a);
      s.reply == t.reply && SameFrame(s.c, t.c)
  {
    if c.mode == Commanding { SameObeyed(c, d, Meaning(c.userName, Expand(l)), a); }
  }

  /** Two passwords with the same verdict. */
  lemma SameVerdict(c: Console, d: Console, l: Line, m: Line, a: Answers)
    requires SameFrame(c, d) && Secret(c.mode) && l != [] && m != []
    requires c.mode == NewPassword1 ==> (|l| < 4 <==> |m| < 4)
    requires c.mode == NewPassword2 ==> (l == c.newPassword <==> m == d.newPassword)
    ensures var s, t := Submit(c, l, a), Submit(d, m, a);
      s.reply == t.reply && SameFrame(s.c, t.c)
  {
  }

  lemma SamePrompt(c: Console, d: Console)
    requires KeysOk(c.keys) && KeysOk(d.keys) && SameFrame(c, d)
    requires c.mode == Commanding ==> Typed(c.keys) == Typed(d.keys)
    ensures Prompt(c).1 == Prompt(d).1 && SameFrame(Prompt(c).0, Prompt(d).0)
    ensures Prompt(c).0.keys == c.keys && Prompt(d).0.keys == d.keys && Prompt(c).0.mode == c.mode
  {
  }

  lemma AlikeSecret(c: Console, e: Event, d: Console, f: Event)
    requires Sound(c) && Sound(d) && Alike(c, d) && Indistinct(c, e, d, f)
    requires Secret(c.mode) && e.Key?
    ensures Struck(c, e.b, e.a).out == Struck(d, f.b, f.a).out
    ensures Alike(Struck(c, e.b, e.a).c, Struck(d, f.b, f.a).c)
  {
    PressTyped(c.keys, e.b);
    PressTyped(d.keys, f.b);
    var l, m := Press(c.keys, e.b).1, Press(d.keys, f.b).1;
    if l != [] {
      SameVerdict(Edited(c, e.b), Edited(d, f.b), l, m, e.a);
    }
  }

  lemma AlikeOpen(c: Console, d: Console, b: Byte, a: Answers)
    requires Sound(c) && Sound(d) && Alike(c, d) && !Secret(c.mode)
    ensures Struck(c, b, a).out == Struck(d, b, a).out
    ensures Alike(Struck(c, b, a).c, Struck(d, b, a).c)
  {
    AlikeEdited(c, d, b);
    var l := Press(c.keys, b).1;
    if l != [] {
      SameSubmit(Edited(c, b), Edited(d, b), l, a);
    }
  }

  lemma AlikeEdited(c: Console, d: Console, b: Byte)
    requires Sound(c) && Sound(d) && Alike(c, d) && !Secret(c.mode)
    ensures Alike(Edited(c, b), Edited(d, b)) && Edited(c, b).keys.column == Edited(d, b).keys.column
    ensures Press(c.keys, b).1 == Press(d.keys, b).1
    ensures Typed(Press(c.keys, b).0) == Typed(Press(d.keys, b).0)
    ensures Press(c.keys, b).0.pending == Press(d.keys, b).0.pending == Edited(c, b).keys.pending
    ensures Echoed(c, Sift(c.keys.pending, b).1) == Echoed(d, Sift(d.keys.pending, b).1)
  {
    assert c.keys.column == |Typed(c.keys)| && d.keys.column == |Typed(d.keys)|;
    PressTyped(c.keys, b);
    PressTyped(d.keys, b);
    EditTyped(c.keys, Sift(c.keys.pending, b).1);
    EditTyped(d.keys, Sift(d.keys.pending, b).1);
    var k, j := Edited(c, b).keys, Edited(d, b).keys;
    assert Typed(k) == Typed(j) && k.column == |Typed(k)| && j.column == |Typed(j)|;
  }

  lemma AlikeHeard(c: Console, d: Console, e: Event)
    requires Sound(c) && Sound(d) && Alike(c, d) && !e.Key? && c.mode == Commanding
    ensures React(c, e).out == React(d, e).out && Alike(React(c, e).c, React(d, e).c)
  {
    assert c.keys.column == |Typed(c.keys)| && d.keys.column == |Typed(d.keys)|;
  }

  lemma AlikeTurn(c: Console, e: Event, d: Console, f: Event)
    requires Sound(c) && Sound(d) && Alike(c, d) && Indistinct(c, e, d, f)
    requires e.Key? || c.mode == Commanding
    ensures Turn(c, e).out == Turn(d, f).out && Alike(Turn(c, e).c, Turn(d, f).c)
  {
    if !e.Key? {
      AlikeHeard(c, d, e);
    } else if Secret(c.mode) {
      AlikeSecret(c, e, d, f);
    } else {
      AlikeOpen(c, d, e.b, e.a);
    }
    SamePrompt(React(c, e).c, React(d, f).c);
  }

  ghost predicate IndistinctRuns(h: seq<Event>, g: seq<Event>)
    requires |h| == |g|
  {
    h == [] ||
    (IndistinctRuns(h[..|h| - 1], g[..|g| - 1])
     && Indistinct(After(h[..|h| - 1]), h[|h| - 1], After(g[..|g| - 1]), g[|g| - 1]))
  }

  /** Everything a terminal receives is the same for all passwords that fare the same. */
  lemma {:induction false} PasswordsNeverShow(h: seq<Event>, g: seq<Event>)
    requires |h| == |g| && Plausible(h) && Plausible(g) && IndistinctRuns(h, g)
    ensures Output(h) == Output(g) && Alike(After(h), After(g))
  {
    if h != [] {
      var m := |h| - 1;
      PasswordsNeverShow(h[..m], g[..m]);
      LoginIsSound(h[..m]);
      LoginIsSound(g[..m]);
      var c, d := After(h[..m]), After(g[..m]);
      AlikeTurn(c, h[m], d, g[m]);
    }
  }

  /** In particular a key typed in a password is not echoed. */
  lemma PasswordKeysAreSilent(h: seq<Event>, b: Byte, a: Answers)
    requires Plausible(h) && Secret(After(h).mode) && !Return(b)
    ensures Turn(After(h), Key(b, a)).out == []
  {
    LoginIsSound(h);
    PressTyped(After(h).keys, b);
  }
}
