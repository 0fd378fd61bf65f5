/** What a user sees: a terminal of one cell per printable byte, and the reading of its
    screen, over every history of one connection. */
module Screen {
  import opened Telnet
  import opened Keyboard
  import opened Console
  import opened Login

  // ------------------------------------------------------------------ the terminal

  /** The lines completed so far, and the line with the cursor. */
  datatype Terminal = Terminal(done: seq<Line>, row: Line, cur: nat)

  predicate Ok(t: Terminal) { t.cur <= |t.row| }

  function Blanks(n: nat): Line { seq(n, _ => SPACE) }

  function Put(t: Terminal, b: Byte): (u: Terminal)
    requires Ok(t)
    ensures Ok(u)
  {
    if b == BS then t.(cur := if t.cur == 0 then 0 else t.cur - 1)
    else if b == CR then t.(cur := 0)
    else if b == LF then Terminal(t.done + [t.row], Blanks(t.cur), t.cur)
    else if b < 32 then t
    else if t.cur < |t.row| then t.(row := t.row[t.cur := b], cur := t.cur + 1)
    else Terminal(t.done, t.row + [b], t.cur + 1)
  }

  function Display(t: Terminal, bytes: Line): (u: Terminal)
    requires Ok(t)
    ensures Ok(u)
    decreases |bytes|
  {
    if bytes == [] then t else Display(Put(t, bytes[0]), bytes[1..])
  }

  /** The line reads `text`, with only blanks to the right of it. */
  predicate Padded(row: Line, text: Line) {
    && |text| <= |row| && row[..|text|] == text
    && forall k :: |text| <= k < |row| ==> row[k] == SPACE
  }

  predicate Agree(done: seq<Line>, lines: seq<Line>) {
    |done| == |lines| && forall k :: 0 <= k < |done| ==> Padded(done[k], lines[k])
  }

  /** The cursor stands behind `text`, and the lines above read `lines`. */
  predicate Shows(t: Terminal, lines: seq<Line>, text: Line) {
    t.cur == |text| && Padded(t.row, text) && Agree(t.done, lines)
  }

  lemma {:induction false} DisplayConcat(t: Terminal, a: Line, b: Line)
    requires Ok(t)
    ensures Display(t, a + b) == Display(Display(t, a), b)
    decreases |a|
  {
    if a == [] {
      assert a + b == b;
    } else {
      assert (a + b)[1..] == a[1..] + b;
      DisplayConcat(Put(t, a[0]), a[1..], b);
    }
  }

  lemma {:induction false} ShowsText(t: Terminal, lines: seq<Line>, base: Line, text: Line)
    requires Shows(t, lines, base) && Legible(text)
    ensures Shows(Display(t, text), lines, base + text)
    decreases |text|
  {
    if text == [] {
      assert base + text == base;
    } else {
      var u := Put(t, text[0]);
      assert u.row[..|base| + 1] == base + [text[0]];
      ShowsText(u, lines, base + [text[0]], text[1..]);
      assert base + [text[0]] + text[1..] == base + text;
    }
  }

  lemma ShowsRubout(t: Terminal, lines: seq<Line>, base: Line, b: Byte)
    requires Shows(t, lines, base + [b])
    ensures Shows(Display(t, [BS, SPACE, BS]), lines, base)
  {
    var t1 := Put(t, BS);
    var t2 := Put(t1, SPACE);
    assert [BS, SPACE, BS][1..] == [SPACE, BS] && [SPACE, BS][1..] == [BS] && [BS][1..] == [];
    assert Display(t1, [SPACE, BS]) == Display(t2, [BS]) == Put(t2, BS);
    assert t2.row[..|base|] == t.row[..|base|] == (base + [b])[..|base|];
  }

  lemma {:induction false} ShowsErase(t: Terminal, lines: seq<Line>, base: Line, gone: Line)
    requires Shows(t, lines, base + gone)
    ensures Shows(Display(t, Erase(|gone|)), lines, base)
    decreases |gone|
  {
    if gone == [] {
      assert base + gone == base;
    } else {
      var n := |gone| - 1;
      assert Erase(|gone|) == [BS, SPACE, BS] + Erase(n);
      DisplayConcat(t, [BS, SPACE, BS], Erase(n));
      assert base + gone == (base + gone[..n]) + [gone[n]];
      ShowsRubout(t, lines, base + gone[..n], gone[n]);
      ShowsErase(Display(t, [BS, SPACE, BS]), lines, base, gone[..n]);
    }
  }

  lemma ShowsNewLine(t: Terminal, lines: seq<Line>, text: Line)
    requires Shows(t, lines, text)
    ensures Shows(Display(t, CRLF), lines + [text], [])
  {
    assert CRLF[1..] == [LF] && [LF][1..] == [];
    assert Display(Put(t, CR), [LF]) == Put(Put(t, CR), LF);
  }

  predicate AllLegible(lines: seq<Line>) { forall k :: 0 <= k < |lines| ==> Legible(lines[k]) }

  lemma {:induction false} ShowsRows(t: Terminal, lines: seq<Line>, more: seq<Line>)
    requires Shows(t, lines, []) && AllLegible(more)
    ensures Shows(Display(t, Rows(more)), lines + more, [])
    decreases |more|
  {
    if more == [] {
      assert lines + more == lines;
    } else {
      var n := |more| - 1;
      ShowsRows(t, lines, more[..n]);
      var u := Display(t, Rows(more[..n]));
      DisplayConcat(t, Rows(more[..n]), more[n]);
      ShowsText(u, lines + more[..n], [], more[n]);
      assert [] + more[n] == more[n];
      DisplayConcat(t, Rows(more[..n]) + more[n], CRLF);
      ShowsNewLine(Display(u, more[n]), lines + more[..n], more[n]);
      assert lines + more[..n] + [more[n]] == lines + more;
    }
  }

  /** A reply on lines of its own completes the line with the cursor. */
  lemma ShowsSays(t: Terminal, lines: seq<Line>, text: Line, more: seq<Line>, tail: Line)
    requires Shows(t, lines, text) && AllLegible(more) && Legible(tail)
    ensures Shows(Display(t, CRLF + Rows(more) + tail), lines + [text] + more, tail)
  {
    DisplayConcat(t, CRLF, Rows(more));
    DisplayConcat(t, CRLF + Rows(more), tail);
    ShowsNewLine(t, lines, text);
    ShowsRows(Display(t, CRLF), lines + [text], more);
    ShowsText(Display(t, CRLF + Rows(more)), lines + [text] + more, [], tail);
    assert [] + tail == tail;
  }

  /** A message in place of the prompt and of what has been typed. */
  lemma ShowsInstead(t: Terminal, lines: seq<Line>, base: Line, gone: Line, text: Line)
    requires Shows(t, lines, base + gone) && Legible(text)
    ensures Shows(Display(t, Erase(|gone|) + text + CRLF), lines + [base + text], [])
  {
    DisplayConcat(t, Erase(|gone|), text);
    DisplayConcat(t, Erase(|gone|) + text, CRLF);
    ShowsErase(t, lines, base, gone);
    ShowsText(Display(t, Erase(|gone|)), lines, base, text);
    ShowsNewLine(Display(t, Erase(|gone|) + text), lines, base + text);
  }

  // ------------------------------------------------------------------ the reading

  /** The completed lines, and the part of the current one that is not the user's to edit. */
  datatype View = View(done: seq<Line>, stub: Line)

  function Visible(c: Console): Line
    requires KeysOk(c.keys)
  {
    if c.echo then Typed(c.keys) else []
  }

  /** All but the last n bytes. */
  function Without(l: Line, n: nat): Line { if n <= |l| then l[..|l| - n] else [] }

  /** What an event does to the reading.  A command completes the line it was typed on,
      unless it is speech, which vanishes until it comes back from the channel, or a
      request to join, which waits for its answer on the same line. */
  function Seen(v: View, c: Console, e: Event): View
    requires KeysOk(c.keys)
  {
    if e.Key? then
      var command := Press(c.keys, e.b).1;
      if command == [] then v else Replied(v, c, Submit(Edited(c, e.b), command, e.a))
    else Replied(v, c, Heard(c, e))
  }

  function Replied(v: View, c: Console, s: Step): View
    requires KeysOk(c.keys)
  {
    match s.reply
    case Mute => v.(stub := v.stub + Visible(c))
    case Vanish => v
    case Says(lines, tail) => View(v.done + [v.stub + Visible(c)] + lines, tail + Greeting(s.c))
    case Instead(text) => View(v.done + [Without(v.stub, c.promptLen) + text], Greeting(s.c))
    case Scold(text) => v    // not for users who are logged in
  }

  // ------------------------------------------------------------------ one event

  predicate LegibleConsole(c: Console) {
    Legible(c.userName) && Legible(c.roomName) && Legible(c.keys.buffer)
  }

  ghost predicate LegibleEvent(e: Event) {
    match e
    case Key(_, a) => (forall p :: Legible(a.say(p))) && Legible(a.name) && AllLegible(a.channels) && AllLegible(a.help)
    case JoinedRoom(_, name) => Legible(name)
    case Refusal(text) => Legible(text)
    case MasterText(text) => Legible(text)
    case DeniedBy(text) => Legible(text)
    case Chat(text) => Legible(text)
    case Exited(_, text) => Legible(text)
  }

  /** The screen at a select. */
  predicate Depicts(t: Terminal, v: View, c: Console)
    requires KeysOk(c.keys)
  {
    && Shows(t, v.done, v.stub + Visible(c))
    && c.promptLen <= |v.stub|
  }

  lemma SiftGives(pending: seq<Byte>, b: Byte)
    ensures var x := Sift(pending, b).1; x == 0 || x == BS || Return(x) || x >= 32
  {
  }

  /** An echo. */
  lemma DepictsEcho(t: Terminal, v: View, c: Console, b: Byte)
    requires KeysOk(c.keys) && Depicts(t, v, c)
    ensures Depicts(Display(t, Echoed(c, Sift(c.keys.pending, b).1)), v, Edited(c, b))
  {
    var x := Sift(c.keys.pending, b).1;
    SiftGives(c.keys.pending, b);
    EditTyped(c.keys, x);
    if c.echo && x == BS && c.keys.column >= 1 {
      var n := c.keys.column - 1;
      assert v.stub + Typed(c.keys) == v.stub + Typed(c.keys)[..n] + [Typed(c.keys)[n]];
      ShowsRubout(t, v.done, v.stub + Typed(c.keys)[..n], Typed(c.keys)[n]);
    } else if c.echo && x >= 32 {
      ShowsText(t, v.done, v.stub + Typed(c.keys), [x]);
      assert v.stub + Typed(c.keys) + [x] == v.stub + (Typed(c.keys) + [x]);
    }
  }

  /** What the reply to a line can be, for a user who gives commands only when logged in. */
  ghost predicate Fitting(c: Console, s: Step) {
    && s.c.keys == c.keys
    && LegibleConsole(s.c)
    && match s.reply
       case Mute => !s.c.promptNeeded && s.c.echo == c.echo && s.c.promptLen == c.promptLen
       case Vanish => !s.c.promptNeeded && s.c == c && c.mode == Commanding
       case Says(lines, tail) => s.c.promptNeeded && AllLegible(lines) && Legible(tail)
       case Instead(_) => false
       case Scold(_) => false
  }

  lemma {:induction false} TrimLegible(l: Line)
    requires Legible(l)
    ensures Legible(TrimLeft(l)) && Legible(TrimRight(l))
    decreases |l|
  {
    if l != [] {
      TrimLegible(l[1..]);
      TrimLegible(l[..|l| - 1]);
    }
  }

  predicate LegibleIntent(i: Intent) {
    match i
    case ToSpeak(text) => Legible(text)
    case ToCreate(name) => Legible(name)
    case ToJoin(name) => Legible(name)
    case Unknown(word) => Legible(word)
    case _ => true
  }

  lemma SplitLegible(l: Line)
    requires Legible(l)
    ensures Legible(Split(l).0) && Legible(Split(l).1) && Legible(Unhash(Split(l).1))
  {
    var i := IndexOf(l, SPACE);
    if i > 0 {
      TrimLegible(l[i..]);
      TrimLegible(TrimLeft(l[i..]));
    }
    var operand := Split(l).1;
    if |operand| > 1 {
      TrimLegible(operand[1..]);
      TrimLegible(TrimLeft(operand[1..]));
    }
  }

  lemma MeaningLegible(user: Line, l: Line)
    requires Legible(user) && Legible(l)
    ensures LegibleIntent(Meaning(user, l))
  {
    SplitLegible(l);
  }

  lemma ExpandLegible(l: Line)
    requires Legible(l) && l != []
    ensures Legible(Expand(l))
  {
    TrimLegible(l[1..]);
    TrimLegible(TrimLeft(l[1..]));
    var l1 := if l[0] == QUOTE then Text("/say ") + Trim(l[1..]) else l;
    TrimLegible(l1[1..]);
    TrimLegible(TrimLeft(l1[1..]));
    var l2 := if l1[0] == SEMICOLON then Text("/emote ") + Trim(l1[1..]) else l1;
    TrimLegible(l2);
    TrimLegible(TrimLeft(l2));
  }

  lemma ObeyedFits(c: Console, intent: Intent, a: Answers)
    requires c.mode == Commanding && c.userId != 0 && !c.promptNeeded
    requires LegibleConsole(c) && LegibleIntent(intent) && LegibleEvent(Key(0, a))
    ensures Fitting(c, Obeyed(c, intent, a))
  {
  }

  lemma SubmitFits(c: Console, l: Line, a: Answers)
    requires Sound(c) && !c.promptNeeded && LegibleConsole(c) && Legible(l) && l != [] && LegibleEvent(Key(0, a))
    ensures Fitting(c, Submit(c, l, a))
  {
    if c.mode == Commanding {
      ExpandLegible(l);
      MeaningLegible(c.userName, Expand(l));
      ObeyedFits(c, Meaning(c.userName, Expand(l)), a);
    }
  }

  lemma GreetingLegible(c: Console)
    requires LegibleConsole(c)
    ensures Legible(Greeting(c))
  {
  }

  lemma Regroup(a: Line, b: Line, c: Line, d: Line)
    ensures a + b + (c + d) == a + (b + c + d)
  {
  }

  /** A reply and the prompt after it, to a line or a message. */
  lemma DepictsSays(t: Terminal, v: View, c: Console, s: Step, d: Console)
    requires KeysOk(c.keys) && Depicts(t, v, c)
    requires s.reply.Says? && s.c.promptNeeded && AllLegible(s.reply.lines) && Legible(s.reply.tail)
    requires KeysOk(d.keys) && LegibleConsole(d) && d == s.c.(keys := d.keys)
    requires Typed(d.keys) == [] || (d.mode == Commanding && d.echo)
    ensures Depicts(Display(t, Rendered(c, s.reply) + Prompt(d).1), Replied(v, c, s), Prompt(d).0)
  {
    var lines, tail := s.reply.lines, s.reply.tail;
    GreetingLegible(d);
    assert Greeting(d) == Greeting(s.c);
    assert Prompt(d).1 == Greeting(d) + Typed(d.keys);
    Regroup(CRLF + Rows(lines), tail, Greeting(d), Typed(d.keys));
    ShowsSays(t, v.done, v.stub + Visible(c), lines, tail + Greeting(d) + Typed(d.keys));
  }

  lemma DepictsInstead(t: Terminal, v: View, c: Console, s: Step)
    requires KeysOk(c.keys) && Depicts(t, v, c) && c.mode == Commanding && c.echo
    requires s.reply.Instead? && Legible(s.reply.text)
    requires s.c.promptNeeded && s.c.keys == c.keys && s.c.mode == Commanding && s.c.echo && LegibleConsole(s.c)
    ensures Depicts(Display(t, Rendered(c, s.reply) + Prompt(s.c).1), Replied(v, c, s), Prompt(s.c).0)
  {
    var n := |v.stub| - c.promptLen;
    var base, gone := v.stub[..n], v.stub[n..] + Typed(c.keys);
    assert v.stub + Typed(c.keys) == base + gone;
    ShowsInstead(t, v.done, base, gone, s.reply.text);
    GreetingLegible(s.c);
    ShowsMore(t, Rendered(c, s.reply), v.done + [base + s.reply.text], Prompt(s.c).1);
  }

  lemma ShowsMore(t: Terminal, bytes: Line, lines: seq<Line>, text: Line)
    requires Ok(t) && Shows(Display(t, bytes), lines, []) && Legible(text)
    ensures Shows(Display(t, bytes + text), lines, text)
  {
    DisplayConcat(t, bytes, text);
    ShowsText(Display(t, bytes), lines, [], text);
    assert [] + text == text;
  }

  lemma DepictsStruck(t: Terminal, v: View, c: Console, b: Byte, a: Answers)
    requires Sound(c) && LegibleConsole(c) && Depicts(t, v, c) && LegibleEvent(Key(b, a))
    ensures Depicts(Display(t, Turn(c, Key(b, a)).out), Seen(v, c, Key(b, a)), Turn(c, Key(b, a)).c)
    ensures LegibleConsole(Turn(c, Key(b, a)).c)
  {
    var (keys, command) := Press(c.keys, b);
    var d := Edited(c, b);
    PressTyped(c.keys, b);
    if command == [] {
      DepictsEcho(t, v, c, b);
      assert d.keys == keys;
      assert Turn(c, Key(b, a)).out == Echoed(c, Sift(c.keys.pending, b).1);
    } else {
      TrimLegible(Typed(c.keys));
      TrimLegible(TrimLeft(Typed(c.keys)));
      SubmitFits(d, command, a);
      var s := Submit(d, command, a);
      DepictsLine(t, v, c, d, s, keys);
    }
  }

  lemma DepictsLine(t: Terminal, v: View, c: Console, d: Console, s: Step, keys: Keys)
    requires Sound(c) && Depicts(t, v, c)
    requires KeysOk(d.keys) && d == c.(promptNeeded := false, keys := d.keys) && Typed(d.keys) == Typed(c.keys)
    requires Fitting(d, s) && KeysOk(keys) && keys == d.keys.(column := 0)
    ensures var e := s.c.(keys := keys);
      && Depicts(Display(t, Rendered(d, s.reply) + Prompt(e).1), Replied(v, c, s), Prompt(e).0)
      && LegibleConsole(Prompt(e).0)
  {
    var e := s.c.(keys := keys);
    if s.reply.Says? {
      DepictsSays(t, v, c, s, e);
    } else {
      assert Prompt(e) == (e, []);
      assert Rendered(d, s.reply) + [] == Rendered(d, s.reply);
      assert v.stub + [] == v.stub && v.stub + Visible(c) + [] == v.stub + Visible(c);
      if s.reply.Vanish? {
        ShowsErase(t, v.done, v.stub, Typed(c.keys));
      }
    }
  }

  lemma DepictsHeard(t: Terminal, v: View, c: Console, e: Event)
    requires Sound(c) && c.mode == Commanding && LegibleConsole(c) && Depicts(t, v, c) && LegibleEvent(e) && !e.Key?
    ensures Depicts(Display(t, Turn(c, e).out), Seen(v, c, e), Turn(c, e).c)
    ensures LegibleConsole(Turn(c, e).c)
  {
    var s := Heard(c, e);
    if s.reply.Says? {
      DepictsSays(t, v, c, s, s.c);
    } else {
      DepictsInstead(t, v, c, s);
    }
  }

  lemma DepictsTurn(t: Terminal, v: View, c: Console, e: Event)
    requires Sound(c) && (e.Key? || c.mode == Commanding)
    requires LegibleConsole(c) && Depicts(t, v, c) && LegibleEvent(e)
    ensures Depicts(Display(t, Turn(c, e).out), Seen(v, c, e), Turn(c, e).c)
    ensures LegibleConsole(Turn(c, e).c)
  {
    if e.Key? { DepictsStruck(t, v, c, e.b, e.a); } else { DepictsHeard(t, v, c, e); }
  }

  lemma DepictsStart(t: Terminal)
    requires Shows(t, [], [])
    ensures Depicts(Display(t, Output([])), Reading([]), START) && LegibleConsole(START)
  {
    var prompt := Text("Username: ");
    StartIs(prompt);
    ShowsText(t, [], [], prompt);
    assert [] + prompt == prompt == prompt + [];
  }

  lemma StartIs(prompt: Line)
    requires prompt == Text("Username: ")
    ensures Output([]) == prompt && Reading([]) == View([], prompt)
    ensures Visible(START) == [] && START.promptLen == 0 && LegibleConsole(START)
  {
  }

  // ------------------------------------------------------------------ every history

  ghost predicate AllLegibleEvents(h: seq<Event>) { forall k :: 0 <= k < |h| ==> LegibleEvent(h[k]) }

  function Reading(h: seq<Event>): View {
    if h == [] then View([], Greeting(START))
    else Seen(Reading(h[..|h| - 1]), After(h[..|h| - 1]), h[|h| - 1])
  }

  /** On the terminal, whatever is typed, said and heard, and in whatever order: the line
      with the cursor is what `Reading` says and the user's typing, with only blanks to
      the right, and the lines above are those it says, each perhaps with blanks behind. */
  lemma {:induction false} ScreenIsReading(h: seq<Event>, t: Terminal)
    requires Plausible(h) && AllLegibleEvents(h) && Shows(t, [], [])
    ensures Depicts(Display(t, Output(h)), Reading(h), After(h)) && LegibleConsole(After(h))
  {
    if h == [] {
      DepictsStart(t);
    } else {
      var m := |h| - 1;
      ScreenIsReading(h[..m], t);
      LoginIsSound(h[..m]);
      DisplayConcat(t, Output(h[..m]), Turn(After(h[..m]), h[m]).out);
      DepictsTurn(Display(t, Output(h[..m])), Reading(h[..m]), After(h[..m]), h[m]);
    }
  }

  /** A request to join still stands on the line with the cursor: no prompt has been
      written since it was typed. */
  function Standing(joining: bool, c: Console, e: Event): bool
    requires KeysOk(c.keys)
  {
    e.Key? && !React(c, e).c.promptNeeded && (joining || Turn(c, e).ask.AskJoin?)
  }

  function Joining(h: seq<Event>): bool {
    h != [] && Standing(Joining(h[..|h| - 1]), After(h[..|h| - 1]), h[|h| - 1])
  }

  /** While a user gives commands, unless one to join was the last and has had no answer,
      nor any other message come since, what stands to the left of the cursor is exactly
      the prompt and what has been typed. */
  lemma {:induction false} PromptAndTyping(h: seq<Event>, t: Terminal)
    requires Plausible(h) && AllLegibleEvents(h) && Shows(t, [], [])
    requires After(h).mode == Commanding && !Joining(h)
    ensures var c := After(h);
      && Shows(Display(t, Output(h)), Reading(h).done, Greeting(c) + Typed(c.keys))
      && c.promptLen == |Greeting(c)|
  {
    ScreenIsReading(h, t);
    LoginIsSound(h);
    StubIsPrompt(h);
  }

  ghost predicate Prompted(c: Console, v: View, joining: bool) {
    c.mode == Commanding ==> c.promptLen == |Greeting(c)| && (!joining ==> v.stub == Greeting(c))
  }

  lemma {:induction false} StubIsPrompt(h: seq<Event>)
    requires Plausible(h) && AllLegibleEvents(h)
    ensures Prompted(After(h), Reading(h), Joining(h))
  {
    if h == [] {
      assert START.mode == Username;
    } else {
      var m := |h| - 1;
      StubIsPrompt(h[..m]);
      ScreenIsReading(h[..m], Terminal([], [], 0));
      LoginIsSound(h[..m]);
      TurnPrompts(After(h[..m]), Reading(h[..m]), Joining(h[..m]), h[m]);
    }
  }

  lemma TurnPrompts(c: Console, v: View, joining: bool, e: Event)
    requires Sound(c) && (e.Key? || c.mode == Commanding) && LegibleConsole(c) && LegibleEvent(e)
    requires Prompted(c, v, joining)
    ensures Prompted(Turn(c, e).c, Seen(v, c, e), Standing(joining, c, e))
  {
    if e.Key? { StruckPrompts(c, v, joining, e.b, e.a); } else { HeardPrompts(c, v, joining, e); }
  }

  lemma HeardPrompts(c: Console, v: View, joining: bool, e: Event)
    requires Sound(c) && c.mode == Commanding && !e.Key? && Prompted(c, v, joining)
    ensures Prompted(Turn(c, e).c, Seen(v, c, e), false)
  {
    var s := Heard(c, e);
    assert s.c.(keys := c.keys) == s.c;
    ReplyPrompts(c, c, v, joining, s, c.keys, false);
  }

  lemma StruckPrompts(c: Console, v: View, joining: bool, b: Byte, a: Answers)
    requires Sound(c) && LegibleConsole(c) && LegibleEvent(Key(b, a)) && Prompted(c, v, joining)
    ensures Prompted(Turn(c, Key(b, a)).c, Seen(v, c, Key(b, a)), Standing(joining, c, Key(b, a)))
  {
    var (keys, command) := Press(c.keys, b);
    var d := Edited(c, b);
    if command != [] {
      PressTyped(c.keys, b);
      TrimLegible(Typed(c.keys));
      TrimLegible(TrimLeft(Typed(c.keys)));
      SubmitFits(d, command, a);
      SubmitWaits(d, command, a);
      ReplyPrompts(c, d, v, joining, Submit(d, command, a), keys, Standing(joining, c, Key(b, a)));
    }
  }

  /** Only a request to join leaves the line as it is. */
  ghost predicate Waits(c: Console, s: Step) {
    && (s.reply.Mute? ==> c.mode == s.c.mode == Commanding && s.ask.AskJoin? && Greeting(s.c) == Greeting(c))
    && (s.reply.Says? && s.c.mode == Commanding ==> s.reply.tail == [])
  }

  lemma ObeyedWaits(c: Console, intent: Intent, a: Answers)
    requires c.mode == Commanding
    ensures Waits(c, Obeyed(c, intent, a))
  {
  }

  lemma SubmitWaits(c: Console, l: Line, a: Answers)
    requires l != []
    ensures Waits(c, Submit(c, l, a))
  {
    if c.mode == Commanding { ObeyedWaits(c, Meaning(c.userName, Expand(l)), a); }
  }

  lemma ReplyPrompts(c: Console, d: Console, v: View, joining: bool, s: Step, keys: Keys, after: bool)
    requires KeysOk(c.keys) && KeysOk(keys) && Prompted(c, v, joining)
    requires d == c.(promptNeeded := d.promptNeeded, keys := d.keys)
    requires s.reply.Says? || s.reply.Instead? ==> s.c.promptNeeded
    requires s.reply.Vanish? ==> s.c == d && !d.promptNeeded && (joining ==> after)
    requires s.reply.Mute? ==>
      && !s.c.promptNeeded && s.c.mode == c.mode && s.c.promptLen == c.promptLen
      && Greeting(s.c) == Greeting(c) && after
    requires s.reply.Says? && s.c.mode == Commanding ==> s.reply.tail == []
    requires !s.reply.Scold?
    ensures Prompted(Prompt(s.c.(keys := keys)).0, Replied(v, c, s), after)
  {
    var e := s.c.(keys := keys);
    assert Greeting(e) == Greeting(s.c);
    assert [] + Greeting(e) == Greeting(e);
  }

  // ------------------------------------------------------------------ conversation

  /** Typing, speaking, and hearing others, on a channel. */
  predicate Talk(c: Console, e: Event)
    requires KeysOk(c.keys)
  {
    match e
    case Key(b, _) =>
      var command := Press(c.keys, b).1;
      command == [] || Meaning(c.userName, Expand(command)).ToSpeak?
    case Chat(_) => true
    case Exited(mine, _) => !mine
    case _ => false
  }

  predicate Talks(h: seq<Event>, es: seq<Event>)
    decreases |es|
  {
    es == [] || (Talks(h, es[..|es| - 1]) && Talk(After(h + es[..|es| - 1]), es[|es| - 1]))
  }

  function Messages(es: seq<Event>): seq<Line> {
    if es == [] then []
    else
      var e := es[|es| - 1];
      Messages(es[..|es| - 1]) + (if e.Chat? || e.Exited? then [e.text] else [])
  }

  lemma TalkStays(c: Console, v: View, e: Event)
    requires Sound(c) && c.mode == Commanding && c.room != 0 && Prompted(c, v, false) && Talk(c, e)
    ensures var d := Turn(c, e).c;
      d.mode == Commanding && d.room == c.room && Greeting(d) == Greeting(c)
    ensures !Standing(false, c, e)
    ensures Seen(v, c, e).stub == Greeting(c)
    ensures Seen(v, c, e).done == v.done + (if e.Chat? || e.Exited? then [e.text] else [])
  {
    assert v.done + [] == v.done;
    if !e.Key? { assert [] + e.text == e.text; }
  }

  lemma TalkGoesOn(g: seq<Event>, f: seq<Event>, e: Event)
    requires f != [] && f[..|f| - 1] == g && f[|f| - 1] == e
    requires Plausible(g) && AllLegibleEvents(g) && Talk(After(g), e)
    requires After(g).mode == Commanding && After(g).room != 0 && !Joining(g)
    ensures Reading(f).done == Reading(g).done + (if e.Chat? || e.Exited? then [e.text] else [])
    ensures After(f).mode == Commanding && After(f).room == After(g).room && !Joining(f)
  {
    LoginIsSound(g);
    StubIsPrompt(g);
    TalkStays(After(g), Reading(g), e);
  }

  /** However typing, speech and what others say are interleaved, the lines that come to
      stand on the screen are exactly the messages that came in, in order: no prompt, no
      echo and no half-typed line is left between them. */
  lemma {:induction false} TalkLeavesTheMessages(h: seq<Event>, es: seq<Event>)
    requires Plausible(h + es) && AllLegibleEvents(h + es) && Talks(h, es)
    requires Plausible(h) && After(h).mode == Commanding && After(h).room != 0 && !Joining(h)
    ensures Reading(h + es).done == Reading(h).done + Messages(es)
    ensures After(h + es).mode == Commanding && After(h + es).room == After(h).room && !Joining(h + es)
    decreases |es|
  {
    if es == [] {
      assert h + es == h;
      assert Reading(h).done + [] == Reading(h).done;
    } else {
      var m, e := |es| - 1, es[|es| - 1];
      var g := h + es[..m];
      LastSplits(h, es);
      PrefixIsFine(h + es, g, e);
      TalkLeavesTheMessages(h, es[..m]);
      TalkGoesOn(g, h + es, e);
      MessagesGrow(Reading(h).done, es);
    }
  }

  lemma PrefixIsFine(f: seq<Event>, g: seq<Event>, e: Event)
    requires f == g + [e] && Plausible(f) && AllLegibleEvents(f)
    ensures f != [] && f[..|f| - 1] == g && f[|f| - 1] == e
    ensures Plausible(g) && AllLegibleEvents(g)
  {
    assert f[..|f| - 1] == g;
    assert forall k :: 0 <= k < |g| ==> g[k] == f[k];
  }

  lemma LastSplits(h: seq<Event>, es: seq<Event>)
    requires es != []
    ensures h + es == h + es[..|es| - 1] + [es[|es| - 1]]
  {
  }

  lemma MessagesGrow(done: seq<Line>, es: seq<Event>)
    requires es != []
    ensures var e := es[|es| - 1];
      done + Messages(es) == done + Messages(es[..|es| - 1]) + (if e.Chat? || e.Exited? then [e.text] else [])
  {
  }

  lemma {:induction false} LinesStay(t: Terminal, bytes: Line)
    requires Ok(t)
    ensures t.done <= Display(t, bytes).done
    decreases |bytes|
  {
    if bytes != [] { LinesStay(Put(t, bytes[0]), bytes[1..]); }
  }

  lemma {:induction false} OutputGrows(h: seq<Event>, es: seq<Event>)
    ensures Output(h) <= Output(h + es)
    decreases |es|
  {
    if es == [] {
      assert h + es == h;
    } else {
      OutputGrows(h, es[..|es| - 1]);
      OutputOfLast(h + es, h + es[..|es| - 1]);
    }
  }

  lemma OutputOfLast(f: seq<Event>, g: seq<Event>)
    requires f != [] && f[..|f| - 1] == g
    ensures Output(g) <= Output(f)
  {
  }

  lemma AllLegiblePrefix(h: seq<Event>, es: seq<Event>)
    requires AllLegibleEvents(h + es)
    ensures AllLegibleEvents(h)
  {
    forall k | 0 <= k < |h| ensures LegibleEvent(h[k]) { assert (h + es)[k] == h[k]; }
  }

  /** The lines that were there are still there, and below them stand these. */
  predicate Adds(before: seq<Line>, after: seq<Line>, more: seq<Line>) {
    && before <= after && |after| == |before| + |more|
    && forall k :: 0 <= k < |more| ==> Padded(after[|before| + k], more[k])
  }

  /** And so on the terminal: what is added to it is the messages, one line each. */
  lemma TalkOnTheTerminal(h: seq<Event>, es: seq<Event>, t: Terminal)
    requires Plausible(h + es) && AllLegibleEvents(h + es) && Talks(h, es) && Shows(t, [], [])
    requires Plausible(h) && After(h).mode == Commanding && After(h).room != 0 && !Joining(h)
    ensures Adds(Display(t, Output(h)).done, Display(t, Output(h + es)).done, Messages(es))
  {
    TalkLeavesTheMessages(h, es);
    OnTheTerminal(h, es, t, Messages(es));
  }

  lemma OnTheTerminal(h: seq<Event>, es: seq<Event>, t: Terminal, more: seq<Line>)
    requires Plausible(h) && Plausible(h + es) && AllLegibleEvents(h + es) && Shows(t, [], [])
    requires Reading(h + es).done == Reading(h).done + more
    ensures Adds(Display(t, Output(h)).done, Display(t, Output(h + es)).done, more)
  {
    AllLegiblePrefix(h, es);
    LinesAgree(h, t);
    LinesAgree(h + es, t);
    OutputGrows(h, es);
    TwoDisplays(t, Output(h), Output(h + es));
    TwoReadings(Display(t, Output(h)).done, Display(t, Output(h + es)).done, Reading(h).done, more);
  }

  lemma LinesAgree(h: seq<Event>, t: Terminal)
    requires Plausible(h) && AllLegibleEvents(h) && Shows(t, [], [])
    ensures Agree(Display(t, Output(h)).done, Reading(h).done)
  {
    ScreenIsReading(h, t);
  }

  lemma TwoDisplays(t: Terminal, a: Line, b: Line)
    requires Ok(t) && a <= b
    ensures Display(t, a).done <= Display(t, b).done
  {
    assert b == a + b[|a|..];
    DisplayConcat(t, a, b[|a|..]);
    LinesStay(Display(t, a), b[|a|..]);
  }

  lemma TwoReadings(before: seq<Line>, after: seq<Line>, lines: seq<Line>, more: seq<Line>)
    requires before <= after && Agree(before, lines) && Agree(after, lines + more)
    ensures Adds(before, after, more)
  {
    forall k | 0 <= k < |more| ensures Padded(after[|before| + k], more[k]) {
      assert (lines + more)[|before| + k] == more[k];
    }
  }
}
