/** What can be typed at the command prompt, spelled out: for every command word the bytes
    typed, the message that is sent for them and what is written on the terminal. */
module Vocabulary {
  import opened Options
  import opened Telnet
  import opened Keyboard
  import opened Console
  import opened Accounts
  import opened Doppelganger
  import Client
  import Wire

  // ------------------------------------------------------------------ spelling

  /** The bytes of an ASCII string. */
  function Ascii(s: string): (l: Line)
    ensures |l| == |s|
  {
    seq(|s|, i requires 0 <= i < |s| => s[i] as int % 256)
  }

  /** Bytes that make up a Go string. */
  predicate Reads(s: string, l: Line) {
    |s| == |l| && forall k :: 0 <= k < |s| ==> s[k] as int == l[k]
  }

  lemma AsciiText(s: string)
    requires forall k :: 0 <= k < |s| ==> ' ' <= s[k] <= '~'
    ensures Text(s) == Ascii(s)
  {
  }

  /** The line typed is this word, with this operand behind a blank, if any; white space at
      either end and between the two does not matter. */
  ghost predicate Types(typed: Line, word: Line, operand: Line) {
    exists left, gap, right ::
      && typed == left + (word + gap + operand) + right
      && Margins(left) && Margins(right) && Separates(gap, operand)
  }

  predicate Separates(gap: Line, operand: Line) {
    Tight(operand) && Margins(gap) && if operand == [] then gap == [] else gap != [] && gap[0] == 32
  }

  /** A slash, and neither a blank nor a margin at its end. */
  predicate IsWord(word: Line) { word != [] && word[0] == 47 && 32 !in word && !Margin(word[|word| - 1]) }

  lemma TypedIsTrimmed(typed: Line, word: Line, operand: Line) returns (gap: Line)
    requires Types(typed, word, operand) && IsWord(word)
    ensures Trim(typed) == word + gap + operand && Separates(gap, operand)
  {
    var left, g, right :| typed == left + (word + g + operand) + right
      && Margins(left) && Margins(right) && Separates(g, operand);
    gap := g;
    var l := word + gap + operand;
    assert l[0] == word[0];
    assert l[|l| - 1] == if operand == [] then word[|word| - 1] else operand[|operand| - 1];
    OneTrim(left, l, right);
  }

  lemma WordComesApart(word: Line, gap: Line, operand: Line)
    requires IsWord(word) && Separates(gap, operand)
    ensures Split(word + gap + operand) == (word, operand)
  {
    var l := word + gap + operand;
    if operand == [] {
      assert l == word;
      NoBlank(word);
    } else {
      var rest := gap[1..] + operand;
      assert l == word + [SPACE] + rest;
      SplitWord(word, rest);
      OneTrim(gap[1..], operand, []);
      assert gap[1..] + operand + [] == rest;
    }
  }

  lemma {:induction false} NoBlank(l: Line)
    requires SPACE !in l
    ensures IndexOf(l, SPACE) == -1
  {
    if l != [] { NoBlank(l[1..]); }
  }

  // ------------------------------------------------------------------ the words

  /** The words of talk, and what they put around what is said. */
  predicate TalkWord(word: string, verb: string, end: string) {
    || (word == "/say" && verb == " says, \"" && end == "\"")
    || (word == "/think" && verb == " thinks . o O ( " && end == " )")
    || (word == "/sing" && verb == " sings ~ ~ " && end == " ~ ~")
    || (word == "/emote" && verb == " " && end == "")
  }

  lemma WordsOfTalk(user: Line, word: string, verb: string, operand: Line, end: string)
    requires TalkWord(word, verb, end)
    ensures Sense(user, Ascii(word), operand) == ToSpeak(user + Ascii(verb) + operand + Ascii(end))
    ensures IsWord(Ascii(word))
  {
    AsciiText(word);
    AsciiText(verb);
    AsciiText(end);
    assert Text("/emote")[1] != Text("/think")[1];
    assert Text("") == [];
  }

  lemma OtherWords(user: Line, operand: Line)
    ensures Sense(user, Ascii("/create"), operand) == ToCreate(Unhash(operand))
    ensures Sense(user, Ascii("/list"), operand) == ToList
    ensures Sense(user, Ascii("/join"), operand) == ToJoin(operand)
  {
    AsciiText("/create");
    AsciiText("/list");
    AsciiText("/join");
    assert Text("/list")[1] != Text("/sing")[1];
    assert Text("/join")[1] != Text("/sing")[1] && Text("/join")[1] != Text("/list")[1];
  }

  lemma MoreWords(user: Line, operand: Line)
    ensures Sense(user, Ascii("/who"), operand) == ToAskWho
    ensures Sense(user, Ascii("/exit"), operand) == ToExit
    ensures Sense(user, Ascii("/help"), operand) == ToGetHelp
  {
    AsciiText("/who");
    AsciiText("/exit");
    AsciiText("/help");
    assert Text("/who")[1] != Text("/say")[1];
    assert Text("/exit")[1] != Text("/sing")[1] && Text("/exit")[1] != Text("/list")[1];
    assert Text("/exit")[1] != Text("/join")[1];
    assert Text("/help")[1] != Text("/sing")[1] && Text("/help")[1] != Text("/list")[1];
    assert Text("/help")[1] != Text("/join")[1] && Text("/help")[1] != Text("/exit")[1];
  }

  const WORDS: set<string> :=
    {"/say", "/think", "/sing", "/emote", "/create", "/list", "/join", "/who", "/exit", "/help"}

  lemma UnknownWords(user: Line, word: Line, operand: Line)
    requires forall s :: s in WORDS ==> word != Ascii(s)
    ensures Sense(user, word, operand) == Unknown(word)
  {
    NotTalk(word);
    NotThis(word, "/create");
    NotThis(word, "/list");
    NotThis(word, "/join");
    NotThis(word, "/who");
    NotThis(word, "/exit");
    NotThis(word, "/help");
  }

  lemma NotTalk(word: Line)
    requires forall s :: s in WORDS ==> word != Ascii(s)
    ensures word != Text("/say") && word != Text("/think") && word != Text("/sing") && word != Text("/emote")
  {
    NotThis(word, "/say");
    NotThis(word, "/think");
    NotThis(word, "/sing");
    NotThis(word, "/emote");
  }

  lemma NotThis(word: Line, s: string)
    requires word != Ascii(s) && forall k :: 0 <= k < |s| ==> ' ' <= s[k] <= '~'
    ensures word != Text(s)
  {
    AsciiText(s);
  }

  // ------------------------------------------------------------------ what a return key does

  /** At the command prompt, with the membership protocol's side of the same user. */
  ghost predicate Ready(c: Console, x: Client.Dop, typed: Line) {
    && KeysOk(c.keys) && c.keys.pending == [] && Typed(c.keys) == typed
    && c.mode == Commanding && c.userId != 0 && x.id == c.room
  }

  function Returned(c: Console, a: Answers): Result
    requires KeysOk(c.keys)
  {
    Struck(c, 13, a)
  }

  /** What goes out for a request, the writes before having succeeded. */
  function Posts(c: Console, x: Client.Dop, me: Wire.DopId, ask: Request): Client.Out {
    Client.Obey(x, me, CommandOf(c.userId, ask), false).1
  }

  /** The line was taken to mean this. */
  predicate TakenAs(c: Console, a: Answers, intent: Intent, r: Result) {
    var d := c.(promptNeeded := false);
    var s := Obeyed(d, intent, a);
    && r.ask == s.ask && r.out == Rendered(d, s.reply)
    && r.c.room == s.c.room && r.c.promptNeeded == s.c.promptNeeded
  }

  lemma ReturnSubmits(c: Console, x: Client.Dop, typed: Line, a: Answers)
    requires Ready(c, x, typed) && Trim(typed) != []
    ensures TakenAs(c, a, Meaning(c.userName, Expand(Trim(typed))), Returned(c, a))
  {
    assert Sift([], 13) == ([], 13);
    assert Edit(c.keys, 13) == c.keys;
    assert Edited(c, 13) == c.(promptNeeded := false);
  }

  /** A word with its operand is looked up as it is. */
  lemma WordIsLookedUp(c: Console, x: Client.Dop, typed: Line, word: Line, operand: Line, a: Answers)
    requires Ready(c, x, typed) && Types(typed, word, operand) && IsWord(word)
    ensures TakenAs(c, a, Sense(c.userName, word, operand), Returned(c, a))
  {
    var gap := TypedIsTrimmed(typed, word, operand);
    var l := word + gap + operand;
    assert l[0] == 47;
    ReturnSubmits(c, x, typed, a);
    WordComesApart(word, gap, operand);
  }

  /** A reply on a line of its own, and a new prompt to come. */
  predicate Replies(r: Result, text: Line) {
    r.c.promptNeeded && r.out == [13, 10] + text + [13, 10]
  }

  lemma RowsOfOne(text: Line)
    ensures CRLF + Rows([text]) + [] == [13, 10] + text + [13, 10]
  {
    assert [text][..0] == [] && Rows([]) == [];
    assert CRLF == [13, 10];
  }

  // ------------------------------------------------------------------ about a channel

  /** Asks the channel master for the roster of the user's own channel. */
  predicate AsksWho(c: Console, a: Answers, r: Result, out: Client.Out, me: Wire.DopId) {
    if c.room == 0 then out == Client.Nothing && Replies(r, a.say(JoinToAsk)) && r.c.room == 0
    else out == Client.ToTheMaster(Wire.Who(c.room, me)) && r.out == [13, 10] && r.c.room == c.room && r.c.promptNeeded
  }

  lemma TakenAsWho(c: Console, x: Client.Dop, me: Wire.DopId, a: Answers, r: Result)
    requires c.userId != 0 && x.id == c.room && TakenAs(c, a, ToAskWho, r)
    ensures AsksWho(c, a, r, Posts(c, x, me, r.ask), me)
  {
    RowsOfOne(a.say(JoinToAsk));
  }

  lemma WhoAsks(c: Console, x: Client.Dop, me: Wire.DopId, typed: Line, operand: Line, a: Answers)
    requires Ready(c, x, typed) && Types(typed, Ascii("/who"), operand)
    ensures AsksWho(c, a, Returned(c, a), Posts(c, x, me, Returned(c, a).ask), me)
  {
    WordIsLookedUp(c, x, typed, Ascii("/who"), operand, a);
    MoreWords(c.userName, operand);
    TakenAsWho(c, x, me, a, Returned(c, a));
  }

  /** Tells the channel master; the user is on no channel from now on. */
  predicate Leaves(c: Console, a: Answers, r: Result, out: Client.Out, me: Wire.DopId) {
    if c.room == 0 then out == Client.Nothing && Replies(r, a.say(JoinToExit)) && r.c.room == 0
    else out == Client.ToTheMaster(Wire.Exit(c.room, me)) && r.out == [13, 10] && r.c.room == 0 && r.c.promptNeeded
  }

  lemma TakenAsExit(c: Console, x: Client.Dop, me: Wire.DopId, a: Answers, r: Result)
    requires c.userId != 0 && x.id == c.room && TakenAs(c, a, ToExit, r)
    ensures Leaves(c, a, r, Posts(c, x, me, r.ask), me)
  {
    RowsOfOne(a.say(JoinToExit));
  }

  lemma ExitLeaves(c: Console, x: Client.Dop, me: Wire.DopId, typed: Line, operand: Line, a: Answers)
    requires Ready(c, x, typed) && Types(typed, Ascii("/exit"), operand)
    ensures Leaves(c, a, Returned(c, a), Posts(c, x, me, Returned(c, a).ask), me)
  {
    WordIsLookedUp(c, x, typed, Ascii("/exit"), operand, a);
    MoreWords(c.userName, operand);
    TakenAsExit(c, x, me, a, Returned(c, a));
  }

  /** Sends the name typed to the channel master, unless the user is on a channel. */
  predicate AsksToJoin(c: Console, a: Answers, r: Result, out: Client.Out, me: Wire.DopId, name: Line) {
    if c.room > 0 then out == Client.Nothing && Replies(r, a.say(ExitToJoin)) && r.c.room == c.room
    else
      && out.ToTheMaster? && out.m.Join? && out.m.d == me && out.m.user == c.userId && Reads(out.m.name, name)
      && r.out == [] && r.c.room == -1 && !r.c.promptNeeded
  }

  lemma TakenAsJoin(c: Console, x: Client.Dop, me: Wire.DopId, a: Answers, r: Result, name: Line)
    requires c.userId != 0 && x.id == c.room && TakenAs(c, a, ToJoin(name), r)
    ensures AsksToJoin(c, a, r, Posts(c, x, me, r.ask), me, name)
  {
    RowsOfOne(a.say(ExitToJoin));
  }

  lemma JoinAsks(c: Console, x: Client.Dop, me: Wire.DopId, typed: Line, operand: Line, a: Answers)
    requires Ready(c, x, typed) && Types(typed, Ascii("/join"), operand)
    ensures AsksToJoin(c, a, Returned(c, a), Posts(c, x, me, Returned(c, a).ask), me, operand)
  {
    WordIsLookedUp(c, x, typed, Ascii("/join"), operand, a);
    OtherWords(c.userName, operand);
    TakenAsJoin(c, x, me, a, Returned(c, a), operand);
  }

  // ------------------------------------------------------------------ speech

  /** This line goes to the channel, under the user's ID, and what was typed is erased; without
      a channel nothing goes anywhere. */
  predicate Says(c: Console, x: Client.Dop, a: Answers, r: Result, out: Client.Out, text: Line) {
    if c.room == 0 then out == Client.Nothing && Replies(r, a.say(JoinToTalk)) && r.c.room == 0
    else
      && r.out == Erase(c.keys.column) && r.c.room == c.room && !r.c.promptNeeded
      && if x.link.None? then out == Client.Nothing
         else out.Speak? && out.inst == x.link.value && out.line.user == c.userId && Reads(out.line.body, text)
  }

  lemma TakenAsTalk(c: Console, x: Client.Dop, me: Wire.DopId, a: Answers, r: Result, text: Line)
    requires c.userId != 0 && x.id == c.room && TakenAs(c, a, ToSpeak(text), r)
    ensures Says(c, x, a, r, Posts(c, x, me, r.ask), text)
  {
    RowsOfOne(a.say(JoinToTalk));
  }

  /** The four words of talk. */
  lemma TalkIsSaid(c: Console, x: Client.Dop, me: Wire.DopId, typed: Line, word: string, verb: string, operand: Line,
                   end: string, a: Answers)
    requires Ready(c, x, typed) && TalkWord(word, verb, end) && Types(typed, Ascii(word), operand)
    ensures Says(c, x, a, Returned(c, a), Posts(c, x, me, Returned(c, a).ask),
                 c.userName + Ascii(verb) + operand + Ascii(end))
  {
    WordsOfTalk(c.userName, word, verb, operand, end);
    WordIsLookedUp(c, x, typed, Ascii(word), operand, a);
    TakenAsTalk(c, x, me, a, Returned(c, a), c.userName + Ascii(verb) + operand + Ascii(end));
  }

  lemma SaidSpelled(user: Line, l: Line)
    ensures Spoken(user, Text(" says, \""), l, Text("\"")) == user + Ascii(" says, \"") + l + Ascii("\"")
    ensures Spoken(user, Text(" "), l, []) == user + Ascii(" ") + l
  {
    AsciiText(" says, \"");
    AsciiText("\"");
    AsciiText(" ");
  }

  lemma QuotedMeans(user: Line, gap: Line, operand: Line)
    requires Margins(gap) && Tight(operand)
    ensures Meaning(user, Expand([39] + gap + operand)) == ToSpeak(user + Ascii(" says, \"") + operand + Ascii("\""))
  {
    TrimBehind(gap, operand);
    Regroup([39], gap, operand);
    SaidSpelled(user, operand);
    SpeechIsSpoken(user, gap + operand);
  }

  lemma EmotedMeans(user: Line, gap: Line, operand: Line)
    requires Margins(gap) && Tight(operand)
    ensures Meaning(user, Expand([59] + gap + operand)) == ToSpeak(user + Ascii(" ") + operand)
  {
    TrimBehind(gap, operand);
    Regroup([59], gap, operand);
    SaidSpelled(user, operand);
    SpeechIsSpoken(user, gap + operand);
  }

  lemma TrimBehind(gap: Line, operand: Line)
    requires Margins(gap) && Tight(operand)
    ensures Trim(gap + operand) == operand
  {
    OneTrim(gap, operand, []);
    assert gap + operand + [] == gap + operand;
  }

  lemma PlainTalkMeans(user: Line, l: Line)
    requires Tight(l) && l != [] && l[0] != 39 && l[0] != 59 && l[0] != 47
    ensures Meaning(user, Expand(l)) == ToSpeak(user + Ascii(" says, \"") + l + Ascii("\""))
  {
    OneTrim([], l, []);
    assert [] + l + [] == l;
    SaidSpelled(user, l);
    SpeechIsSpoken(user, l);
  }

  /** What begins with an apostrophe is said, what begins with a semicolon is emoted. */
  lemma ShortTalkIsSaid(c: Console, x: Client.Dop, me: Wire.DopId, typed: Line, left: Line, first: Byte, gap: Line,
                        operand: Line, right: Line, a: Answers)
    requires Ready(c, x, typed) && typed == left + ([first] + gap + operand) + right
    requires Margins(left) && Margins(right) && Margins(gap) && Tight(operand) && (operand == [] ==> gap == [])
    requires first == 39 || first == 59
    ensures Says(c, x, a, Returned(c, a), Posts(c, x, me, Returned(c, a).ask),
                 if first == 39 then c.userName + Ascii(" says, \"") + operand + Ascii("\"")
                 else c.userName + Ascii(" ") + operand)
  {
    var l := [first] + gap + operand;
    assert l[|l| - 1] == if operand == [] then first else operand[|operand| - 1];
    OneTrim(left, l, right);
    ReturnSubmits(c, x, typed, a);
    if first == 39 { QuotedMeans(c.userName, gap, operand); } else { EmotedMeans(c.userName, gap, operand); }
    TakenAsTalk(c, x, me, a, Returned(c, a),
                if first == 39 then c.userName + Ascii(" says, \"") + operand + Ascii("\"")
                else c.userName + Ascii(" ") + operand);
  }

  /** What begins with neither of them, nor with a slash, is said. */
  lemma PlainTalkIsSaid(c: Console, x: Client.Dop, me: Wire.DopId, typed: Line, left: Line, l: Line, right: Line,
                        a: Answers)
    requires Ready(c, x, typed) && typed == left + l + right && Margins(left) && Margins(right) && Tight(l)
    requires l != [] && l[0] != 39 && l[0] != 59 && l[0] != 47
    ensures Says(c, x, a, Returned(c, a), Posts(c, x, me, Returned(c, a).ask),
                 c.userName + Ascii(" says, \"") + l + Ascii("\""))
  {
    OneTrim(left, l, right);
    ReturnSubmits(c, x, typed, a);
    PlainTalkMeans(c.userName, l);
    TakenAsTalk(c, x, me, a, Returned(c, a), c.userName + Ascii(" says, \"") + l + Ascii("\""));
  }

  // ------------------------------------------------------------------ the rest

  /** Nothing goes to any other goroutine, and a new prompt is due. */
  predicate StaysHere(c: Console, r: Result, out: Client.Out) {
    out == Client.Nothing && r.c.room == c.room && r.c.promptNeeded
  }

  /** Asks the database for a channel. */
  predicate Creates(c: Console, a: Answers, r: Result, out: Client.Out, name: Line) {
    && StaysHere(c, r, out)
    && if name == [] then r.ask == Request.Nothing && Replies(r, a.say(NameAChannel))
       else if a.known then r.ask == Create(name) && Replies(r, a.say(ChannelExists))
       else r.ask == Create(name) && Replies(r, Ascii("Channel \"#") + name + Ascii("\" created."))
  }

  lemma TakenAsCreate(c: Console, x: Client.Dop, me: Wire.DopId, a: Answers, r: Result, name: Line)
    requires TakenAs(c, a, ToCreate(name), r)
    ensures Creates(c, a, r, Posts(c, x, me, r.ask), name)
  {
    AsciiText("Channel \"#");
    AsciiText("\" created.");
    RowsOfOne(a.say(NameAChannel));
    RowsOfOne(a.say(ChannelExists));
    RowsOfOne(Text("Channel \"#") + name + Text("\" created."));
  }

  /** The operand is the name, or a # and the name. */
  predicate Hashes(operand: Line, gap: Line, name: Line) {
    && Margins(gap) && Tight(name)
    && if |operand| > 1 && operand[0] == 35 then operand == [35] + gap + name else operand == name
  }

  lemma NameWithoutHash(operand: Line, gap: Line, name: Line)
    requires Hashes(operand, gap, name)
    ensures Unhash(operand) == name
  {
    OneTrim(gap, name, []);
    assert gap + name + [] == gap + name;
    if |operand| > 1 && operand[0] == 35 { assert operand[1..] == gap + name; }
  }

  /** The name is the operand, less a # before it. */
  lemma CreateAsks(c: Console, x: Client.Dop, me: Wire.DopId, typed: Line, operand: Line, a: Answers,
                   gap: Line, name: Line)
    requires Ready(c, x, typed) && Types(typed, Ascii("/create"), operand) && Hashes(operand, gap, name)
    ensures Creates(c, a, Returned(c, a), Posts(c, x, me, Returned(c, a).ask), name)
  {
    WordIsLookedUp(c, x, typed, Ascii("/create"), operand, a);
    OtherWords(c.userName, operand);
    NameWithoutHash(operand, gap, name);
    TakenAsCreate(c, x, me, a, Returned(c, a), name);
  }

  /** One name a line, each behind a #. */
  function Listing(names: seq<Line>): Line {
    if names == [] then [] else [35] + names[0] + [13, 10] + Listing(names[1..])
  }

  /** The lines of a text. */
  function Page(lines: seq<Line>): Line {
    if lines == [] then [] else lines[0] + [13, 10] + Page(lines[1..])
  }

  lemma {:induction false} PageMore(lines: seq<Line>, l: Line)
    ensures Page(lines + [l]) == Page(lines) + l + [13, 10]
  {
    if lines == [] {
      assert [l][1..] == [];
    } else {
      assert (lines + [l])[1..] == lines[1..] + [l];
      PageMore(lines[1..], l);
      Regroup(lines[0] + [13, 10], Page(lines[1..]), l);
      Regroup(lines[0] + [13, 10], Page(lines[1..]) + l, [13, 10]);
    }
  }

  lemma {:induction false} RowsArePages(lines: seq<Line>)
    ensures Rows(lines) == Page(lines)
  {
    if lines != [] {
      var m := |lines| - 1;
      RowsArePages(lines[..m]);
      PageMore(lines[..m], lines[m]);
      assert lines[..m] + [lines[m]] == lines;
    }
  }

  lemma {:induction false} PageOfHashed(names: seq<Line>)
    ensures Page(Hashed(names)) == Listing(names)
  {
    if names != [] {
      PageOfHashed(names[1..]);
      assert Hashed(names)[1..] == Hashed(names[1..]);
    }
  }

  /** Writes a line end and what follows. */
  predicate Tells(c: Console, r: Result, out: Client.Out, page: Line) {
    StaysHere(c, r, out) && r.ask == Request.Nothing && r.out == [13, 10] + page
  }

  lemma TakenAsTelling(c: Console, x: Client.Dop, me: Wire.DopId, a: Answers, r: Result, intent: Intent, page: Line)
    requires TakenAs(c, a, intent, r)
    requires (intent.ToList? && page == Rows(Hashed(a.channels))) || (intent.ToGetHelp? && page == Rows(a.help))
    ensures Tells(c, r, Posts(c, x, me, r.ask), page)
  {
    assert CRLF == [13, 10];
  }

  /** /list writes the channels that the database has. */
  lemma ListTells(c: Console, x: Client.Dop, me: Wire.DopId, typed: Line, operand: Line, a: Answers)
    requires Ready(c, x, typed) && Types(typed, Ascii("/list"), operand)
    ensures Tells(c, Returned(c, a), Posts(c, x, me, Returned(c, a).ask), Listing(a.channels))
  {
    OtherWords(c.userName, operand);
    RowsArePages(Hashed(a.channels));
    PageOfHashed(a.channels);
    WordIsLookedUp(c, x, typed, Ascii("/list"), operand, a);
    TakenAsTelling(c, x, me, a, Returned(c, a), ToList, Listing(a.channels));
  }

  /** /help writes the help text. */
  lemma HelpTells(c: Console, x: Client.Dop, me: Wire.DopId, typed: Line, operand: Line, a: Answers)
    requires Ready(c, x, typed) && Types(typed, Ascii("/help"), operand)
    ensures Tells(c, Returned(c, a), Posts(c, x, me, Returned(c, a).ask), Page(a.help))
  {
    MoreWords(c.userName, operand);
    RowsArePages(a.help);
    WordIsLookedUp(c, x, typed, Ascii("/help"), operand, a);
    TakenAsTelling(c, x, me, a, Returned(c, a), ToGetHelp, Page(a.help));
  }

  lemma TakenAsUnknown(c: Console, x: Client.Dop, me: Wire.DopId, a: Answers, r: Result, word: Line)
    requires TakenAs(c, a, Unknown(word), r)
    ensures Tells(c, r, Posts(c, x, me, r.ask),
                  [13, 10] + (Ascii("Command \"") + word + Ascii("\" not recognized.")) + [13, 10])
  {
    AsciiText("Command \"");
    AsciiText("\" not recognized.");
    var text := Text("Command \"") + word + Text("\" not recognized.");
    var lines: seq<Line> := [[], text];
    RowsArePages(lines);
    var last: seq<Line> := [text];
    assert lines[1..] == last && |last[1..]| == 0;
    assert Page(last) == text + [13, 10];
    assert Page(lines) == [13, 10] + text + [13, 10];
    assert r.out == CRLF + Rows(lines) + [];
  }

  /** Any other word is told back to the user. */
  lemma UnknownIsToldBack(c: Console, x: Client.Dop, me: Wire.DopId, typed: Line, word: Line, operand: Line, a: Answers)
    requires Ready(c, x, typed) && Types(typed, word, operand) && IsWord(word)
    requires forall s :: s in WORDS ==> word != Ascii(s)
    ensures Tells(c, Returned(c, a), Posts(c, x, me, Returned(c, a).ask),
                  [13, 10] + (Ascii("Command \"") + word + Ascii("\" not recognized.")) + [13, 10])
  {
    WordIsLookedUp(c, x, typed, word, operand, a);
    UnknownWords(c.userName, word, operand);
    TakenAsUnknown(c, x, me, a, Returned(c, a), word);
  }

  // ------------------------------------------------------------------ what is heard, and the prompts

  /** A line said on a channel appears on every terminal that hears it as it was sent, in the
      place of the prompt and of what was being typed. */
  lemma TalkIsRelayed(c: Console, x: Client.Dop, a: Answers, r: Result, out: Client.Out, text: Line,
                      d: Console, you: Wire.DopId, t: Line)
    requires Says(c, x, a, r, out, text) && c.room != 0 && x.link.Some? && KeysOk(d.keys)
    ensures React(d, ChatEvent(you, Wire.Said(out.line), t)).out
         == Erase(d.promptLen + d.keys.column) + text + [13, 10]
  {
    assert Bytes(out.line.body) == text;
    assert CRLF == [13, 10];
  }

  /** The news from the channel master and the chat channel, to a user who is there. */
  lemma NewsIsTold(d: Console, you: Wire.DopId, room: int, i: Wire.InstId, text: Line)
    requires KeysOk(d.keys)
    ensures Replies(React(d, MasterEvent(Wire.Refused, text)), text)
    ensures Replies(React(d, MasterEvent(Wire.GenericText, text)), text)
    ensures Replies(React(d, ChatEvent(you, Wire.Denied, text)), Ascii("Request to join channel denied: ") + text)
    ensures Replies(React(d, ChatEvent(you, Wire.Joined(room, i), text)), Ascii("You have joined #") + text)
    ensures React(d, ChatEvent(you, Wire.Notice, text)).out == Erase(d.promptLen + d.keys.column) + text + [13, 10]
    ensures React(d, ChatEvent(you, Wire.Left(you), text)).out == Erase(d.promptLen + d.keys.column) + text + [13, 10]
  {
    AsciiText("Request to join channel denied: ");
    AsciiText("You have joined #");
    RowsOfOne(text);
    RowsOfOne(Text("Request to join channel denied: ") + text);
    RowsOfOne(Text("You have joined #") + text);
    assert CRLF == [13, 10];
  }

  /** And what it says about the channel that the user is on. */
  lemma NewsMovesTheUser(d: Console, you: Wire.DopId, who: Wire.DopId, room: int, i: Wire.InstId, line: Wire.Speech,
                         text: Line)
    requires KeysOk(d.keys)
    ensures React(d, MasterEvent(Wire.Refused, text)).c.room == 0
    ensures React(d, MasterEvent(Wire.GenericText, text)).c.room == d.room
    ensures React(d, ChatEvent(you, Wire.Denied, text)).c.room == d.room
    ensures React(d, ChatEvent(you, Wire.Joined(room, i), text)).c.room == room
    ensures React(d, ChatEvent(you, Wire.Notice, text)).c.room == d.room
    ensures React(d, ChatEvent(you, Wire.Said(line), text)).c.room == d.room
    ensures React(d, ChatEvent(you, Wire.Left(who), text)).c.room == if who == you then 0 else d.room
  {
  }

  /** The prompt of every mode, when one is due, and the echo from then on. */
  lemma PromptsAreShown(c: Console)
    requires KeysOk(c.keys) && c.promptNeeded
    ensures var (d, prompt) := Prompt(c);
      && d.promptNeeded && d.mode == c.mode
      && (c.mode == Username ==> prompt == Ascii("Username: "))
      && (c.mode == NewUserYN ==> prompt == Ascii("Create new account? (y/n) "))
      && (c.mode == NewPassword1 ==> prompt == Ascii("Password for new account: ") && !d.echo)
      && (c.mode == NewPassword2 ==> prompt == Ascii("Repeat password: ") && !d.echo)
      && (c.mode == RegularPassword ==> prompt == Ascii("Password: ") && !d.echo)
      && (c.mode == Commanding ==> prompt == c.userName + Ascii(" #") + c.roomName + Ascii("> ") + Typed(c.keys))
  {
    AsciiText("Username: ");
    AsciiText("Create new account? (y/n) ");
    AsciiText("Password for new account: ");
    AsciiText("Repeat password: ");
    AsciiText("Password: ");
    AsciiText(" #");
    AsciiText("> ");
  }

  /** The name in the prompt: that of the channel joined last, until the user leaves. */
  function NameShown(h: seq<Event>): Line {
    if h == [] then Ascii("(no channel)")
    else
      var g, e := h[..|h| - 1], h[|h| - 1];
      if e.JoinedRoom? then e.name
      else if (e.Exited? && e.mine) || Turn(After(g), e).ask.AskExit? then Ascii("(no channel)")
      else NameShown(g)
  }

  lemma {:induction false} PromptNamesTheRoom(h: seq<Event>)
    ensures After(h).roomName == NameShown(h)
  {
    AsciiText("(no channel)");
    if h != [] {
      PromptNamesTheRoom(h[..|h| - 1]);
      RoomStep(After(h[..|h| - 1]), h[|h| - 1]);
    }
  }

  /** What is written for a line entered in a login mode, before the next prompt. */
  lemma LoginReplies(c: Console, b: Byte, a: Answers)
    requires KeysOk(c.keys) && c.mode != Commanding && LineOf(c, Key(b, a)) != []
    ensures var l, r := LineOf(c, Key(b, a)), Struck(c, b, a);
      && r.c.promptNeeded
      && (c.mode == Username ==> r.out == [13, 10] + if a.found then [] else a.say(UnknownUser))
      && (c.mode == NewUserYN ==> r.out == [13, 10])
      && (c.mode == NewPassword1 ==> if |l| < 4 then Replies(r, a.say(PasswordTooShort)) else r.out == [13, 10])
      && (c.mode == NewPassword2 ==>
            Replies(r, a.say(if l == c.newPassword then AccountCreated else PasswordsDiffer)))
      && (c.mode == RegularPassword ==> Replies(r, a.say(if a.account == 0 then WrongPassword else LoggedIn)))
  {
    LoginAnswers(Edited(c, b), LineOf(c, Key(b, a)), a);
  }

  lemma LoginAnswers(c: Console, l: Line, a: Answers)
    requires c.mode != Commanding && l != []
    ensures var s := Submit(c, l, a);
      var out := Rendered(c, s.reply);
      && s.c.promptNeeded
      && (c.mode == Username ==> out == [13, 10] + if a.found then [] else a.say(UnknownUser))
      && (c.mode == NewUserYN ==> out == [13, 10])
      && (c.mode == NewPassword1 ==>
            out == [13, 10] + if |l| < 4 then a.say(PasswordTooShort) + [13, 10] else [])
      && (c.mode == NewPassword2 ==>
            out == [13, 10] + a.say(if l == c.newPassword then AccountCreated else PasswordsDiffer) + [13, 10])
      && (c.mode == RegularPassword ==>
            out == [13, 10] + a.say(if a.account == 0 then WrongPassword else LoggedIn) + [13, 10])
  {
    assert CRLF == [13, 10] && Rows([]) == [];
    RowsOfOne(a.say(PasswordTooShort));
    RowsOfOne(a.say(AccountCreated));
    RowsOfOne(a.say(PasswordsDiffer));
    RowsOfOne(a.say(WrongPassword));
    RowsOfOne(a.say(LoggedIn));
  }
}
