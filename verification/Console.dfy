/** One user's connection: the keystrokes, the login modes, the commands and what is
    written to the terminal, one main-loop iteration at a time.  Writes do not fail
    here; a user who has gone away is the membership protocol's concern. */
module Console {
  import opened Telnet
  import opened Keyboard

  type Line = seq<Byte>

  const CRLF: Line := [CR, LF]

  function Glyph(ch: char): Byte { if ' ' <= ch <= '~' then ch as int else 63 }

  /** A literal, in ASCII. */
  function Text(s: string): (l: Line)
    ensures |l| == |s| && Legible(l)
  {
    seq(|s|, i requires 0 <= i < |s| => Glyph(s[i]))
  }

  predicate Legible(l: Line) { forall k :: 0 <= k < |l| ==> 32 <= l[k] }

  /** Lines, each with its end. */
  function Rows(lines: seq<Line>): Line {
    if lines == [] then [] else Rows(lines[..|lines| - 1]) + lines[|lines| - 1] + CRLF
  }

  /** n times backspace, blank, backspace. */
  function Erase(n: nat): Line {
    seq(3 * n, k requires 0 <= k < 3 * n => if k % 3 == 1 then SPACE else BS)
  }

  datatype Mode = Username | NewUserYN | NewPassword1 | NewPassword2 | RegularPassword | Commanding

  predicate Secret(m: Mode) { m == NewPassword1 || m == NewPassword2 || m == RegularPassword }

  datatype Console = Console(
    mode: Mode,
    userId: int,             // 0 until logged in
    userName: Line,
    room: int,               // chatChannelID
    roomName: Line,          // chatChannelName
    attempting: Line,        // attemptingUserName
    newPassword: Line,       // attemptingUserNewPassword
    keys: Keys,
    echo: bool,              // echoOn
    promptNeeded: bool,
    promptLen: nat)

  const NO_CHANNEL: Line := Text("(no channel)")

  const FRESH := Console(Username, 0, Text("(not logged in)"), 0, NO_CHANNEL, [], [], NO_KEYS, true, true, 0)

  /** The fixed replies, whose wording is left open. */
  datatype Phrase =
    | UnknownUser | PasswordTooShort | PasswordsDiffer | AccountCreated | WrongPassword | LoggedIn
    | LogInToTalk | JoinToTalk | LogInToJoin | ExitToJoin | LogInFirst | JoinToAsk | JoinToExit
    | NameAChannel | ChannelExists

  /** What the database and the texts hold, as far as one line may need it. */
  datatype Answers = Answers(
    say: Phrase -> Line,
    found: bool,             // userExists
    account: int,            // login: the user ID, 0 for a wrong password
    name: Line,              // login: the user name on record
    known: bool,             // createChatchannel: the channel existed already
    channels: seq<Line>,     // getChatchannelList
    help: seq<Line>)

  /** What a line asks of the rest of the system. */
  datatype Request =
    | Nothing
    | Register(name: Line, password: Line)
    | Create(name: Line)
    | AskJoin(name: Line)
    | AskWho
    | AskExit
    | Speak(text: Line)

  datatype Event =
    | Key(b: Byte, a: Answers)
    | Refusal(text: Line)                  // channel master: join denied
    | MasterText(text: Line)               // channel master: anything else
    | DeniedBy(text: Line)                 // chat channel: join denied
    | JoinedRoom(room: int, name: Line)
    | Chat(text: Line)
    | Exited(mine: bool, text: Line)

  /** What an iteration writes, before the next prompt. */
  datatype Reply =
    | Mute
    | Vanish                                   // erases what has been typed
    | Says(lines: seq<Line>, tail: Line)       // lines of their own, and the start of another
    | Instead(text: Line)                      // erases prompt and typing for a line
    | Scold(text: Line)                        // to a user who is not logged in

  function Rendered(c: Console, r: Reply): Line {
    match r
    case Mute => []
    case Vanish => Erase(c.keys.column)
    case Says(lines, tail) => CRLF + Rows(lines) + tail
    case Instead(text) => Erase(c.promptLen + c.keys.column) + text + CRLF
    case Scold(text) => (if c.room != 0 then Erase(c.keys.column) else []) + (CRLF + text + CRLF)
  }

  /** The outcome of dealing with a line or a message. */
  datatype Step = Step(c: Console, reply: Reply, ask: Request)

  // ------------------------------------------------------------------ the prompt

  function Greeting(c: Console): Line {
    match c.mode
    case Username => Text("Username: ")
    case NewUserYN => Text("Create new account? (y/n) ")
    case NewPassword1 => Text("Password for new account: ")
    case NewPassword2 => Text("Repeat password: ")
    case RegularPassword => Text("Password: ")
    case Commanding => c.userName + Text(" #") + c.roomName + Text("> ")
  }

  function Prompt(c: Console): (Console, Line)
    requires KeysOk(c.keys)
  {
    if !c.promptNeeded then (c, [])
    else if c.mode == Commanding then (c.(promptLen := |Greeting(c)|), Greeting(c) + Typed(c.keys))
    else (c.(promptLen := 0, echo := c.echo && !Secret(c.mode)), Greeting(c))
  }

  // ------------------------------------------------------------------ command lines

  function IndexOf(l: Line, b: Byte): (i: int)
    ensures -1 <= i < |l| && (0 <= i ==> l[i] == b)
  {
    if l == [] then -1
    else if l[0] == b then 0
    else var i := IndexOf(l[1..], b); if i == -1 then -1 else i + 1
  }

  /** The command word and its operand. */
  function Split(l: Line): (Line, Line) {
    var i := IndexOf(l, SPACE);
    if i > 0 then (l[..i], Trim(l[i..])) else (l, [])
  }

  const QUOTE: Byte := 39
  const SEMICOLON: Byte := 59
  const SLASH: Byte := 47
  const HASH: Byte := 35

  /** ' stands for /say, ; for /emote, and what is no command is said. */
  function Expand(l: Line): Line
    requires l != []
  {
    var l1 := if l[0] == QUOTE then Text("/say ") + Trim(l[1..]) else l;
    var l2 := if l1[0] == SEMICOLON then Text("/emote ") + Trim(l1[1..]) else l1;
    if l2[0] != SLASH then Text("/say ") + Trim(l2) else l2
  }

  datatype Intent =
    | ToSpeak(text: Line)
    | ToCreate(name: Line)
    | ToList
    | ToJoin(name: Line)
    | ToAskWho
    | ToExit
    | ToGetHelp
    | Unknown(word: Line)

  function Unhash(operand: Line): Line {
    if |operand| > 1 && operand[0] == HASH then Trim(operand[1..]) else operand
  }

  function Spoken(user: Line, verb: Line, operand: Line, end: Line): (l: Line)
    ensures Legible(user) && Legible(verb) && Legible(operand) && Legible(end) ==> Legible(l)
  {
    user + verb + operand + end
  }

  function Meaning(user: Line, l: Line): Intent {
    Sense(user, Split(l).0, Split(l).1)
  }

  function Sense(user: Line, word: Line, operand: Line): Intent {
    if word == Text("/say") then ToSpeak(Spoken(user, Text(" says, \""), operand, Text("\"")))
    else if word == Text("/think") then ToSpeak(Spoken(user, Text(" thinks . o O ( "), operand, Text(" )")))
    else if word == Text("/sing") then ToSpeak(Spoken(user, Text(" sings ~ ~ "), operand, Text(" ~ ~")))
    else if word == Text("/emote") then ToSpeak(Spoken(user, Text(" "), operand, []))
    else if word == Text("/create") then ToCreate(Unhash(operand))
    else if word == Text("/list") then ToList
    else if word == Text("/join") then ToJoin(operand)
    else if word == Text("/who") then ToAskWho
    else if word == Text("/exit") then ToExit
    else if word == Text("/help") then ToGetHelp
    else Unknown(word)
  }

  function Hashed(names: seq<Line>): (l: seq<Line>)
    ensures |l| == |names| && forall k :: 0 <= k < |l| ==> l[k] == [HASH] + names[k]
  {
    seq(|names|, k requires 0 <= k < |names| => [HASH] + names[k])
  }

  /** A reply on lines of its own, and a new prompt. */
  function Answer(c: Console, lines: seq<Line>, ask: Request): Step {
    Step(c.(promptNeeded := true), Says(lines, []), ask)
  }

  function Spoke(c: Console, text: Line, a: Answers): Step {
    if c.userId == 0 then Step(c, Scold(a.say(LogInToTalk)), Nothing)
    else if c.room == 0 then Answer(c, [a.say(JoinToTalk)], Nothing)
    else Step(c, Vanish, Speak(text))
  }

  function Created(c: Console, name: Line, a: Answers): Step {
    if name == [] then Answer(c, [a.say(NameAChannel)], Nothing)
    else if a.known then Answer(c, [a.say(ChannelExists)], Create(name))
    else Answer(c, [Text("Channel \"#") + name + Text("\" created.")], Create(name))
  }

  function SoughtToJoin(c: Console, name: Line, a: Answers): Step {
    if c.userId == 0 then Answer(c, [a.say(LogInToJoin)], Nothing)
    else if c.room > 0 then Answer(c, [a.say(ExitToJoin)], Nothing)
    else Step(c.(room := -1), Mute, AskJoin(name))
  }

  function AskedWho(c: Console, a: Answers): Step {
    if c.userId == 0 then Answer(c, [a.say(LogInFirst)], Nothing)
    else if c.room == 0 then Answer(c, [a.say(JoinToAsk)], Nothing)
    else Answer(c, [], AskWho)
  }

  function SoughtToExit(c: Console, a: Answers): Step {
    if c.userId == 0 then Answer(c, [a.say(LogInFirst)], Nothing)
    else if c.room == 0 then Answer(c, [a.say(JoinToExit)], Nothing)
    else Answer(c.(room := 0, roomName := NO_CHANNEL), [], AskExit)
  }

  /** doCommand */
  function Obeyed(c: Console, intent: Intent, a: Answers): Step {
    match intent
    case ToSpeak(text) => Spoke(c, text, a)
    case ToCreate(name) => Created(c, name, a)
    case ToList => Answer(c, Hashed(a.channels), Nothing)
    case ToJoin(name) => SoughtToJoin(c, name, a)
    case ToAskWho => AskedWho(c, a)
    case ToExit => SoughtToExit(c, a)
    case ToGetHelp => Answer(c, a.help, Nothing)
    case Unknown(word) => Answer(c, [[], Text("Command \"") + word + Text("\" not recognized.")], Nothing)
  }

  function Named(c: Console, l: Line, a: Answers): Step {
    var d := c.(attempting := l, promptNeeded := true);
    if a.found then Answer(d.(mode := RegularPassword), [], Nothing)
    else Step(d.(mode := NewUserYN), Says([], a.say(UnknownUser)), Nothing)
  }

  function Confirmed(c: Console, l: Line): Step
    requires l != []
  {
    var yes := l[0] == 89 || l[0] == 121;
    Answer(c.(mode := if yes then NewPassword1 else Username), [], Nothing)
  }

  function Chose(c: Console, l: Line, a: Answers): Step {
    if |l| < 4 then Answer(c, [a.say(PasswordTooShort)], Nothing)
    else Answer(c.(newPassword := l, mode := NewPassword2), [], Nothing)
  }

  function Repeated(c: Console, l: Line, a: Answers): Step {
    if l != c.newPassword then
      Answer(c.(mode := NewPassword1, echo := true), [a.say(PasswordsDiffer)], Nothing)
    else
      Answer(c.(mode := Username, echo := true), [a.say(AccountCreated)], Register(c.attempting, c.newPassword))
  }

  function Authenticated(c: Console, a: Answers): Step {
    var d := c.(userId := a.account, userName := if a.account == 0 then [] else a.name, echo := true);
    if a.account == 0 then Answer(d.(mode := Username), [a.say(WrongPassword)], Nothing)
    else Answer(d.(mode := Commanding), [a.say(LoggedIn)], Nothing)
  }

  /** A line that is not blank, by mode. */
  function Submit(c: Console, l: Line, a: Answers): Step
    requires l != []
  {
    match c.mode
    case Username => Named(c, l, a)
    case NewUserYN => Confirmed(c, l)
    case NewPassword1 => Chose(c, l, a)
    case NewPassword2 => Repeated(c, l, a)
    case RegularPassword => Authenticated(c, a)
    case Commanding => Obeyed(c, Meaning(c.userName, Expand(l)), a)
  }

  // ------------------------------------------------------------------ one iteration

  /** What is written back for a byte that has come through Sift. */
  function Echoed(c: Console, x: Byte): Line {
    if !c.echo || x == 0 || Return(x) then []
    else if x == BS then (if c.keys.column >= 1 then [BS, SPACE, BS] else [])
    else [x]
  }

  /** The outcome of an iteration, or of its select case: the state, what was written and
      what the rest of the system is asked. */
  datatype Result = Result(c: Console, out: Line, ask: Request)

  /** After a byte from the user, before the line that it may have ended is dealt with. */
  function Edited(c: Console, b: Byte): (d: Console)
    requires KeysOk(c.keys)
    ensures KeysOk(d.keys)
  {
    var (pending, x) := Sift(c.keys.pending, b);
    c.(promptNeeded := false, keys := Edit(c.keys, x).(pending := pending))
  }

  /** The select case for a byte from the user. */
  function Struck(c: Console, b: Byte, a: Answers): (r: Result)
    requires KeysOk(c.keys)
    ensures KeysOk(r.c.keys)
  {
    var (keys, command) := Press(c.keys, b);
    var d := Edited(c, b);
    if command == [] then Result(d, Echoed(c, Sift(c.keys.pending, b).1), Nothing)
    else
      var s := Submit(d, command, a);
      Result(s.c.(keys := keys), Rendered(d, s.reply), s.ask)
  }

  /** The select cases for messages from the channel master and from a chat channel. */
  function Heard(c: Console, e: Event): Step
    requires !e.Key?
  {
    var d := c.(promptNeeded := true);
    match e
    case Refusal(text) => Answer(c.(room := 0), [text], Nothing)
    case MasterText(text) => Answer(c, [text], Nothing)
    case DeniedBy(text) => Answer(c, [Text("Request to join channel denied: ") + text], Nothing)
    case JoinedRoom(room, name) =>
      Answer(c.(room := room, roomName := name), [Text("You have joined #") + name], Nothing)
    case Chat(text) => Step(d, Instead(text), Nothing)
    case Exited(mine, text) =>
      Step(if mine then d.(room := 0, roomName := NO_CHANNEL) else d, Instead(text), Nothing)
  }

  function React(c: Console, e: Event): (r: Result)
    requires KeysOk(c.keys)
    ensures KeysOk(r.c.keys)
  {
    if e.Key? then Struck(c, e.b, e.a)
    else var s := Heard(c, e); Result(s.c, Rendered(c, s.reply), s.ask)
  }

  /** From one select to the next: the case that fires, and the prompt. */
  function Turn(c: Console, e: Event): (r: Result)
    requires KeysOk(c.keys)
    ensures KeysOk(r.c.keys)
  {
    var r := React(c, e);
    var (d, prompt) := Prompt(r.c);
    Result(d, r.out + prompt, r.ask)
  }

  /** At the first select. */
  const START := Prompt(FRESH).0

  function After(h: seq<Event>): (c: Console)
    ensures KeysOk(c.keys)
  {
    if h == [] then START else Turn(After(h[..|h| - 1]), h[|h| - 1]).c
  }

  /** Everything written from the first prompt on. */
  function Output(h: seq<Event>): Line {
    if h == [] then Prompt(FRESH).1
    else Output(h[..|h| - 1]) + Turn(After(h[..|h| - 1]), h[|h| - 1]).out
  }

  // ------------------------------------------------------------------ abbreviations

  lemma {:induction false} TrimmedStays(l: Line)
    ensures Trim(Trim(l)) == Trim(l)
  {
    var m := TrimLeft(l);
    TrimLeftStops(l);
    if m != [] {
      TrimRightKeeps(m);
      TrimRightStops(m);
    }
  }

  lemma {:induction false} TrimLeftStops(l: Line)
    ensures TrimLeft(l) == [] || !White(TrimLeft(l)[0])
  {
    if l != [] && White(l[0]) { TrimLeftStops(l[1..]); }
  }

  lemma {:induction false} TrimRightStops(l: Line)
    ensures TrimRight(TrimRight(l)) == TrimRight(l)
  {
    if l != [] && White(l[|l| - 1]) { TrimRightStops(l[..|l| - 1]); }
  }

  lemma {:induction false} IndexAfter(w: Line, l: Line)
    requires SPACE !in w
    ensures IndexOf(w + [SPACE] + l, SPACE) == |w|
  {
    if w == [] {
      assert w + [SPACE] + l == [SPACE] + l;
    } else {
      assert (w + [SPACE] + l)[1..] == w[1..] + [SPACE] + l;
      IndexAfter(w[1..], l);
    }
  }

  /** A word, a blank and an operand come apart again. */
  lemma SplitWord(w: Line, l: Line)
    requires w != [] && SPACE !in w
    ensures Split(w + [SPACE] + l) == (w, Trim(l))
  {
    var line := w + [SPACE] + l;
    IndexAfter(w, l);
    assert line[..|w|] == w && line[|w|..] == [SPACE] + l;
    assert TrimLeft([SPACE] + l) == TrimLeft(([SPACE] + l)[1..]) == TrimLeft(l);
  }

  /** What a word that starts with a slash means to Expand and Split. */
  lemma SlashWord(w: Line, l: Line)
    requires w != [] && w[0] == SLASH && SPACE !in w
    ensures Expand(w + [SPACE] + l) == w + [SPACE] + l
    ensures Split(w + [SPACE] + l) == (w, Trim(l)) && Split(w + [SPACE] + Trim(l)) == (w, Trim(l))
  {
    SplitWord(w, l);
    SplitWord(w, Trim(l));
    TrimmedStays(l);
  }

  lemma ExpandShort(l: Line)
    ensures Expand([QUOTE] + l) == Text("/say") + [SPACE] + Trim(l)
    ensures Expand([SEMICOLON] + l) == Text("/emote") + [SPACE] + Trim(l)
    ensures l != [] && l[0] !in {QUOTE, SEMICOLON, SLASH} ==> Expand(l) == Text("/say") + [SPACE] + Trim(l)
  {
    assert ([QUOTE] + l)[1..] == l && ([SEMICOLON] + l)[1..] == l;
    assert Text("/say ") == Text("/say") + [SPACE];
    assert Text("/emote ") == Text("/emote") + [SPACE];
  }

  /** What is no command is said, as if typed after /say or an apostrophe, and what
      follows a semicolon is emoted. */
  lemma SpeechIsSpoken(user: Line, l: Line)
    ensures var said := ToSpeak(Spoken(user, Text(" says, \""), Trim(l), Text("\"")));
      && Meaning(user, Expand([QUOTE] + l)) == said
      && Meaning(user, Expand(Text("/say") + [SPACE] + l)) == said
      && (l != [] && l[0] !in {QUOTE, SEMICOLON, SLASH} ==> Meaning(user, Expand(l)) == said)
      && Meaning(user, Expand([SEMICOLON] + l)) == ToSpeak(Spoken(user, Text(" "), Trim(l), []))
  {
    ExpandShort(l);
    SlashWord(Text("/say"), l);
    SlashWord(Text("/emote"), l);
    assert Text("/emote")[1] != Text("/think")[1];
  }
}
