/** The doppelganger goroutine as it runs: one record of fields, changed in place by the
    select cases of its main loop.  Each method is proved to do what Client says to the
    fields of the membership protocol, whatever happens to the writes, and, as long as
    no write has failed, what Console says to the others and to the wire. */
module Doppelganger {
  import opened Options
  import opened Telnet
  import opened Keyboard
  import opened Console
  import Client
  import Wire
  import opened DataWriter

  /** Go's conversion of bytes to a string, as far as the other goroutines care. */
  function Str(l: Line): string { seq(|l|, i requires 0 <= i < |l| => l[i] as char) }

  /** And back again. */
  function Bytes(s: string): Line { seq(|s|, i requires 0 <= i < |s| => s[i] as int % 256) }

  /** The command that a request amounts to in the membership protocol. */
  function CommandOf(user: int, ask: Request): Client.Command {
    match ask
    case AskJoin(name) => Client.CmdJoin(user, Str(name))
    case AskWho => Client.CmdWho
    case AskExit => Client.CmdExit
    case Speak(text) => Client.CmdSay(Wire.Speech(user, Str(text)))
    case _ => Client.CmdOther
  }

  /** What a message from another goroutine, with its text, is to the terminal; what was said
      is its own text. */
  function MasterEvent(m: Wire.FromMaster, text: Line): Event {
    if m.Refused? then Refusal(text) else MasterText(text)
  }

  function ChatEvent(me: Wire.DopId, m: Wire.FromChat, text: Line): Event {
    match m
    case Denied => DeniedBy(text)
    case Joined(c, _) => JoinedRoom(c, text)
    case Notice => Chat(text)
    case Said(line) => Chat(Bytes(line.body))
    case Left(who) => Exited(who == me, text)
  }

  class UserInfo {
    const doppelgangerID: Wire.DopId
    const writer: Sink
    var userID: int
    var userName: Line
    var chatChannelID: int
    var chatChannelName: Line
    var chatChannelCallback: Option<Wire.InstId>
    var incomingFromChannelMaster: seq<Wire.FromMaster>
    var incomingFromChatChannel: seq<Wire.FromChat>
    var mode: Mode
    var promptNeeded: bool
    var promptLen: nat
    var lineBuffer: seq<Byte>
    var backspaceBuffer: seq<Byte>
    var attemptingUserName: Line
    var attemptingUserNewPassword: Line
    const controlSequence: array<Byte>
    var ctrlSeqPosition: nat
    var cursorColumn: int
    var prevUsrByte: Byte
    var echoOn: bool
    var telnetGoroutineHasGoneAway: bool
    var cantExitBeforeExitMessageFromChannel: bool
    var cantExitCount: nat
    var closed: bool
    ghost var awaiting: nat
    ghost var unwinding: bool

    ghost predicate Valid()
      reads this, controlSequence
    {
      && controlSequence.Length == 3
      && ctrlSeqPosition < 3
      && (ctrlSeqPosition != 0 ==> controlSequence[0] == ESC)
      && 0 <= cursorColumn <= |lineBuffer|
      && prevUsrByte == 0
      && Memoised(backspaceBuffer)
    }

    ghost function TheKeys(): (k: Keys)
      requires Valid()
      reads this, controlSequence
      ensures KeysOk(k)
    {
      Keys(controlSequence[..ctrlSeqPosition], lineBuffer, cursorColumn)
    }

    ghost function Screen(): (c: Console)
      requires Valid()
      reads this, controlSequence
      ensures KeysOk(c.keys)
    {
      Console(mode, userID, userName, chatChannelID, chatChannelName, attemptingUserName,
              attemptingUserNewPassword, TheKeys(), echoOn, promptNeeded, promptLen)
    }

    ghost function Member(): Client.Dop
      reads this
    {
      Client.Dop(chatChannelID, chatChannelCallback, cantExitBeforeExitMessageFromChannel,
                 telnetGoroutineHasGoneAway, cantExitCount, unwinding, closed, awaiting,
                 incomingFromChannelMaster, incomingFromChatChannel)
    }

    /** As long as no write has failed, these bytes were written. */
    ghost predicate Wrote(before: Line, bytes: Line)
      reads writer
    {
      !writer.broken ==> writer.wire == before + bytes
    }

    /** A write that fails makes the user gone, unless it is one that is overlooked; nothing
        else does. */
    ghost predicate Noticed(broken: bool, gone: bool, overlooked: bool)
      reads this, writer
    {
      && (writer.broken && !broken ==> telnetGoroutineHasGoneAway || overlooked)
      && (telnetGoroutineHasGoneAway && !gone ==> writer.broken)
    }

    constructor (id: Wire.DopId, w: Sink)
      ensures Valid() && fresh(controlSequence)
      ensures doppelgangerID == id && writer == w
      ensures Screen() == FRESH && Member() == Client.NEW_DOP
    {
      doppelgangerID, writer := id, w;
      userID, userName := 0, Text("(not logged in)");
      chatChannelID, chatChannelName, chatChannelCallback := 0, NO_CHANNEL, None;
      incomingFromChannelMaster, incomingFromChatChannel := [], [];
      mode, promptNeeded, promptLen := Username, true, 0;
      lineBuffer, backspaceBuffer := [], [];
      attemptingUserName, attemptingUserNewPassword := [], [];
      controlSequence := new Byte[3](_ => 0);
      ctrlSeqPosition, cursorColumn, prevUsrByte, echoOn := 0, 0, 0, true;
      telnetGoroutineHasGoneAway, cantExitBeforeExitMessageFromChannel, cantExitCount := false, false, 0;
      closed, awaiting, unwinding := false, 0, false;
    }

    // ---------------------------------------------------------------- the terminal

    method Send(p: Line) returns (failed: bool)
      modifies writer
      ensures Wrote(old(writer.wire), p)
      ensures writer.broken == (old(writer.broken) || failed)
    {
      var n;
      n, failed := writer.LongWrite(p);
      assert !failed ==> p[..n] == p;
    }

    /** Writes `amount` copies of backspace, blank, backspace, from a buffer that grows
        to the longest run written so far. */
    method BackspaceOut(amount: nat) returns (failed: bool)
      requires Valid()
      modifies writer, this`backspaceBuffer
      ensures Valid() && Screen() == old(Screen()) && Member() == old(Member())
      ensures |backspaceBuffer| == if |old(backspaceBuffer)| < 3 * amount then 3 * amount else |old(backspaceBuffer)|
      ensures Wrote(old(writer.wire), Erase(amount))
      ensures writer.broken == (old(writer.broken) || failed)
    {
      GrowBackspaces(amount);
      assert backspaceBuffer[..amount * 3] == Erase(amount);
      failed := Send(backspaceBuffer[..amount * 3]);
    }

    method GrowBackspaces(amount: nat)
      requires Valid()
      modifies this`backspaceBuffer
      ensures Valid() && Screen() == old(Screen()) && Member() == old(Member())
      ensures |backspaceBuffer| == if |old(backspaceBuffer)| < 3 * amount then 3 * amount else |old(backspaceBuffer)|
    {
      if |backspaceBuffer| < amount * 3 {
        var more := amount * 3 - |backspaceBuffer|;
        var additional := new Byte[more](_ => 0);
        FillBackspaces(additional);
        backspaceBuffer := backspaceBuffer + additional[..];
      }
    }

    static method FillBackspaces(additional: array<Byte>)
      requires additional.Length % 3 == 0
      modifies additional
      ensures Memoised(additional[..])
    {
      var k := 0;
      while k < additional.Length
        invariant k % 3 == 0 && 0 <= k <= additional.Length
        invariant forall j :: 0 <= j < k ==> additional[j] == if j % 3 == 1 then SPACE else BS
      {
        assert (k + 1) % 3 == 1 && (k + 2) % 3 == 2 && (k + 3) % 3 == 0;
        additional[k], additional[k + 1], additional[k + 2] := BS, SPACE, BS;
        k := k + 3;
      }
    }

    /** The prompt for the mode; how much of it to erase later, and whether to echo. */
    method PromptBuffer() returns (p: Line)
      requires Valid()
      modifies this`promptLen, this`echoOn
      ensures Valid() && Member() == old(Member())
      ensures (Screen(), p) == Prompt(old(Screen()))
    {
      if !promptNeeded { return []; }
      promptLen := 0;
      match mode
      case Username => p := Text("Username: ");
      case NewUserYN => p := Text("Create new account? (y/n) ");
      case NewPassword1 => p, echoOn := Text("Password for new account: "), false;
      case NewPassword2 => p, echoOn := Text("Repeat password: "), false;
      case RegularPassword => p, echoOn := Text("Password: "), false;
      case Commanding =>
        p := userName + Text(" #") + chatChannelName + Text("> ");
        promptLen := |p|;
        if cursorColumn > 0 { p := p + lineBuffer[..cursorColumn]; }
        assert cursorColumn == 0 ==> p + lineBuffer[..cursorColumn] == p;
    }

    /** Writes the prompt, if one is due. */
    method ShowPrompt()
      requires Valid()
      modifies this`promptLen, this`echoOn, this`telnetGoroutineHasGoneAway, writer
      ensures Valid()
      ensures Screen() == Prompt(old(Screen())).0
      ensures Wrote(old(writer.wire), Prompt(old(Screen())).1)
      ensures Member() == old(Member()).(gone := telnetGoroutineHasGoneAway)
      ensures old(telnetGoroutineHasGoneAway) ==> telnetGoroutineHasGoneAway
      ensures Noticed(old(writer.broken), old(telnetGoroutineHasGoneAway), false)
    {
      var promptBuffer := PromptBuffer();
      if promptNeeded {
        var failed := Send(promptBuffer);
        if failed { telnetGoroutineHasGoneAway := true; }
      }
    }

    /** A message in place of the prompt and of what has been typed.  For the user's own
        line a failure to erase is overlooked. */
    method GenericTextOutput(own: bool, text: Line) returns (shutdown: bool)
      requires Valid()
      modifies writer, this`backspaceBuffer
      ensures Valid() && Screen() == old(Screen()) && Member() == old(Member())
      ensures Wrote(old(writer.wire), Erase(promptLen + cursorColumn) + text + CRLF)
      ensures shutdown ==> writer.broken
      ensures writer.broken && !old(writer.broken) ==> shutdown || own
    {
      var failed := BackspaceOut(promptLen + cursorColumn);
      if failed && !own { return true; }
      ghost var erased := writer.wire;
      shutdown := Send(text + CRLF);
      assert !writer.broken ==>
        erased + (text + CRLF) == old(writer.wire) + (Erase(promptLen + cursorColumn) + text + CRLF);
    }

    // ---------------------------------------------------------------- a key

    /** ^C, ^D and the closed go channel end the connection. */
    static predicate HangsUp(typed: Byte, ok: bool) { !ok || typed == 3 || typed == 4 }

    /** The control-sequence automaton: the byte to act on, 0 for none.  A carriage return
        behind another would be dropped, but prevUsrByte is never assigned. */
    method Sieve(typed: Byte) returns (usrByte: Byte)
      requires Valid()
      modifies this`ctrlSeqPosition, controlSequence
      ensures Valid() && Member() == old(Member())
      ensures var (pending, x) := Sift(old(TheKeys()).pending, typed);
        usrByte == x && Screen() == old(Screen()).(keys := old(TheKeys()).(pending := pending))
    {
      var none: Byte := 0;
      usrByte := typed;
      if usrByte == 3 || usrByte == 4 { usrByte := 0; }
      if usrByte == DEL { usrByte := BS; }
      if ctrlSeqPosition != 0 {
        controlSequence[ctrlSeqPosition] := usrByte;
        ctrlSeqPosition := ctrlSeqPosition + 1;
        assert controlSequence[..ctrlSeqPosition] == old(controlSequence[..ctrlSeqPosition]) + [usrByte];
        assert controlSequence[..3] == [controlSequence[0], controlSequence[1], controlSequence[2]];
        usrByte := 0;
        if ctrlSeqPosition == 3 {
          if controlSequence[0] == ESC && controlSequence[1] == 91 && controlSequence[2] == 68 {
            usrByte := BS;
          }
          ctrlSeqPosition := 0;
        }
      }
      if usrByte < 32 {
        if usrByte == ESC {
          controlSequence[0] := usrByte;
          ctrlSeqPosition := 1;
          assert controlSequence[..1] == [ESC];
          usrByte := 0;
        } else if usrByte == LF || usrByte == CR {
          if prevUsrByte == LF || prevUsrByte == CR { usrByte := none; }
        } else if usrByte != BS {
          usrByte := 0;
        }
      }
    }

    method EchoByte(usrByte: Byte)
      requires Valid()
      modifies writer, this`telnetGoroutineHasGoneAway
      ensures Valid() && Screen() == old(Screen())
      ensures Wrote(old(writer.wire), Echoed(old(Screen()), usrByte))
      ensures Member() == old(Member()).(gone := telnetGoroutineHasGoneAway)
      ensures old(telnetGoroutineHasGoneAway) ==> telnetGoroutineHasGoneAway
      ensures Return(usrByte) ==> Member() == old(Member()) && writer.wire == old(writer.wire)
      ensures Noticed(old(writer.broken), old(telnetGoroutineHasGoneAway), false)
    {
      if echoOn && usrByte != 0 {
        var failed := false;
        if usrByte == BS {
          if cursorColumn >= 1 { failed := Send([BS, SPACE, BS]); }
        } else if !(usrByte == LF || usrByte == CR) {
          failed := Send([usrByte]);
        }
        if failed { telnetGoroutineHasGoneAway := true; }
      }
    }

    method EditLine(usrByte: Byte)
      requires Valid()
      modifies this`lineBuffer, this`cursorColumn
      ensures Valid() && Member() == old(Member())
      ensures Screen() == old(Screen()).(keys := Edit(old(TheKeys()), usrByte))
    {
      if usrByte == BS {
        cursorColumn := cursorColumn - 1;
        if cursorColumn < 0 { cursorColumn := 0; }
      } else if usrByte >= 32 {
        if cursorColumn < |lineBuffer| {
          lineBuffer := lineBuffer[cursorColumn := usrByte];
          cursorColumn := cursorColumn + 1;
        } else {
          lineBuffer := lineBuffer + [usrByte];
          cursorColumn := |lineBuffer|;
        }
      }
    }

    // ---------------------------------------------------------------- a command

    /** As long as no write has failed, the step was made, `prompt` saying whether it wants
        a new prompt. */
    ghost predicate Did(before: Console, wire: Line, s: Step, prompt: bool, ask: Request)
      requires Valid()
      reads this, controlSequence, writer
    {
      !writer.broken ==>
        && Screen().(promptNeeded := prompt) == s.c
        && ask == s.ask
        && writer.wire == wire + Rendered(before, s.reply)
    }

    /** What is asked of the rest of the system is what the line means, unless a write has
        failed before. */
    static predicate Tied(ask: Request, meant: Request, failed: bool) {
      ask == meant || (failed && ask == Nothing)
    }

    /** The membership protocol's side of the same command, before the iteration ends. */
    ghost predicate Asked(before: Client.Dop, ask: Request, failed: bool, out: Client.Out)
      reads this
    {
      && telnetGoroutineHasGoneAway == before.gone
      && (Client.Settle(Member(), before.gone || failed), out)
         == Client.Obey(before, doppelgangerID, CommandOf(userID, ask), failed)
    }

    method Answering(text: Line) returns (failed: bool)
      modifies writer
      ensures Wrote(old(writer.wire), CRLF + Rows([text]) + [])
      ensures writer.broken == (old(writer.broken) || failed)
    {
      RowsOne(text);
      failed := Send(CRLF + text + CRLF);
      assert CRLF + Rows([text]) + [] == CRLF + text + CRLF;
    }

    /** To a user who is not logged in, or is on no channel. */
    method TurnAway(a: Answers) returns (prompt: bool, failed: bool)
      modifies writer
      ensures prompt == (userID != 0)
      ensures Wrote(old(writer.wire), if userID == 0 then CRLF + a.say(LogInToTalk) + CRLF
                                      else CRLF + Rows([a.say(JoinToTalk)]) + [])
      ensures writer.broken == (old(writer.broken) || failed)
    {
      prompt := userID != 0;
      if userID == 0 {
        failed := Send(CRLF + a.say(LogInToTalk) + CRLF);
      } else {
        failed := Answering(a.say(JoinToTalk));
      }
    }

    /** Speech of a user who is not logged in, or is on no channel. */
    method EmoteAlone(text: Line, a: Answers) returns (prompt: bool, failed: bool)
      requires Valid() && !promptNeeded && (userID == 0 || chatChannelID == 0)
      modifies writer, this`backspaceBuffer
      ensures Valid() && Member() == old(Member())
      ensures Did(old(Screen()), old(writer.wire), Spoke(old(Screen()), text, a), prompt, Nothing)
      ensures writer.broken == (old(writer.broken) || failed)
    {
      ghost var c := Screen();
      prompt, failed := false, false;
      if chatChannelID != 0 {
        failed := BackspaceOut(cursorColumn);
        if failed { return; }
      }
      prompt, failed := TurnAway(a);
      assert Screen() == c;
    }

    /** Speech on a channel: the line typed is erased, to come back as a message. */
    method EmoteOnChannel(text: Line, a: Answers) returns (failed: bool, out: Client.Out, ask: Request)
      requires Valid() && !promptNeeded && userID != 0 && chatChannelID != 0
      modifies writer, this`backspaceBuffer
      ensures Valid() && Asked(old(Member()), Spoke(old(Screen()), text, a).ask, failed, out)
      ensures Tied(ask, Spoke(old(Screen()), text, a).ask, failed)
      ensures Did(old(Screen()), old(writer.wire), Spoke(old(Screen()), text, a), false, ask)
      ensures writer.broken == (old(writer.broken) || failed)
    {
      out, ask := Client.Nothing, Nothing;
      failed := BackspaceOut(cursorColumn);
      if failed { return; }
      ask := Speak(text);
      if chatChannelCallback.Some? {
        out := Client.Speak(chatChannelCallback.value, Wire.Speech(userID, Str(text)));
      }
    }

    method CreateChannel(name: Line, a: Answers) returns (failed: bool, ask: Request)
      requires Valid()
      modifies writer
      ensures Valid() && Member() == old(Member()) && ask == Created(old(Screen()), name, a).ask
      ensures Did(old(Screen()), old(writer.wire), Created(old(Screen()), name, a), true, ask)
      ensures writer.broken == (old(writer.broken) || failed)
    {
      if name == [] {
        ask := Nothing;
        failed := Answering(a.say(NameAChannel));
      } else {
        ask := Create(name);
        failed := Answering(if a.known then a.say(ChannelExists) else Text("Channel \"#") + name + Text("\" created."));
      }
    }

    /** The id becomes -1 until the answer comes, to keep the goroutine alive. */
    method Join(name: Line, a: Answers) returns (prompt: bool, failed: bool, out: Client.Out, ask: Request)
      requires Valid() && !promptNeeded && userID != 0
      modifies writer, this`chatChannelID, this`awaiting
      ensures Valid() && Asked(old(Member()), SoughtToJoin(old(Screen()), name, a).ask, failed, out)
      ensures Tied(ask, SoughtToJoin(old(Screen()), name, a).ask, failed)
      ensures Did(old(Screen()), old(writer.wire), SoughtToJoin(old(Screen()), name, a), prompt, ask)
      ensures writer.broken == (old(writer.broken) || failed)
    {
      prompt, failed, out, ask := true, false, Client.Nothing, Nothing;
      if chatChannelID > 0 {
        failed := Answering(a.say(ExitToJoin));
      } else {
        prompt, ask := false, AskJoin(name);
        chatChannelID, awaiting := -1, awaiting + 1;
        out := Client.ToTheMaster(Wire.Join(doppelgangerID, userID, Str(name)));
      }
    }

    method Who(a: Answers) returns (failed: bool, out: Client.Out, ask: Request)
      requires Valid() && userID != 0
      modifies writer
      ensures Valid() && Asked(old(Member()), AskedWho(old(Screen()), a).ask, failed, out)
      ensures Tied(ask, AskedWho(old(Screen()), a).ask, failed)
      ensures Did(old(Screen()), old(writer.wire), AskedWho(old(Screen()), a), true, ask)
      ensures writer.broken == (old(writer.broken) || failed)
    {
      out, ask := Client.Nothing, Nothing;
      if chatChannelID == 0 {
        failed := Answering(a.say(JoinToAsk));
      } else {
        failed := Send(CRLF);
        if failed { return; }
        ask := AskWho;
        out := Client.ToTheMaster(Wire.Who(chatChannelID, doppelgangerID));
      }
    }

    method LeaveChannel()
      requires Valid()
      modifies this`chatChannelID, this`chatChannelName, this`cantExitBeforeExitMessageFromChannel
      ensures Valid()
      ensures Screen() == old(Screen()).(room := 0, roomName := NO_CHANNEL)
      ensures Member() == old(Member()).(id := 0, cantExit := true)
    {
      chatChannelID, chatChannelName := 0, NO_CHANNEL;
      cantExitBeforeExitMessageFromChannel := true;
    }

    /** The id becomes 0 at once, but the goroutine must stay until the exit comes back. */
    method Exit(a: Answers) returns (failed: bool, out: Client.Out, ask: Request)
      requires Valid() && userID != 0
      modifies writer, this`chatChannelID, this`chatChannelName, this`cantExitBeforeExitMessageFromChannel,
               this`awaiting
      ensures Valid() && Asked(old(Member()), SoughtToExit(old(Screen()), a).ask, failed, out)
      ensures Tied(ask, SoughtToExit(old(Screen()), a).ask, failed)
      ensures Did(old(Screen()), old(writer.wire), SoughtToExit(old(Screen()), a), true, ask)
      ensures writer.broken == (old(writer.broken) || failed)
    {
      out, ask := Client.Nothing, Nothing;
      if chatChannelID == 0 {
        failed := Answering(a.say(JoinToExit));
      } else {
        failed := Send(CRLF);
        if failed { return; }
        ask := AskExit;
        out := RequestExit();
      }
    }

    method RequestExit() returns (out: Client.Out)
      requires Valid()
      modifies this`chatChannelID, this`chatChannelName, this`cantExitBeforeExitMessageFromChannel, this`awaiting
      ensures Valid() && Screen() == old(Screen()).(room := 0, roomName := NO_CHANNEL)
      ensures Member() == old(Member()).(id := 0, cantExit := true, awaiting := old(awaiting) + 1)
      ensures out == Client.ToTheMaster(Wire.Exit(old(chatChannelID), doppelgangerID))
    {
      out := Client.ToTheMaster(Wire.Exit(chatChannelID, doppelgangerID));
      awaiting := awaiting + 1;
      LeaveChannel();
    }

    method ListChannels(names: seq<Line>) returns (failed: bool)
      modifies writer
      ensures Wrote(old(writer.wire), CRLF + Rows(Hashed(names)) + [])
      ensures writer.broken == (old(writer.broken) || failed)
    {
      failed := Send(CRLF);
      if failed { return; }
      for k := 0 to |names|
        invariant Wrote(old(writer.wire), CRLF + Rows(Hashed(names[..k])))
        invariant !failed && writer.broken == old(writer.broken)
      {
        RowsSnoc(Hashed(names[..k + 1]), Hashed(names[..k]), [HASH] + names[k]);
        failed := Send([HASH] + names[k] + CRLF);
        if failed { return; }
      }
      assert names[..|names|] == names;
    }

    method Unrecognised(word: Line) returns (failed: bool)
      modifies writer
      ensures Wrote(old(writer.wire), CRLF + Rows([[], Text("Command \"") + word + Text("\" not recognized.")]) + [])
      ensures writer.broken == (old(writer.broken) || failed)
    {
      failed := Send(CRLF);
      if failed { return; }
      var text := Text("Command \"") + word + Text("\" not recognized.");
      RowsOne([]);
      RowsSnoc([[], text], [[]], text);
      failed := Send(CRLF + text + CRLF);
    }

    /** doCommand for commands that are not about the user's own channel. */
    method Inform(intent: Intent, a: Answers) returns (failed: bool, ask: Request)
      requires Valid()
      requires intent.ToCreate? || intent.ToList? || intent.ToGetHelp? || intent.Unknown?
      modifies writer
      ensures Valid() && Member() == old(Member())
      ensures ask == Obeyed(old(Screen()), intent, a).ask && (ask.Nothing? || ask.Create?)
      ensures Did(old(Screen()), old(writer.wire), Obeyed(old(Screen()), intent, a), true, ask)
      ensures writer.broken == (old(writer.broken) || failed)
    {
      ask := Nothing;
      match intent
      case ToCreate(name) => failed, ask := CreateChannel(name, a);
      case ToList => failed := ListChannels(a.channels);
      case ToGetHelp => failed := Send(CRLF + Rows(a.help) + []);
      case Unknown(word) => failed := Unrecognised(word);
      case _ => failed := false;
    }

    /** doCommand for the others. */
    method Attend(intent: Intent, a: Answers) returns (prompt: bool, failed: bool, out: Client.Out, ask: Request)
      requires Valid() && !promptNeeded
      requires intent.ToSpeak? || intent.ToJoin? || intent.ToAskWho? || intent.ToExit?
      modifies writer, this`backspaceBuffer, this`chatChannelID, this`chatChannelName,
               this`cantExitBeforeExitMessageFromChannel, this`awaiting
      ensures Valid() && Asked(old(Member()), Obeyed(old(Screen()), intent, a).ask, failed, out)
      ensures Tied(ask, Obeyed(old(Screen()), intent, a).ask, failed)
      ensures Did(old(Screen()), old(writer.wire), Obeyed(old(Screen()), intent, a), prompt, ask)
      ensures writer.broken == (old(writer.broken) || failed)
    {
      prompt, failed, out, ask := true, false, Client.Nothing, Nothing;
      match intent
      case ToSpeak(text) =>
        if userID == 0 || chatChannelID == 0 {
          prompt, failed := EmoteAlone(text, a);
        } else {
          prompt := false;
          failed, out, ask := EmoteOnChannel(text, a);
        }
      case ToJoin(name) =>
        if userID == 0 {
          failed := Answering(a.say(LogInToJoin));
        } else {
          prompt, failed, out, ask := Join(name, a);
        }
      case ToAskWho =>
        if userID == 0 {
          failed := Answering(a.say(LogInFirst));
        } else {
          failed, out, ask := Who(a);
        }
      case ToExit =>
        if userID == 0 {
          failed := Answering(a.say(LogInFirst));
        } else {
          failed, out, ask := Exit(a);
        }
      case _ =>
    }

    method DoCommand(command: Line, a: Answers)
      returns (prompt: bool, failed: bool, out: Client.Out, ask: Request)
      requires Valid() && !promptNeeded
      modifies writer, this`backspaceBuffer, this`chatChannelID, this`chatChannelName,
               this`cantExitBeforeExitMessageFromChannel, this`awaiting
      ensures Valid() && Asked(old(Member()), Obeyed(old(Screen()), Meaning(userName, command), a).ask, failed, out)
      ensures Tied(ask, Obeyed(old(Screen()), Meaning(userName, command), a).ask, failed)
      ensures Did(old(Screen()), old(writer.wire), Obeyed(old(Screen()), Meaning(userName, command), a), prompt, ask)
      ensures writer.broken == (old(writer.broken) || failed)
    {
      var intent := Meaning(userName, command);
      if intent.ToSpeak? || intent.ToJoin? || intent.ToAskWho? || intent.ToExit? {
        prompt, failed, out, ask := Attend(intent, a);
      } else {
        prompt, out := true, Client.Nothing;
        failed, ask := Inform(intent, a);
      }
    }

    // ---------------------------------------------------------------- a line

    /** Writes something; a user to whom it cannot be written is gone. */
    method Tell(p: Line)
      requires Valid()
      modifies writer, this`telnetGoroutineHasGoneAway
      ensures Valid() && Screen() == old(Screen())
      ensures Wrote(old(writer.wire), p)
      ensures Member() == old(Member()).(gone := telnetGoroutineHasGoneAway)
      ensures old(telnetGoroutineHasGoneAway) ==> telnetGoroutineHasGoneAway
      ensures Noticed(old(writer.broken), old(telnetGoroutineHasGoneAway), false)
    {
      var failed := Send(p);
      if failed { telnetGoroutineHasGoneAway := true; }
    }

    /** The step was made, and what it was to write was written. */
    ghost predicate Took(before: Console, wire: Line, s: Step)
      requires Valid()
      reads this, controlSequence, writer
    {
      Screen() == s.c && Wrote(wire, Rendered(before, s.reply))
    }

    /** Another mode, with a prompt of its own. */
    method Turn(next: Mode, echo: bool)
      requires Valid()
      modifies this`mode, this`promptNeeded, this`echoOn
      ensures Valid() && Member() == old(Member())
      ensures Screen() == old(Screen()).(mode := next, promptNeeded := true, echo := echo)
    {
      mode, promptNeeded, echoOn := next, true, echo;
    }

    method TellAndTurn(p: Line, next: Mode, echo: bool)
      requires Valid()
      modifies writer, this`mode, this`promptNeeded, this`echoOn, this`telnetGoroutineHasGoneAway
      ensures Valid() && Member() == old(Member()).(gone := telnetGoroutineHasGoneAway)
      ensures old(telnetGoroutineHasGoneAway) ==> telnetGoroutineHasGoneAway
      ensures Screen() == old(Screen()).(mode := next, promptNeeded := true, echo := echo)
      ensures Wrote(old(writer.wire), p)
      ensures Noticed(old(writer.broken), old(telnetGoroutineHasGoneAway), false)
    {
      Tell(p);
      Turn(next, echo);
    }

    /** A line end, and a line; whether a failure of the first write is noticed differs. */
    method TellLine(text: Line, note: bool)
      requires Valid()
      modifies writer, this`telnetGoroutineHasGoneAway
      ensures Valid() && Screen() == old(Screen())
      ensures Wrote(old(writer.wire), CRLF + Rows([text]) + [])
      ensures Member() == old(Member()).(gone := telnetGoroutineHasGoneAway)
      ensures old(telnetGoroutineHasGoneAway) ==> telnetGoroutineHasGoneAway
      ensures Noticed(old(writer.broken), old(telnetGoroutineHasGoneAway), !note)
    {
      RowsOne(text);
      var failed := Send(CRLF);
      var again := Send(text + CRLF);
      assert !writer.broken ==>
        old(writer.wire) + CRLF + (text + CRLF) == old(writer.wire) + (CRLF + Rows([text]) + []);
      if (failed && note) || again { telnetGoroutineHasGoneAway := true; }
    }

    method UsernameLine(command: Line, a: Answers)
      requires Valid()
      modifies writer, this`mode, this`promptNeeded, this`echoOn, this`attemptingUserName,
               this`telnetGoroutineHasGoneAway
      ensures Valid() && Member() == old(Member()).(gone := telnetGoroutineHasGoneAway)
      ensures old(telnetGoroutineHasGoneAway) ==> telnetGoroutineHasGoneAway
      ensures Took(old(Screen()), old(writer.wire), Named(old(Screen()), command, a))
      ensures Noticed(old(writer.broken), old(telnetGoroutineHasGoneAway), false)
    {
      Tell(CRLF + Rows([]) + if a.found then [] else a.say(UnknownUser));
      attemptingUserName := command;
      Turn(if a.found then RegularPassword else NewUserYN, echoOn);
    }

    method NewUserLine(command: Line)
      requires Valid() && command != []
      modifies writer, this`mode, this`promptNeeded, this`echoOn, this`telnetGoroutineHasGoneAway
      ensures Valid() && Member() == old(Member()).(gone := telnetGoroutineHasGoneAway)
      ensures old(telnetGoroutineHasGoneAway) ==> telnetGoroutineHasGoneAway
      ensures Took(old(Screen()), old(writer.wire), Confirmed(old(Screen()), command))
      ensures Noticed(old(writer.broken), old(telnetGoroutineHasGoneAway), false)
    {
      TellAndTurn(CRLF + Rows([]) + [],
                  if command[0] == 89 || command[0] == 121 then NewPassword1 else Username, echoOn);
    }

    method FirstPasswordLine(command: Line, a: Answers)
      requires Valid()
      modifies writer, this`mode, this`promptNeeded, this`echoOn, this`attemptingUserNewPassword,
               this`telnetGoroutineHasGoneAway
      ensures Valid() && Member() == old(Member()).(gone := telnetGoroutineHasGoneAway)
      ensures old(telnetGoroutineHasGoneAway) ==> telnetGoroutineHasGoneAway
      ensures Took(old(Screen()), old(writer.wire), Chose(old(Screen()), command, a))
      ensures Noticed(old(writer.broken), old(telnetGoroutineHasGoneAway), false)
    {
      if |command| < 4 {
        TellLine(a.say(PasswordTooShort), true);
        Turn(mode, echoOn);
      } else {
        Tell(CRLF + Rows([]) + []);
        attemptingUserNewPassword := command;
        Turn(NewPassword2, echoOn);
      }
    }

    method SecondPasswordLine(command: Line, a: Answers) returns (ask: Request)
      requires Valid()
      modifies writer, this`mode, this`promptNeeded, this`echoOn, this`telnetGoroutineHasGoneAway
      ensures Valid() && Member() == old(Member()).(gone := telnetGoroutineHasGoneAway)
      ensures old(telnetGoroutineHasGoneAway) ==> telnetGoroutineHasGoneAway
      ensures Took(old(Screen()), old(writer.wire), Repeated(old(Screen()), command, a))
      ensures ask == Repeated(old(Screen()), command, a).ask
      ensures Noticed(old(writer.broken), old(telnetGoroutineHasGoneAway), true)
    {
      if command != attemptingUserNewPassword {
        ask := Nothing;
        TellLine(a.say(PasswordsDiffer), false);
        Turn(NewPassword1, true);
      } else {
        ask := Register(attemptingUserName, attemptingUserNewPassword);
        TellLine(a.say(AccountCreated), false);
        Turn(Username, true);
      }
    }

    method PasswordLine(a: Answers)
      requires Valid()
      modifies writer, this`mode, this`promptNeeded, this`echoOn, this`userID, this`userName,
               this`telnetGoroutineHasGoneAway
      ensures Valid() && Member() == old(Member()).(gone := telnetGoroutineHasGoneAway)
      ensures old(telnetGoroutineHasGoneAway) ==> telnetGoroutineHasGoneAway
      ensures Took(old(Screen()), old(writer.wire), Authenticated(old(Screen()), a))
      ensures Noticed(old(writer.broken), old(telnetGoroutineHasGoneAway), false)
    {
      var text := a.say(if a.account == 0 then WrongPassword else LoggedIn);
      RowsOne(text);
      userID, userName := a.account, if a.account == 0 then [] else a.name;
      TellAndTurn(CRLF + Rows([text]) + [], if a.account == 0 then Username else Commanding, true);
    }

    /** The same as long as no write has failed. */
    ghost predicate Made(before: Console, wire: Line, s: Step, ask: Request)
      requires Valid()
      reads this, controlSequence, writer
    {
      !writer.broken ==> Took(before, wire, s) && ask == s.ask
    }

    method LoginLine(command: Line, a: Answers) returns (ask: Request)
      requires Valid() && mode != Commanding && command != []
      modifies writer, this`mode, this`promptNeeded, this`echoOn, this`userID, this`userName, this`attemptingUserName,
               this`attemptingUserNewPassword, this`telnetGoroutineHasGoneAway
      ensures Valid() && Member() == old(Member()).(gone := telnetGoroutineHasGoneAway)
      ensures old(telnetGoroutineHasGoneAway) ==> telnetGoroutineHasGoneAway
      ensures Took(old(Screen()), old(writer.wire), Submit(old(Screen()), command, a))
      ensures ask == Submit(old(Screen()), command, a).ask && (ask.Nothing? || ask.Register?)
      ensures Noticed(old(writer.broken), old(telnetGoroutineHasGoneAway), old(mode) == NewPassword2)
    {
      ask := Nothing;
      match mode
      case Username => UsernameLine(command, a);
      case NewUserYN => NewUserLine(command);
      case NewPassword1 => FirstPasswordLine(command, a);
      case NewPassword2 => ask := SecondPasswordLine(command, a);
      case RegularPassword => PasswordLine(a);
      case Commanding => assert false;
    }

    /** A line that is not blank, by mode. */
    method HandleLine(command: Line, a: Answers) returns (out: Client.Out, ask: Request, ghost lost: bool)
      requires Valid() && !promptNeeded && command != []
      modifies writer, this`mode, this`promptNeeded, this`echoOn, this`userID, this`userName, this`attemptingUserName,
               this`attemptingUserNewPassword, this`telnetGoroutineHasGoneAway, this`backspaceBuffer,
               this`chatChannelID, this`chatChannelName, this`cantExitBeforeExitMessageFromChannel, this`awaiting
      ensures Valid() && TheKeys() == old(TheKeys())
      ensures (Client.Settle(Member(), telnetGoroutineHasGoneAway), out)
           == Client.Obey(old(Member()), doppelgangerID, CommandOf(userID, Submit(old(Screen()), command, a).ask), lost)
      ensures Tied(ask, Submit(old(Screen()), command, a).ask, lost)
      ensures Made(old(Screen()), old(writer.wire), Submit(old(Screen()), command, a), ask)
      ensures Noticed(old(writer.broken), old(telnetGoroutineHasGoneAway), old(mode) == NewPassword2)
    {
      if mode == Commanding {
        out, ask, lost := CommandLine(command, a);
      } else {
        out := Client.Nothing;
        ask := LoginLine(command, a);
        lost := telnetGoroutineHasGoneAway;
      }
    }

    /** A new prompt or none, and a user who is gone if the terminal could not be written. */
    method Conclude(prompt: bool, failed: bool)
      requires Valid()
      modifies this`promptNeeded, this`telnetGoroutineHasGoneAway
      ensures Valid() && Screen() == old(Screen()).(promptNeeded := prompt)
      ensures Member() == old(Member()).(gone := old(telnetGoroutineHasGoneAway) || failed)
    {
      promptNeeded := prompt;
      if failed { telnetGoroutineHasGoneAway := true; }
    }

    method CommandLine(command: Line, a: Answers) returns (out: Client.Out, ask: Request, ghost lost: bool)
      requires Valid() && !promptNeeded && command != [] && mode == Commanding
      modifies writer, this`promptNeeded, this`telnetGoroutineHasGoneAway, this`backspaceBuffer,
               this`chatChannelID, this`chatChannelName, this`cantExitBeforeExitMessageFromChannel, this`awaiting
      ensures Valid() && TheKeys() == old(TheKeys())
      ensures (Client.Settle(Member(), telnetGoroutineHasGoneAway), out)
           == Client.Obey(old(Member()), doppelgangerID, CommandOf(userID, Submit(old(Screen()), command, a).ask), lost)
      ensures Tied(ask, Submit(old(Screen()), command, a).ask, lost)
      ensures Made(old(Screen()), old(writer.wire), Submit(old(Screen()), command, a), ask)
      ensures Noticed(old(writer.broken), old(telnetGoroutineHasGoneAway), false)
    {
      var prompt, failed;
      prompt, failed, out, ask := DoCommand(Expand(command), a);
      Conclude(prompt, failed);
      lost := failed;
    }

    method KeyDown(b: Byte, gone: bool) returns (usrByte: Byte)
      requires Valid()
      modifies this`telnetGoroutineHasGoneAway, this`promptNeeded, this`ctrlSeqPosition, controlSequence
      ensures Valid() && Member() == old(Member()).(gone := old(telnetGoroutineHasGoneAway) || gone)
      ensures var (pending, x) := Sift(old(TheKeys()).pending, b);
        && usrByte == x
        && Screen() == old(Screen()).(promptNeeded := false, keys := old(TheKeys()).(pending := pending))
    {
      Conclude(false, gone);
      usrByte := Sieve(b);
    }

    /** A key up to the line buffer: what is left of it to act on. */
    method Type(typed: Byte, ok: bool) returns (usrByte: Byte)
      requires Valid()
      modifies this`telnetGoroutineHasGoneAway, this`promptNeeded, this`ctrlSeqPosition, this`lineBuffer,
               this`cursorColumn, controlSequence, writer
      ensures Valid() && Member() == old(Member()).(gone := telnetGoroutineHasGoneAway)
      ensures old(telnetGoroutineHasGoneAway) ==> telnetGoroutineHasGoneAway
      ensures var b := if ok then typed else 0;
        && usrByte == Sift(old(TheKeys()).pending, b).1
        && Screen() == Edited(old(Screen()), b)
        && Wrote(old(writer.wire), Echoed(old(Screen()), usrByte))
      ensures Return(usrByte) ==> Member() == old(Member()) && writer.wire == old(writer.wire)
      ensures writer.broken && !old(writer.broken) ==> telnetGoroutineHasGoneAway
      ensures telnetGoroutineHasGoneAway && !old(telnetGoroutineHasGoneAway) ==> writer.broken || HangsUp(typed, ok)
      ensures HangsUp(typed, ok) ==> telnetGoroutineHasGoneAway && !Return(usrByte)
    {
      usrByte := EchoedKey(if ok then typed else 0, HangsUp(typed, ok));
      EditLine(usrByte);
    }

    method EchoedKey(b: Byte, gone: bool) returns (usrByte: Byte)
      requires Valid()
      modifies this`telnetGoroutineHasGoneAway, this`promptNeeded, this`ctrlSeqPosition, controlSequence, writer
      ensures Valid() && Member() == old(Member()).(gone := telnetGoroutineHasGoneAway)
      ensures old(telnetGoroutineHasGoneAway) || gone ==> telnetGoroutineHasGoneAway
      ensures var (pending, x) := Sift(old(TheKeys()).pending, b);
        && usrByte == x
        && Screen() == old(Screen()).(promptNeeded := false, keys := old(TheKeys()).(pending := pending))
        && Wrote(old(writer.wire), Echoed(old(Screen()), x))
      ensures Noticed(old(writer.broken), old(telnetGoroutineHasGoneAway) || gone, false)
      ensures Return(usrByte) && !gone ==> Member() == old(Member()) && writer.wire == old(writer.wire)
    {
      usrByte := KeyDown(b, gone);
      EchoByte(usrByte);
    }

    /** What a line ended means. */
    static function LineAsk(c: Console, l: Line, a: Answers): Request {
      if l == [] then Nothing else Submit(c, l, a).ask
    }

    static function TypedAsk(c: Console, a: Answers): Request
      requires KeysOk(c.keys)
    {
      LineAsk(c, Trim(Typed(c.keys)), a)
    }

    /** The return key. */
    method EndLine(a: Answers) returns (out: Client.Out, ask: Request, ghost lost: bool)
      requires Valid() && !promptNeeded
      modifies writer, this`mode, this`promptNeeded, this`echoOn, this`userID, this`userName, this`attemptingUserName,
               this`attemptingUserNewPassword, this`telnetGoroutineHasGoneAway, this`backspaceBuffer,
               this`chatChannelID, this`chatChannelName, this`cantExitBeforeExitMessageFromChannel,
               this`awaiting, this`cursorColumn
      ensures Valid()
      ensures (Client.Settle(Member(), telnetGoroutineHasGoneAway), out)
           == Client.Obey(old(Member()), doppelgangerID, CommandOf(userID, TypedAsk(old(Screen()), a)), lost)
      ensures Tied(ask, TypedAsk(old(Screen()), a), lost)
      ensures var c := old(Screen());
        var command := Trim(Typed(c.keys));
        if command == [] then Screen() == c && ask == Nothing && writer.wire == old(writer.wire)
        else !writer.broken ==>
               var s := Submit(c, command, a);
               && Screen() == s.c.(keys := c.keys.(column := 0)) && ask == s.ask
               && writer.wire == old(writer.wire) + Rendered(c, s.reply)
      ensures Noticed(old(writer.broken), old(telnetGoroutineHasGoneAway), old(mode) == NewPassword2)
    {
      out, ask, lost := Client.Nothing, Nothing, false;
      var command := Trim(lineBuffer[..cursorColumn]);
      if command != [] {
        out, ask, lost := HandleLine(command, a);
        cursorColumn := 0;
      }
    }

    /** End of a select case. */
    ghost method EndCase()
      requires Valid()
      modifies this`unwinding
      ensures Valid() && Screen() == old(Screen())
      ensures Member() == Client.Settle(old(Member()), telnetGoroutineHasGoneAway)
    {
      unwinding := telnetGoroutineHasGoneAway;
    }

    /** What a byte that has come through brings about: something, if it is a return. */
    method Act(usrByte: Byte, a: Answers) returns (out: Client.Out, ask: Request, ghost lost: bool)
      requires Valid() && !promptNeeded && !unwinding
      modifies this, writer
      ensures Valid()
      ensures var c := old(Screen());
        var meant := LineAsk(c, if Return(usrByte) then Trim(Typed(c.keys)) else [], a);
        && (Member(), out) == Client.Obey(old(Member()), doppelgangerID, CommandOf(userID, meant), lost)
        && Tied(ask, meant, lost)
      ensures Noticed(old(writer.broken), old(telnetGoroutineHasGoneAway), old(mode) == NewPassword2)
      ensures old(telnetGoroutineHasGoneAway) ==> telnetGoroutineHasGoneAway
      ensures !Return(usrByte) ==> writer.broken == old(writer.broken) && lost == telnetGoroutineHasGoneAway
                                   == old(telnetGoroutineHasGoneAway)
      ensures var c := old(Screen());
        var l := if Return(usrByte) then Trim(Typed(c.keys)) else [];
        if l == [] then Screen() == c && ask == Nothing && writer.wire == old(writer.wire)
        else !writer.broken ==>
               var s := Submit(c, l, a);
               && Screen() == s.c.(keys := c.keys.(column := 0)) && ask == s.ask
               && writer.wire == old(writer.wire) + Rendered(c, s.reply)
    {
      ghost var was := Member();
      ghost var meant := LineAsk(Screen(), if Return(usrByte) then Trim(Typed(TheKeys())) else [], a);
      out, ask, lost := Client.Nothing, Nothing, telnetGoroutineHasGoneAway;
      if usrByte == LF || usrByte == CR {
        out, ask, lost := EndLine(a);
      }
      EndCase();
      ObeyKeepsGone(was, doppelgangerID, CommandOf(userID, meant), lost);
    }

    /** The user is gone for hanging up or a failed write, unless it is one that is
        overlooked, and for nothing else. */
    ghost predicate Parted(broken: bool, gone: bool, overlooked: bool, hung: bool)
      reads this, writer
    {
      && (writer.broken && !broken ==> telnetGoroutineHasGoneAway || overlooked)
      && (telnetGoroutineHasGoneAway && !gone ==> writer.broken || hung)
      && (hung ==> telnetGoroutineHasGoneAway)
    }

    /** As long as no write has failed, this is what has come about. */
    ghost predicate CameAbout(wire: Line, r: Result, ask: Request)
      requires Valid()
      reads this, controlSequence, writer
    {
      !writer.broken ==> Screen() == r.c && ask == r.ask && writer.wire == wire + r.out
    }

    /** The select case for the user's keys; !ok says that the go channel is closed. */
    method ReceiveByte(typed: Byte, ok: bool, a: Answers) returns (out: Client.Out, ask: Request, ghost lost: bool)
      requires Valid() && !unwinding
      modifies this, controlSequence, writer
      ensures Valid()
      ensures var meant := Struck(old(Screen()), if ok then typed else 0, a).ask;
        && (Member(), out) == Client.Obey(old(Member()), doppelgangerID, CommandOf(userID, meant), lost)
        && Tied(ask, meant, lost)
      ensures CameAbout(old(writer.wire), Struck(old(Screen()), if ok then typed else 0, a), ask)
      ensures Parted(old(writer.broken), old(telnetGoroutineHasGoneAway), old(mode) == NewPassword2,
                     !ok || typed == 3 || typed == 4)
    {
      ghost var c := Screen();
      var usrByte := Type(typed, ok);
      out, ask, lost := Act(usrByte, a);
      StruckInParts(c, if ok then typed else 0, a);
    }

    // ---------------------------------------------------------------- messages

    /** A message is written on a line of its own, unless the user is gone. */
    method TellUnlessGone(text: Line)
      requires Valid()
      modifies writer, this`telnetGoroutineHasGoneAway
      ensures Valid() && Screen() == old(Screen())
      ensures Member() == old(Member()).(gone := telnetGoroutineHasGoneAway)
      ensures old(telnetGoroutineHasGoneAway) ==> telnetGoroutineHasGoneAway
      ensures !old(telnetGoroutineHasGoneAway) ==> Wrote(old(writer.wire), CRLF + Rows([text]) + [])
      ensures Noticed(old(writer.broken), old(telnetGoroutineHasGoneAway), false)
    {
      RowsOne(text);
      if !telnetGoroutineHasGoneAway {
        Tell(CRLF + Rows([text]) + []);
      }
    }

    method SetChannel(id: int, name: Line)
      requires Valid()
      modifies this`chatChannelID, this`chatChannelName
      ensures Valid() && Screen() == old(Screen()).(room := id, roomName := name)
      ensures Member() == old(Member()).(id := id)
    {
      chatChannelID, chatChannelName := id, name;
    }

    method ClearCantExit()
      requires Valid()
      modifies this`cantExitBeforeExitMessageFromChannel
      ensures Valid() && Screen() == old(Screen()) && Member() == old(Member()).(cantExit := false)
    {
      cantExitBeforeExitMessageFromChannel := false;
    }

    ghost method CountAnswer()
      requires Valid()
      modifies this`awaiting
      ensures Valid() && Screen() == old(Screen()) && Member() == Client.Answered(old(Member()))
    {
      awaiting := if awaiting == 0 then 0 else awaiting - 1;
    }

    /** An answer after which a doppelganger without a user may leave. */
    method TakeAnswer()
      requires Valid()
      modifies this`cantExitBeforeExitMessageFromChannel, this`awaiting
      ensures Valid() && Screen() == old(Screen())
      ensures Member() == Client.Answered(old(Member())).(cantExit := old(Member()).cantExit && !old(Member()).gone)
    {
      if telnetGoroutineHasGoneAway { ClearCantExit(); }
      CountAnswer();
    }

    /** The end of a select case for a message: a new prompt is due. */
    method EndMessage()
      requires Valid()
      modifies this`promptNeeded, this`unwinding
      ensures Valid() && Screen() == old(Screen()).(promptNeeded := true)
      ensures Member() == Client.Settle(old(Member()), telnetGoroutineHasGoneAway)
    {
      promptNeeded := true;
      EndCase();
    }

    method RefusedByMaster(text: Line)
      requires Valid()
      modifies writer, this`chatChannelID, this`chatChannelName, this`telnetGoroutineHasGoneAway,
               this`cantExitBeforeExitMessageFromChannel, this`awaiting
      ensures Valid() && Screen() == old(Screen()).(room := 0)
      ensures Member() == Client.Answered(old(Member())).(
                id := 0, gone := telnetGoroutineHasGoneAway,
                cantExit := old(Member()).cantExit && !telnetGoroutineHasGoneAway)
      ensures old(telnetGoroutineHasGoneAway) ==> telnetGoroutineHasGoneAway
      ensures !old(telnetGoroutineHasGoneAway) ==> Wrote(old(writer.wire), CRLF + Rows([text]) + [])
      ensures Noticed(old(writer.broken), old(telnetGoroutineHasGoneAway), false)
    {
      SetChannel(0, chatChannelName);
      TellUnlessGone(text);
      TakeAnswer();
    }

    method TakeFromMaster() returns (m: Wire.FromMaster)
      requires Valid() && incomingFromChannelMaster != []
      modifies this`incomingFromChannelMaster
      ensures Valid() && Screen() == old(Screen()) && m == old(incomingFromChannelMaster)[0]
      ensures Member() == old(Member()).(fromMaster := old(incomingFromChannelMaster)[1..])
    {
      m := incomingFromChannelMaster[0];
      incomingFromChannelMaster := incomingFromChannelMaster[1..];
    }

    method TakeFromChat() returns (m: Wire.FromChat)
      requires Valid() && incomingFromChatChannel != []
      modifies this`incomingFromChatChannel
      ensures Valid() && Screen() == old(Screen()) && m == old(incomingFromChatChannel)[0]
      ensures Member() == old(Member()).(fromChat := old(incomingFromChatChannel)[1..])
    {
      m := incomingFromChatChannel[0];
      incomingFromChatChannel := incomingFromChatChannel[1..];
    }

    /** The select case for the channel master. */
    method ReceiveFromChannelMaster(text: Line)
      requires Valid() && !unwinding && incomingFromChannelMaster != []
      modifies this, writer
      ensures Valid()
      ensures var m, queue := old(incomingFromChannelMaster[0]), old(incomingFromChannelMaster)[1..];
        && Member() == Client.HearMaster(old(Member()).(fromMaster := queue), m, telnetGoroutineHasGoneAway)
        && (!old(telnetGoroutineHasGoneAway) ==>
              Took(old(Screen()), old(writer.wire), Heard(old(Screen()), MasterEvent(m, text))))
      ensures Noticed(old(writer.broken), old(telnetGoroutineHasGoneAway), false)
    {
      var m := TakeFromMaster();
      match m {
        case GenericText => TellUnlessGone(text);
        case Refused => RefusedByMaster(text);
      }
      EndMessage();
    }

    /** The select case for the chat channel.  Our own exit coming back is the last thing a
        doppelganger without a user waits for. */
    method ReceiveFromChatChannel(text: Line)
      requires Valid() && !unwinding && !closed && incomingFromChatChannel != []
      modifies this, writer
      ensures Valid()
      ensures var m, queue := old(incomingFromChatChannel[0]), old(incomingFromChatChannel)[1..];
        && Member() == Client.HearChat(old(Member()).(fromChat := queue), doppelgangerID, m, telnetGoroutineHasGoneAway)
        && (!old(telnetGoroutineHasGoneAway) ==>
              Took(old(Screen()), old(writer.wire), Heard(old(Screen()), ChatEvent(doppelgangerID, m, text))))
      ensures Noticed(old(writer.broken), old(telnetGoroutineHasGoneAway), old(Overlooks(incomingFromChatChannel[0])))
    {
      var m := TakeFromChat();
      if m == Wire.Left(doppelgangerID) && telnetGoroutineHasGoneAway {
        EndForGood();
        return;
      }
      HearChannel(m, text);
      EndMessage();
    }

    method EndForGood()
      requires Valid()
      modifies this`awaiting, this`closed
      ensures Valid() && Screen() == old(Screen())
      ensures Member() == Client.Answered(old(Member())).(closed := true)
    {
      CountAnswer();
      closed := true;
    }

    method HearChannel(m: Wire.FromChat, text: Line)
      requires Valid() && !(m == Wire.Left(doppelgangerID) && telnetGoroutineHasGoneAway)
      modifies writer, this`backspaceBuffer, this`telnetGoroutineHasGoneAway, this`chatChannelID, this`chatChannelName,
               this`chatChannelCallback, this`cantExitBeforeExitMessageFromChannel, this`awaiting
      ensures Valid()
      ensures Client.Settle(Member(), telnetGoroutineHasGoneAway)
           == Client.HearChat(old(Member()), doppelgangerID, m, telnetGoroutineHasGoneAway)
      ensures Heeded(old(Screen()), old(writer.wire), ChatEvent(doppelgangerID, m, text),
                     old(telnetGoroutineHasGoneAway))
      ensures Noticed(old(writer.broken), old(telnetGoroutineHasGoneAway), Overlooks(m))
    {
      match m
      case Denied => RefusedByChannel(text);
      case Joined(c, inst) => AdmittedByChannel(c, inst, text);
      case Left(_) => HearLeft(m, text);
      case _ => HearOthers(m, text);
    }

    method HearOthers(m: Wire.FromChat, text: Line)
      requires Valid() && (m.Notice? || m.Said?)
      modifies writer, this`backspaceBuffer, this`telnetGoroutineHasGoneAway
      ensures Valid()
      ensures Client.Settle(Member(), telnetGoroutineHasGoneAway)
           == Client.HearChat(old(Member()), doppelgangerID, m, telnetGoroutineHasGoneAway)
      ensures Heeded(old(Screen()), old(writer.wire), ChatEvent(doppelgangerID, m, text),
                     old(telnetGoroutineHasGoneAway))
      ensures Noticed(old(writer.broken), old(telnetGoroutineHasGoneAway), Overlooks(m))
    {
      if m.Notice? { Relay(0, text); } else { Relay(m.line.user, Bytes(m.line.body)); }
    }

    method HearLeft(m: Wire.FromChat, text: Line)
      requires Valid() && m.Left? && !(m.d == doppelgangerID && telnetGoroutineHasGoneAway)
      modifies writer, this`backspaceBuffer, this`telnetGoroutineHasGoneAway, this`chatChannelID, this`chatChannelName,
               this`cantExitBeforeExitMessageFromChannel, this`awaiting
      ensures Valid()
      ensures Client.Settle(Member(), telnetGoroutineHasGoneAway)
           == Client.HearChat(old(Member()), doppelgangerID, m, telnetGoroutineHasGoneAway)
      ensures Heeded(old(Screen()), old(writer.wire), ChatEvent(doppelgangerID, m, text),
                     old(telnetGoroutineHasGoneAway))
      ensures Noticed(old(writer.broken), old(telnetGoroutineHasGoneAway), Overlooks(m))
    {
      Depart(m.d, text);
    }

    /** Of a message whose originator is the user, a failure to erase is overlooked. */
    predicate Overlooks(m: Wire.FromChat)
      reads this
    {
      (m.Said? && m.line.user == userID) || ((m.Notice? || m.Left?) && userID == 0)
    }

    method RefusedByChannel(text: Line)
      requires Valid()
      modifies writer, this`telnetGoroutineHasGoneAway, this`awaiting
      ensures Valid()
      ensures Client.Settle(Member(), telnetGoroutineHasGoneAway)
           == Client.HearChat(old(Member()), doppelgangerID, Wire.Denied, telnetGoroutineHasGoneAway)
      ensures Heeded(old(Screen()), old(writer.wire), DeniedBy(text), old(telnetGoroutineHasGoneAway))
      ensures Noticed(old(writer.broken), old(telnetGoroutineHasGoneAway), false)
    {
      TellUnlessGone(Text("Request to join channel denied: ") + text);
      CountAnswer();
    }

    /** What the terminal shows of a message, but for the prompt that is now due. */
    ghost predicate Heeded(before: Console, wire: Line, e: Event, gone: bool)
      requires Valid() && !e.Key?
      reads this, controlSequence, writer
    {
      && Screen().(promptNeeded := true) == Heard(before, e).c
      && (!gone ==> Wrote(wire, Rendered(before, Heard(before, e).reply)))
    }

    method Connect(c: int, inst: Wire.InstId, name: Line)
      requires Valid()
      modifies this`chatChannelID, this`chatChannelName, this`chatChannelCallback
      ensures Valid() && Screen() == old(Screen()).(room := c, roomName := name)
      ensures Member() == old(Member()).(id := c, link := Some(inst))
    {
      SetChannel(c, name);
      chatChannelCallback := Some(inst);
    }

    method AdmittedByChannel(c: int, inst: Wire.InstId, name: Line)
      requires Valid()
      modifies writer, this`chatChannelID, this`chatChannelName, this`chatChannelCallback, this`awaiting,
               this`telnetGoroutineHasGoneAway, this`cantExitBeforeExitMessageFromChannel
      ensures Valid()
      ensures Client.Settle(Member(), telnetGoroutineHasGoneAway)
           == Client.HearChat(old(Member()), doppelgangerID, Wire.Joined(c, inst), telnetGoroutineHasGoneAway)
      ensures Heeded(old(Screen()), old(writer.wire), JoinedRoom(c, name), old(telnetGoroutineHasGoneAway))
      ensures Noticed(old(writer.broken), old(telnetGoroutineHasGoneAway), false)
    {
      Connect(c, inst, name);
      TellUnlessGone(Text("You have joined #") + name);
      TakeAnswer();
    }

    /** Relays a line; own lines are those of the user himself. */
    method Relay(originator: int, text: Line)
      requires Valid()
      modifies writer, this`backspaceBuffer, this`telnetGoroutineHasGoneAway
      ensures Valid() && Screen() == old(Screen())
      ensures Member() == old(Member()).(gone := telnetGoroutineHasGoneAway)
      ensures old(telnetGoroutineHasGoneAway) ==> telnetGoroutineHasGoneAway
      ensures Wrote(old(writer.wire), Erase(promptLen + cursorColumn) + text + CRLF)
      ensures Noticed(old(writer.broken), old(telnetGoroutineHasGoneAway), originator == userID)
    {
      var shutdown := GenericTextOutput(originator == userID, text);
      if shutdown { telnetGoroutineHasGoneAway := true; }
    }

    /** Someone leaves: somebody else, or this user, who stays connected. */
    method Depart(who: Wire.DopId, text: Line)
      requires Valid() && !(telnetGoroutineHasGoneAway && who == doppelgangerID)
      modifies writer, this`backspaceBuffer, this`telnetGoroutineHasGoneAway, this`chatChannelID, this`chatChannelName,
               this`cantExitBeforeExitMessageFromChannel, this`awaiting
      ensures Valid()
      ensures old(telnetGoroutineHasGoneAway) ==> telnetGoroutineHasGoneAway
      ensures who != doppelgangerID ==>
        Screen() == old(Screen()) && Member() == old(Member()).(gone := telnetGoroutineHasGoneAway)
      ensures who == doppelgangerID ==>
        && Screen() == old(Screen()).(room := 0, roomName := NO_CHANNEL)
        && Member() == Client.Answered(old(Member())).(id := 0, cantExit := false, gone := telnetGoroutineHasGoneAway)
      ensures Wrote(old(writer.wire), Erase(promptLen + cursorColumn) + text + CRLF)
      ensures Noticed(old(writer.broken), old(telnetGoroutineHasGoneAway), userID == 0)
    {
      if who == doppelgangerID { ClearCantExit(); }
      Relay(0, text);
      if who == doppelgangerID {
        SetChannel(0, NO_CHANNEL);
        CountAnswer();
      }
    }

    // ---------------------------------------------------------------- leaving

    /** Whether it is safe to end the goroutine now; if not, what has to happen first is
        under way. */
    method HandleChannelExitProcedure() returns (shutdown: bool, out: Client.Out)
      requires Valid() && !closed
      modifies this`cantExitCount, this`chatChannelID, this`chatChannelName, this`cantExitBeforeExitMessageFromChannel,
               this`awaiting
      ensures Valid()
      ensures old(userID != 0 || chatChannelID == 0) ==>
        var (d, o) := Client.Unwind(old(Member()), doppelgangerID);
        && o == out && d.closed == shutdown
        && Member().(closed := d.closed, unwinding := false) == d
    {
      shutdown, out := false, Client.Nothing;
      if cantExitBeforeExitMessageFromChannel {
        cantExitCount := cantExitCount + 1;
        shutdown := cantExitCount >= Client.PATIENCE;
      } else if userID != 0 && chatChannelID != 0 {
        if chatChannelID != -1 {
          out := Client.ToTheMaster(Wire.Exit(chatChannelID, doppelgangerID));
          awaiting := awaiting + 1;
        }
        LeaveChannel();
      } else {
        shutdown := true;
      }
    }

    /** What follows every select case.  Whoever is on a channel is logged in: LoginIsSound. */
    method EndIteration() returns (out: Client.Out)
      requires Valid() && !closed && unwinding == telnetGoroutineHasGoneAway
      modifies this
      ensures Valid()
      ensures old(userID != 0 || chatChannelID == 0) ==>
        (Member(), out)
           == if old(unwinding) then Client.Unwind(old(Member()), doppelgangerID) else (old(Member()), Client.Nothing)
    {
      out := Client.Nothing;
      if telnetGoroutineHasGoneAway {
        var shutdown;
        shutdown, out := HandleChannelExitProcedure();
        if shutdown { closed := true; }
        unwinding := false;
      }
    }
  }

  /** Struck, as the method goes about it: the byte is edited in, and then acted on. */
  lemma ObeyKeepsGone(d: Client.Dop, me: Wire.DopId, cmd: Client.Command, lost: bool)
    ensures d.gone ==> Client.Obey(d, me, cmd, lost).0.gone
  {
  }

  lemma StruckInParts(c: Console, b: Byte, a: Answers)
    requires KeysOk(c.keys)
    ensures var x := Sift(c.keys.pending, b).1;
      var d := Edited(c, b);
      var l := if Return(x) then Trim(Typed(d.keys)) else [];
      && (Return(x) ==> Echoed(c, x) == [])
      && Struck(c, b, a) == if l == [] then Result(d, Echoed(c, x), Nothing)
         else var s := Submit(d, l, a); Result(s.c.(keys := d.keys.(column := 0)), Rendered(d, s.reply), s.ask)
  {
  }

  lemma RowsSnoc(lines: seq<Line>, init: seq<Line>, last: Line)
    requires lines == init + [last]
    ensures Rows(lines) == Rows(init) + (last + CRLF)
  {
    assert lines[..|lines| - 1] == init;
  }

  lemma RowsOne(text: Line)
    ensures Rows([text]) == text + CRLF
  {
    RowsSnoc([text], [], text);
  }

  /** Backspace, blank, backspace, over and over. */
  ghost predicate Memoised(buffer: seq<Byte>) {
    |buffer| % 3 == 0 && forall k :: 0 <= k < |buffer| ==> buffer[k] == if k % 3 == 1 then SPACE else BS
  }
}
