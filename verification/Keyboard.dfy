/** Keystrokes: the control-sequence automaton and the line buffer of a doppelganger,
    and the simple line editor that they amount to. */
module Keyboard {
  import opened Telnet

  const BS: Byte := 8
  const LF: Byte := 10
  const CR: Byte := 13
  const ESC: Byte := 27
  const SPACE: Byte := 32
  const DEL: Byte := 127

  predicate Return(b: Byte) { b == LF || b == CR }

  predicate White(b: Byte) { b == SPACE || b == 9 || Return(b) }

  function TrimLeft(s: seq<Byte>): seq<Byte> {
    if s != [] && White(s[0]) then TrimLeft(s[1..]) else s
  }

  function TrimRight(s: seq<Byte>): seq<Byte> {
    if s != [] && White(s[|s| - 1]) then TrimRight(s[..|s| - 1]) else s
  }

  function Trim(s: seq<Byte>): seq<Byte> { TrimRight(TrimLeft(s)) }

  // ------------------------------------------------------------------ as the code does it

  /** controlSequence up to ctrlSeqPosition, lineBuffer, cursorColumn.  What lies beyond
      the cursor is stale. */
  datatype Keys = Keys(pending: seq<Byte>, buffer: seq<Byte>, column: nat)

  const NO_KEYS := Keys([], [], 0)

  predicate KeysOk(k: Keys) {
    |k.pending| < 3 && (k.pending != [] ==> k.pending[0] == ESC) && k.column <= |k.buffer|
  }

  /** ^C and ^D end the connection and count for nothing else; DEL is a backspace. */
  function Plain(b: Byte): Byte {
    if b == 3 || b == 4 then 0 else if b == DEL then BS else b
  }

  /** The control sequence after byte b, and the byte to act on, 0 for none. */
  function Sift(pending: seq<Byte>, b: Byte): (r: (seq<Byte>, Byte)) {
    var c := Plain(b);
    if pending != [] then
      var s := pending + [c];
      if |s| == 3 then ([], if s == [ESC, 91, 68] then BS else 0) else (s, 0)
    else if c == ESC then ([ESC], 0)
    else ([], if c < 32 && !Return(c) && c != BS then 0 else c)
  }

  function Edit(k: Keys, c: Byte): Keys {
    if c == BS then k.(column := if k.column == 0 then 0 else k.column - 1)
    else if c < 32 then k
    else if k.column < |k.buffer| then k.(buffer := k.buffer[k.column := c], column := k.column + 1)
    else k.(buffer := k.buffer + [c], column := |k.buffer| + 1)
  }

  function Typed(k: Keys): seq<Byte>
    requires KeysOk(k)
  {
    k.buffer[..k.column]
  }

  /** One byte: the state after it and the command dispatched, [] for none. */
  function Press(k: Keys, b: Byte): (r: (Keys, seq<Byte>))
    requires KeysOk(k)
    ensures KeysOk(r.0)
  {
    var (pending, c) := Sift(k.pending, b);
    var e := Edit(k, c).(pending := pending);
    var command := if Return(c) then Trim(Typed(e)) else [];
    (if command != [] then e.(column := 0) else e, command)
  }

  function Commands(k: Keys, bytes: seq<Byte>): seq<seq<Byte>>
    requires KeysOk(k)
    decreases |bytes|
  {
    if bytes == [] then []
    else
      var (l, command) := Press(k, bytes[0]);
      (if command != [] then [command] else []) + Commands(l, bytes[1..])
  }

  // ------------------------------------------------------------------ as it is meant

  /** A line editor: control sequences are ESC and two more bytes, of which the left
      arrow erases; a return ends the line, and blank lines are nothing. */
  function Lines(bytes: seq<Byte>, stack: seq<Byte>): seq<seq<Byte>> {
    if bytes == [] then []
    else if bytes[0] == 27 then
      if |bytes| < 3 then []
      else Lines(bytes[3..], if bytes[1] == 91 && bytes[2] == 68 then Pop(stack) else stack)
    else if bytes[0] == 8 || bytes[0] == 127 then Lines(bytes[1..], Pop(stack))
    else if bytes[0] == 10 || bytes[0] == 13 then
      (if Trim(stack) != [] then [Trim(stack)] else []) + Lines(bytes[1..], [])
    else if bytes[0] < 32 then Lines(bytes[1..], stack)
    else Lines(bytes[1..], stack + [bytes[0]])
  }

  function Pop(stack: seq<Byte>): seq<Byte> {
    if stack == [] then [] else stack[..|stack| - 1]
  }

  // ------------------------------------------------------------------ the same

  predicate Blank(s: seq<Byte>) { forall k :: 0 <= k < |s| ==> White(s[k]) }

  lemma {:induction false} TrimBlank(w: seq<Byte>, s: seq<Byte>)
    requires Blank(w)
    ensures Trim(w + s) == Trim(s)
  {
    if w == [] {
      assert w + s == s;
    } else {
      assert (w + s)[1..] == w[1..] + s;
      TrimBlank(w[1..], s);
    }
  }

  lemma {:induction false} TrimRightKeeps(s: seq<Byte>)
    requires s != [] && !White(s[0])
    ensures TrimRight(s) != [] && TrimRight(s)[0] == s[0]
  {
    if White(s[|s| - 1]) { TrimRightKeeps(s[..|s| - 1]); }
  }

  /** A blank, a tab, a line feed or a carriage return. */
  predicate Margin(b: Byte) { b == 32 || b == 9 || b == 10 || b == 13 }

  predicate Margins(s: seq<Byte>) { forall k :: 0 <= k < |s| ==> Margin(s[k]) }

  /** Neither begins nor ends in one. */
  predicate Tight(s: seq<Byte>) { s != [] ==> !Margin(s[0]) && !Margin(s[|s| - 1]) }

  lemma {:induction false} TrimLeftParts(s: seq<Byte>) returns (w: seq<Byte>)
    ensures s == w + TrimLeft(s) && Margins(w) && (TrimLeft(s) != [] ==> !Margin(TrimLeft(s)[0]))
  {
    w := [];
    if s != [] && White(s[0]) {
      var v := TrimLeftParts(s[1..]);
      w := [s[0]] + v;
      assert s == [s[0]] + s[1..];
    }
  }

  lemma {:induction false} TrimRightParts(s: seq<Byte>) returns (w: seq<Byte>)
    ensures s == TrimRight(s) + w && Margins(w)
    ensures TrimRight(s) != [] ==> !Margin(TrimRight(s)[|TrimRight(s)| - 1]) && TrimRight(s)[0] == s[0]
  {
    w := [];
    if s != [] && White(s[|s| - 1]) {
      var v := TrimRightParts(s[..|s| - 1]);
      w := v + [s[|s| - 1]];
      assert s == s[..|s| - 1] + [s[|s| - 1]];
    }
  }

  /** Trimming takes the margins off, and nothing else. */
  lemma TrimParts(s: seq<Byte>) returns (left: seq<Byte>, right: seq<Byte>)
    ensures s == left + Trim(s) + right && Margins(left) && Margins(right) && Tight(Trim(s))
  {
    left := TrimLeftParts(s);
    right := TrimRightParts(TrimLeft(s));
  }

  /** There is only one way to do that. */
  lemma {:induction false} OneTrim(left: seq<Byte>, s: seq<Byte>, right: seq<Byte>)
    requires Margins(left) && Margins(right) && Tight(s)
    ensures Trim(left + s + right) == s
  {
    TrimBlank(left, s + right);
    assert left + s + right == left + (s + right);
    if s == [] {
      assert s + right == right;
      TrimmedAway(right);
    } else {
      assert (s + right)[0] == s[0];
      TrimTail(s, right);
    }
  }

  lemma {:induction false} TrimTail(s: seq<Byte>, right: seq<Byte>)
    requires Margins(right) && s != [] && !Margin(s[|s| - 1])
    ensures TrimRight(s + right) == s
  {
    if right == [] {
      assert s + right == s;
    } else {
      assert (s + right)[..|s + right| - 1] == s + right[..|right| - 1];
      TrimTail(s, right[..|right| - 1]);
    }
  }

  lemma {:induction false} TrimmedAway(s: seq<Byte>)
    ensures Trim(s) == [] <==> Blank(s)
  {
    if s != [] {
      if White(s[0]) {
        TrimmedAway(s[1..]);
        assert s == [s[0]] + s[1..];
      } else {
        TrimRightKeeps(s);
      }
    }
  }

  /** The buffer up to the cursor holds blanks left over from blank lines, and the line. */
  ghost predicate Holds(k: Keys, w: seq<Byte>, stack: seq<Byte>) {
    KeysOk(k) && k.pending == [] && Blank(w) && Typed(k) == w + stack
  }

  /** Editing is what it is meant to be, to the left of the cursor. */
  lemma EditTyped(k: Keys, c: Byte)
    requires KeysOk(k)
    ensures KeysOk(Edit(k, c))
    ensures Typed(Edit(k, c)) == if c == BS then Pop(Typed(k)) else if c < 32 then Typed(k) else Typed(k) + [c]
  {
  }

  lemma PopBehind(w: seq<Byte>, stack: seq<Byte>)
    requires Blank(w)
    ensures Pop(w + stack) == if stack == [] then Pop(w) else w + Pop(stack)
    ensures Blank(Pop(w))
  {
    if stack == [] {
      assert w + stack == w;
    } else {
      assert Pop(w + stack) == w + Pop(stack);
    }
  }

  /** A control sequence of three bytes, pressed one by one. */
  lemma PressTriple(k: Keys, x: Byte, y: Byte)
    requires KeysOk(k) && k.pending == []
    ensures var l := Press(Press(k, ESC).0, x).0;
      && Press(k, ESC).1 == [] && Press(Press(k, ESC).0, x).1 == []
      && Press(l, y) == (if x == 91 && y == 68 then Edit(k, BS) else k, [])
  {
    assert [ESC] + [Plain(x)] == [ESC, Plain(x)];
    assert [ESC, Plain(x)] + [Plain(y)] == [ESC, Plain(x), Plain(y)];
  }

  lemma CommandsOfTriple(k: Keys, bytes: seq<Byte>)
    requires KeysOk(k) && k.pending == [] && bytes != [] && bytes[0] == ESC
    ensures
      if |bytes| < 3 then Commands(k, bytes) == []
      else Commands(k, bytes) == Commands(if bytes[1] == 91 && bytes[2] == 68 then Edit(k, BS) else k, bytes[3..])
  {
    var k1 := Press(k, ESC).0;
    CommandsFirst(k, bytes);
    if 1 < |bytes| {
      assert [ESC] + [Plain(bytes[1])] == [ESC, Plain(bytes[1])];
      var k2 := Press(k1, bytes[1]).0;
      CommandsFirst(k1, bytes[1..]);
      assert bytes[1..][1..] == bytes[2..];
      assert Commands(k, bytes) == Commands(k2, bytes[2..]);
      if 2 < |bytes| {
        PressTriple(k, bytes[1], bytes[2]);
        CommandsFirst(k2, bytes[2..]);
        assert bytes[2..][1..] == bytes[3..];
      } else {
        assert Commands(k2, bytes[2..]) == [];
      }
    } else {
      assert Commands(k1, bytes[1..]) == [];
    }
  }

  lemma CommandsFirst(k: Keys, bytes: seq<Byte>)
    requires KeysOk(k) && bytes != [] && Press(k, bytes[0]).1 == []
    ensures Commands(k, bytes) == Commands(Press(k, bytes[0]).0, bytes[1..])
  {
    NothingBefore(Commands(Press(k, bytes[0]).0, bytes[1..]));
  }

  lemma NothingBefore(lines: seq<seq<Byte>>)
    ensures [] + lines == lines
  {
  }

  /** The commands dispatched are those of the simple line editor, for every stream of
      bytes: stale bytes past the cursor and blank lines left in the buffer never show. */
  lemma {:induction false} EditorRefinesLines(k: Keys, bytes: seq<Byte>, w: seq<Byte>, stack: seq<Byte>)
    requires Holds(k, w, stack)
    ensures Commands(k, bytes) == Lines(bytes, stack)
    decreases |bytes|
  {
    if bytes != [] {
      PopBehind(w, stack);
      EditTyped(k, BS);
      if bytes[0] == ESC {
        CommandsOfTriple(k, bytes);
        if 3 <= |bytes| {
          if bytes[1] == 91 && bytes[2] == 68 {
            EditorRefinesLines(Edit(k, BS), bytes[3..], if stack == [] then Pop(w) else w, Pop(stack));
          } else {
            EditorRefinesLines(k, bytes[3..], w, stack);
          }
        }
      } else {
        EditorStep(k, bytes, w, stack);
      }
    }
  }

  lemma {:induction false} EditorStep(k: Keys, bytes: seq<Byte>, w: seq<Byte>, stack: seq<Byte>)
    requires Holds(k, w, stack) && bytes != [] && bytes[0] != ESC
    ensures Commands(k, bytes) == Lines(bytes, stack)
    decreases |bytes|, 0
  {
    var b, rest := bytes[0], bytes[1..];
    var l := Press(k, b).0;
    if b == BS || b == DEL {
      PopBehind(w, stack);
      EditTyped(k, BS);
      EditorRefinesLines(l, rest, if stack == [] then Pop(w) else w, Pop(stack));
    } else if Return(b) {
      TrimBlank(w, stack);
      TrimmedAway(w + stack);
      assert w + [] == w && (w + stack) + [] == w + stack;
      EditorRefinesLines(l, rest, if Trim(stack) == [] then w + stack else [], []);
    } else if b < 32 {
      EditorRefinesLines(l, rest, w, stack);
    } else {
      EditTyped(k, b);
      assert w + (stack + [b]) == (w + stack) + [b];
      EditorRefinesLines(l, rest, w, stack + [b]);
    }
  }

  /** From a fresh connection on. */
  lemma EditorIsLineEditor(bytes: seq<Byte>)
    ensures Commands(NO_KEYS, bytes) == Lines(bytes, [])
  {
    EditorRefinesLines(NO_KEYS, bytes, [], []);
  }

  /** A line of other than control characters, and a return: one line is dispatched, and
      that is what is between its margins. */
  lemma {:induction false} LinesOfLine(stack: seq<Byte>, s: seq<Byte>, b: Byte, bytes: seq<Byte>)
    requires (b == 10 || b == 13) && forall k :: 0 <= k < |s| ==> 32 <= s[k] && s[k] != 127
    ensures Lines(s + [b] + bytes, stack)
         == (if Trim(stack + s) != [] then [Trim(stack + s)] else []) + Lines(bytes, [])
    decreases |s|
  {
    var all := s + [b] + bytes;
    if s == [] {
      assert all[1..] == bytes && stack + s == stack;
    } else {
      assert all[1..] == s[1..] + [b] + bytes;
      assert stack + [s[0]] + s[1..] == stack + s;
      LinesOfLine(stack + [s[0]], s[1..], b, bytes);
    }
  }

  /** Typing a line at a fresh connection, and whatever follows. */
  lemma LineIsDispatched(left: seq<Byte>, s: seq<Byte>, right: seq<Byte>, b: Byte, bytes: seq<Byte>)
    requires b == 10 || b == 13
    requires Margins(left) && Margins(right) && Tight(s) && s != []
    requires forall k :: 0 <= k < |left + s + right| ==> 32 <= (left + s + right)[k] && (left + s + right)[k] != 127
    ensures Commands(NO_KEYS, left + s + right + [b] + bytes) == [s] + Commands(NO_KEYS, bytes)
  {
    var l := left + s + right;
    EditorIsLineEditor(l + [b] + bytes);
    EditorIsLineEditor(bytes);
    LinesOfLine([], l, b, bytes);
    OneTrim(left, s, right);
    assert [] + l == l;
  }
}
