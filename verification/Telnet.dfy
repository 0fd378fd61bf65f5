/** The TELNET data codec as a function: RFC 854, section "TELNET COMMAND STRUCTURE",
    and, inside subnegotiation, RFC 855. */
module Telnet {
  import opened Options

  type Byte = b: int | 0 <= b < 256

  const IAC: Byte := 255
  const SB: Byte := 250
  const SE: Byte := 240
  const WILL: Byte := 251
  const WONT: Byte := 252
  const DO: Byte := 253
  const DONT: Byte := 254

  predicate Verb(b: Byte) { b == WILL || b == WONT || b == DO || b == DONT }

  datatype Error = Eof | Corrupted

  // ------------------------------------------------------------------ decoding

  /** The next thing in a stream: a data byte, a command, or why there is neither. */
  datatype Item =
    | Data(b: Byte, rest: seq<Byte>)
    | Command(rest: seq<Byte>)
    | End(err: Error, rest: seq<Byte>)

  /** Skip to behind IAC SE.  A doubled IAC is parameter data, and so is the IAC of any
      other pair.  None: the stream ends first. */
  function SkipSub(s: seq<Byte>): (r: Option<seq<Byte>>)
    ensures r.Some? ==> |r.value| < |s|
  {
    if s == [] then None
    else if s[0] != IAC then SkipSub(s[1..])
    else if |s| == 1 then None
    else if s[1] == IAC then SkipSub(s[2..])
    else if s[1] == SE then Some(s[2..])
    else SkipSub(s[1..])
  }

  function Next(s: seq<Byte>): (it: Item)
    ensures s != [] ==> |it.rest| < |s|
  {
    if s == [] then End(Eof, [])
    else if s[0] != IAC then Data(s[0], s[1..])
    else if |s| == 1 then End(Eof, [])
    else if Verb(s[1]) then (if |s| == 2 then End(Eof, []) else Command(s[3..]))
    else if s[1] == IAC then Data(IAC, s[2..])
    else if s[1] == SB then
      match SkipSub(s[1..]) case None => End(Eof, []) case Some(rest) => Command(rest)
    else if s[1] == SE then Command(s[2..])
    else End(Corrupted, s[1..])
  }

  /** The data up to a limit, what is left of the stream, and the error met before the
      limit, if any. */
  datatype Decoded = Decoded(data: seq<Byte>, rest: seq<Byte>, err: Option<Error>)

  /** Decode at most n data bytes. */
  function Decode(s: seq<Byte>, n: nat): (r: Decoded)
    ensures |r.data| <= n && (r.err.None? <==> |r.data| == n)
    decreases |s|, n
  {
    if n == 0 then Decoded([], s, None)
    else if s == [] then Decoded([], [], Some(Eof))
    else match Next(s)
      case Data(b, rest) => var r := Decode(rest, n - 1); r.(data := [b] + r.data)
      case Command(rest) => Decode(rest, n)
      case End(err, rest) => Decoded([], rest, Some(err))
  }

  /** Decode to the first error, whatever the length. */
  function DecodeAll(s: seq<Byte>): (r: Decoded)
    ensures r.err.Some?
    decreases |s|
  {
    if s == [] then Decoded([], [], Some(Eof))
    else match Next(s)
      case Data(b, rest) => var r := DecodeAll(rest); r.(data := [b] + r.data)
      case Command(rest) => DecodeAll(rest)
      case End(err, rest) => Decoded([], rest, Some(err))
  }

  /** Successive reads into buffers of the given sizes, until one reports an error. */
  function Reads(s: seq<Byte>, sizes: seq<nat>): Decoded
    decreases |sizes|
  {
    if sizes == [] then Decoded([], s, None)
    else
      var r := Decode(s, sizes[0]);
      if r.err.Some? then r
      else var t := Reads(r.rest, sizes[1..]); t.(data := r.data + t.data)
  }

  function Sum(sizes: seq<nat>): nat {
    if sizes == [] then 0 else sizes[0] + Sum(sizes[1..])
  }

  lemma DecodeOne(s: seq<Byte>, m: nat, b: Byte, rest: seq<Byte>)
    requires s != [] && 0 < m && Next(s) == Data(b, rest)
    ensures Decode(s, m) == (var r := Decode(rest, m - 1); r.(data := [b] + r.data))
  {
  }

  ghost predicate Splits(s: seq<Byte>, m: nat, n: nat) {
    var r, whole := Decode(s, m), Decode(s, m + n);
    if r.err.Some? then whole == r else var t := Decode(r.rest, n); whole == t.(data := r.data + t.data)
  }

  lemma SplitsAfter(s: seq<Byte>, m: nat, n: nat, b: Byte, rest: seq<Byte>)
    requires s != [] && 0 < m && Next(s) == Data(b, rest) && Splits(rest, m - 1, n)
    ensures Splits(s, m, n)
  {
    DecodeOne(s, m, b, rest);
    DecodeOne(s, m + n, b, rest);
    var r := Decode(rest, m - 1);
    if r.err.None? {
      var t := Decode(r.rest, n);
      assert [b] + (r.data + t.data) == ([b] + r.data) + t.data;
    }
  }

  lemma {:induction false} DecodeSplits(s: seq<Byte>, m: nat, n: nat)
    ensures Splits(s, m, n)
    decreases |s|, m
  {
    if m == 0 {
      assert [] + Decode(s, n).data == Decode(s, n).data;
    } else if s != [] {
      match Next(s)
      case Data(b, rest) =>
        DecodeSplits(rest, m - 1, n);
        SplitsAfter(s, m, n, b, rest);
      case Command(rest) => DecodeSplits(rest, m, n);
      case End(_, _) =>
    }
  }

  /** However a stream is cut into reads, they deliver the same bytes, meet the same
      error and leave the same remainder. */
  lemma {:induction false} ReadsAreOneRead(s: seq<Byte>, sizes: seq<nat>)
    ensures Reads(s, sizes) == Decode(s, Sum(sizes))
    decreases |sizes|
  {
    if sizes != [] {
      DecodeSplits(s, sizes[0], Sum(sizes[1..]));
      ReadsAreOneRead(Decode(s, sizes[0]).rest, sizes[1..]);
    }
  }

  /** A limited decode is a prefix of the full one; once it meets the error it is all of it. */
  lemma {:induction false} DecodeIsPrefix(s: seq<Byte>, n: nat)
    ensures if n <= |DecodeAll(s).data|
            then Decode(s, n).data == DecodeAll(s).data[..n]
            else Decode(s, n) == DecodeAll(s)
    decreases |s|, n
  {
    if n != 0 && s != [] {
      match Next(s)
      case Data(b, rest) => DecodeIsPrefix(rest, n - 1);
      case Command(rest) => DecodeIsPrefix(rest, n);
      case End(_, _) =>
    }
  }

  /** So reading a stream to its first error, in any pieces, is the full decode. */
  lemma ReadsToTheEnd(s: seq<Byte>, sizes: seq<nat>)
    requires |DecodeAll(s).data| < Sum(sizes)
    ensures Reads(s, sizes) == DecodeAll(s)
  {
    ReadsAreOneRead(s, sizes);
    DecodeIsPrefix(s, Sum(sizes));
  }

  // ------------------------------------------------------------------ encoding

  /** Every IAC in data is doubled. */
  function Escape(data: seq<Byte>): seq<Byte> {
    if data == [] then [] else (if data[0] == IAC then [IAC, IAC] else [data[0]]) + Escape(data[1..])
  }

  /** What the parameters of a subnegotiation are made of: other bytes, the doubled IAC, and
      what the standard does not provide for, an IAC and another byte that is not SE. */
  datatype Piece = Single(b: Byte) | Doubled | Odd(b: Byte)

  predicate PieceOk(p: Piece) {
    match p
    case Single(b) => b != 255
    case Doubled => true
    case Odd(b) => b != 255 && b != 240
  }

  predicate PiecesOk(ps: seq<Piece>) { forall k :: 0 <= k < |ps| ==> PieceOk(ps[k]) }

  function EncodePieces(ps: seq<Piece>): seq<Byte> {
    if ps == [] then []
    else
      (match ps[0]
       case Single(b) => [b]
       case Doubled => [255, 255]
       case Odd(b) => [255, b])
      + EncodePieces(ps[1..])
  }

  /** What a peer puts into the stream. */
  datatype Token =
    | Datum(b: Byte)
    | Negotiation(verb: Byte, option: Byte)
    | Subnegotiation(pieces: seq<Piece>)
    | StrayEnd                                // the end of a subnegotiation, without one

  predicate TokenOk(t: Token) {
    match t
    case Negotiation(verb, _) => 251 <= verb <= 254
    case Subnegotiation(pieces) => PiecesOk(pieces)
    case _ => true
  }

  predicate Wellformed(ts: seq<Token>) { forall k :: 0 <= k < |ts| ==> TokenOk(ts[k]) }

  function EncodeToken(t: Token): seq<Byte> {
    match t
    case Datum(b) => if b == 255 then [255, 255] else [b]
    case Negotiation(verb, option) => [255, verb, option]
    case Subnegotiation(pieces) => [255, 250] + EncodePieces(pieces) + [255, 240]
    case StrayEnd => [255, 240]
  }

  function Encode(ts: seq<Token>): seq<Byte> {
    if ts == [] then [] else EncodeToken(ts[0]) + Encode(ts[1..])
  }

  /** The data among the tokens. */
  function Payload(ts: seq<Token>): seq<Byte> {
    if ts == [] then [] else (if ts[0].Datum? then [ts[0].b] else []) + Payload(ts[1..])
  }

  /** How a stream can end, or be broken off. */
  datatype Ending =
    | Whole
    | Cut                                      // in the middle of a command
    | CutVerb(verb: Byte)
    | CutSub(pieces: seq<Piece>, half: bool)   // in a subnegotiation, behind half a pair or not
    | Garbled(b: Byte, rest: seq<Byte>)        // what is no command: a stream may go on

  predicate EndingOk(e: Ending) {
    match e
    case CutVerb(verb) => 251 <= verb <= 254
    case CutSub(pieces, _) => PiecesOk(pieces)
    case Garbled(b, _) => b < 240 || 240 < b < 250
    case _ => true
  }

  function EncodeEnding(e: Ending): seq<Byte> {
    match e
    case Whole => []
    case Cut => [255]
    case CutVerb(verb) => [255, verb]
    case CutSub(pieces, half) => [255, 250] + EncodePieces(pieces) + (if half then [255] else [])
    case Garbled(b, rest) => [255, b] + rest
  }

  lemma Regroup(a: seq<Byte>, b: seq<Byte>, c: seq<Byte>)
    ensures (a + b) + c == a + (b + c)
  {
  }

  /** Behind the parameters. */
  lemma {:induction false} SkipPieces(ps: seq<Piece>, tail: seq<Byte>)
    requires PiecesOk(ps)
    ensures SkipSub(EncodePieces(ps) + tail) == SkipSub(tail)
  {
    if ps == [] {
      assert EncodePieces(ps) + tail == tail;
    } else {
      SkipPieces(ps[1..], tail);
      SkipPiece(ps[0], EncodePieces(ps[1..]) + tail);
      Regroup(EncodePieces([ps[0]]), EncodePieces(ps[1..]), tail);
      EncodeOnePiece(ps);
    }
  }

  lemma EncodeOnePiece(ps: seq<Piece>)
    requires ps != []
    ensures EncodePieces(ps) == EncodePieces([ps[0]]) + EncodePieces(ps[1..])
  {
    var one := [ps[0]];
    assert one[1..] == [] && EncodePieces(one[1..]) == [];
  }

  lemma SkipPiece(p: Piece, t: seq<Byte>)
    requires PieceOk(p)
    ensures SkipSub(EncodePieces([p]) + t) == SkipSub(t)
  {
    var one := [p];
    var code := EncodePieces(one);
    assert one[1..] == [] && EncodePieces(one[1..]) == [];
    var s := code + t;
    match p
    case Single(b) =>
      assert code == [b];
      assert s[1..] == t;
    case Doubled =>
      assert code == [255, 255];
      assert s[2..] == t;
    case Odd(b) =>
      assert code == [255, b];
      assert s[1..] == [b] + t;
      assert s[1..][1..] == t;
  }

  /** One token at the head of a stream is read as just that token. */
  lemma NextOfToken(t: Token, s: seq<Byte>)
    requires TokenOk(t)
    ensures Next(EncodeToken(t) + s) == if t.Datum? then Data(t.b, s) else Command(s)
  {
    var e := EncodeToken(t) + s;
    match t
    case Datum(b) => assert e == (if b == 255 then [255, 255] else [b]) + s;
                     assert e[1..] == (if b == 255 then [255] + s else s) && (b == 255 ==> e[2..] == s);
    case Negotiation(_, _) => assert e[3..] == s;
    case Subnegotiation(ps) => NextOfSubnegotiation(ps, s);
    case StrayEnd => assert e[2..] == s;
  }

  lemma NextOfSubnegotiation(ps: seq<Piece>, s: seq<Byte>)
    requires PiecesOk(ps)
    ensures Next(EncodeToken(Subnegotiation(ps)) + s) == Command(s)
  {
    var e := EncodeToken(Subnegotiation(ps)) + s;
    var tail := [255, 240] + s;
    assert e[1..] == [250] + (EncodePieces(ps) + tail) && e[1..][1..] == EncodePieces(ps) + tail;
    SkipPieces(ps, tail);
    assert tail[2..] == s;
  }

  /** Data put in front of what is decoded. */
  function Prepend(data: seq<Byte>, r: Decoded): (p: Decoded)
    ensures data == [] ==> p == r
  {
    r.(data := data + r.data)
  }

  lemma PrependTwice(a: seq<Byte>, b: seq<Byte>, r: Decoded)
    ensures Prepend(a, Prepend(b, r)) == Prepend(a + b, r)
  {
    assert a + (b + r.data) == (a + b) + r.data;
  }

  lemma DecodeToken(t: Token, s: seq<Byte>)
    requires TokenOk(t)
    ensures DecodeAll(EncodeToken(t) + s) == Prepend(if t.Datum? then [t.b] else [], DecodeAll(s))
  {
    NextOfToken(t, s);
    assert EncodeToken(t) + s != [];
  }

  /** Round trip: what is decoded from any well-formed stream is exactly its data. */
  lemma {:induction false} TokensRoundTrip(ts: seq<Token>, tail: seq<Byte>)
    requires Wellformed(ts)
    ensures DecodeAll(Encode(ts) + tail) == Prepend(Payload(ts), DecodeAll(tail))
  {
    if ts == [] {
      assert Encode(ts) + tail == tail;
    } else {
      var s := Encode(ts[1..]) + tail;
      assert Encode(ts) + tail == EncodeToken(ts[0]) + s;
      DecodeToken(ts[0], s);
      TokensRoundTrip(ts[1..], tail);
      PrependTwice(if ts[0].Datum? then [ts[0].b] else [], Payload(ts[1..]), DecodeAll(tail));
    }
  }

  /** The tokens of plain data. */
  function Plain(data: seq<Byte>): seq<Token> {
    if data == [] then [] else [Datum(data[0])] + Plain(data[1..])
  }

  lemma {:induction false} PlainEncoding(data: seq<Byte>)
    ensures Wellformed(Plain(data)) && Encode(Plain(data)) == Escape(data) && Payload(Plain(data)) == data
  {
    if data != [] {
      PlainEncoding(data[1..]);
      assert Plain(data)[1..] == Plain(data[1..]);
    }
  }

  // ------------------------------------------------------------------ every stream

  lemma NextOfCutSub(ps: seq<Piece>, half: bool)
    requires PiecesOk(ps)
    ensures Next(EncodeEnding(CutSub(ps, half))) == End(Eof, [])
  {
    var e := EncodeEnding(CutSub(ps, half));
    var tail: seq<Byte> := if half then [255] else [];
    assert e[1..] == [250] + (EncodePieces(ps) + tail) && e[1..][1..] == EncodePieces(ps) + tail;
    SkipPieces(ps, tail);
  }

  /** What a stream ends in: nothing more is delivered, and what is no command is reported
      and left to be read, from the byte behind the IAC on. */
  lemma EndingIsReported(e: Ending)
    requires EndingOk(e)
    ensures DecodeAll(EncodeEnding(e))
         == if e.Garbled? then Decoded([], [e.b] + e.rest, Some(Corrupted)) else Decoded([], [], Some(Eof))
  {
    match e
    case CutSub(ps, half) => NextOfCutSub(ps, half);
    case Garbled(b, rest) => assert EncodeEnding(e)[1..] == [b] + rest;
    case _ =>
  }

  /** What any stream is decoded to, by what it is made of. */
  lemma StreamsAreDecoded(ts: seq<Token>, e: Ending)
    requires Wellformed(ts) && EndingOk(e)
    ensures DecodeAll(Encode(ts) + EncodeEnding(e))
         == if e.Garbled? then Decoded(Payload(ts), [e.b] + e.rest, Some(Corrupted))
            else Decoded(Payload(ts), [], Some(Eof))
  {
    TokensRoundTrip(ts, EncodeEnding(e));
    EndingIsReported(e);
    assert Payload(ts) + [] == Payload(ts);
  }

  /** The parameters at the head of a stream, up to IAC SE or the end. */
  lemma {:induction false} ParsePieces(s: seq<Byte>) returns (ps: seq<Piece>, tail: seq<Byte>)
    ensures PiecesOk(ps) && s == EncodePieces(ps) + tail
    ensures tail == [] || tail == [255] || (2 <= |tail| && tail[..2] == [255, 240])
    decreases |s|
  {
    if s == [] || s == [255] || (2 <= |s| && s[..2] == [255, 240]) {
      ps, tail := [], s;
      assert s == EncodePieces([]) + s;
    } else {
      var p := if s[0] != 255 then Single(s[0]) else if s[1] == 255 then Doubled else Odd(s[1]);
      var n := if s[0] != 255 then 1 else 2;
      var rest;
      rest, tail := ParsePieces(s[n..]);
      ps := [p] + rest;
      assert ps[1..] == rest && EncodePieces(ps) == s[..n] + EncodePieces(rest);
      Regroup(s[..n], EncodePieces(rest), tail);
      assert s == s[..n] + s[n..];
    }
  }

  /** The first token of a stream, if it does not end before. */
  lemma ParseToken(s: seq<Byte>) returns (t: Token, rest: seq<Byte>, e: Ending, ended: bool)
    requires s != []
    ensures ended ==> EndingOk(e) && s == EncodeEnding(e)
    ensures !ended ==> TokenOk(t) && s == EncodeToken(t) + rest && |rest| < |s|
  {
    t, rest, e, ended := Datum(s[0]), s[1..], Whole, false;
    if s[0] != 255 { return; }
    if |s| == 1 { e, ended := Cut, true; return; }
    if s[1] == 250 {
      var ps, tail := ParsePieces(s[2..]);
      assert s == [255, 250] + s[2..];
      if 2 <= |tail| {
        assert tail == [255, 240] + tail[2..];
        t, rest := Subnegotiation(ps), tail[2..];
        assert s == EncodeToken(t) + rest;
      } else {
        e, ended := CutSub(ps, tail != []), true;
        assert s == EncodeEnding(e);
      }
      return;
    }
    if 251 <= s[1] <= 254 {
      if |s| == 2 { e, ended := CutVerb(s[1]), true; return; }
      t, rest := Negotiation(s[1], s[2]), s[3..];
      return;
    }
    rest := s[2..];
    if s[1] == 255 { return; }
    t := StrayEnd;
    if s[1] == 240 { return; }
    e, ended := Garbled(s[1], s[2..]), true;
  }

  /** And every stream is made of that, so that there is nothing else to say about it. */
  lemma {:induction false} EveryStream(s: seq<Byte>) returns (ts: seq<Token>, e: Ending)
    ensures Wellformed(ts) && EndingOk(e) && s == Encode(ts) + EncodeEnding(e)
    decreases |s|
  {
    ts, e := [], Whole;
    if s != [] {
      var t, rest, end, ended := ParseToken(s);
      if ended {
        e := end;
      } else {
        var more;
        more, e := EveryStream(rest);
        ts := [t] + more;
        assert ts[1..] == more;
        Regroup(EncodeToken(t), Encode(more), EncodeEnding(e));
      }
    }
  }

  /** In particular an IAC and what is no command stop the reader in data otherwise in order. */
  lemma GarbledStops(data: seq<Byte>, b: Byte, tail: seq<Byte>)
    requires b !in {240, 250, 251, 252, 253, 254, 255}
    ensures DecodeAll(Escape(data) + [255, b] + tail) == Decoded(data, [b] + tail, Some(Corrupted))
  {
    PlainEncoding(data);
    StreamsAreDecoded(Plain(data), Garbled(b, tail));
    assert Escape(data) + [255, b] + tail == Encode(Plain(data)) + EncodeEnding(Garbled(b, tail));
  }

  /** decode(escape(d)) == d, and the stream is used up. */
  lemma {:induction false} EscapeRoundTrip(data: seq<Byte>)
    ensures DecodeAll(Escape(data)) == Decoded(data, [], Some(Eof))
  {
    PlainEncoding(data);
    TokensRoundTrip(Plain(data), []);
    assert Escape(data) + [] == Escape(data);
    assert data + [] == data;
  }

  lemma {:induction false} EscapeConcat(a: seq<Byte>, b: seq<Byte>)
    ensures Escape(a + b) == Escape(a) + Escape(b)
  {
    if a == [] {
      assert a + b == b;
    } else {
      assert (a + b)[1..] == a[1..] + b;
      EscapeConcat(a[1..], b);
    }
  }

  lemma {:induction false} EscapePlain(data: seq<Byte>)
    requires IAC !in data
    ensures Escape(data) == data
  {
    if data != [] {
      EscapePlain(data[1..]);
      assert data == [data[0]] + data[1..];
    }
  }

  /** Decoding never lengthens, and shortens when there is an IAC. */
  lemma {:induction false} DecodeShortens(s: seq<Byte>)
    ensures |DecodeAll(s).data| <= |s|
    ensures IAC in s ==> |DecodeAll(s).data| < |s|
    decreases |s|
  {
    if s != [] {
      match Next(s)
      case Data(_, rest) => DecodeShortens(rest); assert s == [s[0]] + s[1..];
      case Command(rest) => DecodeShortens(rest);
      case End(_, _) =>
    }
  }

  /** Bytes passed through unescaped are read back as they were exactly when there is no
      IAC among them. */
  lemma UnescapedRoundTripExactly(data: seq<Byte>)
    ensures DecodeAll(data).data == data <==> IAC !in data
  {
    if IAC in data {
      DecodeShortens(data);
    } else {
      EscapePlain(data);
      EscapeRoundTrip(data);
    }
  }
}
