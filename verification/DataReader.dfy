/** The reader of the TELNET codec: un-escapes in place, from a buffered stream. */
module DataReader {
  import opened Options
  import opened Telnet

  /** The buffered reader underneath, as far as the codec uses it: the bytes that are
      still to come before the end of the stream. */
  class BufferedReader {
    var stream: seq<Byte>

    constructor (bytes: seq<Byte>)
      ensures stream == bytes
    {
      stream := bytes;
    }

    method ReadByte() returns (b: Byte, err: Option<Error>)
      modifies this
      ensures old(stream) == [] ==> err == Some(Eof) && stream == []
      ensures old(stream) != [] ==> err == None && b == old(stream)[0] && stream == old(stream)[1..]
    {
      if stream == [] { return 0, Some(Eof); }
      b, err, stream := stream[0], None, stream[1..];
    }

    /** The next byte, left where it is. */
    method Peek() returns (b: Byte, err: Option<Error>)
      ensures stream == [] ==> err == Some(Eof)
      ensures stream != [] ==> err == None && b == stream[0]
    {
      if stream == [] { return 0, Some(Eof); }
      return stream[0], None;
    }

    /** Skips n bytes, or what there is and reports the end of the stream. */
    method Discard(n: nat) returns (err: Option<Error>)
      modifies this
      ensures n <= |old(stream)| ==> err == None && stream == old(stream)[n..]
      ensures n > |old(stream)| ==> err == Some(Eof) && stream == []
    {
      if n > |stream| {
        stream := [];
        return Some(Eof);
      }
      stream := stream[n..];
      return None;
    }
  }

  class InternalDataReader {
    const buffered: BufferedReader

    constructor (r: BufferedReader)
      ensures buffered == r
    {
      buffered := r;
    }

    /** Skips a subnegotiation, whose SB is still to be read. */
    method SkipSubnegotiation() returns (err: Option<Error>)
      modifies buffered
      ensures match SkipSub(old(buffered.stream))
        case None => err == Some(Eof) && buffered.stream == []
        case Some(rest) => err == None && buffered.stream == rest
    {
      while true
        invariant SkipSub(buffered.stream) == SkipSub(old(buffered.stream))
        decreases |buffered.stream|
      {
        var b2;
        b2, err := buffered.ReadByte();
        if err.Some? { return; }
        if b2 == IAC {
          var peeked;
          peeked, err := buffered.Peek();
          if err.Some? { return; }
          if peeked == IAC {
            err := buffered.Discard(1);
            if err.Some? { return; }
          }
          if peeked == SE {
            err := buffered.Discard(1);
            if err.Some? { return; }
            break;
          }
        }
      }
    }

    /** Deals with what follows an IAC that has been read: a doubled IAC is data, a
        command is skipped. */
    method TakeCommand() returns (escaped: bool, err: Option<Error>)
      modifies buffered
      ensures match Next([IAC] + old(buffered.stream))
        case Data(b, rest) => b == IAC && escaped && err == None && buffered.stream == rest
        case Command(rest) => !escaped && err == None && buffered.stream == rest
        case End(e, rest) => err == Some(e) && buffered.stream == rest
    {
      ghost var s := [IAC] + buffered.stream;
      assert s[1..] == buffered.stream;
      assert forall k :: 1 < k <= |s| ==> s[k..] == buffered.stream[k - 1..];
      escaped := false;
      var peeked;
      peeked, err := buffered.Peek();
      if err.Some? { return; }
      if peeked == WILL || peeked == WONT || peeked == DO || peeked == DONT {
        err := buffered.Discard(2);
      } else if peeked == IAC {
        escaped := true;
        err := buffered.Discard(1);
      } else if peeked == SB {
        err := SkipSubnegotiation();
      } else if peeked == SE {
        err := buffered.Discard(1);
      } else {
        err := Some(Corrupted);
      }
    }

    /** p[0] = b, where p is what is left of the buffer. */
    method Store(data: array<Byte>, n: nat, b: Byte)
      requires n < data.Length
      modifies data
      ensures data[..n + 1] == old(data[..n]) + [b]
      ensures forall k :: n < k < data.Length ==> data[k] == old(data[k])
    {
      data[n] := b;
    }

    /** Reads un-escaped data into `data`, in place: n bytes of it are the decoding of
        the stream, limited to the buffer, the others stay as they were, and exactly
        what the decoding leaves is left to read. */
    method Read(data: array<Byte>) returns (n: nat, err: Option<Error>)
      modifies data, buffered
      ensures var r := Decode(old(buffered.stream), data.Length);
        && n == |r.data|
        && data[..n] == r.data
        && data[n..] == old(data[..])[n..]
        && buffered.stream == r.rest
        && err == r.err
    {
      n := 0;
      ghost var start, before := buffered.stream, data[..];
      while n < data.Length
        invariant n <= data.Length
        invariant forall k :: n <= k < data.Length ==> data[k] == before[k]
        invariant Decode(start, data.Length) == Prepend(data[..n], Decode(buffered.stream, data.Length - n))
        decreases |buffered.stream|
      {
        ghost var s, done := buffered.stream, data[..n];
        var b;
        b, err := buffered.ReadByte();
        if err.Some? { return; }
        var escaped := false;
        if b == IAC {
          assert s == [IAC] + buffered.stream;
          escaped, err := TakeCommand();
          if err.Some? { return; }
        }
        if b != IAC || escaped {
          Store(data, n, b);
          n := n + 1;
          PrependTwice(done, [b], Decode(buffered.stream, data.Length - n));
        }
      }
      return n, None;
    }
  }
}
