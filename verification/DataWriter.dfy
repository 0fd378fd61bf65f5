/** The writers of the TELNET codec: the original, which escapes, and the one in use,
    which passes everything through. */
module DataWriter {
  import opened Options
  import opened Telnet

  /** What one long write meets: an error after `accepted` bytes at most, or none. */
  datatype Weather = Weather(fails: bool, accepted: nat)

  /** The writer underneath.  A long write puts a prefix of its argument on the wire and
      reports its length; without an error the prefix is everything.  `ahead` holds
      what the next writes will meet; after that they succeed. */
  class Sink {
    var wire: seq<Byte>
    var ahead: seq<Weather>
    ghost var broken: bool    // history: a write has failed

    constructor (ahead: seq<Weather>)
      ensures wire == [] && this.ahead == ahead && !broken
    {
      wire, broken := [], false;
      this.ahead := ahead;
    }

    method LongWrite(p: seq<Byte>) returns (n: nat, failed: bool)
      modifies this
      ensures n <= |p| && wire == old(wire) + p[..n]
      ensures !failed ==> n == |p|
      ensures broken == (old(broken) || failed)
    {
      var w := Weather(false, 0);
      if ahead != [] {
        w, ahead := ahead[0], ahead[1..];
      }
      failed := w.fails;
      broken := broken || failed;
      n := if w.fails && w.accepted < |p| then w.accepted else |p|;
      wire := wire + p[..n];
    }
  }

  datatype Outcome =
    | Returned(n: nat, failed: bool)
    | Panicked(n: nat)    // IAC IAC was cut in two; n bytes had been dealt with

  class EscapingWriter {
    const wrapped: Sink

    constructor (w: Sink)
      ensures wrapped == w
    {
      wrapped := w;
    }

    /** Writes out the run of bytes collected so far, data[n..]. */
    method Flush(buffer: seq<Byte>, ghost before: seq<Byte>, ghost data: seq<Byte>, ghost n: nat)
      returns (written: nat, failed: bool)
      requires n + |buffer| <= |data| && buffer == data[n..n + |buffer|] && IAC !in buffer
      requires wrapped.wire == before + Escape(data[..n])
      modifies wrapped
      ensures written <= |buffer| && wrapped.wire == before + Escape(data[..n + written])
      ensures !failed ==> written == |buffer|
    {
      written, failed := 0, false;
      if |buffer| > 0 {
        written, failed := wrapped.LongWrite(buffer);
        EscapeRun(data, n, n + |buffer|, written);
      }
    }

    /** Writes the escaped form of a prefix of data and reports that prefix's length;
        without an error the prefix is everything.  On a panic the wire ends in what was
        written of the pair that stands for the next byte, an IAC. */
    method Write(data: seq<Byte>) returns (o: Outcome)
      modifies wrapped
      ensures o.Returned? ==>
                && o.n <= |data|
                && wrapped.wire == old(wrapped.wire) + Escape(data[..o.n])
                && (!o.failed ==> o.n == |data|)
      ensures o.Panicked? ==>
                && o.n < |data| && data[o.n] == IAC
                && (wrapped.wire == old(wrapped.wire) + Escape(data[..o.n])
                    || wrapped.wire == old(wrapped.wire) + Escape(data[..o.n]) + [IAC])
    {
      if |data| <= 0 { return Returned(0, false); }
      var n: nat := 0;
      var buffer: seq<Byte> := [];
      ghost var before := wrapped.wire;
      var written, failed := 0, false;
      for k := 0 to |data|
        invariant n + |buffer| == k && buffer == data[n..k] && IAC !in buffer && !failed
        invariant wrapped.wire == before + Escape(data[..n])
      {
        if data[k] == IAC {
          written, failed := Flush(buffer, before, data, n);
          n := n + written;
          if failed { return Returned(n, true); }
          buffer := [];
          written, failed := wrapped.LongWrite([IAC, IAC]);
          if written != 2 {
            return Panicked(n);
          }
          EscapeOne(data, n);
          n := n + 1;
          if failed { return Returned(n, true); }
        } else {
          assert data[n..k + 1] == data[n..k] + [data[k]];
          buffer := buffer + [data[k]];
        }
      }
      written, failed := Flush(buffer, before, data, n);
      n := n + written;
      return Returned(n, failed);
    }
  }

  /** A run without IAC is written as it is. */
  lemma EscapeRun(data: seq<Byte>, n: nat, k: nat, m: nat)
    requires n + m <= k <= |data| && IAC !in data[n..k]
    ensures Escape(data[..n + m]) == Escape(data[..n]) + data[n..k][..m]
  {
    var run := data[n..k][..m];
    assert data[..n + m] == data[..n] + run;
    assert forall j :: 0 <= j < m ==> run[j] == data[n..k][j];
    EscapeConcat(data[..n], run);
    EscapePlain(run);
  }

  /** An IAC is written as two. */
  lemma EscapeOne(data: seq<Byte>, n: nat)
    requires n < |data| && data[n] == IAC
    ensures Escape(data[..n + 1]) == Escape(data[..n]) + [IAC, IAC]
  {
    assert data[..n + 1] == data[..n] + [IAC];
    EscapeConcat(data[..n], [IAC]);
    assert [IAC][1..] == [];
  }

  /** The writer in use since the server switched to full duplex. */
  class PassThroughWriter {
    const wrapped: Sink

    constructor (w: Sink)
      ensures wrapped == w
    {
      wrapped := w;
    }

    method Write(data: seq<Byte>) returns (n: nat, failed: bool)
      modifies wrapped
      ensures n <= |data| && wrapped.wire == old(wrapped.wire) + data[..n]
      ensures !failed ==> n == |data|
    {
      if |data| <= 0 { return 0, false; }
      var buffer: seq<Byte> := [];
      for k := 0 to |data|
        invariant buffer == data[..k]
      {
        buffer := buffer + [data[k]];
      }
      n, failed := 0, false;
      if |buffer| > 0 {
        var written;
        written, failed := wrapped.LongWrite(buffer);
        n := n + written;
      }
    }
  }

  /** What the escaping writer reports as written is what the reader at the other end
      delivers, whatever cut the write short. */
  lemma WrittenIsRead(data: seq<Byte>, n: nat, sizes: seq<nat>)
    requires n <= |data| && n < Sum(sizes)
    ensures Reads(Escape(data[..n]), sizes) == Decoded(data[..n], [], Some(Eof))
  {
    EscapeRoundTrip(data[..n]);
    ReadsToTheEnd(Escape(data[..n]), sizes);
  }
}
