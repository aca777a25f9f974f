// The console of a container (agent/containers.py): Docker's attach stream, cut
// into frames (demux), and the frames' payloads cut into lines (pump), whatever
// chunks the socket delivers them in.

module AttachStream {

  newtype byte = x: int | 0 <= x < 256
  type Bytes = seq<byte>

  const HEADER: nat := 8
  const NEWLINE: byte := 10
  const LONGEST: nat := 0x1_0000_0000

  // A stream type (1 stdout, 2 stderr) and what was written to it.
  datatype Frame = Frame(stream: byte, payload: Bytes)

  // struct.unpack(">I", buffer[4:8]).
  function LengthIn(buf: Bytes): (n: nat)
    requires |buf| >= HEADER
    ensures n < LONGEST
  {
    ((buf[4] as int * 256 + buf[5] as int) * 256 + buf[6] as int) * 256 + buf[7] as int
  }

  function Big(n: nat): (b: Bytes)
    requires n < LONGEST
    ensures |b| == 4
  {
    [(n / 0x100_0000) as byte, (n / 0x1_0000 % 256) as byte, (n / 0x100 % 256) as byte, (n % 256) as byte]
  }

  predicate IsWhole(buf: Bytes) { |buf| >= HEADER && |buf| >= HEADER + LengthIn(buf) }

  // The whole frames at the front, and what is left.
  function Parsed(buf: Bytes): (seq<Frame>, Bytes) {
    if !IsWhole(buf) then ([], buf)
    else
      var end := HEADER + LengthIn(buf);
      var (frames, rest) := Parsed(buf[end..]);
      ([Frame(buf[0], buf[HEADER..end])] + frames, rest)
  }

  // --- the encoding Docker writes ------------------------------------------------------

  function Encoded(f: Frame): Bytes
    requires |f.payload| < LONGEST
  {
    [f.stream, 0, 0, 0] + Big(|f.payload|) + f.payload
  }

  ghost predicate CanEncode(frames: seq<Frame>) {
    forall i :: 0 <= i < |frames| ==> |frames[i].payload| < LONGEST
  }

  function EncodedAll(frames: seq<Frame>): Bytes
    requires CanEncode(frames)
  {
    if frames == [] then [] else Encoded(frames[0]) + EncodedAll(frames[1..])
  }

  lemma BigReadsBack(n: nat)
    requires n < LONGEST
    ensures ((Big(n)[0] as int * 256 + Big(n)[1] as int) * 256 + Big(n)[2] as int) * 256 + Big(n)[3] as int == n
  {
    var a, b, c := n / 0x100_0000, n / 0x1_0000, n / 0x100;
    assert b == a * 256 + b % 256;
    assert c == b * 256 + c % 256;
    assert n == c * 256 + n % 256;
  }

  lemma ParsesFront(buf: Bytes, f: Frame, more: Bytes)
    requires |f.payload| < LONGEST && buf == Encoded(f) + more
    ensures Parsed(buf) == ([f] + Parsed(more).0, Parsed(more).1)
  {
    var n := |f.payload|;
    BigReadsBack(n);
    assert buf[4] == Big(n)[0] && buf[5] == Big(n)[1] && buf[6] == Big(n)[2] && buf[7] == Big(n)[3];
    assert LengthIn(buf) == n;
    assert buf[HEADER..HEADER + n] == f.payload;
    assert buf[HEADER + n..] == more;
  }

  lemma Regroup(a: Bytes, b: Bytes, c: Bytes)
    ensures (a + b) + c == a + (b + c)
  {}

  lemma EncodedFront(frames: seq<Frame>, partial: Bytes)
    requires CanEncode(frames) && frames != []
    ensures EncodedAll(frames) + partial == Encoded(frames[0]) + (EncodedAll(frames[1..]) + partial)
  {
    Regroup(Encoded(frames[0]), EncodedAll(frames[1..]), partial);
  }

  // Demultiplexing undoes the encoding, and keeps a partial frame for later.
  lemma {:induction false} DemuxInvertsEncoding(frames: seq<Frame>, partial: Bytes)
    requires CanEncode(frames) && !IsWhole(partial)
    ensures Parsed(EncodedAll(frames) + partial) == (frames, partial)
  {
    if frames == [] {
      assert EncodedAll(frames) + partial == partial;
      assert Parsed(partial) == ([], partial);
    } else {
      var f, more := frames[0], EncodedAll(frames[1..]) + partial;
      DemuxInvertsEncoding(frames[1..], partial);
      EncodedFront(frames, partial);
      ParsesFront(EncodedAll(frames) + partial, f, more);
      assert [f] + frames[1..] == frames;
    }
  }

  // Every byte received is in a frame or still in the buffer, and what is in the
  // buffer is no whole frame.
  function Consumed(frames: seq<Frame>): nat {
    if frames == [] then 0 else HEADER + |frames[0].payload| + Consumed(frames[1..])
  }

  lemma {:induction false} NothingIsLost(buf: Bytes)
    ensures var (frames, rest) := Parsed(buf);
      && Consumed(frames) + |rest| == |buf|
      && rest == buf[Consumed(frames)..]
      && !IsWhole(rest)
  {
    if IsWhole(buf) { NothingIsLost(buf[HEADER + LengthIn(buf)..]); }
  }

  // More bytes later parse as they would have together.
  lemma {:induction false} ParsingGoesOn(a: Bytes, b: Bytes)
    ensures var (frames, rest) := Parsed(a);
      Parsed(a + b) == (frames + Parsed(rest + b).0, Parsed(rest + b).1)
  {
    if IsWhole(a) {
      var end := HEADER + LengthIn(a);
      ParsingGoesOn(a[end..], b);
      assert (a + b)[end..] == a[end..] + b;
      assert (a + b)[HEADER..end] == a[HEADER..end];
      var f, frames, rest := Frame(a[0], a[HEADER..end]), Parsed(a[end..]).0, Parsed(a[end..]).1;
      assert [f] + (frames + Parsed(rest + b).0) == [f] + frames + Parsed(rest + b).0;
    } else {
      assert [] + Parsed(a + b).0 == Parsed(a + b).0;
    }
  }

  // --- lines ---------------------------------------------------------------------------

  function Payloads(frames: seq<Frame>): Bytes {
    if frames == [] then [] else Payloads(frames[..|frames| - 1]) + frames[|frames| - 1].payload
  }

  // The newline-terminated lines of a text, without their newlines, and its tail.
  function Lines(text: Bytes): seq<Bytes> {
    if text == [] then []
    else
      var init, c := text[..|text| - 1], text[|text| - 1];
      if c == NEWLINE then Lines(init) + [Tail(init)] else Lines(init)
  }

  function Tail(text: Bytes): Bytes {
    if text == [] then []
    else
      var init, c := text[..|text| - 1], text[|text| - 1];
      if c == NEWLINE then [] else Tail(init) + [c]
  }

  function WithNewlines(lines: seq<Bytes>): Bytes {
    if lines == [] then [] else WithNewlines(lines[..|lines| - 1]) + lines[|lines| - 1] + [NEWLINE]
  }

  // The lines and the tail are the text, cut at its newlines and nowhere else.
  lemma {:induction false} LinesAreTheText(text: Bytes)
    ensures WithNewlines(Lines(text)) + Tail(text) == text
    ensures (forall l :: l in Lines(text) ==> NEWLINE !in l) && NEWLINE !in Tail(text)
  {
    if text != [] {
      var init, c := text[..|text| - 1], text[|text| - 1];
      LinesAreTheText(init);
      assert text == init + [c];
      if c == NEWLINE {
        var all := Lines(init) + [Tail(init)];
        assert all[..|all| - 1] == Lines(init);
      }
    }
  }

  lemma {:induction false} LinesGoOn(a: Bytes, b: Bytes)
    ensures Lines(a + b) == Lines(a) + Lines(Tail(a) + b)
    ensures Tail(a + b) == Tail(Tail(a) + b)
  {
    if b == [] {
      assert a + b == a && Tail(a) + b == Tail(a);
      NoLines(Tail(a));
      LinesAreTheText(a);
    } else {
      var init, c := b[..|b| - 1], b[|b| - 1];
      LinesGoOn(a, init);
      assert (a + b)[..|a + b| - 1] == a + init;
      assert (Tail(a) + b)[..|Tail(a) + b| - 1] == Tail(a) + init;
    }
  }

  lemma {:induction false} NoLines(text: Bytes)
    ensures NEWLINE !in text ==> Lines(text) == [] && Tail(text) == text
  {
    if text != [] {
      NoLines(text[..|text| - 1]);
      assert text == text[..|text| - 1] + [text[|text| - 1]];
    }
  }

  lemma {:induction false} PayloadsGoOn(a: seq<Frame>, b: seq<Frame>)
    ensures Payloads(a + b) == Payloads(a) + Payloads(b)
  {
    if b == [] {
      assert a + b == a;
    } else {
      var c := b[..|b| - 1];
      PayloadsGoOn(a, c);
      assert (a + b)[..|a + b| - 1] == a + c;
      assert Payloads(a) + (Payloads(c) + b[|b| - 1].payload) == Payloads(a) + Payloads(c) + b[|b| - 1].payload;
    }
  }

  // What the console is given of all the bytes received so far.
  function Shown(received: Bytes): seq<Bytes> { Lines(Payloads(Parsed(received).0)) }

  function Pending(received: Bytes): Bytes { Tail(Payloads(Parsed(received).0)) }

  lemma OneMoreByte(text: Bytes, n: nat, start: nat)
    requires start <= n < |text| && text[start..n] == Tail(text[..n])
    ensures Lines(text[..n + 1]) == if text[n] == NEWLINE then Lines(text[..n]) + [text[start..n]] else Lines(text[..n])
    ensures Tail(text[..n + 1]) == if text[n] == NEWLINE then [] else text[start..n + 1]
  {
    assert text[..n + 1][..n] == text[..n];
    assert text[start..n + 1] == text[start..n] + [text[n]];
  }

  predicate SplitTo(text: Bytes, n: nat, lines: seq<Bytes>, start: nat) {
    start <= n <= |text| && lines == Lines(text[..n]) && text[start..n] == Tail(text[..n])
  }

  lemma SplitOneMore(text: Bytes, n: nat, lines: seq<Bytes>, start: nat)
    requires n < |text| && SplitTo(text, n, lines, start)
    ensures text[n] == NEWLINE ==> SplitTo(text, n + 1, lines + [text[start..n]], n + 1)
    ensures text[n] != NEWLINE ==> SplitTo(text, n + 1, lines, start)
  {
    OneMoreByte(text, n, start);
  }

  method SplitLines(text: Bytes) returns (lines: seq<Bytes>, start: nat)
    ensures start <= |text| && lines == Lines(text) && text[start..] == Tail(text)
  {
    lines, start := [], 0;
    var n := 0;
    while n < |text|
      invariant SplitTo(text, n, lines, start)
    {
      SplitOneMore(text, n, lines, start);
      if text[n] == NEWLINE {
        lines := lines + [text[start..n]];
        start := n + 1;
      }
      n := n + 1;
    }
    assert text[..n] == text && text[start..n] == text[start..];
  }

  // --- the pump ---------------------------------------------------------------------------

  class Pump {
    var buf: Bytes
    var pending: Bytes
    var shown: seq<Bytes>
    ghost var received: Bytes

    // Whatever chunks they came in, what has been shown depends on the bytes
    // received and on nothing else.
    ghost predicate Valid()
      reads this
    {
      buf == Parsed(received).1 && pending == Pending(received) && shown == Shown(received)
    }

    constructor ()
      ensures Valid() && received == [] && shown == []
    {
      buf, pending, shown, received := [], [], [], [];
    }

    method Demux() returns (out: seq<Frame>)
      modifies `buf
      ensures (out, buf) == Parsed(old(buf))
    {
      out := [];
      assert [] + Parsed(buf).0 == Parsed(buf).0;
      while |buf| >= HEADER
        invariant Parsed(old(buf)) == (out + Parsed(buf).0, Parsed(buf).1)
        decreases |buf|
      {
        var length := LengthIn(buf);
        if |buf| < HEADER + length { break; }
        ghost var before := out;
        out := out + [Frame(buf[0], buf[HEADER..HEADER + length])];
        ghost var rest := Parsed(buf[HEADER + length..]);
        assert before + ([out[|before|]] + rest.0) == out + rest.0;
        buf := buf[HEADER + length..];
      }
      assert out + [] == out;
    }

    // pending.split(b"\n"), all of it but the last.
    method TakeLines()
      modifies `pending, `shown
      ensures shown == old(shown) + Lines(old(pending)) && pending == Tail(old(pending))
    {
      var lines, start := SplitLines(pending);
      shown := shown + lines;
      pending := pending[start..];
    }

    method ShowFrames(frames: seq<Frame>, ghost text: Bytes)
      requires pending == Tail(text) && shown == Lines(text)
      modifies `pending, `shown
      ensures pending == Tail(text + Payloads(frames)) && shown == Lines(text + Payloads(frames))
      ensures old(shown) <= shown
    {
      var n := 0;
      assert text + Payloads(frames[..0]) == text;
      while n < |frames|
        invariant n <= |frames|
        invariant pending == Tail(text + Payloads(frames[..n]))
        invariant shown == Lines(text + Payloads(frames[..n]))
        invariant old(shown) <= shown
      {
        assert frames[..n + 1][..n] == frames[..n];
        Regroup(text, Payloads(frames[..n]), frames[n].payload);
        LinesGoOn(text + Payloads(frames[..n]), frames[n].payload);
        pending := pending + frames[n].payload;
        TakeLines();
        n := n + 1;
      }
      assert frames[..n] == frames;
    }

    // One chunk from the socket.
    method Read(chunk: Bytes)
      requires Valid()
      modifies this
      ensures Valid() && received == old(received) + chunk
      ensures old(shown) <= shown
    {
      ParsingGoesOn(received, chunk);
      ghost var before := Parsed(received).0;
      buf := buf + chunk;
      var frames := Demux();
      received := received + chunk;
      PayloadsGoOn(before, frames);
      ShowFrames(frames, Payloads(before));
    }
  }

  // Two ways of cutting the same bytes show the same lines; when the bytes are an
  // encoding cut off in mid-frame, they are the lines of the frames' payloads.
  lemma ChunksDoNotMatter(frames: seq<Frame>, partial: Bytes)
    requires CanEncode(frames) && !IsWhole(partial)
    ensures Shown(EncodedAll(frames) + partial) == Lines(Payloads(frames))
    ensures Pending(EncodedAll(frames) + partial) == Tail(Payloads(frames))
  {
    DemuxInvertsEncoding(frames, partial);
  }

  // What the container wrote, frame after frame.
  function Written(frames: seq<Frame>): Bytes {
    if frames == [] then [] else frames[0].payload + Written(frames[1..])
  }

  lemma {:induction false} WrittenIsPayloads(frames: seq<Frame>)
    ensures Written(frames) == Payloads(frames)
  {
    if frames != [] {
      WrittenIsPayloads(frames[1..]);
      assert frames == [frames[0]] + frames[1..];
      PayloadsGoOn([frames[0]], frames[1..]);
      assert Payloads([frames[0]]) == [] + frames[0].payload;
    }
  }

  // So whatever the container writes, as far as its frames have come, is shown: the lines
  // shown and the text pending are all of it, cut at its newlines and nowhere else.
  lemma WhatIsWrittenIsShown(frames: seq<Frame>, partial: Bytes)
    requires CanEncode(frames) && !IsWhole(partial)
    ensures var bytes := EncodedAll(frames) + partial;
      && WithNewlines(Shown(bytes)) + Pending(bytes) == Written(frames)
      && (forall l :: l in Shown(bytes) ==> NEWLINE !in l) && NEWLINE !in Pending(bytes)
  {
    ChunksDoNotMatter(frames, partial);
    WrittenIsPayloads(frames);
    LinesAreTheText(Payloads(frames));
  }
}
