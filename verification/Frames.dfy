/** Frames on a byte stream: a five-byte header and a payload, through a transport that moves any
    number of bytes at a time. */
module Frames {
  import opened Buffers
  import opened Bytes
  import opened Options

  const HEADER_SIZE := 5
  const MAX_FRAME_SIZE := 64 * 1024

  datatype Frame = Frame(msgType: byte, payload: Bytes)

  function EncodeFrame(f: Frame): Bytes {
    PutBE(|f.payload|, 4) + [f.msgType] + f.payload
  }

  function EncodeFrames(fs: seq<Frame>): Bytes {
    if fs == [] then [] else EncodeFrame(fs[0]) + EncodeFrames(fs[1..])
  }

  /** The first frame of a stream and the rest of it; None if the stream ends before the frame
      does, or announces a frame over the limit. */
  function FirstFrame(stream: Bytes): Option<(Frame, Bytes)> {
    if |stream| < HEADER_SIZE then None
    else
      var n := GetBE(stream[..4]);
      if n > MAX_FRAME_SIZE || |stream| < HEADER_SIZE + n then None
      else Some((Frame(stream[4], stream[HEADER_SIZE..HEADER_SIZE + n]), stream[HEADER_SIZE + n..]))
  }

  /** All the frames a reader gets out of a stream before it has to give up. */
  function Parse(stream: Bytes): seq<Frame>
    decreases |stream|
  {
    match FirstFrame(stream)
    case None => []
    case Some((f, rest)) => [f] + Parse(rest)
  }

  predicate Sendable(f: Frame) {
    |f.payload| <= MAX_FRAME_SIZE
  }

  lemma FirstOfEncoded(f: Frame, rest: Bytes)
    requires Sendable(f)
    ensures FirstFrame(EncodeFrame(f) + rest) == Some((f, rest))
  {
    PowValues();
    GetAfterPut(|f.payload|, 4);
    var stream := EncodeFrame(f) + rest;
    assert stream[..4] == PutBE(|f.payload|, 4) && stream[4] == f.msgType;
    assert stream[5..5 + |f.payload|] == f.payload && stream[5 + |f.payload|..] == rest;
  }

  /** Four bytes of length, highest first, one of type, then the payload. */
  lemma FrameLayout(f: Frame)
    requires Sendable(f)
    ensures var n := |f.payload|;
            EncodeFrame(f)[..5] == [0, (n / 65_536) as byte, (n / 256 % 256) as byte, (n % 256) as byte, f.msgType]
            && EncodeFrame(f)[5..] == f.payload
  {
    LowBytes(|f.payload|);
    assert EncodeFrame(f)[..5] == PutBE(|f.payload|, 4) + [f.msgType];
  }

  lemma LowBytes(n: nat)
    requires n <= 65_536
    ensures PutBE(n, 4) == [0, (n / 65_536) as byte, (n / 256 % 256) as byte, (n % 256) as byte]
  {
    var hi := n / 256;
    assert PutBE(n, 4) == PutBE(hi, 3) + [(n % 256) as byte];
    assert PutBE(hi, 3) == PutBE(hi / 256, 2) + [(hi % 256) as byte];
    assert PutBE(hi / 256, 2) == PutBE(hi / 256 / 256, 1) + [(hi / 256 % 256) as byte];
    assert PutBE(hi / 256 / 256, 1) == PutBE(hi / 256 / 256 / 256, 0) + [(hi / 256 / 256 % 256) as byte];
    assert hi / 256 / 256 == 0 && hi / 256 / 256 / 256 == 0;
    assert hi / 256 == n / 65_536;
  }

  /** What a reader takes for a first frame is one that a sender may have sent, and nothing else: never
      more than 64 KiB, whatever the stream announces. */
  lemma FirstIsEncoded(stream: Bytes, f: Frame, rest: Bytes)
    ensures FirstFrame(stream) == Some((f, rest)) <==> |f.payload| <= 65_536 && stream == EncodeFrame(f) + rest
  {
    if FirstFrame(stream) == Some((f, rest)) {
      PutAfterGet(stream[..4]);
      assert stream == stream[..4] + [stream[4]] + stream[5..5 + |f.payload|] + stream[5 + |f.payload|..];
    }
    if |f.payload| <= 65_536 && stream == EncodeFrame(f) + rest {
      FirstOfEncoded(f, rest);
    }
  }

  /** A stream cut inside a frame yields nothing of that frame. */
  lemma CutFrame(f: Frame, n: nat)
    requires Sendable(f) && n < |EncodeFrame(f)|
    ensures FirstFrame(EncodeFrame(f)[..n]) == None
  {
    PowValues();
    GetAfterPut(|f.payload|, 4);
    if n >= HEADER_SIZE {
      assert EncodeFrame(f)[..n][..4] == PutBE(|f.payload|, 4);
    }
  }

  /** How many of the frames lie wholly within the first n bytes. */
  function Complete(fs: seq<Frame>, n: nat): (k: nat)
    ensures k <= |fs|
  {
    if fs == [] || n < |EncodeFrame(fs[0])| then 0 else 1 + Complete(fs[1..], n - |EncodeFrame(fs[0])|)
  }

  /** Main result: any prefix of a stream of frames parses to exactly the frames it contains whole;
      the full stream to all of them. */
  lemma {:induction false} PrefixParses(fs: seq<Frame>, n: nat)
    requires forall f | f in fs :: Sendable(f)
    requires n <= |EncodeFrames(fs)|
    ensures Parse(EncodeFrames(fs)[..n]) == fs[..Complete(fs, n)]
    ensures n == |EncodeFrames(fs)| ==> Complete(fs, n) == |fs|
  {
    if fs == [] {
      assert FirstFrame([]) == None;
    } else {
      var first := EncodeFrame(fs[0]);
      var stream := EncodeFrames(fs);
      if n < |first| {
        assert stream[..n] == first[..n];
        CutFrame(fs[0], n);
      } else {
        var m := n - |first|;
        assert stream[..n] == first + EncodeFrames(fs[1..])[..m];
        FirstOfEncoded(fs[0], EncodeFrames(fs[1..])[..m]);
        PrefixParses(fs[1..], m);
      }
    }
  }

  /** The two directions of a connection. The schedules say how many bytes each coming call moves
      at most; a call fails on a count below one, when its schedule is used up, or at the end of
      the stream. */
  class Socket {
    var incoming: Bytes
    var outgoing: Bytes
    var recvs: seq<int>
    var sends: seq<int>

    constructor (incoming: Bytes, recvs: seq<int>, sends: seq<int>)
      ensures this.incoming == incoming && this.recvs == recvs && this.sends == sends && outgoing == []
    {
      this.incoming, this.recvs, this.sends, outgoing := incoming, recvs, sends, [];
    }

    /** Every call moves at least one byte, and there are calls enough for so many bytes. */
    static predicate Live(bytes: nat, schedule: seq<int>) {
      |schedule| >= bytes && forall i :: 0 <= i < |schedule| ==> schedule[i] >= 1
    }

    method Recv(max: nat) returns (got: Bytes)
      requires max > 0
      modifies this`incoming, this`recvs
      ensures got + incoming == old(incoming) && |got| <= max
      ensures Live(|old(incoming)|, old(recvs)) ==> Live(|incoming|, recvs) && (old(incoming) != [] ==> got != [])
    {
      if recvs == [] {
        return [];
      }
      var n := recvs[0];
      recvs := recvs[1..];
      if n <= 0 {
        return [];
      }
      if n > max {
        n := max;
      }
      if n > |incoming| {
        n := |incoming|;
      }
      got := incoming[..n];
      incoming := incoming[n..];
    }

    method Send(data: Bytes) returns (n: nat)
      requires data != []
      modifies this`outgoing, this`sends
      ensures n <= |data| && outgoing == old(outgoing) + data[..n]
      ensures Live(1, old(sends)) ==> n > 0 && Live(|old(sends)| - 1, sends)
    {
      n := 0;
      if sends != [] {
        if sends[0] > 0 {
          n := if sends[0] > |data| then |data| else sends[0];
        }
        sends := sends[1..];
      }
      outgoing := outgoing + data[..n];
    }

    /** Fills buf; on failure what arrived so far is lost with it. */
    method ReadAll(buf: array<byte>) returns (ok: bool)
      modifies this`incoming, this`recvs, buf
      ensures ok ==> |old(incoming)| >= buf.Length
                     && buf[..] == old(incoming)[..buf.Length] && incoming == old(incoming)[buf.Length..]
      ensures Live(|old(incoming)|, old(recvs)) ==>
                Live(|incoming|, recvs) && (|old(incoming)| >= buf.Length ==> ok)
    {
      var got := 0;
      while got < buf.Length
        invariant got <= buf.Length && got <= |old(incoming)|
        invariant buf[..got] == old(incoming)[..got] && incoming == old(incoming)[got..]
        invariant Live(|old(incoming)|, old(recvs)) ==> Live(|incoming|, recvs)
      {
        var piece := Recv(buf.Length - got);
        if piece == [] {
          return false;
        }
        CopyInto(buf, got, piece);
        assert old(incoming)[got..][..|piece|] == piece;
        got := got + |piece|;
        assert buf[..got] == old(incoming)[..got];
      }
      assert buf[..] == buf[..got];
      return true;
    }

    /** Sends data whole, or a part of it and an error. */
    method WriteAll(data: Bytes) returns (ok: bool)
      modifies this`outgoing, this`sends
      ensures old(outgoing) <= outgoing <= old(outgoing) + data
      ensures ok ==> outgoing == old(outgoing) + data
      ensures Live(|data|, old(sends)) ==> ok && Live(|old(sends)| - |data|, sends)
    {
      var sent := 0;
      while sent < |data|
        invariant sent <= |data| && outgoing == old(outgoing) + data[..sent]
        invariant Live(|data|, old(sends)) ==> Live(|old(sends)| - sent, sends)
      {
        var n := Send(data[sent..]);
        assert data[..sent + n] == data[..sent] + data[sent..][..n];
        if n == 0 {
          return false;
        }
        sent := sent + n;
      }
      assert data[..sent] == data;
      return true;
    }

    method WriteFrame(f: Frame) returns (ok: bool)
      modifies this`outgoing, this`sends
      ensures !Sendable(f) ==> !ok && outgoing == old(outgoing)
      ensures old(outgoing) <= outgoing <= old(outgoing) + EncodeFrame(f)
      ensures ok ==> outgoing == old(outgoing) + EncodeFrame(f)
      ensures Sendable(f) && Live(|EncodeFrame(f)|, old(sends)) ==>
                ok && Live(|old(sends)| - |EncodeFrame(f)|, sends)
    {
      if |f.payload| > MAX_FRAME_SIZE {
        return false;
      }
      var header := PutBE(|f.payload|, 4) + [f.msgType];
      ok := WriteAll(header);
      assert EncodeFrame(f) == header + f.payload;
      if !ok {
        return false;
      }
      if |f.payload| > 0 {
        ok := WriteAll(f.payload);
      }
    }

    method ReadFrame() returns (r: Option<Frame>)
      modifies this`incoming, this`recvs
      ensures r.Some? ==> FirstFrame(old(incoming)) == Some((r.value, incoming))
      ensures Live(|old(incoming)|, old(recvs)) ==>
                Live(|incoming|, recvs) && (FirstFrame(old(incoming)).Some? ==> r.Some?)
    {
      var header := new byte[HEADER_SIZE];
      var ok := ReadAll(header);
      if !ok {
        return None;
      }
      var n := GetBE(header[..4]);
      ghost var stream := old(incoming);
      assert header[..4] == stream[..4] && header[4] == stream[4];
      if n > MAX_FRAME_SIZE {
        return None;
      }
      var msgType := header[4];
      if n == 0 {
        assert stream[HEADER_SIZE..HEADER_SIZE] == [];
        return Some(Frame(msgType, []));
      }
      var payload := new byte[n];
      ok := ReadAll(payload);
      if !ok {
        return None;
      }
      assert stream[HEADER_SIZE..][..n] == stream[HEADER_SIZE..HEADER_SIZE + n];
      assert stream[HEADER_SIZE..][n..] == stream[HEADER_SIZE + n..];
      return Some(Frame(msgType, payload[..]));
    }

    /** Writes frame after frame until one fails. */
    method WriteFrames(fs: seq<Frame>) returns (ok: bool)
      modifies this`outgoing, this`sends
      ensures old(outgoing) <= outgoing <= old(outgoing) + EncodeFrames(fs)
      ensures ok ==> outgoing == old(outgoing) + EncodeFrames(fs)
      ensures (forall f | f in fs :: Sendable(f)) && Live(|EncodeFrames(fs)|, old(sends)) ==> ok
    {
      var i := 0;
      while i < |fs|
        invariant 0 <= i <= |fs|
        invariant outgoing + EncodeFrames(fs[i..]) == old(outgoing) + EncodeFrames(fs)
        invariant old(outgoing) <= outgoing
        invariant Live(|EncodeFrames(fs)|, old(sends)) ==> Live(|EncodeFrames(fs[i..])|, sends)
      {
        assert fs[i..][0] == fs[i] && fs[i..][1..] == fs[i + 1..];
        ghost var before := outgoing;
        ok := WriteFrame(fs[i]);
        if !ok {
          assert outgoing <= before + EncodeFrame(fs[i]) <= old(outgoing) + EncodeFrames(fs);
          return false;
        }
        assert before + EncodeFrames(fs[i..]) == outgoing + EncodeFrames(fs[i + 1..]);
        i := i + 1;
      }
      assert fs[|fs|..] == [];
      return true;
    }

    /** The receive loop: takes frames until reading fails. */
    method ReadFrames() returns (fs: seq<Frame>)
      modifies this`incoming, this`recvs
      ensures fs <= Parse(old(incoming))
      ensures Live(|old(incoming)|, old(recvs)) ==> fs == Parse(old(incoming))
    {
      fs := [];
      while true
        invariant fs + Parse(incoming) == Parse(old(incoming))
        invariant Live(|old(incoming)|, old(recvs)) ==> Live(|incoming|, recvs)
        decreases |incoming|
      {
        ghost var before := incoming;
        var r := ReadFrame();
        if r == None {
          assert FirstFrame(before) == None ==> Parse(before) == [];
          return;
        }
        assert Parse(before) == [r.value] + Parse(incoming);
        fs := fs + [r.value];
      }
    }
  }

  /** Main result: for every list of frames and every way the transport splits the bytes on either
      side, the receiver gets the list back; and if the stream breaks anywhere, a prefix of it. */
  method Transfer(fs: seq<Frame>, sends: seq<int>, cut: nat, recvs: seq<int>) returns (received: seq<Frame>)
    requires forall f | f in fs :: Sendable(f)
    ensures received <= fs
    ensures var size := |EncodeFrames(fs)|;
            Socket.Live(size, sends) && Socket.Live(size, recvs) && cut >= size ==> received == fs
  {
    var sender := new Socket([], [], sends);
    var ok := sender.WriteFrames(fs);
    var wire := if cut < |sender.outgoing| then sender.outgoing[..cut] else sender.outgoing;
    ghost var stream := EncodeFrames(fs);
    assert [] + stream == stream;
    assert wire == stream[..|wire|];
    PrefixParses(fs, |wire|);
    var receiver := new Socket(wire, recvs, []);
    received := receiver.ReadFrames();
    assert ok && cut >= |stream| ==> fs[..|fs|] == fs;
  }
}
