/** The event stream's WebSocket frames (section 5.2 of RFC 6455): the
    daemon's encoder and the router's incremental decoder. */
module WebSocket {

  newtype byte = b: int | 0 <= b < 256

  type Bytes = seq<byte>

  const MAX_FRAME: nat := 64 * 1024 * 1024
  const TEXT: byte := 1
  const CLOSE: byte := 8
  const PING: byte := 9

  // ---------------------------------------------------------------- numbers

  /** `n` in `k` bytes, most significant first. Higher bits are cut off, as a
      cast to a narrower integer does. */
  function BigEndian(n: nat, k: nat): (bs: Bytes)
    ensures |bs| == k
  {
    if k == 0 then [] else BigEndian(n / 256, k - 1) + [(n % 256) as byte]
  }

  function FromBigEndian(bs: Bytes): nat {
    if bs == [] then 0
    else FromBigEndian(bs[..|bs| - 1]) * 256 + bs[|bs| - 1] as nat
  }

  function Limit(k: nat): (p: nat)
    ensures p > 0
  {
    if k == 0 then 1 else 256 * Limit(k - 1)
  }

  lemma {:induction false} BigEndianRoundTrip(n: nat, k: nat)
    requires n < Limit(k)
    ensures FromBigEndian(BigEndian(n, k)) == n
    decreases k
  {
    if k > 0 {
      BigEndianRoundTrip(n / 256, k - 1);
      var bs := BigEndian(n, k);
      assert bs[..|bs| - 1] == BigEndian(n / 256, k - 1);
    }
  }

  lemma Limits()
    ensures Limit(2) == 65536
    ensures Limit(8) == 65536 * 65536 * 65536 * 65536
  {
    assert Limit(2) == 256 * Limit(1);
    assert Limit(4) == 256 * Limit(3) == 256 * (256 * Limit(2));
    assert Limit(8) == 256 * Limit(7) == 256 * (256 * Limit(6));
    assert Limit(6) == 256 * Limit(5) == 256 * (256 * Limit(4));
  }

  // ---------------------------------------------------------------- encoder

  /** The bytes before the payload: one opcode byte and a length that is 1, 3
      or 9 bytes long. */
  function Header(first: byte, len: nat): (h: Bytes)
    ensures 2 <= |h| <= 10
  {
    [first] +
    if len < 126 then [len as byte]
    else if len <= 0xFFFF then [126] + BigEndian(len, 2)
    else [127] + BigEndian(len, 8)
  }

  /** A final frame: the top bit of its first byte is set and no mask is used. */
  function Frame(op: byte, payload: Bytes): Bytes
    requires op < 16
  {
    Header(0x80 + op, |payload|) + payload
  }

  /** `ws_send_text`: the frame is built by pushing onto a byte vector. */
  method SendText(text: Bytes) returns (frame: Bytes)
    ensures frame == Frame(TEXT, text)
  {
    frame := [0x81];
    if |text| < 126 {
      frame := frame + [|text| as byte];
    } else if |text| <= 0xFFFF {
      frame := frame + [126];
      frame := frame + BigEndian(|text|, 2);
    } else {
      frame := frame + [127];
      frame := frame + BigEndian(|text|, 8);
    }
    frame := frame + text;
  }

  // ---------------------------------------------------------------- decoder

  datatype Parsed =
    | More                                          // not a whole frame yet
    | Got(op: byte, payload: Bytes, used: nat)      // a frame of `used` bytes
    | Bad                                           // an error

  /** One frame off the front of `b`. */
  function Parse(b: Bytes): (r: Parsed)
    ensures r.Got? ==> 2 <= r.used <= |b| && r.op < 16
  {
    if |b| < 2 then More
    else if b[1] >= 0x80 then Bad
    else if b[1] == 126 then
      if |b| < 4 then More else ParseBody(b, FromBigEndian(b[2..4]), 4)
    else if b[1] == 127 then
      if |b| < 10 then More else ParseBody(b, FromBigEndian(b[2..10]), 10)
    else ParseBody(b, b[1] as nat, 2)
  }

  function ParseBody(b: Bytes, len: nat, off: nat): (r: Parsed)
    requires 2 <= off <= |b|
    ensures r.Got? ==> off <= r.used <= |b| && r.op < 16
  {
    if len > MAX_FRAME then Bad
    else if |b| < off + len then More
    else Got(b[0] % 16, b[off..off + len], off + len)
  }

  /** Bytes that arrive later do not change a frame already complete, nor an
      error already certain. */
  lemma LaterBytes(b: Bytes, more: Bytes)
    ensures Parse(b).Got? ==> Parse(b + more) == Parse(b)
    ensures Parse(b).Bad? ==> Parse(b + more).Bad?
  {
    if |b| >= 2 {
      assert (b + more)[0] == b[0] && (b + more)[1] == b[1];
      if |b| >= 4 { assert (b + more)[2..4] == b[2..4]; }
      if |b| >= 10 { assert (b + more)[2..10] == b[2..10]; }
      if Parse(b).Got? {
        var off := if b[1] == 126 then 4 else if b[1] == 127 then 10 else 2;
        assert (b + more)[off..Parse(b).used] == b[off..Parse(b).used];
      }
    }
  }

  /** The length a header spells is the length the decoder reads. */
  lemma HeaderRead(op: byte, len: nat, tail: Bytes)
    requires op < 16 && len < 65536 * 65536 * 65536 * 65536
    ensures var h := Header(0x80 + op, len); Parse(h + tail) == ParseBody(h + tail, len, |h|)
  {
    hide BigEndian, FromBigEndian, ParseBody;
    Limits();
    var h := Header(0x80 + op, len);
    var b := h + tail;
    assert b[1] == h[1];
    if 126 <= len <= 0xFFFF {
      assert b[2..4] == BigEndian(len, 2);
      BigEndianRoundTrip(len, 2);
    } else if len > 0xFFFF {
      assert b[2..10] == BigEndian(len, 8);
      BigEndianRoundTrip(len, 8);
    }
  }

  /** What the decoder reads off an encoded frame, whatever follows it: the
      frame itself, or an error exactly when the payload is over the limit. */
  lemma FrameParses(op: byte, payload: Bytes, rest: Bytes)
    requires op < 16 && |payload| < 65536 * 65536 * 65536 * 65536
    ensures Parse(Frame(op, payload) + rest) ==
            if |payload| > MAX_FRAME then Bad
            else Got(op, payload, |Frame(op, payload)|)
  {
    hide Parse, BigEndian;
    HeaderRead(op, |payload|, payload + rest);
    var h := Header(0x80 + op, |payload|);
    var b := Frame(op, payload) + rest;
    assert b == h + (payload + rest);
    assert b[0] == 0x80 + op;
    assert b[|h|..|h| + |payload|] == payload;
  }

  /** A proper prefix of an encoded frame never yields a frame. */
  lemma PrefixWaits(op: byte, payload: Bytes, cut: nat)
    requires op < 16 && |payload| <= MAX_FRAME && cut < |Frame(op, payload)|
    ensures Parse(Frame(op, payload)[..cut]) == More
  {
    var f := Frame(op, payload);
    FrameParses(op, payload, []);
    assert f + [] == f;
    LaterBytes(f[..cut], f[cut..]);
    assert f[..cut] + f[cut..] == f;
  }

  // ------------------------------------------------------------ the stream

  datatype Sent = Text(bytes: Bytes) | Ping

  function Encode(m: Sent): Bytes {
    if m.Text? then Frame(TEXT, m.bytes) else [0x89, 0x00]
  }

  function EncodeAll(ms: seq<Sent>): Bytes {
    if ms == [] then [] else Encode(ms[0]) + EncodeAll(ms[1..])
  }

  function Texts(ms: seq<Sent>): seq<Bytes> {
    if ms == [] then []
    else if ms[0].Text? then [ms[0].bytes] + Texts(ms[1..])
    else Texts(ms[1..])
  }

  predicate Fits(m: Sent) {
    m.Text? ==> |m.bytes| <= MAX_FRAME
  }

  /** What `next` has to say about the bytes at hand. */
  datatype Next =
    | Tick                    // nothing more can be read off the buffer
    | Frame1(text: Bytes)     // the next text
    | Failed                  // a close frame or garbage

  function Concat(chunks: seq<Bytes>): Bytes {
    if chunks == [] then [] else chunks[0] + Concat(chunks[1..])
  }

  /** The router's end of the stream: the bytes received and not yet parsed,
      and the chunks the socket will deliver. */
  class EventStream {
    var buf: Bytes
    var socket: seq<Bytes>

    constructor (chunks: seq<Bytes>)
      ensures buf == [] && socket == chunks
    {
      buf, socket := [], chunks;
    }

    /** One complete frame off the buffer, or `More` until bytes arrive. */
    method TryParse() returns (r: Parsed)
      modifies this`buf
      ensures r == Parse(old(buf))
      ensures buf == if r.Got? then old(buf)[r.used..] else old(buf)
    {
      var b := buf;
      if |b| < 2 { return More; }
      var op := b[0] % 16;
      if b[1] >= 0x80 { return Bad; }
      var len, off: nat := b[1] as nat, 2;
      if len == 126 {
        if |b| < 4 { return More; }
        len, off := FromBigEndian(b[2..4]), 4;
      } else if len == 127 {
        if |b| < 10 { return More; }
        len, off := FromBigEndian(b[2..10]), 10;
      }
      if len > MAX_FRAME { return Bad; }
      var total := off + len;
      if |b| < total { return More; }
      buf := b[total..];
      return Got(op, b[off..total], total);
    }

    /** The next text frame, reading chunks as they are needed. `Tick` means
        the socket has nothing more to deliver before the deadline. An empty
        read is the end of the stream. */
    method Receive() returns (r: Next)
      modifies this
      ensures (r, buf, socket) == Pull(old(buf), old(socket))
    {
      while true
        invariant Pull(buf, socket) == Pull(old(buf), old(socket))
        decreases |socket|, |buf|
      {
        var p := TryParse();
        if p.Got? {
          if p.op == TEXT { return Frame1(p.payload); }
          if p.op == CLOSE { return Failed; }
        } else if p.Bad? {
          return Failed;
        } else {
          if socket == [] { return Tick; }
          var chunk := socket[0];
          socket := socket[1..];
          if chunk == [] { return Failed; }
          buf := buf + chunk;
        }
      }
    }

    /** Read until nothing is left, collecting the texts. */
    method Drain() returns (texts: seq<Bytes>, end: Next)
      modifies this
      ensures (texts, end, buf, socket) == PullAll(old(buf), old(socket))
    {
      texts := [];
      assert [] + PullAll(buf, socket).0 == PullAll(buf, socket).0;
      while true
        invariant var t := PullAll(buf, socket); var t0 := PullAll(old(buf), old(socket));
                  t0 == (texts + t.0, t.1, t.2, t.3)
        decreases |buf| + |Concat(socket)|, |socket|
      {
        ghost var t := PullAll(buf, socket);
        PullShrinks(buf, socket);
        end := Receive();
        if !end.Frame1? {
          assert texts + [] == texts;
          return;
        }
        ghost var t' := PullAll(buf, socket);
        assert texts + ([end.text] + t'.0) == (texts + [end.text]) + t'.0;
        texts := texts + [end.text];
      }
    }
  }

  /** `Receive` as a function of the buffer and the chunks still to come. */
  function Pull(b: Bytes, chunks: seq<Bytes>): (r: (Next, Bytes, seq<Bytes>))
    decreases |chunks|, |b|
  {
    var p := Parse(b);
    if p.Bad? then (Failed, b, chunks)
    else if p.Got? then
      if p.op == TEXT then (Frame1(p.payload), b[p.used..], chunks)
      else if p.op == CLOSE then (Failed, b[p.used..], chunks)
      else Pull(b[p.used..], chunks)
    else if chunks == [] then (Tick, b, chunks)
    else if chunks[0] == [] then (Failed, b, chunks[1..])
    else Pull(b + chunks[0], chunks[1..])
  }

  lemma {:induction false} PullShrinks(b: Bytes, chunks: seq<Bytes>)
    ensures var r := Pull(b, chunks);
            r.0.Frame1? ==> |r.1| + |Concat(r.2)| < |b| + |Concat(chunks)|
    decreases |chunks|, |b|
  {
    var p := Parse(b);
    if p.Got? && p.op != TEXT && p.op != CLOSE {
      PullShrinks(b[p.used..], chunks);
    } else if p.More? && chunks != [] && chunks[0] != [] {
      PullShrinks(b + chunks[0], chunks[1..]);
    }
  }

  function PullAll(b: Bytes, chunks: seq<Bytes>): (r: (seq<Bytes>, Next, Bytes, seq<Bytes>))
    decreases |b| + |Concat(chunks)|
  {
    PullShrinks(b, chunks);
    var p := Pull(b, chunks);
    if p.0.Frame1? then
      var t := PullAll(p.1, p.2);
      ([p.0.text] + t.0, t.1, t.2, t.3)
    else ([], p.0, p.1, p.2)
  }

  /** The buffer and the chunks to come spell the encoding of `ms`. */
  ghost predicate Spells(b: Bytes, chunks: seq<Bytes>, ms: seq<Sent>) {
    b + Concat(chunks) == EncodeAll(ms) &&
    (forall i :: 0 <= i < |ms| ==> Fits(ms[i])) &&
    (forall i :: 0 <= i < |chunks| ==> chunks[i] != [])
  }

  lemma TakeFrame(b: Bytes, chunks: seq<Bytes>, ms: seq<Sent>)
    requires Spells(b, chunks, ms) && !Parse(b).More?
    ensures ms != [] && Parse(b).Got? && Spells(b[Parse(b).used..], chunks, ms[1..])
    ensures if ms[0].Text? then Parse(b).op == TEXT && Parse(b).payload == ms[0].bytes
            else Parse(b).op == PING
  {
    var whole := b + Concat(chunks);
    LaterBytes(b, Concat(chunks));
    EncodedFrame(ms[0], EncodeAll(ms[1..]));
    assert b[Parse(b).used..] + Concat(chunks) == whole[Parse(b).used..];
  }

  lemma TakeChunk(b: Bytes, chunks: seq<Bytes>, ms: seq<Sent>)
    requires Spells(b, chunks, ms) && chunks != []
    ensures chunks[0] != [] && Spells(b + chunks[0], chunks[1..], ms)
  {
    assert (b + chunks[0]) + Concat(chunks[1..]) == b + Concat(chunks);
  }

  lemma RanDry(b: Bytes, ms: seq<Sent>)
    requires Spells(b, [], ms) && Parse(b).More?
    ensures b == [] && ms == []
  {
    assert b + Concat([]) == b;
    if ms != [] {
      EncodedFrame(ms[0], EncodeAll(ms[1..]));
    }
  }

  /** The next pull gives the next text and leaves what follows it. */
  lemma {:induction false} PullNext(b: Bytes, chunks: seq<Bytes>, ms: seq<Sent>)
      returns (rest: seq<Sent>)
    requires Spells(b, chunks, ms)
    ensures Texts(ms) == [] ==> Pull(b, chunks) == (Tick, [], [])
    ensures Texts(ms) != [] ==>
              Pull(b, chunks).0 == Frame1(Texts(ms)[0]) && Texts(rest) == Texts(ms)[1..] &&
              Spells(Pull(b, chunks).1, Pull(b, chunks).2, rest)
    decreases |chunks|, |ms|
  {
    rest := [];
    if !Parse(b).More? {
      TakeFrame(b, chunks, ms);
      if ms[0].Text? {
        rest := ms[1..];
      } else {
        rest := PullNext(b[Parse(b).used..], chunks, ms[1..]);
      }
    } else if chunks == [] {
      RanDry(b, ms);
    } else {
      TakeChunk(b, chunks, ms);
      rest := PullNext(b + chunks[0], chunks[1..], ms);
    }
  }

  lemma EncodedFrame(m: Sent, rest: Bytes)
    requires Fits(m)
    ensures var p := Parse(Encode(m) + rest);
            p.Got? && (Encode(m) + rest)[p.used..] == rest &&
            (m.Text? ==> p.op == TEXT && p.payload == m.bytes) &&
            (m.Ping? ==> p.op == PING)
  {
    if m.Text? {
      FrameParses(TEXT, m.bytes, rest);
    } else {
      assert Frame(PING, []) == [0x89, 0x00];
      FrameParses(PING, [], rest);
    }
  }

  /** Round trip: however the encoded bytes are cut into chunks, reading after
      each chunk gives exactly the texts, in order, and leaves nothing over. */
  lemma {:induction false} RoundTrip(b: Bytes, chunks: seq<Bytes>, ms: seq<Sent>)
    requires Spells(b, chunks, ms)
    ensures PullAll(b, chunks) == (Texts(ms), Tick, [], [])
    decreases |b| + |Concat(chunks)|
  {
    PullShrinks(b, chunks);
    var rest := PullNext(b, chunks, ms);
    if Texts(ms) != [] {
      RoundTrip(Pull(b, chunks).1, Pull(b, chunks).2, rest);
      assert [Texts(ms)[0]] + Texts(ms)[1..] == Texts(ms);
    }
  }

  /** The same of the stream object: it delivers the texts and ends empty. */
  method Deliver(ms: seq<Sent>, chunks: seq<Bytes>) returns (texts: seq<Bytes>)
    requires Concat(chunks) == EncodeAll(ms)
    requires forall i :: 0 <= i < |ms| ==> Fits(ms[i])
    requires forall i :: 0 <= i < |chunks| ==> chunks[i] != []
    ensures texts == Texts(ms)
  {
    var s := new EventStream(chunks);
    assert [] + Concat(chunks) == Concat(chunks);
    RoundTrip([], chunks, ms);
    var end;
    texts, end := s.Drain();
    assert end == Tick && s.buf == [] && s.socket == [];
  }

  /** A text over the limit is where the round trip ends: the decoder reports
      an error as soon as it reaches that frame's header. */
  lemma {:induction false} OversizeFails(ms: seq<Sent>, bytes: Bytes, after: seq<Sent>)
    requires forall i :: 0 <= i < |ms| ==> Fits(ms[i])
    requires MAX_FRAME < |bytes| < 65536 * 65536 * 65536 * 65536
    ensures var r := PullAll(EncodeAll(ms + [Text(bytes)] + after), []);
            r.0 == Texts(ms) && r.1 == Failed
    decreases |ms|
  {
    var all := ms + [Text(bytes)] + after;
    var b := EncodeAll(all);
    if ms == [] {
      assert all[0] == Text(bytes);
      FrameParses(TEXT, bytes, EncodeAll(all[1..]));
    } else {
      assert all[0] == ms[0] && all[1..] == ms[1..] + [Text(bytes)] + after;
      EncodedFrame(ms[0], EncodeAll(all[1..]));
      OversizeFails(ms[1..], bytes, after);
      PullShrinks(b, []);
    }
  }

  /** The texts that come through whole are exactly the sequences in which
      every text is within the limit. */
  lemma SurvivesExactly(ms: seq<Sent>)
    requires forall i :: 0 <= i < |ms| && ms[i].Text? ==>
               |ms[i].bytes| < 65536 * 65536 * 65536 * 65536
    ensures PullAll(EncodeAll(ms), []) == (Texts(ms), Tick, [], []) <==>
            forall i :: 0 <= i < |ms| ==> Fits(ms[i])
  {
    hide PullAll, EncodeAll, Texts;
    if forall i :: 0 <= i < |ms| ==> Fits(ms[i]) {
      WholeComes(ms);
    } else {
      var i := FirstMisfit(ms);
      assert ms == ms[..i] + [Text(ms[i].bytes)] + ms[i + 1..];
      OversizeFails(ms[..i], ms[i].bytes, ms[i + 1..]);
    }
  }

  lemma WholeComes(ms: seq<Sent>)
    requires forall i :: 0 <= i < |ms| ==> Fits(ms[i])
    ensures PullAll(EncodeAll(ms), []) == (Texts(ms), Tick, [], [])
  {
    hide PullAll, Texts;
    var b := EncodeAll(ms);
    assert b + Concat([]) == b;
    RoundTrip(b, [], ms);
  }

  function FirstMisfit(ms: seq<Sent>): (i: nat)
    requires exists i :: 0 <= i < |ms| && !Fits(ms[i])
    ensures i < |ms| && !Fits(ms[i]) && forall j :: 0 <= j < i ==> Fits(ms[j])
  {
    if !Fits(ms[0]) then 0
    else
      assert exists i :: 0 <= i < |ms[1..]| && !Fits(ms[1..][i]) by {
        var i :| 0 <= i < |ms| && !Fits(ms[i]);
        assert ms[1..][i - 1] == ms[i];
      }
      1 + FirstMisfit(ms[1..])
  }
}
