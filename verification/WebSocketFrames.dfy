/**
  The listener's WebSocket decoder (listen.py, `frames`, `send_control_frame`) over bytes. The method
  reads the socket chunk by chunk; the specification sees one byte stream.
 */
module WebSocketFrames {
  import opened Common

  /** A byte; the code's bit operations on it are written as arithmetic. */
  type byte = b: int | 0 <= b < 256
  type Bytes = seq<byte>

  const TEXT: byte := 0x1
  const BINARY: byte := 0x2
  const CLOSE: byte := 0x8
  const PING: byte := 0x9
  const PONG: byte := 0xA
  const MAX_CONTROL_PAYLOAD := 125

  datatype Frame = Frame(opcode: byte, payload: Bytes)

  // ---- Masking (section 5.3 of RFC 6455) ----

  /** Exclusive or of the low `bits` bits. */
  function XorBits(a: nat, b: nat, bits: nat): (x: nat) {
    if bits == 0 then 0 else 2 * XorBits(a / 2, b / 2, bits - 1) + (a % 2 + b % 2) % 2
  }

  function Power2(bits: nat): nat {
    if bits == 0 then 1 else 2 * Power2(bits - 1)
  }

  lemma {:induction false} XorFits(a: nat, b: nat, bits: nat)
    ensures XorBits(a, b, bits) < Power2(bits)
  {
    if bits > 0 {
      XorFits(a / 2, b / 2, bits - 1);
    }
  }

  lemma Halves(y: nat, bit: nat)
    requires bit < 2
    ensures (2 * y + bit) / 2 == y && (2 * y + bit) % 2 == bit
  {
  }

  lemma BitTwice(p: nat, q: nat)
    requires p < 2 && q < 2
    ensures (p + q) % 2 < 2 && ((p + q) % 2 + q) % 2 == p
  {
  }

  lemma {:induction false} XorBitsTwice(a: nat, b: nat, bits: nat)
    requires a < Power2(bits)
    ensures XorBits(XorBits(a, b, bits), b, bits) == a
  {
    if bits > 0 {
      var half, bit := XorBits(a / 2, b / 2, bits - 1), (a % 2 + b % 2) % 2;
      XorBitsTwice(a / 2, b / 2, bits - 1);
      Halves(half, bit);
      BitTwice(a % 2, b % 2);
    }
  }

  lemma ByteBits()
    ensures Power2(8) == 256
  {
    assert Power2(2) == 4;
    assert Power2(4) == 16;
    assert Power2(6) == 64;
  }

  /** The bit of `n` at position `k`. */
  function Bit(n: nat, k: nat): nat {
    if k == 0 then n % 2 else Bit(n / 2, k - 1)
  }

  /** Exclusive or, bit by bit: a bit is set exactly when the two differ there. */
  lemma {:induction false} XorIsBitwise(a: nat, b: nat, bits: nat, k: nat)
    ensures Bit(XorBits(a, b, bits), k) == if k < bits && Bit(a, k) != Bit(b, k) then 1 else 0
  {
    if bits == 0 {
      NoBits(k);
    } else {
      var half, bit := XorBits(a / 2, b / 2, bits - 1), (a % 2 + b % 2) % 2;
      Halves(half, bit);
      if k > 0 {
        XorIsBitwise(a / 2, b / 2, bits - 1, k - 1);
      }
    }
  }

  lemma {:induction false} NoBits(k: nat)
    ensures Bit(0, k) == 0
  {
    if k > 0 {
      NoBits(k - 1);
    }
  }

  function Xor(a: byte, b: byte): byte {
    XorFits(a, b, 8);
    ByteBits();
    XorBits(a, b, 8)
  }

  function Masked(payload: Bytes, mask: Bytes): Bytes
    requires |mask| == 4
  {
    seq(|payload|, i requires 0 <= i < |payload| => Xor(payload[i], mask[i % 4]))
  }

  lemma MaskedLength(payload: Bytes, mask: Bytes)
    requires |mask| == 4
    ensures |Masked(payload, mask)| == |payload|
  {
  }

  /** Byte `i` of a masked payload differs from the payload in exactly the bits of the key's byte `i % 4`. */
  lemma MaskedBits(payload: Bytes, mask: Bytes, i: nat, k: nat)
    requires |mask| == 4 && i < |payload| && k < 8
    ensures Bit(Masked(payload, mask)[i], k) == if Bit(payload[i], k) != Bit(mask[i % 4], k) then 1 else 0
  {
    XorIsBitwise(payload[i], mask[i % 4], 8, k);
  }

  lemma XorTwice(a: byte, b: byte)
    ensures Xor(Xor(a, b), b) == a
  {
    ByteBits();
    XorBitsTwice(a, b, 8);
  }

  /** Unmasking inverts masking. */
  lemma UnmaskingInverts(payload: Bytes, mask: Bytes)
    requires |mask| == 4
    ensures Masked(Masked(payload, mask), mask) == payload
  {
    forall i | 0 <= i < |payload| ensures Masked(Masked(payload, mask), mask)[i] == payload[i] {
      XorTwice(payload[i], mask[i % 4]);
    }
  }

  // ---- Reading one frame (section 5.2 of RFC 6455) ----

  function BigEndian(bytes: Bytes): nat {
    if bytes == [] then 0 else BigEndian(bytes[..|bytes| - 1]) * 256 + bytes[|bytes| - 1]
  }

  /** How many bytes the extended length takes. */
  function LengthBytes(b1: byte): nat {
    if b1 % 128 == 126 then 2 else if b1 % 128 == 127 then 8 else 0
  }

  function OpcodeOf(b0: byte): byte {
    b0 % 16
  }

  function ShortLength(b1: byte): nat {
    b1 % 128
  }

  predicate IsMasked(b1: byte) {
    b1 >= 128
  }

  function HeaderLength(buf: Bytes): nat
    requires |buf| >= 2
  {
    2 + LengthBytes(buf[1]) + if IsMasked(buf[1]) then 4 else 0
  }

  function PayloadLength(buf: Bytes): nat
    requires |buf| >= 2 && |buf| >= 2 + LengthBytes(buf[1])
  {
    if LengthBytes(buf[1]) == 0 then ShortLength(buf[1]) else BigEndian(buf[2..2 + LengthBytes(buf[1])])
  }

  /** The buffer starts with a whole frame. */
  predicate Complete(buf: Bytes) {
    |buf| >= 2 && |buf| >= HeaderLength(buf) && |buf| >= HeaderLength(buf) + PayloadLength(buf)
  }

  function FrameLength(buf: Bytes): (n: nat)
    requires Complete(buf)
    ensures 2 <= n <= |buf|
  {
    HeaderLength(buf) + PayloadLength(buf)
  }

  function FrameAt(buf: Bytes): Frame
    requires Complete(buf)
  {
    var h := HeaderLength(buf);
    var payload := buf[h..h + PayloadLength(buf)];
    Frame(OpcodeOf(buf[0]), if IsMasked(buf[1]) then Masked(payload, buf[h - 4..h]) else payload)
  }

  /** More bytes behind a whole frame do not change it. */
  lemma CompleteStays(buf: Bytes, more: Bytes)
    requires Complete(buf)
    ensures Complete(buf + more) && FrameLength(buf + more) == FrameLength(buf) && FrameAt(buf + more) == FrameAt(buf)
  {
    hide OpcodeOf, ShortLength, LengthBytes, IsMasked, Masked, BigEndian;
    var all := buf + more;
    assert all[2..2 + LengthBytes(buf[1])] == buf[2..2 + LengthBytes(buf[1])];
    assert PayloadLength(all) == PayloadLength(buf) && HeaderLength(all) == HeaderLength(buf);
    var h := HeaderLength(buf);
    assert all[h..h + PayloadLength(buf)] == buf[h..h + PayloadLength(buf)];
    if IsMasked(buf[1]) {
      assert all[h - 4..h] == buf[h - 4..h];
    }
  }

  // ---- A whole stream ----

  datatype Output = Data(payload: Bytes) | Pong(payload: Bytes)

  datatype End = Disconnected | Closed | Refused

  datatype Trace = Trace(outputs: seq<Output>, end: End)

  function Then(output: Output, rest: Trace): Trace {
    rest.(outputs := [output] + rest.outputs)
  }

  /** What the decoder does with a stream that then ends. */
  function Process(stream: Bytes): Trace
    decreases |stream|
  {
    if !Complete(stream) then Trace([], Disconnected)
    else
      var frame, rest := FrameAt(stream), stream[FrameLength(stream)..];
      if frame.opcode == CLOSE then Trace([], Closed)
      else if frame.opcode == PING then
        if |frame.payload| > MAX_CONTROL_PAYLOAD then Trace([], Refused)
        else Then(Pong(frame.payload), Process(rest))
      else if frame.opcode == TEXT || frame.opcode == BINARY then Then(Data(frame.payload), Process(rest))
      else Process(rest)
  }

  function DataOf(outputs: seq<Output>): seq<Bytes> {
    if outputs == [] then []
    else DataOf(outputs[..|outputs| - 1]) +
         (match outputs[|outputs| - 1] case Data(payload) => [payload] case Pong(_) => [])
  }

  function PongsOf(outputs: seq<Output>): seq<Bytes> {
    if outputs == [] then []
    else PongsOf(outputs[..|outputs| - 1]) +
         (match outputs[|outputs| - 1] case Pong(payload) => [payload] case Data(_) => [])
  }

  // ---- Control frames ----

  /** The FIN bit of the first byte, the mask bit of the second. */
  function Flagged(b: byte): byte {
    if b < 128 then b + 128 else b
  }

  /** A masked client control frame. */
  function ControlFrame(opcode: byte, payload: Bytes, mask: Bytes): Bytes
    requires |payload| <= MAX_CONTROL_PAYLOAD && |mask| == 4
  {
    [Flagged(opcode), Flagged(|payload|)] + mask + Masked(payload, mask)
  }

  /** A frame put together from its parts is read as those parts. */
  lemma PartsAreRead(b0: byte, b1: byte, extended: Bytes, key: Bytes, body: Bytes)
    requires LengthBytes(b1) == |extended| && |key| == (if IsMasked(b1) then 4 else 0)
    requires |body| == if |extended| == 0 then ShortLength(b1) else BigEndian(extended)
    ensures var bytes := [b0, b1] + extended + key + body;
            && Complete(bytes) && FrameLength(bytes) == |bytes|
            && FrameAt(bytes) == Frame(OpcodeOf(b0), if IsMasked(b1) then Masked(body, key) else body)
  {
    hide OpcodeOf, ShortLength, LengthBytes, IsMasked, Masked, BigEndian;
    var bytes := [b0, b1] + extended + key + body;
    assert bytes[2..2 + |extended|] == extended;
    var h := HeaderLength(bytes);
    assert bytes[h - |key|..h] == key && bytes[h..h + |body|] == body;
  }

  /** A control frame, read back by the same rules, has the opcode and payload it was made from. */
  lemma ControlFrameDecodes(opcode: byte, payload: Bytes, mask: Bytes)
    requires opcode < 16 && |payload| <= MAX_CONTROL_PAYLOAD && |mask| == 4
    ensures var bytes := ControlFrame(opcode, payload, mask);
            Complete(bytes) && FrameLength(bytes) == |bytes| && FrameAt(bytes) == Frame(opcode, payload)
  {
    UnmaskingInverts(payload, mask);
    hide OpcodeOf, ShortLength, LengthBytes, IsMasked, BigEndian, FrameAt, FrameLength, Complete;
    var b0, b1 := Flagged(opcode), Flagged(|payload|);
    PartsAreRead(b0, b1, [], mask, Masked(payload, mask));
    assert [b0, b1] + [] + mask + Masked(payload, mask) == ControlFrame(opcode, payload, mask);
  }

  // ---- The decoder ----

  function Concat(chunks: seq<Bytes>): Bytes {
    if chunks == [] then [] else chunks[0] + Concat(chunks[1..])
  }

  /** The peer's bytes in the chunks `recv` returns them in, and what was sent back. */
  class Socket {
    var incoming: seq<Bytes>
    var sent: seq<Bytes>

    ghost predicate Valid()
      reads this
    {
      forall k :: 0 <= k < |incoming| ==> incoming[k] != []
    }

    /** An empty result means that the peer is gone. */
    method Recv() returns (data: Bytes)
      requires Valid()
      modifies `incoming
      ensures Valid() && data + Concat(incoming) == Concat(old(incoming)) && |incoming| <= |old(incoming)|
      ensures data == [] <==> old(incoming) == []
      ensures data != [] ==> |incoming| < |old(incoming)|
    {
      if incoming == [] {
        return [];
      }
      data := incoming[0];
      incoming := incoming[1..];
    }

    /** Refuses a control payload over 125 bytes, sending nothing. */
    method SendControlFrame(opcode: byte, payload: Bytes, mask: Bytes) returns (ok: bool)
      requires |mask| == 4
      modifies `sent
      ensures ok <==> |payload| <= MAX_CONTROL_PAYLOAD
      ensures sent == if ok then old(sent) + [ControlFrame(opcode, payload, mask)] else old(sent)
    {
      if |payload| > MAX_CONTROL_PAYLOAD {
        return false;
      }
      var masked := new byte[|payload|](i requires 0 <= i < |payload| => Xor(payload[i], mask[i % 4]));
      assert masked[..] == Masked(payload, mask);
      sent := sent + [[Flagged(opcode), Flagged(|payload|)] + mask + masked[..]];
      ok := true;
    }
  }

  /** Read until the buffer has `n` bytes or the peer is gone. */
  method Fill(s: Socket, buf: Bytes, n: nat) returns (filled: Bytes)
    requires s.Valid()
    modifies s`incoming
    ensures s.Valid() && filled + Concat(s.incoming) == buf + Concat(old(s.incoming)) && buf <= filled
    ensures |filled| >= n || s.incoming == []
  {
    filled := buf;
    while |filled| < n
      invariant s.Valid() && filled + Concat(s.incoming) == buf + Concat(old(s.incoming)) && buf <= filled
      decreases |s.incoming|
    {
      var data := s.Recv();
      if data == [] {
        assert s.incoming == [];
        return;
      }
      filled := filled + data;
    }
  }

  /** The next whole frame, if the peer sends one. */
  method ReadFrame(s: Socket, buf: Bytes) returns (frame: Option<Frame>, rest: Bytes)
    requires s.Valid()
    modifies s`incoming
    ensures s.Valid()
    ensures var stream := buf + Concat(old(s.incoming));
            if Complete(stream)
            then frame == Some(FrameAt(stream)) && rest + Concat(s.incoming) == stream[FrameLength(stream)..]
            else frame.None?
  {
    hide LengthBytes, IsMasked, ShortLength, BigEndian, FrameAt, Concat;
    rest := Fill(s, buf, 2);
    if |rest| < 2 {
      NothingMore(s.incoming, rest);
      return None, rest;
    }
    rest := Fill(s, rest, 2 + LengthBytes(rest[1]));
    if |rest| < 2 + LengthBytes(rest[1]) {
      NothingMore(s.incoming, rest);
      return None, rest;
    }
    rest := Fill(s, rest, HeaderLength(rest));
    if |rest| < HeaderLength(rest) {
      NothingMore(s.incoming, rest);
      return None, rest;
    }
    ghost var header := rest;
    var size := HeaderLength(rest) + PayloadLength(rest);
    rest := Fill(s, rest, size);
    assert rest[2..2 + LengthBytes(rest[1])] == header[2..2 + LengthBytes(rest[1])];
    if |rest| < size {
      NothingMore(s.incoming, rest);
      return None, rest;
    }
    CompleteStays(rest, Concat(s.incoming));
    assert (rest + Concat(s.incoming))[size..] == rest[size..] + Concat(s.incoming);
    frame := Some(FrameAt(rest));
    rest := rest[size..];
  }

  lemma NothingMore(incoming: seq<Bytes>, rest: Bytes)
    ensures incoming == [] ==> rest + Concat(incoming) == rest
  {
  }

  lemma {:induction false} SplitOutputs(outputs: seq<Output>, output: Output)
    ensures DataOf(outputs + [output]) == DataOf(outputs) + (match output case Data(p) => [p] case Pong(_) => [])
    ensures PongsOf(outputs + [output]) == PongsOf(outputs) + (match output case Pong(p) => [p] case Data(_) => [])
  {
    assert (outputs + [output])[..|outputs|] == outputs;
  }

  /** Each sent frame is a pong with the payload of its ping, under some mask. */
  ghost predicate Answers(sent: seq<Bytes>, pongs: seq<Bytes>, masks: nat -> Bytes) {
    |sent| == |pongs| &&
    forall i :: 0 <= i < |sent| ==>
      |masks(i)| == 4 && |pongs[i]| <= MAX_CONTROL_PAYLOAD && sent[i] == ControlFrame(PONG, pongs[i], masks(i))
  }

  lemma AnswersMore(sent: seq<Bytes>, pongs: seq<Bytes>, masks: nat -> Bytes, payload: Bytes)
    requires Answers(sent, pongs, masks) && |masks(|pongs|)| == 4 && |payload| <= MAX_CONTROL_PAYLOAD
    ensures Answers(sent + [ControlFrame(PONG, payload, masks(|pongs|))], pongs + [payload], masks)
  {
  }

  /** After `outputs`, what remains of the stream leads to `all`. */
  predicate Continues(all: Trace, outputs: seq<Output>, rest: Trace) {
    all == rest.(outputs := outputs + rest.outputs)
  }

  /** One round of the decoder on what remains of the stream. */
  lemma OneRound(all: Trace, outputs: seq<Output>, stream: Bytes)
    requires Continues(all, outputs, Process(stream))
    ensures if !Complete(stream) then all == Trace(outputs, Disconnected)
            else
              var frame, rest := FrameAt(stream), Process(stream[FrameLength(stream)..]);
              if frame.opcode == CLOSE then all == Trace(outputs, Closed)
              else if frame.opcode == PING then
                if |frame.payload| > MAX_CONTROL_PAYLOAD then all == Trace(outputs, Refused)
                else Continues(all, outputs + [Pong(frame.payload)], rest)
              else if frame.opcode == TEXT || frame.opcode == BINARY then Continues(all, outputs + [Data(frame.payload)], rest)
              else Continues(all, outputs, rest)
  {
    hide FrameAt, FrameLength, Complete, Continues;
    if !Complete(stream) || FrameAt(stream).opcode == CLOSE {
      NothingFollows(all, outputs, Process(stream));
    } else {
      var frame, rest := FrameAt(stream), Process(stream[FrameLength(stream)..]);
      if frame.opcode == PING {
        if |frame.payload| > MAX_CONTROL_PAYLOAD {
          NothingFollows(all, outputs, Process(stream));
        } else {
          OneFollows(all, outputs, Pong(frame.payload), rest);
        }
      } else if frame.opcode == TEXT || frame.opcode == BINARY {
        OneFollows(all, outputs, Data(frame.payload), rest);
      }
    }
  }

  lemma NothingFollows(all: Trace, outputs: seq<Output>, rest: Trace)
    requires Continues(all, outputs, rest) && rest.outputs == []
    ensures all == Trace(outputs, rest.end)
  {
  }

  lemma OneFollows(all: Trace, outputs: seq<Output>, output: Output, rest: Trace)
    requires Continues(all, outputs, Then(output, rest))
    ensures Continues(all, outputs + [output], rest)
  {
    assert outputs + ([output] + rest.outputs) == outputs + [output] + rest.outputs;
  }

  /** Answer a ping; a payload too large for a control frame ends the decoder. */
  method Reply(s: Socket, payload: Bytes, masks: nat -> Bytes, ghost before: seq<Bytes>, ghost outputs: seq<Output>, n: nat) returns (ok: bool)
    requires |masks(n)| == 4 && n == |PongsOf(outputs)| && before <= s.sent
    requires Answers(s.sent[|before|..], PongsOf(outputs), masks)
    modifies s`sent
    ensures ok <==> |payload| <= MAX_CONTROL_PAYLOAD
    ensures before <= s.sent
    ensures Answers(s.sent[|before|..], PongsOf(if ok then outputs + [Pong(payload)] else outputs), masks)
  {
    ghost var sent := s.sent;
    ok := s.SendControlFrame(PONG, payload, masks(n));
    if ok {
      SplitOutputs(outputs, Pong(payload));
      AnswersMore(sent[|before|..], PongsOf(outputs), masks, payload);
      assert s.sent[|before|..] == sent[|before|..] + [ControlFrame(PONG, payload, masks(n))];
    }
  }

  /**
    `frames`: the data payloads and the pongs are those of the whole stream, however it is chunked.
   */
  method Frames(s: Socket, leftover: Bytes, masks: nat -> Bytes) returns (yielded: seq<Bytes>, end: End)
    requires s.Valid() && forall i :: |masks(i)| == 4
    modifies s
    ensures var trace := Process(leftover + Concat(old(s.incoming)));
            && yielded == DataOf(trace.outputs) && end == trace.end
            && old(s.sent) <= s.sent && Answers(s.sent[|old(s.sent)|..], PongsOf(trace.outputs), masks)
  {
    assert Answers(s.sent[|s.sent|..], PongsOf([]), masks) && DataOf([]) == [] && PongsOf([]) == [];
    hide FrameAt, FrameLength, Complete, Concat, Answers, DataOf, PongsOf, Process;
    ghost var all, outputs := Process(leftover + Concat(s.incoming)), [];
    assert [] + all.outputs == all.outputs;
    var buf, pongs: nat := leftover, 0;
    yielded := [];
    while true
      invariant s.Valid() && old(s.sent) <= s.sent
      invariant Continues(all, outputs, Process(buf + Concat(s.incoming)))
      invariant yielded == DataOf(outputs) && pongs == |PongsOf(outputs)|
      invariant Answers(s.sent[|old(s.sent)|..], PongsOf(outputs), masks)
      decreases |buf + Concat(s.incoming)|
    {
      OneRound(all, outputs, buf + Concat(s.incoming));
      hide Continues;
      var frame;
      frame, buf := ReadFrame(s, buf);
      if frame.None? {
        return yielded, Disconnected;
      }
      var opcode, payload := frame.value.opcode, frame.value.payload;
      if opcode == CLOSE {
        return yielded, Closed;
      }
      if opcode == PING {
        var ok := Reply(s, payload, masks, old(s.sent), outputs, pongs);
        if !ok {
          return yielded, Refused;
        }
        SplitOutputs(outputs, Pong(payload));
        outputs := outputs + [Pong(payload)];
        pongs := pongs + 1;
      } else if opcode == TEXT || opcode == BINARY {
        SplitOutputs(outputs, Data(payload));
        outputs := outputs + [Data(payload)];
        yielded := yielded + [payload];
      }
    }
  }

  // ---- Streams of well-formed frames ----

  /** An unfragmented frame as a peer sends it, masked or not. */
  datatype Sent = Sent(opcode: byte, payload: Bytes, mask: Option<Bytes>)

  const TWO_TO_63 := 0x8000_0000_0000_0000

  predicate Sendable(f: Sent) {
    f.opcode < 16 && |f.payload| < TWO_TO_63 && (f.mask.Some? ==> |f.mask.value| == 4)
  }

  /** The low `width` bytes of `n`, most significant first. */
  function Digits(n: nat, width: nat): Bytes {
    if width == 0 then [] else Digits(n / 256, width - 1) + [n % 256]
  }

  function Power(width: nat): nat {
    if width == 0 then 1 else 256 * Power(width - 1)
  }

  lemma {:induction false} DigitsRead(n: nat, width: nat)
    requires n < Power(width)
    ensures |Digits(n, width)| == width && BigEndian(Digits(n, width)) == n
  {
    if width > 0 {
      DigitsRead(n / 256, width - 1);
      var digits := Digits(n, width);
      assert digits[..|digits| - 1] == Digits(n / 256, width - 1);
    }
  }

  /** Section 5.2 of RFC 6455: the shortest of the three length forms. */
  function LengthField(n: nat): (byte, Bytes) {
    if n <= 125 then (n, [])
    else if n < 0x10000 then (126, Digits(n, 2))
    else (127, Digits(n, 8))
  }

  function Encode(f: Sent): Bytes
    requires Sendable(f)
  {
    var (short, extended) := LengthField(|f.payload|);
    match f.mask
    case None => [Flagged(f.opcode), short] + extended + f.payload
    case Some(mask) => [Flagged(f.opcode), Flagged(short)] + extended + mask + Masked(f.payload, mask)
  }

  /** What the second byte and the extended length say of a payload of `n` bytes. */
  lemma LengthFieldReads(n: nat, masked: bool)
    requires n < TWO_TO_63
    ensures var (short, extended) := LengthField(n); var b1 := if masked then Flagged(short) else short;
            && IsMasked(b1) == masked && LengthBytes(b1) == |extended|
            && n == if |extended| == 0 then ShortLength(b1) else BigEndian(extended)
  {
    assert Power(0) == 1 && Power(1) == 256 && Power(2) == 0x10000;
    assert Power(4) == 0x1_0000_0000 && Power(8) == 0x1_0000_0000_0000_0000 by {
      assert Power(3) == 0x100_0000 && Power(5) == 0x100_0000_0000;
      assert Power(6) == 0x1_0000_0000_0000 && Power(7) == 0x100_0000_0000_0000;
    }
    if n > 125 {
      DigitsRead(n, if n < 0x10000 then 2 else 8);
    }
  }

  lemma EncodedAlone(f: Sent)
    requires Sendable(f)
    ensures var bytes := Encode(f);
            Complete(bytes) && FrameLength(bytes) == |bytes| && FrameAt(bytes) == Frame(f.opcode, f.payload)
  {
    var b0, short, extended := Flagged(f.opcode), LengthField(|f.payload|).0, LengthField(|f.payload|).1;
    assert OpcodeOf(b0) == f.opcode;
    LengthFieldReads(|f.payload|, f.mask.Some?);
    hide OpcodeOf, ShortLength, LengthBytes, IsMasked, BigEndian, LengthField, FrameAt, FrameLength, Complete, Masked, Flagged;
    if f.mask.Some? {
      UnmaskingInverts(f.payload, f.mask.value);
      assert |Masked(f.payload, f.mask.value)| == |f.payload| by { MaskedLength(f.payload, f.mask.value); }
      PartsAreRead(b0, Flagged(short), extended, f.mask.value, Masked(f.payload, f.mask.value));
    } else {
      PartsAreRead(b0, short, extended, [], f.payload);
      assert [b0, short] + extended + [] + f.payload == Encode(f);
    }
  }

  /** Reading what was encoded, with anything behind it. */
  lemma EncodedIsRead(f: Sent, rest: Bytes)
    requires Sendable(f)
    ensures var bytes := Encode(f);
            && Complete(bytes + rest) && FrameLength(bytes + rest) == |bytes|
            && FrameAt(bytes + rest) == Frame(f.opcode, f.payload)
  {
    EncodedAlone(f);
    hide *;
    CompleteStays(Encode(f), rest);
  }

  function EncodeAll(frames: seq<Sent>): Bytes
    requires forall k :: 0 <= k < |frames| ==> Sendable(frames[k])
  {
    if frames == [] then [] else Encode(frames[0]) + EncodeAll(frames[1..])
  }

  /** Up to the first close: each text or binary payload is delivered, each ping answered. */
  function Expected(frames: seq<Sent>): Trace {
    if frames == [] then Trace([], Disconnected)
    else
      var f := frames[0];
      if f.opcode == CLOSE then Trace([], Closed)
      else if f.opcode == PING then
        if |f.payload| > MAX_CONTROL_PAYLOAD then Trace([], Refused) else Then(Pong(f.payload), Expected(frames[1..]))
      else if f.opcode == TEXT || f.opcode == BINARY then Then(Data(f.payload), Expected(frames[1..]))
      else Expected(frames[1..])
  }

  /** Decoding a stream of encoded frames gives exactly what the frames ask for, however long they are. */
  lemma {:induction false} StreamIsDecoded(frames: seq<Sent>)
    requires forall k :: 0 <= k < |frames| ==> Sendable(frames[k])
    ensures Process(EncodeAll(frames)) == Expected(frames)
  {
    if frames != [] {
      var rest := EncodeAll(frames[1..]);
      StreamIsDecoded(frames[1..]);
      EncodedIsRead(frames[0], rest);
      hide Complete, FrameAt, FrameLength, Encode, Sendable;
      assert (Encode(frames[0]) + rest)[|Encode(frames[0])|..] == rest;
    }
  }
}
