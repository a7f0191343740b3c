/** The framed TCP protocol: the frame encoder, the incremental decoder and what one
    decoding iteration does.

    A frame is  magic(4) version(1) type(4) correlation(8) length(4) payload checksum(8),
    every word little-endian, the checksum covering everything before it. */
module Frames {
  import opened Bytes

  const FRAME_MAGIC: u32 := 0x3146_5044
  const FRAME_VERSION: byte := 1
  const HEADER_LEN: nat := 21
  const CHECKSUM_LEN: nat := 8

  /** `kind` is the numeric frame type of the canonical table (HELLO = 1 .. RELEASE_RESP = 23). */
  datatype Frame = Frame(kind: u32, correlation: u64, payload: seq<byte>)

  datatype FrameError = BadMagic | BadVersion | UnknownType | Oversized | ChecksumMismatch

  /** Canonical payload bound per frame type; 0 for a type outside the table. */
  function MaxFrameLen(kind: u32): (m: nat)
  {
    match kind
    case 1 => 4096      // HELLO
    case 2 => 4096      // REGISTER
    case 3 => 65536     // PUBLISH_NODE
    case 4 => 65536     // PUBLISH_RESOURCE
    case 5 => 256       // HEARTBEAT
    case 6 => 8192      // COMPOSE_REQ
    case 7 => 262144    // RESERVE_REQ
    case 8 => 8192      // COMMIT_REQ
    case 9 => 8192      // ACTIVATE_REQ
    case 10 => 1024     // QUERY_STATE
    case 11 => 1024     // ACK
    case 12 => 4096     // NACK
    case 13 => 524288   // COMPOSE_RESP
    case 14 => 524288   // RESERVE_RESP
    case 15 => 524288   // COMMIT_RESP
    case 16 => 524288   // ACTIVATE_RESP
    case 17 => 524288   // STATE_RESP
    case 18 => 4096     // ERROR
    case 19 => 256      // BYE
    case 20 => 1024     // SAVE_REQ
    case 21 => 4096     // SAVE_RESP
    case 22 => 1024     // RELEASE_REQ
    case 23 => 1024     // RELEASE_RESP
    case _ => 0
  }

  const GLOBAL_MAX: nat := 524288

  /** The bound derived from the table is the least one above every type, in or out of the table. */
  method GlobalMaxFrameLen() returns (m: nat)
    ensures m == GLOBAL_MAX
    ensures forall kind: u32 :: MaxFrameLen(kind) <= m
    ensures exists kind: u32 :: MaxFrameLen(kind) == m
  {
    m := 0;
    for v: int := 1 to 24
      invariant forall kind: u32 :: 1 <= kind < v ==> MaxFrameLen(kind) <= m
      invariant m == 0 || exists kind: u32 :: MaxFrameLen(kind) == m
      invariant v > 13 ==> m == GLOBAL_MAX
    {
      var x := MaxFrameLen(v);
      if x > m { m := x; }
    }
  }

  predicate Encodable(f: Frame)
  {
    MaxFrameLen(f.kind) > 0 && |f.payload| <= MaxFrameLen(f.kind)
  }

  function Header(f: Frame): (h: seq<byte>)
    requires Encodable(f)
    ensures |h| == HEADER_LEN
  {
    Le(4, FRAME_MAGIC) + [FRAME_VERSION] + Le(4, f.kind) + Le(8, f.correlation) + Le(4, |f.payload|)
  }

  /** The wire image of a frame; nothing for an oversized or unknown one. */
  function Image(f: Frame): (b: seq<byte>)
    ensures Encodable(f) ==> |b| == HEADER_LEN + |f.payload| + CHECKSUM_LEN
    ensures !Encodable(f) ==> b == []
  {
    if !Encodable(f) then [] else
      var body := Header(f) + f.payload;
      body + Le(8, Fnv(body))
  }

  method PutWord(v: seq<byte>, n: nat, x: nat) returns (r: seq<byte>)
    ensures r == v + Le(n, x)
  {
    r := v;
    var rest := x;
    for i := 0 to n
      invariant r + Le(n - i, rest) == v + Le(n, x)
    {
      r := r + [rest % 256];
      rest := rest / 256;
    }
  }

  method Encode(kind: u32, correlation: u64, payload: seq<byte>) returns (v: seq<byte>)
    ensures v == Image(Frame(kind, correlation, payload))
  {
    var max := MaxFrameLen(kind);
    if max == 0 || |payload| > max { return []; }
    v := PutWord([], 4, FRAME_MAGIC);
    assert v == Le(4, FRAME_MAGIC);
    v := v + [FRAME_VERSION];
    v := PutWord(v, 4, kind);
    v := PutWord(v, 8, correlation);
    v := PutWord(v, 4, |payload|);
    ghost var f := Frame(kind, correlation, payload);
    assert v == Header(f);
    v := v + payload;
    var sum := ComputeFnv(v);
    v := PutWord(v, 8, sum);
  }

  // ---- one iteration of the decoder ------------------------------------------

  datatype Parse = NeedMore | Reject(error: FrameError) | Take(frame: Frame, total: nat)

  /** What the decoder loop does with the front of its buffer. */
  function ParseOne(b: seq<byte>): (p: Parse)
    ensures p.Take? ==> HEADER_LEN + CHECKSUM_LEN <= p.total <= |b|
    ensures p.Take? ==> Encodable(p.frame) && p.total == |Image(p.frame)|
    ensures p.NeedMore? ==> |b| < HEADER_LEN + GLOBAL_MAX + CHECKSUM_LEN
  {
    if |b| < HEADER_LEN then NeedMore
    else if GetU32(b[0..4]) != FRAME_MAGIC then Reject(BadMagic)
    else if b[4] != FRAME_VERSION then Reject(BadVersion)
    else
      var kind := GetU32(b[5..9]);
      var max := MaxFrameLen(kind);
      if max == 0 then Reject(UnknownType) else
      var len := GetU32(b[17..21]);
      if len > max || len > GLOBAL_MAX then Reject(Oversized) else
      var total := HEADER_LEN + len + CHECKSUM_LEN;
      if |b| < total then NeedMore
      else if GetU64(b[HEADER_LEN + len..total]) != Fnv(b[..HEADER_LEN + len]) then Reject(ChecksumMismatch)
      else Take(Frame(kind, GetU64(b[9..17]), b[HEADER_LEN..HEADER_LEN + len]), total)
  }

  /** More bytes never change a verdict already reached. */
  lemma ParseOneStable(b: seq<byte>, more: seq<byte>)
    requires !ParseOne(b).NeedMore?
    ensures ParseOne(b + more) == ParseOne(b)
  {
    var c := b + more;
    assert c[0..4] == b[0..4] && c[5..9] == b[5..9] && c[9..17] == b[9..17] && c[17..21] == b[17..21];
    var len := GetU32(b[17..21]);
    if |b| >= HEADER_LEN + len + CHECKSUM_LEN {
      assert c[HEADER_LEN + len..HEADER_LEN + len + CHECKSUM_LEN] ==
        b[HEADER_LEN + len..HEADER_LEN + len + CHECKSUM_LEN];
      assert c[..HEADER_LEN + len] == b[..HEADER_LEN + len];
      assert c[HEADER_LEN..HEADER_LEN + len] == b[HEADER_LEN..HEADER_LEN + len];
    }
  }

  lemma Extend(b: seq<byte>, i: nat, j: nat)
    requires i <= j <= |b|
    ensures b[..j] == b[..i] + b[i..j]
  {
  }

  lemma HeaderOfFields(b: seq<byte>, f: Frame)
    requires Encodable(f) && |b| >= HEADER_LEN
    requires b[0..4] == Le(4, FRAME_MAGIC) && b[4] == FRAME_VERSION && b[5..9] == Le(4, f.kind)
    requires b[9..17] == Le(8, f.correlation) && b[17..21] == Le(4, |f.payload|)
    ensures b[..HEADER_LEN] == Header(f)
  {
    assert b[..4] == b[0..4];
    assert b[..5] == b[..4] + [b[4]];
    Extend(b, 5, 9); Extend(b, 9, 17); Extend(b, 17, 21);
  }

  /** The bytes an accepted iteration consumes are the image of the frame it emits. */
  lemma ParseOneConsumesImage(b: seq<byte>)
    requires ParseOne(b).Take?
    ensures b[..ParseOne(b).total] == Image(ParseOne(b).frame)
  {
    var f, total := ParseOne(b).frame, ParseOne(b).total;
    var body := HEADER_LEN + |f.payload|;
    HeaderOfFields(b, f);
    Extend(b, HEADER_LEN, body);
    Extend(b, body, total);
  }

  /** The fields of an image are where the decoder looks for them. */
  lemma ImageFields(f: Frame)
    requires Encodable(f)
    ensures var b := Image(f);
            && GetU32(b[0..4]) == FRAME_MAGIC && b[4] == FRAME_VERSION
            && GetU32(b[5..9]) == f.kind && GetU64(b[9..17]) == f.correlation
            && GetU32(b[17..21]) == |f.payload|
  {
    var b, h := Image(f), Header(f);
    assert b[0..4] == h[0..4] == Le(4, FRAME_MAGIC);
    assert b[4] == h[4] == FRAME_VERSION;
    assert b[5..9] == h[5..9] == Le(4, f.kind);
    assert b[9..17] == h[9..17] == Le(8, f.correlation);
    assert b[17..21] == h[17..21] == Le(4, |f.payload|);
    GetU32OfLe(FRAME_MAGIC); GetU32OfLe(f.kind); GetU32OfLe(|f.payload|); GetU64OfLe(f.correlation);
  }

  /** The last word of an image is the checksum of everything before it. */
  lemma ImageChecksum(f: Frame)
    requires Encodable(f)
    ensures var n := HEADER_LEN + |f.payload|;
            GetU64(Image(f)[n..]) == Fnv(Image(f)[..n])
  {
    var body := Header(f) + f.payload;
    assert Image(f)[..|body|] == body && Image(f)[|body|..] == Le(8, Fnv(body));
    GetU64OfLe(Fnv(body));
  }

  lemma ParseOneOfFields(b: seq<byte>, f: Frame)
    requires Encodable(f) && |b| == HEADER_LEN + |f.payload| + CHECKSUM_LEN
    requires GetU32(b[0..4]) == FRAME_MAGIC && b[4] == FRAME_VERSION
    requires GetU32(b[5..9]) == f.kind && GetU64(b[9..17]) == f.correlation
    requires GetU32(b[17..21]) == |f.payload| && b[HEADER_LEN..HEADER_LEN + |f.payload|] == f.payload
    requires GetU64(b[HEADER_LEN + |f.payload|..]) == Fnv(b[..HEADER_LEN + |f.payload|])
    ensures ParseOne(b) == Take(f, |b|)
  {
    var n := HEADER_LEN + |f.payload|;
    assert b[n..n + CHECKSUM_LEN] == b[n..];
    assert GetU64(b[n..n + CHECKSUM_LEN]) == Fnv(b[..n]);
    assert |f.payload| <= MaxFrameLen(f.kind) <= GLOBAL_MAX;
    assert Frame(f.kind, f.correlation, b[HEADER_LEN..n]) == f;
    TakenByFields(b, f.kind, f.correlation, |f.payload|);
  }

  /** What the decoder takes from a buffer that holds exactly one well-formed frame. */
  lemma TakenByFields(b: seq<byte>, kind: u32, correlation: u64, len: nat)
    requires |b| == HEADER_LEN + len + CHECKSUM_LEN && 0 < MaxFrameLen(kind) && len <= MaxFrameLen(kind) <= GLOBAL_MAX
    requires GetU32(b[0..4]) == FRAME_MAGIC && b[4] == FRAME_VERSION
    requires GetU32(b[5..9]) == kind && GetU64(b[9..17]) == correlation && GetU32(b[17..21]) == len
    requires GetU64(b[HEADER_LEN + len..HEADER_LEN + len + CHECKSUM_LEN]) == Fnv(b[..HEADER_LEN + len])
    ensures ParseOne(b) == Take(Frame(kind, correlation, b[HEADER_LEN..HEADER_LEN + len]), |b|)
  {
  }

  /** The image of an encodable frame, followed by anything, is taken as that frame. */
  lemma ParseOneOfImage(f: Frame, rest: seq<byte>)
    requires Encodable(f)
    ensures ParseOne(Image(f) + rest) == Take(f, |Image(f)|)
  {
    var b, n := Image(f), HEADER_LEN + |f.payload|;
    ImageFields(f); ImageChecksum(f);
    assert b[HEADER_LEN..n] == f.payload;
    ParseOneOfFields(b, f);
    ParseOneStable(b, rest);
  }

  // ---- the whole loop --------------------------------------------------------

  datatype Verdict = Accepted | Rejected(error: FrameError)

  /** `frames` emitted, `rest` left in the buffer. */
  datatype Outcome = Outcome(frames: seq<Frame>, rest: seq<byte>, verdict: Verdict)

  function Drain(b: seq<byte>): (o: Outcome)
    decreases |b|
  {
    match ParseOne(b)
    case NeedMore => Outcome([], b, Accepted)
    case Reject(e) => Outcome([], b, Rejected(e))
    case Take(f, n) =>
      Prepend([f], Drain(b[n..]))
  }

  /** An outcome with frames already emitted put in front. */
  function Prepend(done: seq<Frame>, o: Outcome): (r: Outcome)
  {
    Outcome(done + o.frames, o.rest, o.verdict)
  }

  lemma PrependStep(done: seq<Frame>, f: Frame, o: Outcome)
    ensures Prepend(done, Prepend([f], o)) == Prepend(done + [f], o)
  {
    assert done + ([f] + o.frames) == done + [f] + o.frames;
  }

  /** Taking a frame off the buffer does not change what the whole input drains to. */
  lemma FeedTakes(whole: Outcome, done: seq<Frame>, b: seq<byte>, f: Frame, total: nat)
    requires whole == Prepend(done, Drain(b)) && ParseOne(b) == Take(f, total) && total <= |b|
    ensures whole == Prepend(done + [f], Drain(b[total..]))
  {
    PrependStep(done, f, Drain(b[total..]));
  }

  class FrameDecoder {
    var buffer: seq<byte>

    constructor ()
      ensures buffer == []
    {
      buffer := [];
    }

    /** Append a chunk and emit every complete frame; false kills the stream. */
    method Feed(data: seq<byte>, out: seq<Frame>) returns (ok: bool, frames: seq<Frame>, error: FrameError)
      modifies this
      ensures var o := Drain(old(buffer) + data);
              && frames == out + o.frames
              && buffer == o.rest
              && ok == o.verdict.Accepted?
              && (!ok ==> error == o.verdict.error)
      ensures ok ==> |buffer| < HEADER_LEN + GLOBAL_MAX + CHECKSUM_LEN
    {
      frames, error := out, BadMagic;
      buffer := buffer + data;
      ghost var whole, done := Drain(buffer), [];
      while true
        invariant frames == out + done
        invariant whole == Prepend(done, Drain(buffer))
        decreases |buffer|
      {
        var p := ParseOne(buffer);
        match p {
          case NeedMore =>
            return true, frames, error;
          case Reject(e) =>
            return false, frames, e;
          case Take(f, total) =>
            FeedTakes(whole, done, buffer, f, total);
            frames, done := frames + [f], done + [f];
            buffer := buffer[total..];
        }
      }
    }
  }
}
