/** What the frame decoder promises about whole streams: independence from how the
    stream is cut into reads, conservation of bytes, round trip and detection of any
    single corrupted byte outside the length field. */
module FrameTheorems {
  import opened Bytes
  import opened Frames

  function Concat(chunks: seq<seq<byte>>): (b: seq<byte>)
  {
    if chunks == [] then [] else chunks[0] + Concat(chunks[1..])
  }

  function Images(frames: seq<Frame>): (b: seq<byte>)
  {
    if frames == [] then [] else Image(frames[0]) + Images(frames[1..])
  }

  /** A reader that feeds chunk after chunk, and stops for good at the first rejection. */
  function FeedAll(buffer: seq<byte>, chunks: seq<seq<byte>>): (o: Outcome)
    decreases |chunks|
  {
    if chunks == [] then Outcome([], buffer, Accepted)
    else
      var o := Drain(buffer + chunks[0]);
      if o.verdict.Rejected? then o else Prepend(o.frames, FeedAll(o.rest, chunks[1..]))
  }

  // ---- chunking --------------------------------------------------------------

  lemma PrependPrepend(a: seq<Frame>, b: seq<Frame>, o: Outcome)
    ensures Prepend(a, Prepend(b, o)) == Prepend(a + b, o)
    ensures Prepend([], o) == o
  {
    assert a + (b + o.frames) == a + b + o.frames;
    assert [] + o.frames == o.frames;
  }

  lemma DrainTakes(b: seq<byte>, more: seq<byte>)
    requires ParseOne(b).Take?
    ensures var p := ParseOne(b);
            Drain(b + more) == Prepend([p.frame], Drain(b[p.total..] + more))
  {
    ParseOneStable(b, more);
    assert (b + more)[ParseOne(b).total..] == b[ParseOne(b).total..] + more;
  }

  /** `o` is what a stream gave so far; the outcome of the stream with `more` behind it. */
  function Continue(o: Outcome, more: seq<byte>): (r: Outcome)
  {
    if o.verdict.Accepted? then Prepend(o.frames, Drain(o.rest + more))
    else Outcome(o.frames, o.rest + more, o.verdict)
  }

  /** Draining a prefix first, then the leftover with the remaining bytes, is draining it all. */
  lemma {:induction false} DrainAppend(b: seq<byte>, more: seq<byte>)
    ensures Drain(b + more) == Continue(Drain(b), more)
    decreases |b|
  {
    match ParseOne(b)
    case NeedMore =>
      PrependPrepend([], [], Drain(b + more));
    case Reject(e) =>
      ParseOneStable(b, more);
    case Take(f, n) =>
      DrainTakes(b, more);
      DrainAppend(b[n..], more);
      var o := Drain(b[n..]);
      PrependPrepend([f], o.frames, Drain(o.rest + more));
  }

  /** The leftover of an accepted drain holds no complete frame. */
  lemma {:induction false} LeftoverIncomplete(b: seq<byte>)
    requires Drain(b).verdict.Accepted?
    ensures ParseOne(Drain(b).rest).NeedMore?
    ensures |Drain(b).rest| < HEADER_LEN + GLOBAL_MAX + CHECKSUM_LEN
    decreases |b|
  {
    if ParseOne(b).Take? { LeftoverIncomplete(b[ParseOne(b).total..]); }
  }

  lemma {:induction false} ChunkingFrom(buffer: seq<byte>, chunks: seq<seq<byte>>)
    requires ParseOne(buffer).NeedMore?
    ensures var whole, parts := Drain(buffer + Concat(chunks)), FeedAll(buffer, chunks);
            && parts.frames == whole.frames
            && parts.verdict == whole.verdict
            && (parts.verdict.Accepted? ==> parts.rest == whole.rest)
    decreases |chunks|
  {
    if chunks == [] {
      assert buffer + Concat(chunks) == buffer;
    } else {
      var first := buffer + chunks[0];
      var tail := Concat(chunks[1..]);
      assert buffer + Concat(chunks) == first + tail;
      DrainAppend(first, tail);
      if Drain(first).verdict.Accepted? {
        LeftoverIncomplete(first);
        ChunkingFrom(Drain(first).rest, chunks[1..]);
      }
    }
  }

  /** Chunking invariance: any two ways of cutting the same stream give the same frames,
      the same verdict and, when accepted, the same leftover. */
  lemma ChunkingInvariance(chunks: seq<seq<byte>>, chunks': seq<seq<byte>>)
    requires Concat(chunks) == Concat(chunks')
    ensures FeedAll([], chunks).frames == FeedAll([], chunks').frames == Drain(Concat(chunks)).frames
    ensures FeedAll([], chunks).verdict == FeedAll([], chunks').verdict == Drain(Concat(chunks)).verdict
    ensures FeedAll([], chunks).verdict.Accepted? ==>
              FeedAll([], chunks).rest == FeedAll([], chunks').rest == Drain(Concat(chunks)).rest
  {
    ChunkingFrom([], chunks);
    ChunkingFrom([], chunks');
    assert [] + Concat(chunks) == Concat(chunks);
    assert [] + Concat(chunks') == Concat(chunks');
  }

  /** A rejected stream stays dead: whatever is fed next, the same error and no frame. */
  lemma RejectionIsFinal(b: seq<byte>, more: seq<byte>)
    requires Drain(b).verdict.Rejected?
    ensures Drain(Drain(b).rest + more) == Outcome([], Drain(b).rest + more, Drain(b).verdict)
    decreases |b|
  {
    if ParseOne(b).Take? {
      RejectionIsFinal(b[ParseOne(b).total..], more);
    } else {
      ParseOneStable(b, more);
    }
  }

  // ---- conservation and round trip -------------------------------------------

  lemma ImagesCons(f: Frame, frames: seq<Frame>)
    ensures Images([f] + frames) == Image(f) + Images(frames)
  {
    assert ([f] + frames)[1..] == frames;
  }

  lemma Glue(b: seq<byte>, n: nat, front: seq<byte>, middle: seq<byte>, rest: seq<byte>)
    requires n <= |b| && front == b[..n] && middle + rest == b[n..]
    ensures front + middle + rest == b
  {
    assert front + middle + rest == front + (middle + rest);
  }

  /** Every byte fed is either in the image of an emitted frame or still buffered. */
  lemma {:induction false} ByteConservation(b: seq<byte>)
    ensures Images(Drain(b).frames) + Drain(b).rest == b
    decreases |b|
  {
    var p := ParseOne(b);
    if p.Take? {
      var o := Drain(b[p.total..]);
      ByteConservation(b[p.total..]);
      ParseOneConsumesImage(b);
      ImagesCons(p.frame, o.frames);
      Glue(b, p.total, Image(p.frame), Images(o.frames), o.rest);
    }
  }

  /** Only encodable frames are emitted, and each iteration consumes at least 29 bytes. */
  lemma {:induction false} EmittedFrames(b: seq<byte>)
    ensures forall f :: f in Drain(b).frames ==> Encodable(f)
    ensures |b| - |Drain(b).rest| >= (HEADER_LEN + CHECKSUM_LEN) * |Drain(b).frames|
    decreases |b|
  {
    if ParseOne(b).Take? { EmittedFrames(b[ParseOne(b).total..]); }
  }

  lemma {:induction false} DrainOfImages(frames: seq<Frame>)
    requires forall f :: f in frames ==> Encodable(f)
    ensures Drain(Images(frames)) == Outcome(frames, [], Accepted)
    decreases |frames|
  {
    if frames != [] {
      ParseOneOfImage(frames[0], Images(frames[1..]));
      DrainOfImages(frames[1..]);
      assert Images(frames)[|Image(frames[0])|..] == Images(frames[1..]);
      assert [frames[0]] + frames[1..] == frames;
    }
  }

  /** Round trip: encode any list of encodable frames, cut the bytes anywhere, and exactly
      that list comes out with nothing left over. */
  lemma StreamRoundTrip(frames: seq<Frame>, chunks: seq<seq<byte>>)
    requires forall f :: f in frames ==> Encodable(f)
    requires Concat(chunks) == Images(frames)
    ensures FeedAll([], chunks) == Outcome(frames, [], Accepted)
  {
    DrainOfImages(frames);
    ChunkingInvariance(chunks, chunks);
  }

  /** The converse: a stream accepted with nothing left over is the encoding of what came out,
      so the images of two different frame lists never coincide. */
  lemma StreamDecodingIsUnambiguous(frames: seq<Frame>, frames': seq<Frame>)
    requires forall f :: f in frames ==> Encodable(f)
    requires forall f :: f in frames' ==> Encodable(f)
    ensures Images(frames) == Images(frames') <==> frames == frames'
  {
    DrainOfImages(frames);
    DrainOfImages(frames');
  }

  // ---- corruption ------------------------------------------------------------

  const LENGTH_FIELD: nat := 17

  predicate InLengthField(i: nat) { LENGTH_FIELD <= i < LENGTH_FIELD + 4 }

  /** A different checksum word, or a different body, never passes the checksum test. */
  lemma CorruptChecksum(body: seq<byte>, sum: seq<byte>, i: nat, b: byte)
    requires |sum| == CHECKSUM_LEN && GetU64(sum) == Fnv(body)
    requires i < |body| + CHECKSUM_LEN && (body + sum)[i] != b
    ensures var c := (body + sum)[i := b];
            GetU64(c[|body|..]) != Fnv(c[..|body|])
  {
    var c := (body + sum)[i := b];
    if i < |body| {
      assert c[..|body|] == body[i := b] && c[|body|..] == sum;
      FnvDetectsOneByte(body, i, b);
    } else {
      assert c[..|body|] == body && c[|body|..] == sum[i - |body| := b];
    }
  }

  lemma BadChecksumRejected(c: seq<byte>, len: nat)
    requires |c| == HEADER_LEN + len + CHECKSUM_LEN && GetU32(c[17..21]) == len
    requires GetU64(c[HEADER_LEN + len..]) != Fnv(c[..HEADER_LEN + len])
    ensures ParseOne(c).Reject?
  {
    var body := HEADER_LEN + len;
    assert c[body..body + CHECKSUM_LEN] == c[body..];
    if GetU32(c[0..4]) == FRAME_MAGIC && c[4] == FRAME_VERSION && 0 < MaxFrameLen(GetU32(c[5..9])) {
      WrongSumRejected(c, len);
    }
  }

  /** With a good header the checksum decides, unless the length is over its bound. */
  lemma WrongSumRejected(c: seq<byte>, len: nat)
    requires |c| == HEADER_LEN + len + CHECKSUM_LEN && GetU32(c[17..21]) == len
    requires GetU32(c[0..4]) == FRAME_MAGIC && c[4] == FRAME_VERSION && 0 < MaxFrameLen(GetU32(c[5..9]))
    requires GetU64(c[HEADER_LEN + len..HEADER_LEN + len + CHECKSUM_LEN]) != Fnv(c[..HEADER_LEN + len])
    ensures ParseOne(c).Reject?
  {
  }

  /** Well-formed frames in front of a stream come out first and do not affect what follows. */
  lemma FramesInFront(before: seq<Frame>, rest: seq<byte>)
    requires forall f :: f in before ==> Encodable(f)
    ensures Drain(Images(before) + rest) == Prepend(before, Drain(rest))
  {
    DrainOfImages(before);
    DrainAppend(Images(before), rest);
    assert [] + rest == rest;
  }

  /** The stream is rejected right after the frames in front: the damaged one is never emitted. */
  ghost predicate DetectedAfter(before: seq<Frame>, o: Outcome)
  {
    o.frames == before && o.verdict.Rejected?
  }

  lemma CorruptFrameRejected(f: Frame, i: nat, b: byte, rest: seq<byte>)
    requires Encodable(f)
    requires i < |Image(f)| && Image(f)[i] != b && !InLengthField(i)
    ensures DetectedAfter([], Drain(Image(f)[i := b] + rest))
  {
    var image, n := Image(f), HEADER_LEN + |f.payload|;
    var c := image[i := b];
    ImageFields(f); ImageChecksum(f);
    assert image[..n] + image[n..] == image;
    CorruptChecksum(image[..n], image[n..], i, b);
    assert c[17..21] == image[17..21];
    BadChecksumRejected(c, |f.payload|);
    ParseOneStable(c, rest);
  }

  /** Changing one byte of any encoded frame of a stream, outside its length field, ends the stream
      exactly there: the frames before it are emitted, it is not, whatever follows. */
  lemma OneByteCorruptionRejected(before: seq<Frame>, f: Frame, i: nat, b: byte, rest: seq<byte>)
    requires (forall g :: g in before ==> Encodable(g)) && Encodable(f)
    requires i < |Image(f)| && Image(f)[i] != b && !InLengthField(i)
    ensures DetectedAfter(before, Drain(Images(before) + (Image(f)[i := b] + rest)))
  {
    CorruptFrameRejected(f, i, b, rest);
    FramesInFront(before, Image(f)[i := b] + rest);
    assert before + [] == before;
  }

  // ---- a changed length field --------------------------------------------------

  /** `c` is the image of `f` with anything in its length field. */
  ghost predicate LengthOverwritten(f: Frame, c: seq<byte>)
    requires Encodable(f)
  {
    && |c| == |Image(f)|
    && c[..LENGTH_FIELD] == Image(f)[..LENGTH_FIELD]
    && c[HEADER_LEN..] == Image(f)[HEADER_LEN..]
  }

  /** The bytes suffice for the announced length, and the word behind it is not their checksum. */
  ghost predicate ChecksumDiffers(d: seq<byte>, len: nat)
  {
    && HEADER_LEN + len + CHECKSUM_LEN <= |d|
    && GetU64(d[HEADER_LEN + len..HEADER_LEN + len + CHECKSUM_LEN]) != Fnv(d[..HEADER_LEN + len])
  }

  lemma SameFront(b: seq<byte>, d: seq<byte>)
    requires LENGTH_FIELD <= |b| && LENGTH_FIELD <= |d| && d[..LENGTH_FIELD] == b[..LENGTH_FIELD]
    ensures d[0..4] == b[0..4] && d[4] == b[4] && d[5..9] == b[5..9] && d[9..17] == b[9..17]
  {
    var x, y := b[..LENGTH_FIELD], d[..LENGTH_FIELD];
    assert b[0..4] == x[0..4] && d[0..4] == y[0..4];
    assert b[4] == x[4] && d[4] == y[4];
    assert b[5..9] == x[5..9] && d[5..9] == y[5..9];
    assert b[9..17] == x[9..17] && d[9..17] == y[9..17];
  }

  /** What the decoder decides about a well-formed front, by its length field alone. */
  lemma DecisionByLength(d: seq<byte>, kind: u32, correlation: u64, len: nat)
    requires HEADER_LEN <= |d| && MaxFrameLen(kind) > 0
    requires GetU32(d[0..4]) == FRAME_MAGIC && d[4] == FRAME_VERSION
    requires GetU32(d[5..9]) == kind && GetU64(d[9..17]) == correlation && GetU32(d[17..21]) == len
    ensures ParseOne(d) ==
              if len > MaxFrameLen(kind) then Reject(Oversized)
              else if |d| < HEADER_LEN + len + CHECKSUM_LEN then NeedMore
              else if ChecksumDiffers(d, len) then Reject(ChecksumMismatch)
              else Take(Frame(kind, correlation, d[HEADER_LEN..HEADER_LEN + len]), HEADER_LEN + len + CHECKSUM_LEN)
  {
  }

  /** A stream that begins with a frame whose length field was overwritten: how the decoder sees it. */
  lemma OverwrittenFrontIs(f: Frame, c: seq<byte>, rest: seq<byte>)
    requires Encodable(f) && LengthOverwritten(f, c)
    ensures var d, len := c + rest, GetU32(c[17..21]);
            ParseOne(d) ==
              if len > MaxFrameLen(f.kind) then Reject(Oversized)
              else if |d| < HEADER_LEN + len + CHECKSUM_LEN then NeedMore
              else if ChecksumDiffers(d, len) then Reject(ChecksumMismatch)
              else Take(Frame(f.kind, f.correlation, d[HEADER_LEN..HEADER_LEN + len]), HEADER_LEN + len + CHECKSUM_LEN)
  {
    var d, len := c + rest, GetU32(c[17..21]);
    ImageFields(f);
    assert d[..LENGTH_FIELD] == c[..LENGTH_FIELD] && d[17..21] == c[17..21];
    SameFront(Image(f), d);
    DecisionByLength(d, f.kind, f.correlation, len);
  }

  /** Exactly when an overwritten length field is detected, for every content of the field and
      whatever precedes and follows the frame: the length is over the bound of the type, or the bytes
      suffice for it and the checksum differs.  Otherwise the decoder waits, as long as the bytes do
      not suffice, or emits a frame that was never sent. */
  lemma LengthFieldDetectedIff(before: seq<Frame>, f: Frame, c: seq<byte>, rest: seq<byte>)
    requires (forall g :: g in before ==> Encodable(g)) && Encodable(f) && LengthOverwritten(f, c)
    ensures var d, len := c + rest, GetU32(c[17..21]);
            var o := Drain(Images(before) + d);
            && (DetectedAfter(before, o) <==> len > MaxFrameLen(f.kind) || ChecksumDiffers(d, len))
            && (o == Outcome(before, d, Accepted) <==>
                 len <= MaxFrameLen(f.kind) && |d| < HEADER_LEN + len + CHECKSUM_LEN)
            && (len <= MaxFrameLen(f.kind) && HEADER_LEN + len + CHECKSUM_LEN <= |d| && !ChecksumDiffers(d, len) ==>
                  |o.frames| > |before| &&
                    o.frames[|before|] == Frame(f.kind, f.correlation, d[HEADER_LEN..HEADER_LEN + len]))
  {
    var d, len := c + rest, GetU32(c[17..21]);
    OverwrittenFrontIs(f, c, rest);
    FramesInFront(before, d);
    assert before + [] == before;
  }

  /** The silent cases do happen: a length enlarged within the bound only makes the decoder wait. */
  lemma LengthCorruptionStalls(f: Frame, c: seq<byte>)
    requires Encodable(f) && LengthOverwritten(f, c) && |f.payload| < GetU32(c[17..21]) <= MaxFrameLen(f.kind)
    ensures Drain(c) == Outcome([], c, Accepted)
  {
    LengthFieldDetectedIff([], f, c, []);
    assert c + [] == c && Images([]) + c == c;
  }
}
