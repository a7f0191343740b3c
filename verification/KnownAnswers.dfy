/** The checksum and the wire pinned down from outside: the FNV-1a recurrence on whole 64-bit words,
    and byte-for-byte answers that any other implementation can be compared with. */
module KnownAnswers {
  import opened Bytes
  import opened Frames

  // ---- the exclusive or of whole words -----------------------------------------

  lemma XorHalf(n: nat, h: nat, r: nat, g: nat, b: nat)
    requires n > 0
    ensures XorBits(n, 2 * h + r, 2 * g + b) ==
              (if r % 2 == b % 2 then 0 else 1) + 2 * XorBits(n - 1, h + r / 2, g + b / 2)
  {
    assert (2 * h + r) % 2 == r % 2 && (2 * h + r) / 2 == h + r / 2;
    assert (2 * g + b) % 2 == b % 2 && (2 * g + b) / 2 == g + b / 2;
  }

  lemma Twice(p: nat, d: nat)
    ensures p * (2 * d) == 2 * (p * d)
  {
  }

  lemma SplitStep(n: nat, d: nat, p: nat, r: nat, q: nat, b: nat, x: nat, y: nat)
    requires n > 0 && XorBits(n - 1, p * d + r / 2, q * d + b / 2) == x * d + y
    ensures XorBits(n, p * (2 * d) + r, q * (2 * d) + b) == x * (2 * d) + ((if r % 2 == b % 2 then 0 else 1) + 2 * y)
  {
    Twice(p, d);
    Twice(q, d);
    Twice(x, d);
    XorHalf(n, p * d, r, q * d, b);
  }

  /** The exclusive or works on the high bits and on the low k bits separately. */
  lemma {:induction false} XorSplits(m: nat, k: nat, p: nat, r: nat, q: nat, b: nat)
    requires r < Pow2(k) && b < Pow2(k)
    ensures XorBits(m + k, p * Pow2(k) + r, q * Pow2(k) + b) == XorBits(m, p, q) * Pow2(k) + XorBits(k, r, b)
  {
    if k > 0 {
      XorSplits(m, k - 1, p, r / 2, q, b / 2);
      SplitStep(m + k, Pow2(k - 1), p, r, q, b, XorBits(m, p, q), XorBits(k - 1, r / 2, b / 2));
    }
  }

  lemma XorSplitsAt(m: nat, k: nat, d: nat, p: nat, r: nat, q: nat, b: nat)
    requires Pow2(k) == d && r < d && b < d
    ensures XorBits(m + k, p * d + r, q * d + b) == XorBits(m, p, q) * d + XorBits(k, r, b)
  {
    XorSplits(m, k, p, r, q, b);
  }

  lemma {:induction false} XorZero(m: nat, q: nat)
    requires q < Pow2(m)
    ensures XorBits(m, q, 0) == q
  {
    if m > 0 { XorZero(m - 1, q / 2); }
  }

  /** A number below 2^k changes only the low k bits. */
  lemma XorLow(m: nat, k: nat, q: nat, r: nat, b: nat)
    requires q < Pow2(m) && r < Pow2(k) && b < Pow2(k)
    ensures XorBits(m + k, q * Pow2(k) + r, b) == q * Pow2(k) + XorBits(k, r, b)
  {
    XorSplits(m, k, q, r, 0, b);
    XorZero(m, q);
    assert 0 * Pow2(k) == 0;
  }

  /** 2^56. */
  lemma Pow2High(n: nat)
    requires n == 8
    ensures Pow2(7 * n) * 256 == TWO_64
  {
    Pow2Byte();
    Pow2Add(n, n);
    Pow2Add(2 * n, n);
    Pow2Add(2 * n, 2 * n);
    Pow2Add(4 * n, 3 * n);
  }

  lemma {:induction false} Pow2Add(m: nat, n: nat)
    ensures Pow2(m + n) == Pow2(m) * Pow2(n)
  {
    if m > 0 { Pow2Add(m - 1, n); }
  }

  /** Only the low byte of a word changes. */
  lemma XorWord(h: u64, b: byte, n: nat)
    requires n == 8
    ensures XorBits(7 * n + n, h, b) == XorByte(h, b)
  {
    Pow2Byte();
    Pow2High(n);
    XorLow(7 * n, n, h / 256, h % 256, b);
  }

  /** The checksum, byte by byte: exclusive or of the whole 64-bit word first, then the product with the prime. */
  lemma FnvRecurrence(d: seq<byte>, b: byte)
    ensures Fnv([]) == 0xcbf2_9ce4_8422_2325
    ensures Fnv(d + [b]) == XorBits(64, Fnv(d), b) * 0x100_0000_01b3 % 0x1_0000_0000_0000_0000
  {
    assert (d + [b])[..|d|] == d;
    XorWord(Fnv(d), b, 8);
  }

  // ---- known answers -----------------------------------------------------------

  /** The exclusive or of two bytes by their halves. */
  lemma XorNibbles(p: nat, r: nat, q: nat, b: nat, x: nat, y: nat)
    requires r < 16 && b < 16 && XorBits(4, p, q) == x && XorBits(4, r, b) == y
    ensures XorBits(8, 16 * p + r, 16 * q + b) == 16 * x + y
  {
    assert Pow2(4) == 16;
    XorSplitsAt(4, 4, 16, p, r, q, b);
  }

  /** The checksum of `d` is the word 256q + 16p + r. */
  ghost predicate Sum(d: seq<byte>, q: nat, p: nat, r: nat)
  {
    p < 16 && r < 16 && forall u: seq<byte> :: u == d ==> Fnv(u) == 256 * q + 16 * p + r
  }

  lemma MixByQuotient(h: u64, b: byte, x: byte, k: nat, g: u64)
    requires XorBits(8, h % 256, b) == x && (h / 256 * 256 + x) * FNV_PRIME == k * TWO_64 + g
    ensures Mix(h, b) == g
  {
    ModUnique((h / 256 * 256 + x) * FNV_PRIME, g, k);
  }

  lemma MixParts(h: u64, b: byte, q: nat, p: nat, r: nat, x: nat, k: nat, g: u64)
    requires p < 16 && r < 16 && h == 256 * q + 16 * p + r && x < 256 && XorBits(8, 16 * p + r, b) == x
    requires (256 * q + x) * FNV_PRIME == k * TWO_64 + g
    ensures Mix(h, b) == g
  {
    assert h % 256 == 16 * p + r && h / 256 == q;
    MixByQuotient(h, b, x, k, g);
  }

  /** One step of the checksum: the byte 16c + b is appended; 16x + y is its exclusive or with the low
      byte, and k the quotient of the product. */
  lemma Step(d: seq<byte>, q: nat, p: nat, r: nat, c: nat, b: nat, x: nat, y: nat, k: nat, q': nat, p': nat, r': nat)
    returns (e: seq<byte>)
    requires Sum(d, q, p, r) && c < 16 && b < 16 && x < 16 && y < 16 && p' < 16 && r' < 16
    requires XorBits(4, p, c) == x && XorBits(4, r, b) == y && 256 * q' + 16 * p' + r' < TWO_64
    requires (256 * q + (16 * x + y)) * FNV_PRIME == k * TWO_64 + (256 * q' + 16 * p' + r')
    ensures e == d + [16 * c + b] && Sum(e, q', p', r')
  {
    e := d + [16 * c + b];
    assert e[..|d|] == d && Fnv(d) == 256 * q + 16 * p + r;
    XorNibbles(p, r, c, b, x, y);
    MixParts(Fnv(d), 16 * c + b, q, p, r, 16 * x + y, k, 256 * q' + 16 * p' + r');
  }

  lemma ChecksumOfA()
    ensures Fnv([0x61]) == 0xaf63_dc4c_8601_ec8c
  {
    var d := [];
    assert Fnv(d) == 0xcbf2_9ce4_8422_2325;
    d := Step(d, 0xcb_f29c_e484_2223, 2, 5, 6, 1, 4, 4, 0xcb_f29c_e5de, 0xaf_63dc_4c86_01ec, 8, 12);
    assert Fnv(d) == 0xaf63_dc4c_8601_ec8c;
  }

  // ---- a heartbeat ---------------------------------------------------------------

  /** magic, version 1, type 5, correlation 1, length 0. */
  const HEARTBEAT_BODY: seq<byte> :=
    [0x44, 0x50, 0x46, 0x31, 0x01, 0x05, 0, 0, 0, 0x01, 0, 0, 0, 0, 0, 0, 0, 0, 0, 0, 0]

  lemma Heartbeat1(d: seq<byte>) returns (e: seq<byte>)
    requires Sum(d, 0xcb_f29c_e484_2223, 2, 5)
    ensures e == d + [0x44, 0x50, 0x46] && Sum(e, 0xdf_f64c_1991_8859, 14, 13)
  {
    e := d;
    e := Step(e, 0xcb_f29c_e484_2223, 2, 5, 4, 4, 6, 1, 0xcb_f29c_e5de, 0xaf_63f9_4c86_021d, 13, 3);
    e := Step(e, 0xaf_63f9_4c86_021d, 13, 3, 5, 0, 8, 3, 0xaf_63f9_4db0, 0x08_fe20_07b5_9825, 9, 9);
    e := Step(e, 0x08_fe20_07b5_9825, 9, 9, 4, 6, 13, 15, 0x08_fe20_07c4, 0xdf_f64c_1991_8859, 14, 13);
  }

  lemma Heartbeat2(d: seq<byte>) returns (e: seq<byte>)
    requires Sum(d, 0xdf_f64c_1991_8859, 14, 13)
    ensures e == d + [0x31, 0x1, 0x5] && Sum(e, 0xbf_cabb_ea04_c328, 9, 14)
  {
    e := d;
    e := Step(e, 0xdf_f64c_1991_8859, 14, 13, 3, 1, 13, 12, 0xdf_f64c_1b0e, 0x17_dd2b_724a_b0b0, 13, 4);
    e := Step(e, 0x17_dd2b_724a_b0b0, 13, 4, 0, 1, 13, 5, 0x17_dd2b_7273, 0x3d_81a8_34ea_3c79, 14, 15);
    e := Step(e, 0x3d_81a8_34ea_3c79, 14, 15, 0, 5, 14, 10, 0x3d_81a8_3552, 0xbf_cabb_ea04_c328, 9, 14);
  }

  lemma Heartbeat3(d: seq<byte>) returns (e: seq<byte>)
    requires Sum(d, 0xbf_cabb_ea04_c328, 9, 14)
    ensures e == d + [0, 0, 0] && Sum(e, 0xff_ecf8_c6ef_3ae5, 8, 10)
  {
    e := d;
    e := Step(e, 0xbf_cabb_ea04_c328, 9, 14, 0, 0, 9, 14, 0xbf_cabb_eb4a, 0xa8_a5ec_a617_9e04, 7, 10);
    e := Step(e, 0xa8_a5ec_a617_9e04, 7, 10, 0, 0, 7, 10, 0xa8_a5ec_a736, 0x2f_f598_3a21_819b, 4, 14);
    e := Step(e, 0x2f_f598_3a21_819b, 4, 14, 0, 0, 4, 14, 0x2f_f598_3a72, 0xff_ecf8_c6ef_3ae5, 8, 10);
  }

  lemma Heartbeat4(d: seq<byte>) returns (e: seq<byte>)
    requires Sum(d, 0xff_ecf8_c6ef_3ae5, 8, 10)
    ensures e == d + [0x1, 0, 0] && Sum(e, 0xd6_6b20_f988_843d, 13, 9)
  {
    e := d;
    e := Step(e, 0xff_ecf8_c6ef_3ae5, 8, 10, 0, 1, 8, 11, 0xff_ecf8_c8a2, 0x1a_9045_0881_140b, 3, 1);
    e := Step(e, 0x1a_9045_0881_140b, 3, 1, 0, 0, 3, 1, 0x1a_9045_08ae, 0x37_307e_7355_0f04, 4, 3);
    e := Step(e, 0x37_307e_7355_0f04, 4, 3, 0, 0, 4, 3, 0x37_307e_73b2, 0xd6_6b20_f988_843d, 13, 9);
  }

  lemma Heartbeat5(d: seq<byte>) returns (e: seq<byte>)
    requires Sum(d, 0xd6_6b20_f988_843d, 13, 9)
    ensures e == d + [0, 0, 0] && Sum(e, 0x51_8b1f_6c98_819d, 15, 3)
  {
    e := d;
    e := Step(e, 0xd6_6b20_f988_843d, 13, 9, 0, 0, 13, 9, 0xd6_6b20_faf4, 0xdc_46e1_02f8_b517, 11, 11);
    e := Step(e, 0xdc_46e1_02f8_b517, 11, 11, 0, 0, 11, 11, 0xdc_46e1_046f, 0x01_8813_0c9b_b752, 12, 1);
    e := Step(e, 0x01_8813_0c9b_b752, 12, 1, 0, 0, 12, 1, 0x01_8813_0c9e, 0x51_8b1f_6c98_819d, 15, 3);
  }

  lemma Heartbeat6(d: seq<byte>) returns (e: seq<byte>)
    requires Sum(d, 0x51_8b1f_6c98_819d, 15, 3)
    ensures e == d + [0, 0, 0] && Sum(e, 0xb2_ca21_47cb_909b, 5, 1)
  {
    e := d;
    e := Step(e, 0x51_8b1f_6c98_819d, 15, 3, 0, 0, 15, 3, 0x51_8b1f_6d23, 0x11_0458_8724_3f63, 14, 9);
    e := Step(e, 0x11_0458_8724_3f63, 14, 9, 0, 0, 14, 9, 0x11_0458_8741, 0x29_c656_a297_b6c4, 14, 11);
    e := Step(e, 0x29_c656_a297_b6c4, 14, 11, 0, 0, 14, 11, 0x29_c656_a2de, 0xb2_ca21_47cb_909b, 5, 1);
  }

  lemma Heartbeat7(d: seq<byte>) returns (e: seq<byte>)
    requires Sum(d, 0xb2_ca21_47cb_909b, 5, 1)
    ensures e == d + [0, 0, 0] && Sum(e, 0xac_1953_d7dd_c91d, 1, 11)
  {
    e := d;
    e := Step(e, 0xb2_ca21_47cb_909b, 5, 1, 0, 0, 5, 1, 0xb2_ca21_48fb, 0x5e_11dd_fee6_b7ea, 10, 3);
    e := Step(e, 0x5e_11dd_fee6_b7ea, 10, 3, 0, 0, 10, 3, 0x5e_11dd_ff86, 0x90_46db_220a_83b2, 15, 9);
    e := Step(e, 0x90_46db_220a_83b2, 15, 9, 0, 0, 15, 9, 0x90_46db_22ff, 0xac_1953_d7dd_c91d, 1, 11);
  }

  lemma HeartbeatSum()
    ensures Fnv(HEARTBEAT_BODY) == 0xac19_53d7_ddc9_1d1b
  {
    var d := [];
    assert Fnv(d) == 0xcbf2_9ce4_8422_2325;
    d := Heartbeat1(d);
    d := Heartbeat2(d);
    d := Heartbeat3(d);
    d := Heartbeat4(d);
    d := Heartbeat5(d);
    d := Heartbeat6(d);
    d := Heartbeat7(d);
    assert d == HEARTBEAT_BODY;
  }

  /** A heartbeat with correlation 1 and no payload, on the wire. */
  const HEARTBEAT: seq<byte> := HEARTBEAT_BODY + [0x1b, 0x1d, 0xc9, 0xdd, 0xd7, 0x53, 0x19, 0xac]

  lemma MagicBytes()
    ensures Le(4, 0x3146_5044) == [0x44, 0x50, 0x46, 0x31]
  {
    assert Le(2, 0x3146) == [0x46, 0x31];
  }

  lemma HeartbeatHeader()
    ensures Header(Frame(5, 1, [])) == HEARTBEAT_BODY
  {
    MagicBytes();
    assert Le(4, 5) == [5, 0, 0, 0];
    assert Le(8, 1) == [1] + Le(7, 0);
    assert Le(7, 0) == [0, 0, 0, 0, 0, 0, 0];
    assert Le(4, 0) == [0, 0, 0, 0];
  }

  lemma HeartbeatTrailer()
    ensures Le(8, 0xac19_53d7_ddc9_1d1b) == [0x1b, 0x1d, 0xc9, 0xdd, 0xd7, 0x53, 0x19, 0xac]
  {
    assert Le(4, 0xac19_53d7) == [0xd7, 0x53, 0x19, 0xac];
    assert Le(6, 0xac19_53d7_ddc9) == [0xc9, 0xdd] + Le(4, 0xac19_53d7);
  }

  lemma HeartbeatImage()
    ensures Image(Frame(5, 1, [])) == HEARTBEAT
  {
    HeartbeatHeader();
    HeartbeatSum();
    HeartbeatTrailer();
    var f := Frame(5, 1, []);
    assert Header(f) + f.payload == HEARTBEAT_BODY;
  }

  lemma ImageDrains(f: Frame)
    requires Encodable(f)
    ensures Drain(Image(f)) == Outcome([f], [], Accepted)
  {
    var b := Image(f);
    ParseOneOfImage(f, []);
    assert b + [] == b && b[|b|..] == [];
    assert Drain([]) == Outcome([], [], Accepted);
  }

  /** The 29 bytes of that heartbeat: its image, what the encoder pushes, and what the decoder takes. */
  lemma HeartbeatBytes()
    ensures Image(Frame(5, 1, [])) == HEARTBEAT && |HEARTBEAT| == 29
    ensures Drain(HEARTBEAT) == Outcome([Frame(5, 1, [])], [], Accepted)
  {
    HeartbeatImage();
    ImageDrains(Frame(5, 1, []));
  }

  /** The payload bounds, by the groups the table falls into; every other type is unknown. */
  lemma FrameBounds(kind: u32)
    ensures MaxFrameLen(kind) > 0 <==> 1 <= kind <= 23
    ensures kind in {1, 2, 12, 18, 21} <==> MaxFrameLen(kind) == 0x1000
    ensures kind in {3, 4} <==> MaxFrameLen(kind) == 0x1_0000
    ensures kind in {5, 19} <==> MaxFrameLen(kind) == 0x100
    ensures kind in {6, 8, 9} <==> MaxFrameLen(kind) == 0x2000
    ensures kind == 7 <==> MaxFrameLen(kind) == 0x4_0000
    ensures kind in {10, 11, 20, 22, 23} <==> MaxFrameLen(kind) == 0x400
    ensures 13 <= kind <= 17 <==> MaxFrameLen(kind) == 0x8_0000
  {
  }

  /** The header of a buffer: its magic and version, and the numbers for type and length. */
  ghost predicate Greets(b: seq<byte>)
    requires |b| >= 21
  {
    b[0..4] == [0x44, 0x50, 0x46, 0x31] && b[4] == 1
  }

  ghost function KindOf(b: seq<byte>): nat
    requires |b| >= 21
  {
    UnLe(b[5..9])
  }

  ghost function LengthOf(b: seq<byte>): nat
    requires |b| >= 21
  {
    UnLe(b[17..21])
  }

  lemma HeaderRead(b: seq<byte>)
    requires |b| >= 21
    ensures GetU32(b[5..9]) == KindOf(b) && GetU32(b[17..21]) == LengthOf(b)
    ensures GetU32(b[0..4]) == FRAME_MAGIC <==> b[0..4] == [0x44, 0x50, 0x46, 0x31]
  {
    MagicRead(b[0..4]);
  }

  /** Magic and version come first. */
  lemma GreetingRejected(b: seq<byte>)
    requires |b| >= 21
    ensures ParseOne(b) == Reject(BadMagic) <==> b[0..4] != [0x44, 0x50, 0x46, 0x31]
    ensures ParseOne(b) == Reject(BadVersion) <==> b[0..4] == [0x44, 0x50, 0x46, 0x31] && b[4] != 1
  {
    HeaderRead(b);
  }

  /** Then the type, and the length against the type's bound. */
  lemma HeaderRejected(b: seq<byte>)
    requires |b| >= 21
    ensures ParseOne(b) == Reject(UnknownType) <==> Greets(b) && !(1 <= KindOf(b) <= 23)
    ensures ParseOne(b) == Reject(Oversized) <==>
              Greets(b) && 1 <= KindOf(b) <= 23 && LengthOf(b) > MaxFrameLen(GetU32(b[5..9]))
  {
    HeaderRead(b);
    FrameBounds(GetU32(b[5..9]));
  }

  /** A header that passes. */
  ghost predicate GoodHeader(b: seq<byte>)
    requires |b| >= 21
  {
    Greets(b) && 1 <= KindOf(b) <= 23 && LengthOf(b) <= MaxFrameLen(GetU32(b[5..9]))
  }

  /** Then the bytes have to suffice, and the checksum decides. */
  lemma BodyDecides(b: seq<byte>)
    requires |b| >= 21
    ensures ParseOne(b) == NeedMore <==> GoodHeader(b) && |b| < LengthOf(b) + 29
    ensures ParseOne(b) == Reject(ChecksumMismatch) <==>
              && GoodHeader(b) && |b| >= LengthOf(b) + 29
              && UnLe(b[21 + LengthOf(b)..29 + LengthOf(b)]) != Fnv(b[..21 + LengthOf(b)])
  {
    HeaderRead(b);
    FrameBounds(GetU32(b[5..9]));
  }

  /** Why the front of the buffer is rejected: the first of magic, version, type, length and checksum that is
      wrong; and when there is nothing to decide yet. */
  lemma RejectionReasons(b: seq<byte>)
    ensures |b| < 21 ==> ParseOne(b) == NeedMore
    ensures |b| >= 21 ==>
              var p, magic := ParseOne(b), b[0..4] == [0x44, 0x50, 0x46, 0x31];
              && (p == Reject(BadMagic) <==> !magic)
              && (p == Reject(BadVersion) <==> magic && b[4] != 1)
              && (p == Reject(UnknownType) <==> Greets(b) && !(1 <= KindOf(b) <= 23))
              && (p == Reject(Oversized) <==>
                   Greets(b) && 1 <= KindOf(b) <= 23 && LengthOf(b) > MaxFrameLen(GetU32(b[5..9])))
              && (p == NeedMore <==> GoodHeader(b) && |b| < LengthOf(b) + 29)
              && (p == Reject(ChecksumMismatch) <==>
                   && GoodHeader(b) && |b| >= LengthOf(b) + 29
                   && UnLe(b[21 + LengthOf(b)..29 + LengthOf(b)]) != Fnv(b[..21 + LengthOf(b)]))
  {
    if |b| >= 21 {
      GreetingRejected(b);
      HeaderRejected(b);
      BodyDecides(b);
    }
  }

  lemma MagicRead(b: seq<byte>)
    requires |b| == 4
    ensures GetU32(b) == FRAME_MAGIC <==> b == [0x44, 0x50, 0x46, 0x31]
  {
    MagicBytes();
    GetU32OfLe(FRAME_MAGIC);
  }
}
