/** The durable-state file: magic, version, the durable records and a trailing FNV-1a checksum.

    Only the bytes are modelled; replacing the file on disk is not. */
module Persistence {
  import opened Bytes
  import opened FabricTypes
  import opened Layouts
  import opened WireCodec
  import FrameTheorems

  const FILE_MAGIC: u32 := 0x4641_4244
  const FILE_VERSION: u32 := 1
  const SUM_LEN: nat := 8

  // ---- the file ----------------------------------------------------------------

  ghost function FileBody(l: Layout, v: Value): seq<byte>
    requires Shaped(l, v)
  {
    Le(COUNT_LEN, FILE_MAGIC) + Le(COUNT_LEN, FILE_VERSION) + Put(l, v)
  }

  ghost function FileImage(l: Layout, v: Value): seq<byte>
    requires Shaped(l, v)
  {
    FileBody(l, v) + Le(SUM_LEN, Fnv(FileBody(l, v)))
  }

  predicate ChecksumHolds(data: seq<byte>)
  {
    |data| >= 8 && GetU64(data[|data| - 8..]) == Fnv(data[..|data| - 8])
  }

  predicate HeaderHolds(data: seq<byte>)
  {
    |data| >= 8 && GetWord(4, data, 0) == Some(FILE_MAGIC) && GetWord(4, data, 4) == Some(FILE_VERSION)
  }

  /** Header, checksum, then the records; the reader is not told where the checksum starts. */
  function LoadFile(l: Layout, data: seq<byte>): Option<Value>
  {
    if !HeaderHolds(data) || !ChecksumHolds(data) then None else
    match Get(l, data, 8)
    case None => None
    case Some(x) => Some(x.0)
  }

  lemma HeaderReadsBack(body: seq<byte>, rest: seq<byte>)
    ensures HeaderHolds(Le(COUNT_LEN, FILE_MAGIC) + Le(COUNT_LEN, FILE_VERSION) + body + rest)
  {
    var head, data := Le(COUNT_LEN, FILE_MAGIC), Le(COUNT_LEN, FILE_MAGIC) + Le(COUNT_LEN, FILE_VERSION) + body + rest;
    Pow256Words();
    assert At(data, 0, head) && At(data, 4, Le(COUNT_LEN, FILE_VERSION));
    WordReadsBack(4, FILE_MAGIC, data, 0);
    WordReadsBack(4, FILE_VERSION, data, 4);
  }

  lemma ChecksumReadsBack(body: seq<byte>)
    ensures ChecksumHolds(body + Le(SUM_LEN, Fnv(body)))
  {
    var data := body + Le(SUM_LEN, Fnv(body));
    assert data[..|data| - 8] == body && data[|data| - 8..] == Le(SUM_LEN, Fnv(body));
    GetU64OfLe(Fnv(body));
  }

  /** What was saved loads back; a value that holds an enumeration outside its table or a list over
      the bound is written but never loads. */
  lemma SavedFileLoads(l: Layout, v: Value)
    requires Shaped(l, v) && TextsFit(l, v)
    ensures LoadFile(l, FileImage(l, v)) == if Readable(l, v) then Some(v) else None
  {
    var body := FileBody(l, v);
    var sum := Le(SUM_LEN, Fnv(body));
    HeaderReadsBack(Put(l, v), sum);
    ChecksumReadsBack(body);
    var data := FileImage(l, v);
    assert data[8..8 + |Put(l, v)|] == Put(l, v);
    GetPut(l, v, data, 8);
  }

  lemma ChecksumBreaks(data: seq<byte>, i: nat, b: byte)
    requires ChecksumHolds(data) && i < |data| && data[i] != b
    ensures !ChecksumHolds(data[i := b])
  {
    var n := |data| - 8;
    var body: seq<byte>, sum: seq<byte>, changed: seq<byte> := data[..n], data[n..], data[i := b];
    assert body + sum == data;
    FrameTheorems.CorruptChecksum(body, sum, i, b);
    assert GetU64(changed[n..]) != Fnv(changed[..n]);
  }

  /** Changing any one byte of a file that passes the checksum makes Load refuse it. */
  lemma OneByteChangeRejected(l: Layout, data: seq<byte>, i: nat, b: byte)
    requires ChecksumHolds(data) && i < |data| && data[i] != b
    ensures LoadFile(l, data[i := b]).None?
  {
    ChecksumBreaks(data, i, b);
  }

  /** What a file must be to be read at all: the four magic bytes, version 1, and at the end the checksum of
      everything before; then its records decide. */
  lemma LoadedFileMeans(l: Layout, data: seq<byte>)
    ensures LoadFile(l, data).Some? <==>
              && |data| >= 8 && data[..4] == [0x44, 0x42, 0x41, 0x46] && data[4..8] == [1, 0, 0, 0]
              && UnLe(data[|data| - 8..]) == Fnv(data[..|data| - 8]) && Get(l, data, 8).Some?
  {
    if |data| >= 8 {
      HeaderWord(data[0..4], FILE_MAGIC);
      HeaderWord(data[4..8], FILE_VERSION);
      MagicWord();
      assert data[0..4] == data[..4];
    }
  }

  lemma HeaderWord(b: seq<byte>, x: u32)
    requires |b| == 4
    ensures UnLe(b) == x <==> b == Le(4, x)
  {
    Pow256Words();
    UnLeOfLe(4, x);
    LeOfUnLe(b);
  }

  lemma MagicWord()
    ensures Le(4, FILE_MAGIC) == [0x44, 0x42, 0x41, 0x46] && Le(4, FILE_VERSION) == [1, 0, 0, 0]
  {
    assert Le(2, 0x4641) == [0x41, 0x46];
    assert Le(4, 0x4641_4244) == [0x44, 0x42] + Le(2, 0x4641);
  }

  // ---- the file operations -----------------------------------------------------

  /** Append the checksum of everything written so far. */
  method Seal(w: WireWriter)
    modifies w
    ensures w.buf == old(w.buf) + Le(SUM_LEN, Fnv(old(w.buf)))
  {
    var sum := ComputeFnv(w.buf);
    w.PutWord(SUM_LEN, sum);
  }

  method WriteBody(w: WireWriter, l: Layout, v: Value) returns (written: bool)
    requires Shaped(l, v) && w.buf == []
    modifies w
    ensures written <==> TextsFit(l, v)
    ensures written ==> w.buf == FileBody(l, v)
  {
    w.PutWord(COUNT_LEN, FILE_MAGIC);
    w.PutWord(COUNT_LEN, FILE_VERSION);
    written := Encode(w, l, v);
  }

  /** The bytes to be written, or nothing when a string is too long. */
  method SaveBytes(l: Layout, v: Value) returns (image: Option<seq<byte>>)
    requires Shaped(l, v)
    ensures image.Some? <==> TextsFit(l, v)
    ensures image.Some? ==> image.value == FileImage(l, v)
  {
    var w := new WireWriter();
    var written := WriteBody(w, l, v);
    if !written { return None; }
    Seal(w);
    return Some(w.buf);
  }

  method LoadBytes(l: Layout, data: seq<byte>) returns (v: Option<Value>)
    ensures v == LoadFile(l, data)
  {
    var r := new WireReader(data);
    var magic := r.GetNum(4);
    if magic != FILE_MAGIC { return None; }
    var version := r.GetNum(4);
    if version != FILE_VERSION { return None; }
    if |data| < 8 { return None; }
    var stored := Assemble(data[|data| - 8..]);
    var computed := ComputeFnv(data[..|data| - 8]);
    if stored != computed { return None; }
    var x, valid := Decode(r, l);
    return if valid && r.ok then Some(x) else None;
  }
}
