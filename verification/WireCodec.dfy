/** The byte writer and the sticky-failure byte reader, and the record encoders and decoders on
    top of them, proved against the layouts. */
module WireCodec {
  import opened Bytes
  import opened FabricTypes
  import opened Layouts

  class WireWriter {
    var buf: seq<byte>

    constructor ()
      ensures buf == []
    {
      buf := [];
    }

    method PutByte(b: byte)
      modifies this
      ensures buf == old(buf) + [b]
    {
      buf := buf + [b];
    }

    /** U16, U32 and U64: the low `k` bytes, least significant first. */
    method PutWord(k: nat, x: nat)
      modifies this
      ensures buf == old(buf) + Le(k, x)
    {
      var rest := x;
      for i := 0 to k
        invariant buf + Le(k - i, rest) == old(buf) + Le(k, x)
      {
        PutByte(rest % 256);
        rest := rest / 256;
      }
    }

    /** A string that is too long throws, and nothing is written. */
    method PutStr(t: seq<byte>) returns (written: bool)
      modifies this
      ensures written <==> |t| <= MAX_LEN
      ensures buf == if written then old(buf) + (Le(COUNT_LEN, |t|) + t) else old(buf)
    {
      written := |t| <= MAX_LEN;
      if written {
        PutWord(COUNT_LEN, |t|);
        buf := buf + t;
      }
    }
  }

  lemma Regroup(a: seq<byte>, b: seq<byte>, c: seq<byte>)
    ensures a + b + c == a + (b + c)
  {
  }

  /** Writing a record appends exactly its bytes, or throws at the first string that is too long. */
  method Encode(w: WireWriter, l: Layout, v: Value) returns (written: bool)
    requires Shaped(l, v)
    modifies w
    ensures written <==> TextsFit(l, v)
    ensures written ==> w.buf == old(w.buf) + Put(l, v)
    decreases l, 0
  {
    written := true;
    match l
    case Word(k) => w.PutWord(k, v.n);
    case Flag => w.PutByte(v.n);
    case Enum(_) => w.PutWord(COUNT_LEN, v.n);
    case Str => written := w.PutStr(v.t);
    case Then(a, b) =>
      written := Encode(w, a, v.first);
      if written {
        Regroup(old(w.buf), Put(a, v.first), Put(b, v.rest));
        written := Encode(w, b, v.rest);
      }
    case List(e) =>
      Regroup(old(w.buf), Le(COUNT_LEN, |v.vs|), PutAll(e, v.vs));
      w.PutWord(COUNT_LEN, |v.vs|);
      written := EncodeAll(w, e, v.vs);
  }

  lemma PutAllStep(e: Layout, vs: seq<Value>, i: nat, before: seq<byte>)
    requires i < |vs| && AllShaped(e, vs[i..])
    ensures Shaped(e, vs[i]) && AllShaped(e, vs[i + 1..])
    ensures AllFit(e, vs[i..]) <==> TextsFit(e, vs[i]) && AllFit(e, vs[i + 1..])
    ensures before + Put(e, vs[i]) + PutAll(e, vs[i + 1..]) == before + PutAll(e, vs[i..])
  {
    assert vs[i..][0] == vs[i] && vs[i..][1..] == vs[i + 1..];
    ByHeadAndTail(e, vs[i..]);
    assert before + (Put(e, vs[i]) + PutAll(e, vs[i + 1..])) == before + Put(e, vs[i]) + PutAll(e, vs[i + 1..]);
  }

  method EncodeAll(w: WireWriter, e: Layout, vs: seq<Value>) returns (written: bool)
    requires AllShaped(e, vs)
    modifies w
    ensures written <==> AllFit(e, vs)
    ensures written ==> w.buf == old(w.buf) + PutAll(e, vs)
    decreases e, 1
  {
    assert vs[0..] == vs;
    for i := 0 to |vs|
      invariant AllShaped(e, vs[i..]) && (AllFit(e, vs) <==> AllFit(e, vs[i..]))
      invariant w.buf + PutAll(e, vs[i..]) == old(w.buf) + PutAll(e, vs)
    {
      PutAllStep(e, vs, i, w.buf);
      written := Encode(w, e, vs[i]);
      if !written { return; }
    }
    written := true;
  }

  // ---- reading -----------------------------------------------------------------

  lemma Shifted(x: nat, scale: nat, b: nat, rest: nat)
    ensures x + b * scale + scale * 256 * rest == x + scale * (b + 256 * rest)
  {
    assert scale * (b + 256 * rest) == scale * b + scale * (256 * rest);
    assert scale * 256 * rest == scale * (256 * rest);
  }

  /** A word from its bytes, each shifted to its place. */
  method Assemble(word: seq<byte>) returns (x: nat)
    ensures x == UnLe(word)
  {
    x := 0;
    var scale: nat := 1;
    for i := 0 to |word|
      invariant x + scale * UnLe(word[i..]) == UnLe(word)
    {
      assert word[i..][0] == word[i] && word[i..][1..] == word[i + 1..];
      Shifted(x, scale, word[i], UnLe(word[i + 1..]));
      x := x + word[i] * scale;
      scale := scale * 256;
    }
  }

  class WireReader {
    const data: seq<byte>
    var pos: nat
    var ok: bool

    ghost predicate Valid()
      reads this
    {
      pos <= |data|
    }

    constructor (bytes: seq<byte>)
      ensures data == bytes && pos == 0 && ok && Valid()
    {
      data, pos, ok := bytes, 0, true;
    }

    /** A failed read latches the flag, returns zero and does not move. */
    method GetNum(k: nat) returns (x: nat)
      requires Valid()
      modifies this
      ensures Valid()
      ensures old(ok) && GetWord(k, data, old(pos)).Some? ==>
          ok && pos == old(pos) + k && GetWord(k, data, old(pos)) == Some(x)
      ensures !old(ok) || GetWord(k, data, old(pos)).None? ==> !ok && pos == old(pos) && x == 0
    {
      x := 0;
      if !ok || |data| - pos < k {
        ok := false;
        return;
      }
      x := Assemble(data[pos..pos + k]);
      pos := pos + k;
    }

    method GetStr() returns (t: seq<byte>)
      requires Valid()
      modifies this
      ensures Valid()
      ensures var r := Get(Str, data, old(pos));
              if old(ok) && r.Some? then ok && r == Some((Text(t), pos)) else !ok && t == []
    {
      var n := GetNum(COUNT_LEN);
      if !ok || n > MAX_LEN || |data| - pos < n {
        ok := false;
        return [];
      }
      t := data[pos..pos + n];
      pos := pos + n;
    }
  }

  /** How a decoder leaves the reader: `valid` is its own verdict, `ok` the sticky flag.  Both stay
      true exactly when the layout accepts the bytes, and a failed reader stays failed. */
  ghost predicate Decoded(was: bool, got: Option<(Value, nat)>, v: Value, valid: bool, ok: bool, pos: nat)
  {
    if was then ((valid && ok) <==> got.Some?) && (valid && ok ==> got == Some((v, pos))) else !ok
  }

  /** Record decoders: words and strings only latch the flag and reading goes on; an enumeration out
      of its table or a count over the bound stops at once. */
  method Decode(r: WireReader, l: Layout) returns (v: Value, valid: bool)
    requires r.Valid()
    modifies r
    ensures r.Valid()
    ensures Decoded(old(r.ok), Get(l, r.data, old(r.pos)), v, valid, r.ok, r.pos)
    decreases l, 0
  {
    v, valid := Num(0), true;
    match l
    case Word(k) =>
      var x := r.GetNum(k);
      v := Num(x);
    case Flag =>
      var x := r.GetNum(1);
      v := Num(if x != 0 then 1 else 0);
      assert old(r.pos) < |r.data| ==> UnLe(r.data[old(r.pos)..old(r.pos) + 1]) == r.data[old(r.pos)] + 256 * UnLe([]);
    case Enum(max) =>
      var x := r.GetNum(COUNT_LEN);
      v, valid := Num(x), 1 <= x <= max;
    case Str =>
      var t := r.GetStr();
      v := Text(t);
    case Then(a, b) =>
      var x, y;
      x, valid := Decode(r, a);
      if valid {
        y, valid := Decode(r, b);
        v := Pair(x, y);
      }
    case List(e) =>
      var n := r.GetNum(COUNT_LEN);
      valid := n <= MAX_COUNT;
      if valid {
        var vs;
        vs, valid := DecodeAll(r, e, n);
        v := Items(vs);
      }
  }

  /** What is left to read decides the whole list. */
  ghost predicate Continues(whole: Option<(seq<Value>, nat)>, done: seq<Value>, left: Option<(seq<Value>, nat)>)
  {
    whole == match left case None => None case Some(y) => Some((done + y.0, y.1))
  }

  lemma ContinuesFromStart(left: Option<(seq<Value>, nat)>)
    ensures Continues(left, [], left)
  {
    if left.Some? { assert [] + left.value.0 == left.value.0; }
  }

  lemma ContinuesStep(whole: Option<(seq<Value>, nat)>, done: seq<Value>, e: Layout, data: seq<byte>, pos: nat, n: nat)
    requires pos <= |data| && n > 0 && Continues(whole, done, GetAll(e, data, pos, n))
    ensures match Get(e, data, pos)
            case None => whole.None?
            case Some(x) => Continues(whole, done + [x.0], GetAll(e, data, x.1, n - 1))
  {
    if Get(e, data, pos).Some? {
      var x := Get(e, data, pos).value;
      var y := GetAll(e, data, x.1, n - 1);
      if y.Some? { assert done + ([x.0] + y.value.0) == done + [x.0] + y.value.0; }
    }
  }

  method DecodeAll(r: WireReader, e: Layout, n: nat) returns (vs: seq<Value>, valid: bool)
    requires r.Valid()
    modifies r
    ensures r.Valid()
    ensures var got := GetAll(e, r.data, old(r.pos), n);
            if old(r.ok) then ((valid && r.ok) <==> got.Some?) &&
              (valid && r.ok ==> got == Some((vs, r.pos))) else !r.ok
    decreases e, 1
  {
    vs, valid := [], true;
    ContinuesFromStart(GetAll(e, r.data, r.pos, n));
    for i := 0 to n
      invariant r.Valid() && (!old(r.ok) ==> !r.ok)
      invariant old(r.ok) && r.ok ==> Continues(GetAll(e, r.data, old(r.pos), n), vs, GetAll(e, r.data, r.pos, n - i))
      invariant old(r.ok) && !r.ok ==> GetAll(e, r.data, old(r.pos), n).None?
    {
      if old(r.ok) && r.ok { ContinuesStep(GetAll(e, r.data, old(r.pos), n), vs, e, r.data, r.pos, n - i); }
      var x;
      x, valid := Decode(r, e);
      if !valid { return; }
      vs := vs + [x];
    }
    assert vs + [] == vs;
  }
}
