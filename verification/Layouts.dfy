/** Self-delimiting binary records: a layout says how a record is written field by field, and one
    theorem covers every layout.

    Words are little-endian; a double is its 64-bit pattern; a flag is a byte, read as "not zero";
    an enumeration is a 32-bit word that readers accept only within 1 .. max; strings and lists
    carry a 32-bit count that readers bound. */
module Layouts {
  import opened Bytes
  import opened FabricTypes

  const COUNT_LEN: nat := 4
  const MAX_LEN: nat := 0x8000
  const MAX_COUNT: nat := 0x10_0000

  datatype Layout =
    | Word(size: nat)
    | Flag
    | Enum(max: nat)
    | Str
    | Then(first: Layout, rest: Layout)
    | List(elem: Layout)

  datatype Value =
    | Num(n: nat)
    | Text(t: seq<byte>)
    | Pair(first: Value, rest: Value)
    | Items(vs: seq<Value>)

  /** Values of the layout's type. */
  ghost predicate Shaped(l: Layout, v: Value)
    decreases l
  {
    match l
    case Word(k) => v.Num? && v.n < Pow256(k)
    case Flag => v.Num? && v.n <= 1
    case Enum(_) => v.Num? && v.n < TWO_32
    case Str => v.Text?
    case Then(a, b) => v.Pair? && Shaped(a, v.first) && Shaped(b, v.rest)
    case List(e) => v.Items? && |v.vs| < TWO_32 && forall i :: 0 <= i < |v.vs| ==> Shaped(e, v.vs[i])
  }

  /** No string is too long to be written. */
  ghost predicate TextsFit(l: Layout, v: Value)
    requires Shaped(l, v)
    decreases l
  {
    match l
    case Str => |v.t| <= MAX_LEN
    case Then(a, b) => TextsFit(a, v.first) && TextsFit(b, v.rest)
    case List(e) => forall i :: 0 <= i < |v.vs| ==> TextsFit(e, v.vs[i])
    case _ => true
  }

  /** Every enumeration is in its table, every string and list within its bound. */
  ghost predicate Readable(l: Layout, v: Value)
    requires Shaped(l, v)
    decreases l
  {
    match l
    case Enum(max) => 1 <= v.n <= max
    case Str => |v.t| <= MAX_LEN
    case Then(a, b) => Readable(a, v.first) && Readable(b, v.rest)
    case List(e) => |v.vs| <= MAX_COUNT && forall i :: 0 <= i < |v.vs| ==> Readable(e, v.vs[i])
    case _ => true
  }

  ghost predicate AllShaped(e: Layout, vs: seq<Value>) { forall i :: 0 <= i < |vs| ==> Shaped(e, vs[i]) }

  ghost predicate AllFit(e: Layout, vs: seq<Value>)
    requires AllShaped(e, vs)
  {
    forall i :: 0 <= i < |vs| ==> TextsFit(e, vs[i])
  }

  ghost predicate AllReadable(e: Layout, vs: seq<Value>)
    requires AllShaped(e, vs)
  {
    forall i :: 0 <= i < |vs| ==> Readable(e, vs[i])
  }

  /** A list by its head and tail. */
  lemma ByHeadAndTail(e: Layout, vs: seq<Value>)
    requires vs != [] && AllShaped(e, vs)
    ensures Shaped(e, vs[0]) && AllShaped(e, vs[1..])
    ensures AllFit(e, vs) <==> TextsFit(e, vs[0]) && AllFit(e, vs[1..])
    ensures AllReadable(e, vs) <==> Readable(e, vs[0]) && AllReadable(e, vs[1..])
  {
    var rest := vs[1..];
    assert forall i :: 0 <= i < |rest| ==> rest[i] == vs[i + 1];
    if TextsFit(e, vs[0]) && AllFit(e, rest) {
      forall i | 0 <= i < |vs| ensures TextsFit(e, vs[i]) {
        if i > 0 { assert vs[i] == rest[i - 1]; }
      }
    }
    if Readable(e, vs[0]) && AllReadable(e, rest) {
      forall i | 0 <= i < |vs| ensures Readable(e, vs[i]) {
        if i > 0 { assert vs[i] == rest[i - 1]; }
      }
    }
  }

  // ---- writing -----------------------------------------------------------------

  ghost function Put(l: Layout, v: Value): seq<byte>
    requires Shaped(l, v)
    decreases l, 0, 0
  {
    match l
    case Word(k) => Le(k, v.n)
    case Flag => [v.n]
    case Enum(_) => Le(COUNT_LEN, v.n)
    case Str => Le(COUNT_LEN, |v.t|) + v.t
    case Then(a, b) => Put(a, v.first) + Put(b, v.rest)
    case List(e) => Le(COUNT_LEN, |v.vs|) + PutAll(e, v.vs)
  }

  ghost function PutAll(e: Layout, vs: seq<Value>): seq<byte>
    requires AllShaped(e, vs)
    decreases e, 1, |vs|
  {
    if vs == [] then [] else ByHeadAndTail(e, vs); Put(e, vs[0]) + PutAll(e, vs[1..])
  }

  // ---- reading -----------------------------------------------------------------

  function GetWord(k: nat, data: seq<byte>, pos: nat): (r: Option<nat>)
    requires pos <= |data|
  {
    if |data| - pos < k then None else Some(UnLe(data[pos..pos + k]))
  }

  /** The value at a position and the position after it, or None when the bytes end too early or a
      word is out of its bounds. */
  function Get(l: Layout, data: seq<byte>, pos: nat): (r: Option<(Value, nat)>)
    requires pos <= |data|
    ensures r.Some? ==> pos <= r.value.1 <= |data|
    decreases l, 0, 0
  {
    match l
    case Word(k) =>
      (match GetWord(k, data, pos) case None => None case Some(x) => Some((Num(x), pos + k)))
    case Flag =>
      if pos == |data| then None else Some((Num(if data[pos] != 0 then 1 else 0), pos + 1))
    case Enum(max) =>
      (match GetWord(COUNT_LEN, data, pos)
       case None => None
       case Some(x) => if 1 <= x <= max then Some((Num(x), pos + 4)) else None)
    case Str =>
      (match GetWord(COUNT_LEN, data, pos)
       case None => None
       case Some(n) => if n > MAX_LEN || |data| - (pos + 4) < n then None
         else Some((Text(data[pos + 4..pos + 4 + n]), pos + 4 + n)))
    case Then(a, b) =>
      (match Get(a, data, pos)
       case None => None
       case Some(x) =>
         match Get(b, data, x.1)
         case None => None
         case Some(y) => Some((Pair(x.0, y.0), y.1)))
    case List(e) =>
      (match GetWord(COUNT_LEN, data, pos)
       case None => None
       case Some(n) =>
         if n > MAX_COUNT then None else
         match GetAll(e, data, pos + 4, n)
         case None => None
         case Some(x) => Some((Items(x.0), x.1)))
  }

  function GetAll(e: Layout, data: seq<byte>, pos: nat, n: nat): (r: Option<(seq<Value>, nat)>)
    requires pos <= |data|
    ensures r.Some? ==> pos <= r.value.1 <= |data|
    decreases e, 1, n
  {
    if n == 0 then Some(([], pos)) else
    match Get(e, data, pos)
    case None => None
    case Some(x) =>
      match GetAll(e, data, x.1, n - 1)
      case None => None
      case Some(y) => Some(([x.0] + y.0, y.1))
  }

  // ---- reading back what was written -------------------------------------------

  /** The bytes `b` stand in `data` at `pos`. */
  ghost predicate At(data: seq<byte>, pos: nat, b: seq<byte>)
  {
    pos + |b| <= |data| && data[pos..pos + |b|] == b
  }

  lemma AtSplit(data: seq<byte>, pos: nat, a: seq<byte>, b: seq<byte>)
    requires At(data, pos, a + b)
    ensures At(data, pos, a) && At(data, pos + |a|, b)
  {
    var mid := data[pos..pos + |a + b|];
    assert mid[..|a|] == a && mid[|a|..] == b;
    assert data[pos..pos + |a|] == mid[..|a|];
    assert data[pos + |a|..pos + |a| + |b|] == mid[|a|..];
  }

  lemma WordReadsBack(k: nat, x: nat, data: seq<byte>, pos: nat)
    requires x < Pow256(k) && At(data, pos, Le(k, x))
    ensures GetWord(k, data, pos) == Some(x)
  {
    UnLeOfLe(k, x);
  }

  lemma CountReadsBack(x: nat, data: seq<byte>, pos: nat)
    requires x < TWO_32 && At(data, pos, Le(COUNT_LEN, x))
    ensures GetWord(COUNT_LEN, data, pos) == Some(x)
  {
    Pow256Words();
    WordReadsBack(COUNT_LEN, x, data, pos);
  }

  ghost predicate ReadsBack(l: Layout, v: Value, data: seq<byte>, pos: nat)
    requires Shaped(l, v) && pos <= |data|
  {
    Get(l, data, pos) == if Readable(l, v) then Some((v, pos + |Put(l, v)|)) else None
  }

  ghost predicate AllReadBack(e: Layout, vs: seq<Value>, data: seq<byte>, pos: nat)
    requires AllShaped(e, vs) && pos <= |data|
  {
    GetAll(e, data, pos, |vs|) == if AllReadable(e, vs) then Some((vs, pos + |PutAll(e, vs)|)) else None
  }

  lemma NumReadsBack(l: Layout, v: Value, data: seq<byte>, pos: nat)
    requires l.Word? || l.Flag? || l.Enum?
    requires Shaped(l, v) && At(data, pos, Put(l, v))
    ensures ReadsBack(l, v, data, pos)
  {
    match l
    case Word(k) => WordReadsBack(k, v.n, data, pos);
    case Flag => assert data[pos] == data[pos..pos + 1][0];
    case Enum(_) => CountReadsBack(v.n, data, pos);
  }

  lemma StrReadsBack(l: Layout, v: Value, data: seq<byte>, pos: nat)
    requires l.Str? && Shaped(l, v) && TextsFit(l, v) && At(data, pos, Put(l, v))
    ensures ReadsBack(l, v, data, pos)
  {
    AtSplit(data, pos, Le(COUNT_LEN, |v.t|), v.t);
    CountReadsBack(|v.t|, data, pos);
    assert Get(l, data, pos) == Some((Text(data[pos + 4..pos + 4 + |v.t|]), pos + 4 + |v.t|));
  }

  lemma ThenReadsBack(a: Layout, b: Layout, v: Value, w: Value, data: seq<byte>, pos: nat)
    requires Shaped(a, v) && Shaped(b, w) && pos + |Put(a, v)| <= |data|
    requires ReadsBack(a, v, data, pos) && ReadsBack(b, w, data, pos + |Put(a, v)|)
    ensures Shaped(Then(a, b), Pair(v, w)) && ReadsBack(Then(a, b), Pair(v, w), data, pos)
  {
  }

  lemma ListReadsBack(e: Layout, vs: seq<Value>, data: seq<byte>, pos: nat)
    requires |vs| < TWO_32 && AllShaped(e, vs)
    requires pos + 4 <= |data| && GetWord(COUNT_LEN, data, pos) == Some(|vs|) && AllReadBack(e, vs, data, pos + 4)
    ensures Shaped(List(e), Items(vs)) && ReadsBack(List(e), Items(vs), data, pos)
  {
  }

  lemma ConsReadsBack(e: Layout, v: Value, vs: seq<Value>, all: seq<Value>, data: seq<byte>, pos: nat)
    requires all == [v] + vs && Shaped(e, v) && AllShaped(e, vs) && AllShaped(e, all) && pos + |Put(e, v)| <= |data|
    requires AllReadable(e, all) <==> Readable(e, v) && AllReadable(e, vs)
    requires PutAll(e, all) == Put(e, v) + PutAll(e, vs)
    requires ReadsBack(e, v, data, pos) && AllReadBack(e, vs, data, pos + |Put(e, v)|)
    ensures AllReadBack(e, all, data, pos)
  {
  }

  /** A written value reads back as itself, taking exactly its bytes; one that holds an enumeration
      outside its table or a list over the bound is refused. */
  lemma {:induction false} GetPut(l: Layout, v: Value, data: seq<byte>, pos: nat)
    requires Shaped(l, v) && TextsFit(l, v) && At(data, pos, Put(l, v))
    ensures ReadsBack(l, v, data, pos)
    decreases l, 2, 0
  {
    match l
    case Str => StrReadsBack(l, v, data, pos);
    case Then(_, _) => GetPutThen(l, v, data, pos);
    case List(_) => GetPutList(l, v, data, pos);
    case _ => NumReadsBack(l, v, data, pos);
  }

  lemma {:induction false} GetPutThen(l: Layout, v: Value, data: seq<byte>, pos: nat)
    requires l.Then? && Shaped(l, v) && TextsFit(l, v) && At(data, pos, Put(l, v))
    ensures ReadsBack(l, v, data, pos)
    decreases l, 1, 0
  {
    AtSplit(data, pos, Put(l.first, v.first), Put(l.rest, v.rest));
    GetPut(l.first, v.first, data, pos);
    GetPut(l.rest, v.rest, data, pos + |Put(l.first, v.first)|);
    ThenReadsBack(l.first, l.rest, v.first, v.rest, data, pos);
  }

  lemma {:induction false} GetPutList(l: Layout, v: Value, data: seq<byte>, pos: nat)
    requires l.List? && Shaped(l, v) && TextsFit(l, v) && At(data, pos, Put(l, v))
    ensures ReadsBack(l, v, data, pos)
    decreases l, 1, 0
  {
    AtSplit(data, pos, Le(COUNT_LEN, |v.vs|), PutAll(l.elem, v.vs));
    CountReadsBack(|v.vs|, data, pos);
    GetPutAll(l.elem, v.vs, data, pos + 4);
    ListReadsBack(l.elem, v.vs, data, pos);
  }

  lemma {:induction false} GetPutAll(e: Layout, vs: seq<Value>, data: seq<byte>, pos: nat)
    requires AllShaped(e, vs) && AllFit(e, vs) && At(data, pos, PutAll(e, vs))
    ensures AllReadBack(e, vs, data, pos)
    decreases e, 3, |vs|
  {
    if vs != [] {
      var v, rest := vs[0], vs[1..];
      ByHeadAndTail(e, vs);
      AtSplit(data, pos, Put(e, v), PutAll(e, rest));
      GetPut(e, v, data, pos);
      GetPutAll(e, rest, data, pos + |Put(e, v)|);
      ConsReadsBack(e, v, rest, vs, data, pos);
    }
  }

  // ---- more bytes --------------------------------------------------------------

  lemma WordStable(k: nat, data: seq<byte>, pos: nat, more: seq<byte>)
    requires pos <= |data| && GetWord(k, data, pos).Some?
    ensures GetWord(k, data + more, pos) == GetWord(k, data, pos)
  {
    assert (data + more)[pos..pos + k] == data[pos..pos + k];
  }

  /** What has been read does not change when more bytes arrive. */
  lemma {:induction false} GetStable(l: Layout, data: seq<byte>, pos: nat, more: seq<byte>)
    requires pos <= |data| && Get(l, data, pos).Some?
    ensures Get(l, data + more, pos) == Get(l, data, pos)
    decreases l, 0, 0
  {
    match l
    case Word(k) => WordStable(k, data, pos, more);
    case Flag =>
    case Enum(_) => WordStable(COUNT_LEN, data, pos, more);
    case Str =>
      WordStable(COUNT_LEN, data, pos, more);
      var n := GetWord(COUNT_LEN, data, pos).value;
      assert (data + more)[pos + 4..pos + 4 + n] == data[pos + 4..pos + 4 + n];
    case Then(a, b) =>
      GetStable(a, data, pos, more);
      GetStable(b, data, Get(a, data, pos).value.1, more);
    case List(e) =>
      WordStable(COUNT_LEN, data, pos, more);
      GetAllStable(e, data, pos + 4, GetWord(COUNT_LEN, data, pos).value, more);
  }

  lemma {:induction false} GetAllStable(e: Layout, data: seq<byte>, pos: nat, n: nat, more: seq<byte>)
    requires pos <= |data| && GetAll(e, data, pos, n).Some?
    ensures GetAll(e, data + more, pos, n) == GetAll(e, data, pos, n)
    decreases e, 1, n
  {
    if n > 0 {
      GetStable(e, data, pos, more);
      GetAllStable(e, data, Get(e, data, pos).value.1, n - 1, more);
    }
  }

  // ---- the theorems ------------------------------------------------------------

  /** Self-delimiting: a written value followed by anything reads back as itself and takes exactly its
      own bytes, if every enumeration is in its table and every list within the bound; otherwise it
      is refused. */
  lemma SelfDelimiting(l: Layout, v: Value, suffix: seq<byte>)
    requires Shaped(l, v) && TextsFit(l, v)
    ensures Get(l, Put(l, v) + suffix, 0) == if Readable(l, v) then Some((v, |Put(l, v)|)) else None
  {
    var b := Put(l, v);
    assert (b + suffix)[0..|b|] == b;
    GetPut(l, v, b + suffix, 0);
  }

  /** Every strict prefix of a readable record is refused. */
  lemma StrictPrefixRejected(l: Layout, v: Value, n: nat)
    requires Shaped(l, v) && Readable(l, v) && TextsFit(l, v) && n < |Put(l, v)|
    ensures Get(l, Put(l, v)[..n], 0).None?
  {
    var b := Put(l, v);
    SelfDelimiting(l, v, []);
    assert b + [] == b && b[..n] + b[n..] == b;
    if Get(l, b[..n], 0).Some? {
      GetStable(l, b[..n], 0, b[n..]);
      assert false;
    }
  }

  /** Two readable records with the same bytes are the same record, whatever follows them. */
  lemma Unambiguous(l: Layout, v: Value, w: Value, x: seq<byte>, y: seq<byte>)
    requires Shaped(l, v) && Readable(l, v) && TextsFit(l, v) && Shaped(l, w) && Readable(l, w) && TextsFit(l, w)
    requires Put(l, v) + x == Put(l, w) + y
    ensures v == w && x == y
  {
    SelfDelimiting(l, v, x);
    SelfDelimiting(l, w, y);
    assert x == (Put(l, v) + x)[|Put(l, v)|..] && y == (Put(l, w) + y)[|Put(l, w)|..];
  }
}
