/**
 The binary archivers: what bytes a value becomes, how they are read back, and that reading
 back what was written gives the value again, whatever follows it.
 */
module BinaryArchive {
  import opened LittleEndian
  import opened Options

  const TAG: nat := 8   // sizes and variant indices are 64-bit words

  // ---- Types and values --------------------------------------------------------------------

  /** The C++ types the archivers know, grouped by the branch of _archive that handles them. */
  datatype Ty =
    | Scalar(width: nat)           // arithmetic types, enums, durations, time points, arrays of arithmetic
    | Text(width: nat)             // strings and vectors of arithmetic types, by element width
    | ListOf(elem: Ty)             // other vectors, deques, lists and forward lists
    | TableOf(entry: Ty)           // maps, ordered or not; an entry is a key and a mapped value
    | SetOf(elem: Ty)              // sets, ordered or not
    | ArrayOf(elem: Ty, n: nat)    // other std::arrays
    | OneOf(alts: seq<Ty>)         // variants
    | Maybe(elem: Ty)              // unique pointers and optionals
    | TupleOf(elems: seq<Ty>)      // tuples, error codes, types with an archive member

  /** The items of a container that is written are in its order of iteration, those of one that is
      read in the order of insertion. (An unordered one then iterates in an order of its own: only the
      set of its items is the same.) */
  datatype Val =
    | Raw(bytes: seq<byte>)
    | Items(items: seq<Val>)
    | Alt(index: nat, val: Val)
    | Absent
    | Present(val: Val)

  predicate IsEntry(t: Ty) { t.TupleOf? && |t.elems| == 2 }

  /** What a keyed container compares: the entry's key, or the element itself. */
  function KeyOf(table: bool, v: Val): Val {
    if table && v.Items? && |v.items| > 0 then v.items[0] else v
  }

  predicate HasKey(table: bool, items: seq<Val>, key: Val) {
    exists i | 0 <= i < |items| :: KeyOf(table, items[i]) == key
  }

  predicate DistinctKeys(table: bool, items: seq<Val>) {
    forall i, j | 0 <= i < j < |items| :: KeyOf(table, items[i]) != KeyOf(table, items[j])
  }

  predicate HasType(t: Ty, v: Val)
    decreases t, 1
  {
    match t
    case Scalar(w) => v.Raw? && |v.bytes| == w
    case Text(w) => v.Raw? && w > 0 && |v.bytes| % w == 0 && |v.bytes| / w < Power256(TAG)
    case ListOf(e) => v.Items? && |v.items| < Power256(TAG) && AllHaveType(e, v.items)
    case TableOf(e) => v.Items? && |v.items| < Power256(TAG) && IsEntry(e) && AllHaveType(e, v.items) && DistinctKeys(true, v.items)
    case SetOf(e) => v.Items? && |v.items| < Power256(TAG) && AllHaveType(e, v.items) && DistinctKeys(false, v.items)
    case ArrayOf(e, n) => v.Items? && |v.items| == n && AllHaveType(e, v.items)
    case OneOf(alts) => v.Alt? && v.index < |alts| < Power256(TAG) && HasType(alts[v.index], v.val)
    case Maybe(e) => v.Absent? || (v.Present? && HasType(e, v.val))
    case TupleOf(es) => v.Items? && EachHasType(es, v.items)
  }

  predicate AllHaveType(t: Ty, vs: seq<Val>)
    decreases t, 2, |vs|
  {
    vs == [] || (HasType(t, vs[0]) && AllHaveType(t, vs[1..]))
  }

  predicate EachHasType(ts: seq<Ty>, vs: seq<Val>)
    decreases ts, 0, |vs|
  {
    |ts| == |vs| && (ts == [] || (HasType(ts[0], vs[0]) && EachHasType(ts[1..], vs[1..])))
  }

  // ---- Writing -----------------------------------------------------------------------------

  function Tag(n: nat): seq<byte> { ToBytes(n, TAG) }

  /** BinaryOutputArchiver::_archive. */
  function Encode(t: Ty, v: Val): seq<byte>
    requires HasType(t, v)
    decreases t, 1
  {
    match t
    case Scalar(w) => v.bytes
    case Text(w) => Tag(|v.bytes| / w) + v.bytes
    case ListOf(e) => Tag(|v.items|) + EncodeAll(e, v.items)
    case TableOf(e) => Tag(|v.items|) + EncodeAll(e, v.items)
    case SetOf(e) => Tag(|v.items|) + EncodeAll(e, v.items)
    case ArrayOf(e, n) => EncodeAll(e, v.items)
    case OneOf(alts) => Tag(v.index) + Encode(alts[v.index], v.val)
    case Maybe(e) => if v.Absent? then [0] else [1] + Encode(e, v.val)
    case TupleOf(es) => EncodeEach(es, v.items)
  }

  function EncodeAll(t: Ty, vs: seq<Val>): seq<byte>
    requires AllHaveType(t, vs)
    decreases t, 2, |vs|
  {
    if vs == [] then [] else Encode(t, vs[0]) + EncodeAll(t, vs[1..])
  }

  function EncodeEach(ts: seq<Ty>, vs: seq<Val>): seq<byte>
    requires EachHasType(ts, vs)
    decreases ts, 0, |vs|
  {
    if ts == [] then [] else Encode(ts[0], vs[0]) + EncodeEach(ts[1..], vs[1..])
  }

  // ---- Reading -----------------------------------------------------------------------------

  /** A value and the bytes left over. None where the code would run out of bytes, or meet a
      variant index with no alternative, and leave its target partly unassigned. */
  type Reading<T> = Option<(T, seq<byte>)>

  function ReadRaw(n: nat, s: seq<byte>): Reading<seq<byte>> {
    if |s| < n then None else Some((s[..n], s[n..]))
  }

  function ReadTag(s: seq<byte>): Reading<nat> {
    if |s| < TAG then None else Some((FromBytes(s[..TAG]), s[TAG..]))
  }

  /** emplace: an entry whose key is already there is dropped. */
  function Insert(table: bool, items: seq<Val>, v: Val): seq<Val> {
    if HasKey(table, items, KeyOf(table, v)) then items else items + [v]
  }

  function InsertAll(table: bool, items: seq<Val>, vs: seq<Val>): seq<Val>
    decreases |vs|
  {
    if vs == [] then items else InsertAll(table, Insert(table, items, vs[0]), vs[1..])
  }

  /** BinaryInputArchiver::_archive. */
  function Decode(t: Ty, s: seq<byte>): Reading<Val>
    decreases t, 1
  {
    match t
    case Scalar(w) =>
      (match ReadRaw(w, s) case None => None case Some((b, rest)) => Some((Raw(b), rest)))
    case Text(w) =>
      (match ReadTag(s)
       case None => None
       case Some((n, rest)) =>
         match ReadRaw(n * w, rest) case None => None case Some((b, rest')) => Some((Raw(b), rest')))
    case ListOf(e) =>
      (match ReadTag(s)
       case None => None
       case Some((n, rest)) =>
         match DecodeAll(e, n, rest) case None => None case Some((vs, rest')) => Some((Items(vs), rest')))
    case TableOf(e) =>
      (match ReadTag(s)
       case None => None
       case Some((n, rest)) =>
         match DecodeAll(e, n, rest)
         case None => None
         case Some((vs, rest')) => Some((Items(InsertAll(true, [], vs)), rest')))
    case SetOf(e) =>
      (match ReadTag(s)
       case None => None
       case Some((n, rest)) =>
         match DecodeAll(e, n, rest)
         case None => None
         case Some((vs, rest')) => Some((Items(InsertAll(false, [], vs)), rest')))
    case ArrayOf(e, n) =>
      (match DecodeAll(e, n, s) case None => None case Some((vs, rest)) => Some((Items(vs), rest)))
    case OneOf(alts) =>
      (match ReadTag(s)
       case None => None
       case Some((i, rest)) =>
         if i >= |alts| then None
         else match Decode(alts[i], rest) case None => None case Some((v, rest')) => Some((Alt(i, v), rest')))
    case Maybe(e) =>
      (match ReadRaw(1, s)
       case None => None
       case Some((flag, rest)) =>
         if flag == [0] then Some((Absent, rest))
         else match Decode(e, rest) case None => None case Some((v, rest')) => Some((Present(v), rest')))
    case TupleOf(es) =>
      (match DecodeEach(es, s) case None => None case Some((vs, rest)) => Some((Items(vs), rest)))
  }

  function DecodeAll(t: Ty, n: nat, s: seq<byte>): Reading<seq<Val>>
    decreases t, 2, n
  {
    if n == 0 then Some(([], s))
    else
      match Decode(t, s)
      case None => None
      case Some((v, rest)) =>
        match DecodeAll(t, n - 1, rest) case None => None case Some((vs, rest')) => Some(([v] + vs, rest'))
  }

  function DecodeEach(ts: seq<Ty>, s: seq<byte>): Reading<seq<Val>>
    decreases ts, 0
  {
    if ts == [] then Some(([], s))
    else
      match Decode(ts[0], s)
      case None => None
      case Some((v, rest)) =>
        match DecodeEach(ts[1..], rest) case None => None case Some((vs, rest')) => Some(([v] + vs, rest'))
  }

  // ---- Round trip --------------------------------------------------------------------------

  lemma TagRoundTrip(n: nat, rest: seq<byte>)
    requires n < Power256(TAG)
    ensures ReadTag(Tag(n) + rest) == Some((n, rest))
  {
    LoadStored(n, TAG);
    assert (Tag(n) + rest)[..TAG] == Tag(n);
  }

  lemma RawRoundTrip(b: seq<byte>, rest: seq<byte>)
    ensures ReadRaw(|b|, b + rest) == Some((b, rest))
  {
    assert (b + rest)[..|b|] == b;
  }

  /** Inserting entries with distinct keys into an empty container drops none of them. */
  lemma {:induction false} DistinctInserted(table: bool, done: seq<Val>, vs: seq<Val>)
    requires DistinctKeys(table, done + vs)
    ensures InsertAll(table, done, vs) == done + vs
    decreases |vs|
  {
    if vs == [] {
      assert done + vs == done;
    } else {
      assert !HasKey(table, done, KeyOf(table, vs[0])) by {
        assert (done + vs)[|done|] == vs[0];
        assert forall i | 0 <= i < |done| :: (done + vs)[i] == done[i];
      }
      assert done + [vs[0]] + vs[1..] == done + vs;
      DistinctInserted(table, done + [vs[0]], vs[1..]);
    }
  }

  lemma KeyedRoundTrip(table: bool, vs: seq<Val>)
    requires DistinctKeys(table, vs)
    ensures InsertAll(table, [], vs) == vs
  {
    assert [] + vs == vs;
    DistinctInserted(table, [], vs);
  }

  lemma WholeElements(size: nat, width: nat)
    requires width > 0 && size % width == 0
    ensures size / width * width == size
  {
  }

  lemma TextRoundTrip(w: nat, b: seq<byte>, rest: seq<byte>)
    requires HasType(Text(w), Raw(b))
    ensures Decode(Text(w), Encode(Text(w), Raw(b)) + rest) == Some((Raw(b), rest))
  {
    hide FromBytes, ToBytes, ReadRaw, ReadTag;
    var n := |b| / w;
    var s := Encode(Text(w), Raw(b)) + rest;
    WholeElements(|b|, w);
    TagRoundTrip(n, b + rest);
    assert s == Tag(n) + (b + rest);
    assert ReadTag(s) == Some((n, b + rest));
    RawRoundTrip(b, rest);
    assert ReadRaw(n * w, b + rest) == Some((b, rest));
  }

  /** Reading an encoding followed by any bytes gives the value back and leaves those bytes. */
  lemma {:induction false} RoundTrip(t: Ty, v: Val, rest: seq<byte>)
    requires HasType(t, v)
    ensures Decode(t, Encode(t, v) + rest) == Some((v, rest))
    decreases t, 1
  {
    match t {
      case Scalar(w) => RawRoundTrip(v.bytes, rest);
      case Text(w) => TextRoundTrip(w, v.bytes, rest);
      case ListOf(e) =>
        SizedRoundTrip(e, v.items, rest);
      case TableOf(e) =>
        SizedRoundTrip(e, v.items, rest);
        KeyedRoundTrip(true, v.items);
      case SetOf(e) =>
        SizedRoundTrip(e, v.items, rest);
        KeyedRoundTrip(false, v.items);
      case ArrayOf(e, n) => AllRoundTrip(e, v.items, rest);
      case OneOf(alts) => ChoiceRoundTrip(alts, v, rest);
      case Maybe(e) => MaybeRoundTrip(e, v, rest);
      case TupleOf(es) => EachRoundTrip(es, v.items, rest);
    }
  }

  lemma ChoiceRoundTrip(alts: seq<Ty>, v: Val, rest: seq<byte>)
    requires HasType(OneOf(alts), v)
    ensures Decode(OneOf(alts), Encode(OneOf(alts), v) + rest) == Some((v, rest))
    decreases alts, 0
  {
    var e := Encode(alts[v.index], v.val);
    TagRoundTrip(v.index, e + rest);
    assert Encode(OneOf(alts), v) + rest == Tag(v.index) + (e + rest);
    RoundTrip(alts[v.index], v.val, rest);
  }

  lemma MaybeRoundTrip(t: Ty, v: Val, rest: seq<byte>)
    requires HasType(Maybe(t), v)
    ensures Decode(Maybe(t), Encode(Maybe(t), v) + rest) == Some((v, rest))
    decreases t, 2
  {
    if v.Absent? {
      RawRoundTrip([0], rest);
    } else {
      var e := Encode(t, v.val);
      assert Encode(Maybe(t), v) + rest == [1] + (e + rest);
      RawRoundTrip([1], e + rest);
      RoundTrip(t, v.val, rest);
    }
  }

  /** The size tag and then the elements. */
  lemma SizedRoundTrip(t: Ty, vs: seq<Val>, rest: seq<byte>)
    requires AllHaveType(t, vs) && |vs| < Power256(TAG)
    ensures ReadTag((Tag(|vs|) + EncodeAll(t, vs)) + rest) == Some((|vs|, EncodeAll(t, vs) + rest))
    ensures DecodeAll(t, |vs|, EncodeAll(t, vs) + rest) == Some((vs, rest))
    decreases t, 3
  {
    var e := EncodeAll(t, vs);
    assert (Tag(|vs|) + e) + rest == Tag(|vs|) + (e + rest);
    TagRoundTrip(|vs|, e + rest);
    AllRoundTrip(t, vs, rest);
  }

  lemma {:induction false} AllRoundTrip(t: Ty, vs: seq<Val>, rest: seq<byte>)
    requires AllHaveType(t, vs)
    ensures DecodeAll(t, |vs|, EncodeAll(t, vs) + rest) == Some((vs, rest))
    decreases t, 2, |vs|
  {
    hide Encode, Decode, HasType;
    if vs == [] {
      assert EncodeAll(t, vs) + rest == rest;
    } else {
      var first, others := Encode(t, vs[0]), EncodeAll(t, vs[1..]);
      assert EncodeAll(t, vs) + rest == first + (others + rest);
      RoundTrip(t, vs[0], others + rest);
      AllRoundTrip(t, vs[1..], rest);
      assert [vs[0]] + vs[1..] == vs;
    }
  }

  lemma {:induction false} EachRoundTrip(ts: seq<Ty>, vs: seq<Val>, rest: seq<byte>)
    requires EachHasType(ts, vs)
    ensures DecodeEach(ts, EncodeEach(ts, vs) + rest) == Some((vs, rest))
    decreases ts, 0, |vs|
  {
    if ts == [] {
      assert EncodeEach(ts, vs) + rest == rest;
    } else {
      var first, others := Encode(ts[0], vs[0]), EncodeEach(ts[1..], vs[1..]);
      assert EncodeEach(ts, vs) + rest == first + (others + rest);
      RoundTrip(ts[0], vs[0], others + rest);
      EachRoundTrip(ts[1..], vs[1..], rest);
      assert [vs[0]] + vs[1..] == vs;
    }
  }

  /** Two streams that start with encodings of one type and agree as bytes agree as values: no
      encoding is a proper prefix of another, so no delimiter is needed between messages. */
  lemma EncodingsAreSelfDelimiting(t: Ty, v: Val, w: Val, r: seq<byte>, q: seq<byte>)
    requires HasType(t, v) && HasType(t, w)
    requires Encode(t, v) + r == Encode(t, w) + q
    ensures v == w && r == q
  {
    RoundTrip(t, v, r);
    RoundTrip(t, w, q);
  }
}
