/**
 * JSON as the services exchange it. A message body is either the text of
 * a JSON value or bytes that are not JSON at all; the text of a value is
 * not spelled out, only that distinct values have distinct texts.
 * A timestamp is its own node: `Instant(t)` stands for the RFC 3339 text
 * `time.Time` marshals to, and `Str` for any other string.
 */
module Json {
  import opened Wrappers

  datatype Value =
    | Null
    | Bool(b: bool)
    | Num(n: int)
    | Str(s: string)
    | Instant(nanos: int)
    | Arr(items: seq<Value>)
    | Obj(members: seq<Member>)

  datatype Member = Member(key: string, value: Value)

  /** The bytes of a message. */
  datatype Bytes = Text(v: Value) | Garbage(raw: seq<bv8>)

  /** `[]byte{}` (and a nil slice): no JSON text at all. */
  const NoBytes: Bytes := Garbage([])

  const NanosPerSecond: int := 1_000_000_000
  /** 0000-01-01T00:00:00Z and 10000-01-01T00:00:00Z, in nanoseconds since the Unix epoch. */
  const YearZero: int := -62_167_219_200 * NanosPerSecond
  const YearTenThousand: int := 253_402_300_800 * NanosPerSecond
  /** The zero `time.Time`, 0001-01-01T00:00:00Z. */
  const ZeroTime: int := -62_135_596_800 * NanosPerSecond

  const Uint64Limit: int := 0x1_0000_0000_0000_0000

  /** `time.Time.MarshalJSON` only handles years 0 through 9999. */
  predicate InYearRange(t: int) { YearZero <= t < YearTenThousand }

  /** `json.Marshal` succeeds: every timestamp inside is in the year range. */
  predicate Encodable(v: Value)
  {
    match v
    case Instant(t) => InYearRange(t)
    case Arr(items) => forall i :: 0 <= i < |items| ==> Encodable(items[i])
    case Obj(ms) => forall i :: 0 <= i < |ms| ==> Encodable(ms[i].value)
    case _ => true
  }

  /** `json.Marshal` of a value already laid out as JSON. */
  function Marshal(v: Value): (r: Option<Bytes>)
    ensures r.Some? <==> Encodable(v)
  {
    if Encodable(v) then Some(Text(v)) else None
  }

  /** Reading the text back: a syntax error for anything that is not JSON. */
  function Parse(b: Bytes): Option<Value>
  {
    match b
    case Text(v) => Some(v)
    case Garbage(_) => None
  }

  lemma MarshalParse(v: Value)
    requires Encodable(v)
    ensures Parse(Marshal(v).value) == Some(v)
  {
  }

  /** Marshalling is injective: different values never share a text. */
  lemma MarshalInjective(v: Value, w: Value)
    requires Marshal(v).Some? && Marshal(w).Some? && Marshal(v) == Marshal(w)
    ensures v == w
  {
  }

  /** The keys of an object, in order. */
  function Keys(v: Value): seq<string>
  {
    match v
    case Obj(ms) => seq(|ms|, i requires 0 <= i < |ms| => ms[i].key)
    case _ => []
  }

  /** The value under `key` in an object (the last one if repeated). */
  function Get(v: Value, key: string): Option<Value>
  {
    match v
    case Obj(ms) => Last(ms, key)
    case _ => None
  }

  function Last(ms: seq<Member>, key: string): Option<Value>
  {
    if ms == [] then None
    else if ms[|ms| - 1].key == key then Some(ms[|ms| - 1].value)
    else Last(ms[..|ms| - 1], key)
  }

  /** The value at a path of object keys. */
  function At(v: Value, path: seq<string>): Option<Value>
    decreases |path|
  {
    if path == [] then Some(v)
    else match Get(v, path[0])
      case None => None
      case Some(w) => At(w, path[1..])
  }

  /** Looking a key up in a two-member object: the later member wins. */
  lemma GetPair(a: Member, b: Member, k: string)
    ensures Get(Obj([a, b]), k) ==
      if b.key == k then Some(b.value) else if a.key == k then Some(a.value) else None
  {
    assert [a, b][..1] == [a];
    assert [a][..0] == [];
    assert Last([a], k) == if a.key == k then Some(a.value) else Last([], k);
  }

  lemma GetTriple(a: Member, b: Member, c: Member, k: string)
    ensures Get(Obj([a, b, c]), k) ==
      if c.key == k then Some(c.value) else if b.key == k then Some(b.value)
      else if a.key == k then Some(a.value) else None
  {
    assert [a, b, c][..2] == [a, b];
    GetPair(a, b, k);
  }

  lemma GetQuad(a: Member, b: Member, c: Member, d: Member, k: string)
    ensures Get(Obj([a, b, c, d]), k) ==
      if d.key == k then Some(d.value) else if c.key == k then Some(c.value)
      else if b.key == k then Some(b.value) else if a.key == k then Some(a.value) else None
  {
    assert [a, b, c, d][..3] == [a, b, c];
    GetTriple(a, b, c, k);
  }

  /** An object of two members marshals iff both member values do. */
  lemma EncodablePair(a: Member, b: Member)
    ensures Encodable(Obj([a, b])) <==> Encodable(a.value) && Encodable(b.value)
  {
    var ms := [a, b];
    assert ms[0].value == a.value && ms[1].value == b.value;
    if Encodable(a.value) && Encodable(b.value) {
      assert forall i | 0 <= i < 2 :: Encodable(ms[i].value);
    }
  }

  lemma EncodableTriple(a: Member, b: Member, c: Member)
    ensures Encodable(Obj([a, b, c])) <==> Encodable(a.value) && Encodable(b.value) && Encodable(c.value)
  {
    var ms := [a, b, c];
    assert ms[0].value == a.value && ms[1].value == b.value && ms[2].value == c.value;
    if Encodable(a.value) && Encodable(b.value) && Encodable(c.value) {
      assert forall i | 0 <= i < 3 :: Encodable(ms[i].value);
    }
  }

  lemma EncodableQuad(a: Member, b: Member, c: Member, d: Member)
    ensures Encodable(Obj([a, b, c, d])) <==>
      Encodable(a.value) && Encodable(b.value) && Encodable(c.value) && Encodable(d.value)
  {
    var ms := [a, b, c, d];
    assert ms[0].value == a.value && ms[1].value == b.value && ms[2].value == c.value && ms[3].value == d.value;
    if Encodable(a.value) && Encodable(b.value) && Encodable(c.value) && Encodable(d.value) {
      assert forall i | 0 <= i < 4 :: Encodable(ms[i].value);
    }
  }

  /** A path of two keys is two lookups. */
  lemma AtTwo(v: Value, k1: string, k2: string)
    ensures At(v, [k1, k2]) ==
      match Get(v, k1)
      case None => None
      case Some(w) => Get(w, k2)
  {
    assert [k1, k2][1..] == [k2];
    match Get(v, k1)
    case None =>
    case Some(w) => AtOne(w, k2);
  }

  /** A path of one key is one lookup. */
  lemma AtOne(v: Value, k: string)
    ensures At(v, [k]) == Get(v, k)
  {
    assert [k][1..] == [];
  }

  /** A path of three keys is a lookup followed by a path of two. */
  lemma AtThree(v: Value, k1: string, k2: string, k3: string)
    ensures At(v, [k1, k2, k3]) ==
      match Get(v, k1)
      case None => None
      case Some(w) => At(w, [k2, k3])
  {
    assert [k1, k2, k3][1..] == [k2, k3];
  }

  function LowerAscii(c: char): char
  {
    if 'A' <= c <= 'Z' then (c as int + 32) as char else c
  }

  /** The case-insensitive key match `encoding/json` falls back to (ASCII letters). */
  predicate EqualFold(a: string, b: string)
  {
    |a| == |b| && forall i :: 0 <= i < |a| ==> LowerAscii(a[i]) == LowerAscii(b[i])
  }
}
