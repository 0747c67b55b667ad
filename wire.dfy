/**
 * Values the core exchanges with crates that are not part of this model:
 * fixed-width integers, JSON values (serde_json's `Value`), the field
 * decoding rules serde's derived `Deserialize` applies to a JSON object,
 * ASCII case folding, decimal rendering and `std::io::Error`.
 */
module Wire {
  import opened Wrappers

  /** Rust's `u64` (and `usize` on a 64-bit target). */
  newtype u64 = x: int | 0 <= x < 0x1_0000_0000_0000_0000

  predicate InU64(n: int) {
    0 <= n < 0x1_0000_0000_0000_0000
  }

  predicate InI64(n: int) {
    -0x8000_0000_0000_0000 <= n < 0x8000_0000_0000_0000
  }

  // ---------------------------------------------------------------------------
  // JSON values

  /** A JSON number: an integer, or any other number kept as its text. */
  datatype Number = Int(i: int) | Float(text: string)

  /** serde_json's `Value`; an object maps each key to its last value. */
  datatype Json =
    | Null
    | Bool(b: bool)
    | Num(n: Number)
    | Str(s: string)
    | Array(items: seq<Json>)
    | Object(fields: map<string, Json>)

  function MissingField(name: string): string {
    "missing field `" + name + "`"
  }

  function InvalidType(name: string): string {
    "invalid type for field `" + name + "`"
  }

  /** A JSON string, as serde reads a `String` field. */
  function AsString(j: Json, name: string): (r: Result<string, string>)
    ensures r.Success? <==> j.Str?
    ensures r.Success? ==> Str(r.value) == j
  {
    if j.Str? then Success(j.s) else Failure(InvalidType(name))
  }

  /** A JSON boolean, as serde reads a `bool` field. */
  function AsBool(j: Json, name: string): (r: Result<bool, string>)
    ensures r.Success? <==> j.Bool?
    ensures r.Success? ==> Bool(r.value) == j
  {
    if j.Bool? then Success(j.b) else Failure(InvalidType(name))
  }

  /** A JSON integer in range, as serde reads a `u64` or `usize` field. */
  function AsU64(j: Json, name: string): (r: Result<u64, string>)
    ensures r.Success? <==> j.Num? && j.n.Int? && InU64(j.n.i)
    ensures r.Success? ==> Num(Int(r.value as int)) == j
  {
    if j.Num? && j.n.Int? && InU64(j.n.i) then Success(j.n.i as u64)
    else Failure(InvalidType(name))
  }

  /** A JSON integer in range, as serde reads an `i64` field. */
  function AsI64(j: Json, name: string): (r: Result<int, string>)
    ensures r.Success? <==> j.Num? && j.n.Int? && InI64(j.n.i)
    ensures r.Success? ==> InI64(r.value) && Num(Int(r.value)) == j
  {
    if j.Num? && j.n.Int? && InI64(j.n.i) then Success(j.n.i)
    else Failure(InvalidType(name))
  }

  /** A JSON array of in-range integers, as serde reads a `Vec<usize>` field. */
  function AsU64Array(j: Json, name: string): (r: Result<seq<u64>, string>)
    ensures r.Success? <==> j.Array? && forall k :: 0 <= k < |j.items| ==> AsU64(j.items[k], name).Success?
    ensures r.Success? ==> U64Array(r.value) == j
  {
    if j.Array? then
      var xs :- AsU64Items(j.items, name);
      Success(xs)
    else Failure(InvalidType(name))
  }

  function AsU64Items(items: seq<Json>, name: string): (r: Result<seq<u64>, string>)
    ensures r.Success? <==> forall k :: 0 <= k < |items| ==> AsU64(items[k], name).Success?
    ensures r.Success? ==> |r.value| == |items| && forall k :: 0 <= k < |items| ==> Num(Int(r.value[k] as int)) == items[k]
  {
    if items == [] then Success([])
    else
      var x :- AsU64(items[0], name);
      var xs :- AsU64Items(items[1..], name);
      Success([x] + xs)
  }

  function U64Array(xs: seq<u64>): (j: Json)
    ensures j.Array? && |j.items| == |xs|
    ensures forall k :: 0 <= k < |xs| ==> j.items[k] == Num(Int(xs[k] as int))
  {
    Array(seq(|xs|, k requires 0 <= k < |xs| => Num(Int(xs[k] as int))))
  }

  /** A field serde requires: absent is `missing field`, present is decoded by `dec`. */
  function Required<T>(fields: map<string, Json>, name: string, dec: (Json, string) -> Result<T, string>): (r: Result<T, string>)
    ensures name !in fields ==> r == Failure(MissingField(name))
    ensures name in fields ==> r == dec(fields[name], name)
  {
    if name in fields then dec(fields[name], name) else Failure(MissingField(name))
  }

  /** An `Option<T>` field: absent or `null` is `None`, anything else is decoded by `dec`. */
  function Optional<T>(fields: map<string, Json>, name: string, dec: (Json, string) -> Result<T, string>): (r: Result<Option<T>, string>)
    ensures (name !in fields || fields[name] == Null) ==> r == Success(None)
    ensures name in fields && fields[name] != Null ==>
      (r.Success? <==> dec(fields[name], name).Success?) &&
      (r.Success? ==> r.value == Some(dec(fields[name], name).value))
  {
    if name !in fields || fields[name] == Null then Success(None)
    else
      var v :- dec(fields[name], name);
      Success(Some(v))
  }

  /** serde's encoding of an `Option` field: `None` becomes `null`, never a missing key. */
  function OptionalJson<T>(o: Option<T>, enc: T -> Json): (j: Json)
    ensures o.None? ==> j == Null
    ensures o.Some? ==> j == enc(o.value)
  {
    match o
    case None => Null
    case Some(v) => enc(v)
  }

  // ---------------------------------------------------------------------------
  // ASCII case folding

  function LowerChar(c: char): char {
    if 'A' <= c <= 'Z' then (c as int + 32) as char else c
  }

  /** Lower-cases the ASCII letters of `s` and leaves every other character alone. */
  function Lower(s: string): (r: string)
    ensures |r| == |s|
    ensures forall k :: 0 <= k < |s| ==> r[k] == LowerChar(s[k])
  {
    seq(|s|, k requires 0 <= k < |s| => LowerChar(s[k]))
  }

  lemma LowerIdempotent(s: string)
    ensures Lower(Lower(s)) == Lower(s)
  {
  }

  /** A string without upper-case ASCII letters is its own lower-case form. */
  lemma LowerOfLower(s: string)
    requires forall k :: 0 <= k < |s| ==> !('A' <= s[k] <= 'Z')
    ensures Lower(s) == s
  {
  }

  // ---------------------------------------------------------------------------
  // Decimal rendering of natural numbers (how Rust displays an integer)

  function DigitChar(d: nat): (c: char)
    requires d < 10
    ensures '0' <= c <= '9'
  {
    (48 + d) as char
  }

  function Decimal(n: nat): (s: string)
    ensures |s| > 0
    ensures forall k :: 0 <= k < |s| ==> '0' <= s[k] <= '9'
  {
    if n < 10 then [DigitChar(n)] else Decimal(n / 10) + [DigitChar(n % 10)]
  }

  /** Reads a string of decimal digits back as a number. */
  function ParseDecimal(s: string): int
  {
    if s == [] then 0
    else ParseDecimal(s[..|s| - 1]) * 10 + (s[|s| - 1] as int - 48)
  }

  lemma {:induction false} DecimalRoundTrip(n: nat)
    ensures ParseDecimal(Decimal(n)) == n
  {
    var s := Decimal(n);
    if n >= 10 {
      DecimalRoundTrip(n / 10);
      assert s[..|s| - 1] == Decimal(n / 10);
    }
  }

  lemma {:induction false} DecimalLength(n: nat)
    ensures n < 10 ==> |Decimal(n)| == 1
    ensures 10 <= n < 100 ==> |Decimal(n)| == 2
    ensures 100 <= n < 1000 ==> |Decimal(n)| == 3
  {
    if n >= 10 {
      DecimalLength(n / 10);
    }
  }

  // ---------------------------------------------------------------------------
  // std::io::Error, as the configuration lookups build it

  datatype ErrorKind = NotFound

  datatype IoError = IoError(kind: ErrorKind, message: string)
}
