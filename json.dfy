/** The JSON values that travel between the client and the Transmission daemon, and the
    parts of Go's encoding/json behaviour the client relies on: how a request map is
    written out, and how one JSON value is stored into an `int`, a `string` or a struct
    field during json.Unmarshal. */
module Json {
  import opened Errors

  /** A parsed JSON document. Numbers are the integer literals the daemon sends. */
  datatype Json =
    | JNull
    | JBool(b: bool)
    | JNum(n: int)
    | JStr(s: string)
    | JArr(items: seq<Json>)
    | JObj(members: seq<(string, Json)>)

  /** The bytes of an HTTP reply body: not JSON at all (json.Unmarshal reports a syntax
      error before storing anything), or a well-formed document. */
  datatype Body = Malformed | Doc(json: Json)

  /** The range of Go's `int` on the 64-bit platforms the client is built for. */
  const MinInt: int := -0x8000_0000_0000_0000
  const MaxInt: int := 0x7fff_ffff_ffff_ffff

  predicate InIntRange(n: int) {
    MinInt <= n <= MaxInt
  }

  /** The value of the first member named `key`, if any. */
  function Lookup(ms: seq<(string, Json)>, key: string): (r: Option<Json>)
    ensures r.Some? <==> exists i :: 0 <= i < |ms| && ms[i].0 == key
    ensures r.Some? ==> exists i :: 0 <= i < |ms| && ms[i] == (key, r.value) && forall j :: 0 <= j < i ==> ms[j].0 != key
    decreases |ms|
  {
    if ms == [] then None
    else if ms[0].0 == key then Some(ms[0].1)
    else
      var r := Lookup(ms[1..], key);
      assert forall i :: 0 < i < |ms| ==> ms[i] == ms[1..][i - 1];
      assert r.Some? ==> exists i :: 0 < i < |ms| && ms[i] == (key, r.value) && forall j :: 0 <= j < i ==> ms[j].0 != key by {
        if r.Some? {
          var i :| 0 <= i < |ms[1..]| && ms[1..][i] == (key, r.value) && forall j :: 0 <= j < i ==> ms[1..][j].0 != key;
          assert ms[i + 1] == (key, r.value);
          assert forall j :: 0 <= j < i + 1 ==> ms[j].0 != key by {
            forall j | 0 <= j < i + 1 ensures ms[j].0 != key {
              if j > 0 { assert ms[j] == ms[1..][j - 1]; }
            }
          }
        }
      }
      r
  }

  /** Byte-wise string order, the order in which json.Marshal writes the keys of a map. */
  predicate LexLess(a: string, b: string)
    decreases |a|
  {
    if a == [] then b != []
    else if b == [] then false
    else a[0] < b[0] || (a[0] == b[0] && LexLess(a[1..], b[1..]))
  }

  /** The keys of an object as json.Marshal writes a Go map: sorted and without repeats. */
  predicate SortedKeys(ms: seq<(string, Json)>) {
    forall i, j :: 0 <= i < j < |ms| ==> LexLess(ms[i].0, ms[j].0)
  }

  /** ASCII case folding of one character. */
  function Lower(c: char): char {
    if 'A' <= c <= 'Z' then (c as int + 32) as char else c
  }

  function Fold(s: string): string {
    seq(|s|, i requires 0 <= i < |s| => Lower(s[i]))
  }

  /** json.Unmarshal stores an object member into the struct field whose name (or `json`
      tag) equals the key up to case. */
  predicate KeyMatches(key: string, field: string) {
    Fold(key) == Fold(field)
  }

  /** Storing `v` into a Go `int` that holds `cur`: null leaves it alone, an integer in
      range replaces it, anything else is a type error. */
  function DecodeInt(cur: int, v: Json): (r: Result<int>)
    ensures r.Ok? ==> InIntRange(r.value) || r.value == cur
    ensures r.Err? ==> r.error == DecodeError
  {
    match v
    case JNull => Ok(cur)
    case JNum(n) => if InIntRange(n) then Ok(n) else Err(DecodeError)
    case _ => Err(DecodeError)
  }

  /** Storing `v` into a Go `string` that holds `cur`. */
  function DecodeString(cur: string, v: Json): (r: Result<string>)
    ensures r.Err? ==> r.error == DecodeError
  {
    match v
    case JNull => Ok(cur)
    case JStr(s) => Ok(s)
    case _ => Err(DecodeError)
  }

  /** `field` leaves every struct as it is for each member of `ms`: no key names a field. */
  ghost predicate NamesNoField<T(!new)>(ms: seq<(string, Json)>, field: (T, string, Json) -> Result<T>) {
    forall i, x :: 0 <= i < |ms| ==> field(x, ms[i].0, ms[i].1) == Ok(x)
  }

  /** The only error `field` reports is a decoding error. */
  ghost predicate FailsAsDecodeError<T(!new)>(field: (T, string, Json) -> Result<T>) {
    forall x, key, v :: field(x, key, v).Err? ==> field(x, key, v).error == DecodeError
  }

  /** Every struct `field` produces from one satisfying `inv` satisfies `inv` too. */
  ghost predicate Keeps<T(!new)>(field: (T, string, Json) -> Result<T>, inv: T -> bool) {
    forall x, key, v :: inv(x) && field(x, key, v).Ok? ==> inv(field(x, key, v).value)
  }

  /** Storing the members of an object, in order, into a struct that holds `cur`; `field`
      says what one member does to the struct. A key that comes twice is stored twice, the
      later value winning. Any member that fails makes the whole decoding fail, and the
      failure is a decoding error when each member's is. */
  function DecodeMembers<T(!new)>(cur: T, ms: seq<(string, Json)>, field: (T, string, Json) -> Result<T>): (r: Result<T>)
    ensures FailsAsDecodeError(field) && r.Err? ==> r.error == DecodeError
    decreases |ms|
  {
    if ms == [] then Ok(cur)
    else
      match field(cur, ms[0].0, ms[0].1)
      case Ok(next) => DecodeMembers(next, ms[1..], field)
      case Err(e) => Err(e)
  }

  /** Members whose keys name no field are skipped: they leave the struct as it was. */
  lemma {:induction false} SkipsUnknownMembers<T(!new)>(cur: T, ms: seq<(string, Json)>, field: (T, string, Json) -> Result<T>)
    requires NamesNoField(ms, field)
    ensures DecodeMembers(cur, ms, field) == Ok(cur)
    decreases |ms|
  {
    if ms != [] {
      assert field(cur, ms[0].0, ms[0].1) == Ok(cur);
      assert NamesNoField(ms[1..], field) by {
        forall i, x | 0 <= i < |ms[1..]| ensures field(x, ms[1..][i].0, ms[1..][i].1) == Ok(x) {
          assert ms[1..][i] == ms[i + 1];
        }
      }
      SkipsUnknownMembers(cur, ms[1..], field);
    }
  }

  /** Storing `v` into a Go struct that holds `cur`: null leaves it alone, an object is
      stored member by member, anything else is a type error. */
  function DecodeStruct<T(!new)>(cur: T, v: Json, field: (T, string, Json) -> Result<T>): (r: Result<T>)
    ensures v.JNull? ==> r == Ok(cur)
    ensures !v.JNull? && !v.JObj? ==> r == Err(DecodeError)
    ensures FailsAsDecodeError(field) && r.Err? ==> r.error == DecodeError
  {
    match v
    case JNull => Ok(cur)
    case JObj(ms) => DecodeMembers(cur, ms, field)
    case _ => Err(DecodeError)
  }

  /** json.Unmarshal of a reply body into a fresh struct whose zero value is `zero`: a body
      that is not JSON is rejected before anything is stored, and a null document leaves
      the zero value. */
  function Unmarshal<T(!new)>(body: Body, zero: T, field: (T, string, Json) -> Result<T>): (r: Result<T>)
    ensures body.Malformed? ==> r == Err(DecodeError)
    ensures body == Doc(JNull) ==> r == Ok(zero)
    ensures FailsAsDecodeError(field) && r.Err? ==> r.error == DecodeError
  {
    match body
    case Malformed => Err(DecodeError)
    case Doc(j) => DecodeStruct(zero, j, field)
  }

  /** An invariant every member keeps holds of the decoded struct. */
  lemma {:induction false} DecodeMembersKeeps<T(!new)>(cur: T, ms: seq<(string, Json)>, field: (T, string, Json) -> Result<T>, inv: T -> bool)
    requires Keeps(field, inv)
    ensures inv(cur) && DecodeMembers(cur, ms, field).Ok? ==> inv(DecodeMembers(cur, ms, field).value)
    decreases |ms|
  {
    if inv(cur) && ms != [] && field(cur, ms[0].0, ms[0].1).Ok? {
      DecodeMembersKeeps(field(cur, ms[0].0, ms[0].1).value, ms[1..], field, inv);
    }
  }

  /** The same for a struct decoded from any JSON value. */
  lemma DecodeStructKeeps<T(!new)>(cur: T, v: Json, field: (T, string, Json) -> Result<T>, inv: T -> bool)
    requires Keeps(field, inv)
    ensures inv(cur) && DecodeStruct(cur, v, field).Ok? ==> inv(DecodeStruct(cur, v, field).value)
  {
    if v.JObj? {
      DecodeMembersKeeps(cur, v.members, field, inv);
    }
  }

  /** The same for a whole reply body decoded into a fresh struct. */
  lemma UnmarshalKeeps<T(!new)>(body: Body, zero: T, field: (T, string, Json) -> Result<T>, inv: T -> bool)
    requires Keeps(field, inv)
    ensures inv(zero) && Unmarshal(body, zero, field).Ok? ==> inv(Unmarshal(body, zero, field).value)
  {
    if body.Doc? {
      DecodeStructKeeps(zero, body.json, field, inv);
    }
  }

  /** A member that `field` stores as `next`, followed by members that decode `next` to
      `last`, decode `cur` to `last`. */
  lemma DecodeMembersStep<T(!new)>(cur: T, m: (string, Json), ms: seq<(string, Json)>, field: (T, string, Json) -> Result<T>, next: T, last: T)
    requires field(cur, m.0, m.1) == Ok(next)
    requires DecodeMembers(next, ms, field) == Ok(last)
    ensures DecodeMembers(cur, [m] + ms, field) == Ok(last)
  {
    assert ([m] + ms)[1..] == ms;
  }

  /** Decoding an object is decoding its first member and then the rest. */
  lemma DecodeMembersCons<T(!new)>(cur: T, m: (string, Json), ms: seq<(string, Json)>, field: (T, string, Json) -> Result<T>)
    ensures field(cur, m.0, m.1).Ok? ==>
      DecodeMembers(cur, [m] + ms, field) == DecodeMembers(field(cur, m.0, m.1).value, ms, field)
    ensures field(cur, m.0, m.1).Err? ==>
      DecodeMembers(cur, [m] + ms, field) == Err(field(cur, m.0, m.1).error)
  {
    assert ([m] + ms)[1..] == ms;
  }
}
