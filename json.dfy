/** A decoded JSON tree and the read-only accessors of nlohmann::json that the
    parsers use on a `const` document: `contains`, `operator[]` with a key or an
    index, `size`, `empty`, `is_null`, range-for iteration and the implicit
    conversions to numbers and strings. */
module JsonValues {
  import opened Outcomes

  /** A JSON value. Numbers are kept as reals: the parsers only copy them. An
      object is its member list in the container's iteration order (ascending
      key order for nlohmann::json, whose objects are std::map); keys are
      distinct in every document the decoder produces. */
  datatype Json =
    | JNull
    | JBool(b: bool)
    | JNum(n: real)
    | JStr(s: string)
    | JArr(items: seq<Json>)
    | JObj(members: seq<Member>)

  datatype Member = Member(key: string, value: Json)

  /** The value of the first member named `key`, if any. */
  function Find(members: seq<Member>, key: string): (r: Option<Json>)
  {
    if members == [] then None
    else if members[0].key == key then Some(members[0].value)
    else Find(members[1..], key)
  }

  /** Safe navigation: the member `key` of an object, None for anything else. */
  function Get(j: Json, key: string): Option<Json>
  {
    if j.JObj? then Find(j.members, key) else None
  }

  /** Safe navigation: entry `i` of an array, None for anything else. */
  function Entry(j: Json, i: nat): Option<Json>
  {
    if j.JArr? && i < |j.items| then Some(j.items[i]) else None
  }

  /** Find sees a key exactly when some member carries it. */
  lemma {:induction false} FindSeesEveryKey(members: seq<Member>, key: string)
    ensures Find(members, key).Some? <==> exists k :: 0 <= k < |members| && members[k].key == key
  {
    if members != [] && members[0].key != key {
      FindSeesEveryKey(members[1..], key);
      assert forall k :: 1 <= k < |members| ==> members[k] == members[1..][k - 1];
    }
  }

  /** json::contains(key): false for every value that is not an object. */
  predicate Contains(j: Json, key: string)
    ensures Contains(j, key) ==> j.JObj?
  {
    Get(j, key).Some?
  }

  /** contains(key) holds exactly when the value is an object with a member
      named `key`. */
  lemma ContainsNamesAMember(j: Json, key: string)
    ensures Contains(j, key) <==> j.JObj? && exists k :: 0 <= k < |j.members| && j.members[k].key == key
  {
    if j.JObj? {
      FindSeesEveryKey(j.members, key);
    }
  }

  /** `const json::operator[](key)`: throws type_error 305 on a non-object; on
      an object without the key the library only asserts, which is undefined
      behaviour in a release build. */
  function AtKey(j: Json, key: string): (r: Outcome<Json>)
    ensures r.Done? <==> Contains(j, key)
    ensures r.Done? ==> Get(j, key) == Some(r.value)
    ensures r.Thrown? <==> !j.JObj?
  {
    if !j.JObj? then Thrown
    else match Find(j.members, key)
      case None => Undefined
      case Some(v) => Done(v)
  }

  /** `const json::operator[](index)`: throws type_error 305 on a non-array;
      an index past the end reads outside the std::vector (undefined). */
  function AtIndex(j: Json, i: nat): (r: Outcome<Json>)
    ensures r.Done? <==> Entry(j, i).Some?
    ensures r.Done? ==> Entry(j, i) == Some(r.value)
    ensures r.Thrown? <==> !j.JArr?
  {
    if !j.JArr? then Thrown
    else if i < |j.items| then Done(j.items[i])
    else Undefined
  }

  /** json::size(): 0 for null, the element count of an array or object, and 1
      for every primitive. */
  function Size(j: Json): (r: nat)
    ensures j.JArr? ==> r == |j.items|
    ensures j.JObj? ==> r == |j.members|
    ensures !j.JArr? && !j.JObj? ==> r <= 1 && (r == 0 <==> j.JNull?)
  {
    match j
    case JNull => 0
    case JArr(items) => |items|
    case JObj(members) => |members|
    case _ => 1
  }

  /** json::empty(), which the library defines to agree with size() == 0. */
  predicate Empty(j: Json)
    ensures Empty(j) <==> Size(j) == 0
  {
    match j
    case JNull => true
    case JArr(items) => items == []
    case JObj(members) => members == []
    case _ => false
  }

  /** What a range-for over a const json visits: nothing for null, the entries
      of an array, the member values of an object, the value itself for a
      primitive. */
  function Elements(j: Json): (r: seq<Json>)
    ensures |r| == Size(j)
    ensures j.JArr? ==> r == j.items
  {
    match j
    case JNull => []
    case JArr(items) => items
    case JObj(members) => seq(|members|, k requires 0 <= k < |members| => members[k].value)
    case _ => [j]
  }

  /** A value the arithmetic conversions accept: a number. The conversions to
      the library's own number types (double, and the 64-bit integer that is
      time_t and long on LP64 Linux with glibc, where int64_t is long) reject
      booleans with type_error 302. */
  predicate Numeric(j: Json)
  {
    j.JNum?
  }

  /** C++ conversion of a double to an integral type: toward zero. */
  function Truncate(x: real): (t: int)
    ensures 0.0 <= x ==> t as real <= x < t as real + 1.0
    ensures x < 0.0 ==> t as real - 1.0 < x <= t as real
  {
    if x >= 0.0 then x.Floor else -((-x).Floor)
  }

  /** Implicit conversion to double: numbers convert, everything else (null
      and booleans included) throws type_error 302. */
  function ToDouble(j: Json): (r: Outcome<real>)
    ensures !r.Undefined?
    ensures r.Done? <==> Numeric(j)
    ensures j.JNum? ==> r == Done(j.n)
  {
    match j
    case JNum(n) => Done(n)
    case _ => Thrown
  }

  /** Implicit conversion to long or time_t: as ToDouble, then truncated. */
  function ToLong(j: Json): (r: Outcome<int>)
    ensures !r.Undefined?
    ensures r.Done? <==> Numeric(j)
    ensures r.Done? ==> r.value == Truncate(ToDouble(j).value)
  {
    match j
    case JNum(n) => Done(Truncate(n))
    case _ => Thrown
  }

  /** Implicit conversion to std::string: only strings convert. */
  function ToText(j: Json): (r: Outcome<string>)
    ensures !r.Undefined?
    ensures r.Done? <==> j.JStr?
    ensures r.Done? ==> r.value == j.s
  {
    if j.JStr? then Done(j.s) else Thrown
  }
}
