/** JSON documents as the SDK exchanges them with the Messaging REST API, and
  * the Python operations the SDK applies to a decoded document: `d[key]`,
  * `key in d`, `d.get(key, default)`, `set(xs)` and iteration over a list.
  * Numbers are integers: every numeric field of the API (counts, codes, page
  * numbers) is one. */
module Json {

  import opened Wrappers
  import opened Exceptions

  datatype Json =
    | JNull
    | JBool(b: bool)
    | JNumber(n: int)
    | JString(s: string)
    | JArray(items: seq<Json>)
    | JObject(members: map<string, Json>)

  /** A JSON object's members, the model of the `fields` dicts of the SDK. */
  type Fields = map<string, Json>

  /** A JSON array of strings, in the order given. */
  function StringArray(xs: seq<string>): Json
  {
    if |xs| == 0 then JArray([]) else JArray([JString(xs[0])] + StringArray(xs[1..]).items)
  }

  /** The array holds the strings, in order. */
  lemma {:induction false} StringArrayItems(xs: seq<string>)
    ensures StringArray(xs).JArray? && |StringArray(xs).items| == |xs|
    ensures forall i :: 0 <= i < |xs| ==> StringArray(xs).items[i] == JString(xs[i])
  {
    if |xs| > 0 {
      StringArrayItems(xs[1..]);
    }
  }

  /** `json.dumps` of an optional string: `None` becomes `null`. */
  function NullableString(o: Option<string>): Json
  {
    match o
    case None => JNull
    case Some(s) => JString(s)
  }

  // The messages of the built-in exceptions raised when a document does not
  // have the shape the SDK expects.
  const NOT_SUBSCRIPTABLE := "object is not subscriptable by a string"
  const NOT_ITERABLE := "argument is not iterable"
  const NO_GET := "object has no attribute 'get'"
  const UNHASHABLE := "unhashable or non-string element"
  const NOT_A_STRING := "expected a string"
  const NOT_AN_INT := "expected an integer"
  const NOT_A_BOOL := "expected a boolean"
  const NOT_A_LIST := "expected a list"

  predicate OccursAt(s: string, t: string, i: int)
  {
    0 <= i <= |t| - |s| && t[i..i + |s|] == s
  }

  /** `s` occurs in `t` as a contiguous run. */
  predicate IsSubstring(s: string, t: string)
  {
    exists i :: 0 <= i <= |t| && OccursAt(s, t, i)
  }

  /** `key in d`: a member name of an object, an element of a list, a
    * substring of a string; `TypeError` for `null`, booleans and numbers. */
  function Contains(d: Json, key: string): (r: Result<bool, Failure>)
    ensures d.JObject? ==> r == Success(key in d.members)
  {
    match d
    case JObject(m) => Success(key in m)
    case JArray(items) => Success(JString(key) in items)
    case JString(s) => Success(IsSubstring(key, s))
    case _ => Failure(TypeError(NOT_ITERABLE))
  }

  /** `d.get(key, default)`, for an object `d`; `AttributeError` otherwise. */
  function Get(d: Json, key: string, default: Json): (r: Result<Json, Failure>)
    ensures r.Success? <==> d.JObject?
    ensures d.JObject? ==> r.value == if key in d.members then d.members[key] else default
  {
    match d
    case JObject(m) => Success(if key in m then m[key] else default)
    case _ => Failure(AttributeError(NO_GET))
  }

  /** A string attribute that may be `None`: `null` reads as `None`. */
  function AsNullableString(j: Json): Result<Option<string>, Failure>
  {
    match j
    case JNull => Success(None)
    case JString(s) => Success(Some(s))
    case _ => Failure(TypeError(NOT_A_STRING))
  }

  function AsString(j: Json): Result<string, Failure>
  {
    match j
    case JString(s) => Success(s)
    case _ => Failure(TypeError(NOT_A_STRING))
  }

  function AsNullableInt(j: Json): Result<Option<int>, Failure>
  {
    match j
    case JNull => Success(None)
    case JNumber(n) => Success(Some(n))
    case _ => Failure(TypeError(NOT_AN_INT))
  }

  function AsNullableBool(j: Json): Result<Option<bool>, Failure>
  {
    match j
    case JNull => Success(None)
    case JBool(b) => Success(Some(b))
    case _ => Failure(TypeError(NOT_A_BOOL))
  }

  /** The strings among `items`, when all of them are strings. */
  function StringElements(items: seq<Json>): Option<seq<string>>
  {
    if |items| == 0 then Some([])
    else if !items[0].JString? then None
    else
      match StringElements(items[1..])
      case None => None
      case Some(rest) => Some([items[0].s] + rest)
  }

  /** `set(j)` of a list of strings: duplicates collapse and the order is
    * forgotten. Python also iterates the keys of an object and the
    * characters of a string. */
  function AsStringSet(j: Json): (r: Result<set<string>, Failure>)
    ensures j.JObject? ==> r == Success(j.members.Keys)
  {
    match j
    case JArray(items) =>
      (match StringElements(items)
       case Some(xs) => Success(set x | x in xs)
       case None => Failure(TypeError(UNHASHABLE)))
    case JObject(m) => Success(m.Keys)
    case JString(s) => Success(set i | 0 <= i < |s| :: [s[i]])
    case _ => Failure(TypeError(NOT_ITERABLE))
  }

  lemma {:induction false} StringElementsOfArray(xs: seq<string>)
    ensures StringElements(StringArray(xs).items) == Some(xs)
  {
    if |xs| > 0 {
      var items := StringArray(xs).items;
      StringElementsOfArray(xs[1..]);
      assert items == [JString(xs[0])] + StringArray(xs[1..]).items;
      assert items[1..] == StringArray(xs[1..]).items;
      assert xs == [xs[0]] + xs[1..];
    }
  }

  /** Reading back a list of strings as a set gives exactly its elements. */
  lemma StringSetOfArray(xs: seq<string>)
    ensures AsStringSet(StringArray(xs)) == Success(set x | x in xs)
  {
    StringElementsOfArray(xs);
  }

  /** `for s in j`, for a list `j`. */
  function AsList(j: Json): Result<seq<Json>, Failure>
  {
    match j
    case JArray(items) => Success(items)
    case _ => Failure(TypeError(NOT_A_LIST))
  }

  /** A document every reader starts by subscripting: `d[key]` on anything
    * but an object is a `TypeError`. */
  function AsObject(d: Json): (r: Result<Fields, Failure>)
    ensures r.Success? <==> d.JObject?
    ensures r.Success? ==> r.value == d.members
  {
    match d
    case JObject(m) => Success(m)
    case _ => Failure(TypeError(NOT_SUBSCRIPTABLE))
  }

  /** `fields[key]` on an object's members: a `KeyError` when missing. */
  function Field(m: Fields, key: string): (r: Result<Json, Failure>)
    ensures r.Success? <==> key in m
    ensures r.Success? ==> r.value == m[key]
    ensures r.Failure? ==> r.error == KeyError(key)
  {
    if key in m then Success(m[key]) else Failure(KeyError(key))
  }

  // `fields[key]` followed by the attribute's type.

  function NullableStringField(m: Fields, key: string): Result<Option<string>, Failure>
  {
    var v :- Field(m, key);
    AsNullableString(v)
  }

  function StringField(m: Fields, key: string): Result<string, Failure>
  {
    var v :- Field(m, key);
    AsString(v)
  }

  function NullableIntField(m: Fields, key: string): Result<Option<int>, Failure>
  {
    var v :- Field(m, key);
    AsNullableInt(v)
  }

  function NullableBoolField(m: Fields, key: string): Result<Option<bool>, Failure>
  {
    var v :- Field(m, key);
    AsNullableBool(v)
  }

  function StringSetField(m: Fields, key: string): Result<set<string>, Failure>
  {
    var v :- Field(m, key);
    AsStringSet(v)
  }

  function ListField(m: Fields, key: string): Result<seq<Json>, Failure>
  {
    var v :- Field(m, key);
    AsList(v)
  }
}
