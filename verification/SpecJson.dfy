/** Parsed documents and the checked reads the campaign parser makes of them. */
module SpecJson {
  import opened Wrappers

  datatype Json =
    | Null
    | Boolean(b: bool)
    | Int(n: int)
    | Float(x: real)
    | Str(s: string)
    | List(items: seq<Json>)
    | Dict(fields: map<string, Json>)

  /** How a document is refused: by the spec's own error, by the research
      environment's, by the arm's, or by an error nothing in the parser handles. */
  datatype SpecError = InvalidSpec | ScaffoldRefused | ArmRefused | Unhandled

  /** What the parser depends on from outside: today's date, which characters
      count as blank, which paths are protected, the order a mapping is walked
      in, and the text of a value that is not a string. */
  datatype Env = Env(
    today: Date,
    blank: char -> bool,
    isProtected: string -> bool,
    keyOrder: map<string, Json> -> seq<string>,
    show: Json -> string)

  datatype Date = Date(year: int, month: int, day: int)

  predicate After(a: Date, b: Date) {
    a.year > b.year || (a.year == b.year && (a.month > b.month || (a.month == b.month && a.day > b.day)))
  }

  /** `j[key]`: anything but a mapping with the key is refused. */
  function Item(j: Json, key: string): Result<Json, SpecError> {
    if j.Dict? && key in j.fields then Ok(j.fields[key]) else Err(InvalidSpec)
  }

  /** `j.get(key)` on a mapping; an absent key reads as null. */
  function Get(j: Json, key: string): Json {
    if j.Dict? && key in j.fields then j.fields[key] else Null
  }

  function GetOr(j: Json, key: string, otherwise: Json): Json {
    if j.Dict? && key in j.fields then j.fields[key] else otherwise
  }

  function RequireStr(j: Json): Result<string, SpecError> {
    if j.Str? then Ok(j.s) else Err(InvalidSpec)
  }

  /** A boolean is not an integer. */
  function RequireInt(j: Json): Result<int, SpecError> {
    if j.Int? then Ok(j.n) else Err(InvalidSpec)
  }

  function RequireFloat(j: Json): Result<real, SpecError> {
    match j
    case Int(n) => Ok(n as real)
    case Float(x) => Ok(x)
    case _ => Err(InvalidSpec)
  }

  function RequireBool(j: Json): Result<bool, SpecError> {
    if j.Boolean? then Ok(j.b) else Err(InvalidSpec)
  }

  function StrAt(j: Json, key: string): Result<string, SpecError> {
    var v :- Item(j, key);
    RequireStr(v)
  }

  function IntAt(j: Json, key: string): Result<int, SpecError> {
    var v :- Item(j, key);
    RequireInt(v)
  }

  /** Null and absent both mean unset. */
  function OptionalStr(j: Json, key: string): Result<Option<string>, SpecError> {
    if Get(j, key).Null? then Ok(None)
    else
      var s :- RequireStr(Get(j, key));
      Ok(Some(s))
  }

  function Chars(s: string): (r: seq<Json>)
    ensures |r| == |s|
  {
    if s == "" then [] else [Str([s[0]])] + Chars(s[1..])
  }

  function Strs(names: seq<string>): (r: seq<Json>)
    ensures |r| == |names|
  {
    if names == [] then [] else [Str(names[0])] + Strs(names[1..])
  }

  /** What a loop over the value sees: a list's items, a mapping's keys, a
      string's characters; nothing else can be walked. */
  function Walk(env: Env, j: Json): Result<seq<Json>, SpecError> {
    match j
    case List(items) => Ok(items)
    case Dict(fields) => Ok(Strs(env.keyOrder(fields)))
    case Str(s) => Ok(Chars(s))
    case _ => Err(InvalidSpec)
  }

  function RequireStrs(items: seq<Json>): Result<seq<string>, SpecError> {
    if items == [] then Ok([])
    else
      var head :- RequireStr(items[0]);
      var tail :- RequireStrs(items[1..]);
      Ok([head] + tail)
  }

  function StrsAt(env: Env, j: Json, key: string): Result<seq<string>, SpecError> {
    var v :- Item(j, key);
    var items :- Walk(env, v);
    RequireStrs(items)
  }

  lemma {:induction false} StrsRoundTrip(names: seq<string>)
    ensures RequireStrs(Strs(names)) == Ok(names)
  {
    if names != [] {
      StrsRoundTrip(names[1..]);
      assert Strs(names)[1..] == Strs(names[1..]);
      assert names == [names[0]] + names[1..];
    }
  }

  /** Parses every item, stopping at the first that is refused. */
  function DecodeAll<T>(items: seq<Json>, decode: Json -> Result<T, SpecError>): Result<seq<T>, SpecError> {
    if items == [] then Ok([])
    else
      var head :- decode(items[0]);
      var tail :- DecodeAll(items[1..], decode);
      Ok([head] + tail)
  }

  function EncodeAll<T>(xs: seq<T>, encode: T -> Json): (r: seq<Json>)
    ensures |r| == |xs|
  {
    if xs == [] then [] else [encode(xs[0])] + EncodeAll(xs[1..], encode)
  }

  lemma {:induction false} AllRoundTrip<T>(xs: seq<T>, encode: T -> Json, decode: Json -> Result<T, SpecError>)
    requires forall i :: 0 <= i < |xs| ==> decode(encode(xs[i])) == Ok(xs[i])
    ensures DecodeAll(EncodeAll(xs, encode), decode) == Ok(xs)
  {
    if xs != [] {
      assert forall i :: 0 <= i < |xs[1..]| ==> xs[1..][i] == xs[i + 1];
      AllRoundTrip(xs[1..], encode, decode);
      assert EncodeAll(xs, encode)[1..] == EncodeAll(xs[1..], encode);
      assert xs == [xs[0]] + xs[1..];
    }
  }

  /** Whatever a parser of items guarantees of each holds of all of them. */
  lemma {:induction false} AllDecoded<T>(items: seq<Json>, decode: Json -> Result<T, SpecError>, good: T -> bool)
    requires forall j: Json :: decode(j).Ok? ==> good(decode(j).value)
    requires DecodeAll(items, decode).Ok?
    ensures var xs := DecodeAll(items, decode).value; forall i :: 0 <= i < |xs| ==> good(xs[i])
  {
    if items != [] {
      AllDecoded(items[1..], decode, good);
    }
  }
}
