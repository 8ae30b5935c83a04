/** The part of org.json the video builder relies on, over an abstract JSON
    tree: member lookup, `optString`, `optJSONArray`, `getJSONArray` and
    `getJSONObject`, with the exceptions they throw as an error value.
    Turning text into a tree is not modelled; a document is given as the
    tree the text denotes, or as the parser's error message. */
module Json {
  import opened Wrappers
  import opened Text

  datatype Json =
    | JNull
    | JBool(b: bool)
    | JNum(n: int)
    | JStr(s: string)
    | JArr(items: seq<Json>)
    | JObj(members: seq<Member>)

  datatype Member = Member(key: string, value: Json)

  /** The exceptions the accessors throw, and the parser's own. */
  datatype JsonError =
    | Unparsable(message: string)
    | NotAnObjectText
    | NotAnArrayText
    | KeyNotFound(key: string)
    | NotAnArray(key: string)
    | NotAnObject(index: nat)

  /** `getMessage()` of each exception, in org.json's wording. */
  function Message(e: JsonError): (r: string)
    ensures e.Unparsable? ==> r == e.message
    ensures e.KeyNotFound? || e.NotAnArray? ==> |r| > |e.key| && OccursAt(r, 12, e.key)
  {
    match e
    case Unparsable(m) => m
    case NotAnObjectText => "A JSONObject text must begin with '{'"
    case NotAnArrayText => "A JSONArray text must start with '['"
    case KeyNotFound(k) => "JSONObject[\"" + k + "\"] not found."
    case NotAnArray(k) => "JSONObject[\"" + k + "\"] is not a JSONArray."
    case NotAnObject(i) => "JSONArray[" + NatText(i) + "] is not a JSONObject."
  }

  /** The value of the first member named `key`. A parsed object never has
      two (the parser rejects a duplicate key), so "first" is "the". */
  function Lookup(members: seq<Member>, key: string): Option<Json> {
    if |members| == 0 then None
    else if members[0].key == key then Some(members[0].value)
    else Lookup(members[1..], key)
  }

  /** A lookup finds nothing exactly when no member has the key, and
      otherwise the value of the first member that has it. */
  lemma {:induction false} LookupSpec(members: seq<Member>, key: string)
    ensures var r := Lookup(members, key);
      && (r.None? <==> forall i | 0 <= i < |members| :: members[i].key != key)
      && (r.Some? ==> exists i :: 0 <= i < |members| && members[i] == Member(key, r.value)
                         && forall k | 0 <= k < i :: members[k].key != key)
  {
    if |members| > 0 && members[0].key != key {
      LookupSpec(members[1..], key);
      assert forall i | 1 <= i < |members| :: members[i] == members[1..][i - 1];
      var r := Lookup(members, key);
      if r.Some? {
        var i :| 0 <= i < |members[1..]| && members[1..][i] == Member(key, r.value)
                 && forall k | 0 <= k < i :: members[1..][k].key != key;
        assert members[i + 1] == Member(key, r.value);
      }
    }
  }

  /** `JSONObject.opt(key)`. */
  function Opt(obj: seq<Member>, key: string): Option<Json> {
    Lookup(obj, key)
  }

  /** `toString()` of a value: strings bare, containers serialised. */
  function ValueText(j: Json): (r: string)
    ensures j.JStr? ==> r == j.s
  {
    match j
    case JStr(s) => s
    case _ => Serialize(j)
  }

  /** The JSON text of a value (strings quoted without escaping). */
  function Serialize(j: Json): (r: string)
    ensures |r| > 0
    decreases j, 1
  {
    match j
    case JNull => "null"
    case JBool(b) => if b then "true" else "false"
    case JNum(n) => DecimalText(n)
    case JStr(s) => "\"" + s + "\""
    case JArr(items) => "[" + SerializeItems(j, items) + "]"
    case JObj(members) => "{" + SerializeMembers(j, members) + "}"
  }

  function SerializeItems(parent: Json, items: seq<Json>): string
    requires forall i | 0 <= i < |items| :: items[i] < parent
    decreases parent, 0, |items|
  {
    if |items| == 0 then ""
    else
      Serialize(items[0]) + (if |items| == 1 then "" else "," + SerializeItems(parent, items[1..]))
  }

  function SerializeMembers(parent: Json, members: seq<Member>): string
    requires forall i | 0 <= i < |members| :: members[i].value < parent
    decreases parent, 0, |members|
  {
    if |members| == 0 then ""
    else
      var m := members[0];
      "\"" + m.key + "\":" + Serialize(m.value)
        + (if |members| == 1 then "" else "," + SerializeMembers(parent, members[1..]))
  }

  /** `optString(key, default)`: the default when the member is absent or
      JSON null, the text of the value otherwise; `optString(key)` is the
      default "". */
  function OptString(obj: seq<Member>, key: string, default: string): (r: string)
    ensures Opt(obj, key).None? || Opt(obj, key) == Some(JNull) ==> r == default
    ensures Opt(obj, key).Some? && Opt(obj, key).value.JStr? ==> r == Opt(obj, key).value.s
  {
    match Opt(obj, key)
    case None => default
    case Some(JNull) => default
    case Some(v) => ValueText(v)
  }

  /** `optJSONArray(key)`: the items when the member is an array, else null. */
  function OptArray(obj: seq<Member>, key: string): (r: Option<seq<Json>>)
    ensures r.Some? <==> Opt(obj, key).Some? && Opt(obj, key).value.JArr?
    ensures r.Some? ==> Opt(obj, key) == Some(JArr(r.value))
  {
    match Opt(obj, key)
    case Some(JArr(items)) => Some(items)
    case _ => None
  }

  /** `getJSONArray(key)`: throws when the member is absent or not an array. */
  function GetArray(obj: seq<Member>, key: string): (r: Result<seq<Json>, JsonError>)
    ensures r.Ok? <==> OptArray(obj, key).Some?
    ensures r.Ok? ==> r.value == OptArray(obj, key).value
    ensures r.Err? ==> r.error == (if Opt(obj, key).None? then KeyNotFound(key) else NotAnArray(key))
  {
    match Opt(obj, key)
    case None => Err(KeyNotFound(key))
    case Some(JArr(items)) => Ok(items)
    case Some(_) => Err(NotAnArray(key))
  }

  /** `getJSONObject(i)` on an array: throws when the element is no object. */
  function GetObject(items: seq<Json>, i: nat): (r: Result<seq<Member>, JsonError>)
    requires i < |items|
    ensures r.Ok? <==> items[i].JObj?
    ensures r.Ok? ==> items[i] == JObj(r.value)
    ensures r.Err? ==> r.error == NotAnObject(i)
  {
    match items[i]
    case JObj(members) => Ok(members)
    case _ => Err(NotAnObject(i))
  }

  /** `optString` finds exactly the member a lookup finds, whatever comes
      after it in the object. */
  lemma {:induction false} OptStringFirstMember(obj: seq<Member>, key: string, s: string, rest: seq<Member>, default: string)
    requires forall i | 0 <= i < |obj| :: obj[i].key != key
    ensures OptString(obj + [Member(key, JStr(s))] + rest, key, default) == s
  {
    LookupPrefix(obj, key, Member(key, JStr(s)), rest);
  }

  lemma {:induction false} LookupPrefix(obj: seq<Member>, key: string, m: Member, rest: seq<Member>)
    requires forall i | 0 <= i < |obj| :: obj[i].key != key
    requires m.key == key
    ensures Lookup(obj + [m] + rest, key) == Some(m.value)
  {
    if |obj| > 0 {
      assert (obj + [m] + rest)[1..] == obj[1..] + [m] + rest;
      LookupPrefix(obj[1..], key, m, rest);
    }
  }
}
