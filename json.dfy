/** The part of `org.json` that the plugin reads: the values of an argument
    array and `JSONArray.getBoolean`. */
module Json {
  import opened Wrappers

  /** One element of a JSON array. Numbers, objects and nested arrays are
      one case, because nothing in the plugin looks inside them. */
  datatype JsonValue = JNull | JBool(b: bool) | JString(s: string) | JOther

  /** Case folding of `String.equalsIgnoreCase`, for ASCII letters. */
  function LowerAscii(c: char): (r: char)
    ensures 'A' <= c <= 'Z' ==> 'a' <= r <= 'z' && r as int == c as int + 32
    ensures !('A' <= c <= 'Z') ==> r == c
  {
    if 'A' <= c <= 'Z' then (c as int + 32) as char else c
  }

  predicate EqualsIgnoreCase(s: string, t: string)
  {
    |s| == |t| && forall i :: 0 <= i < |s| ==> LowerAscii(s[i]) == LowerAscii(t[i])
  }

  /** `JSONArray.getBoolean(index)`: a boolean, or one of the strings "true"
      and "false" in any letter case; anything else (JSON null included)
      makes it throw a `JSONException`, which is `None` here. */
  function GetBoolean(args: seq<JsonValue>, index: nat): (r: Option<bool>)
    requires index < |args|
    ensures r == Some(true) <==>
              args[index] == JBool(true) || (args[index].JString? && EqualsIgnoreCase(args[index].s, "true"))
    ensures r == Some(false) <==>
              args[index] == JBool(false) || (args[index].JString? && EqualsIgnoreCase(args[index].s, "false"))
    ensures r.None? ==> args[index].JNull? || args[index].JOther? || args[index].JString?
  {
    match args[index]
    case JBool(b) => Some(b)
    case JString(s) =>
      if EqualsIgnoreCase(s, "true") then Some(true)
      else if EqualsIgnoreCase(s, "false") then Some(false)
      else None
    case _ => None
  }
}
