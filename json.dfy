/**
 * The values the sanitizer produces, and `JSON.stringify` over them.
 *
 * The serializer is a stand-in for the host's `JSON.stringify`, restricted to the
 * shapes a sanitized value can take (no functions, symbols, bigints, cycles or
 * `toJSON` methods can occur in it).
 */
module Json {
  import opened Common

  /** A value the sanitizer returns: JSON data plus `undefined`. */
  datatype Loggable =
    | LUndefined
    | LNull
    | LBool(b: bool)
    | LNum(n: int)
    | LStr(s: string)
    | LArray(items: seq<Loggable>)
    | LObject(members: seq<Member>)

  /** One own property of a sanitized object, in insertion order. */
  datatype Member = Member(key: string, value: Loggable)

  function HexDigit(d: nat): char
    requires d < 16
  {
    "0123456789abcdef"[d]
  }

  /** How `JSON.stringify` writes one character inside a string literal. */
  function EscapeChar(c: char): (r: string)
    ensures |r| >= 1
    ensures c as int >= 0x20 && c != '"' && c != '\\' ==> r == [c]
  {
    if c == '"' then "\\\""
    else if c == '\\' then "\\\\"
    else if c as int == 0x08 then "\\b"
    else if c as int == 0x09 then "\\t"
    else if c as int == 0x0A then "\\n"
    else if c as int == 0x0C then "\\f"
    else if c as int == 0x0D then "\\r"
    else if c as int < 0x20 then "\\u00" + [HexDigit(c as int / 16), HexDigit(c as int % 16)]
    else [c]
  }

  function Escape(s: string): (r: string)
    ensures |r| >= |s|
  {
    if s == [] then [] else EscapeChar(s[0]) + Escape(s[1..])
  }

  /** A JSON string literal. */
  function Quote(s: string): (r: string)
    ensures |r| >= |s| + 2
  {
    "\"" + Escape(s) + "\""
  }

  /**
   * The text of a value nested in an array or object. `undefined` is written
   * `null` here because the only place this function meets it is as an array
   * element; object members holding `undefined` are skipped by the caller.
   */
  function Text(j: Loggable): string
    decreases j
  {
    match j
    case LUndefined => "null"
    case LNull => "null"
    case LBool(b) => if b then "true" else "false"
    case LNum(n) => DecimalString(n)
    case LStr(s) => Quote(s)
    case LArray(items) =>
      "[" + Join(seq(|items|, i requires 0 <= i < |items| => Text(items[i])), ",") + "]"
    case LObject(members) =>
      "{" + Join(Present(seq(|members|, i requires 0 <= i < |members| =>
                   if members[i].value.LUndefined? then None
                   else Some(Quote(members[i].key) + ":" + Text(members[i].value)))), ",") + "}"
  }

  /** The present entries of a sequence of options, in order. */
  function Present(parts: seq<Option<string>>): seq<string> {
    if parts == [] then []
    else (if parts[0].Some? then [parts[0].value] else []) + Present(parts[1..])
  }

  /**
   * `JSON.stringify(j)`: `None` when it returns `undefined` instead of a string,
   * which for a sanitized value happens exactly when the value is `undefined`.
   */
  function Stringify(j: Loggable): (r: Option<string>)
    ensures r.None? <==> j.LUndefined?
  {
    if j.LUndefined? then None else Some(Text(j))
  }
}
