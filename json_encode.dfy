/**
 * PHP's `json_encode($value, JSON_UNESCAPED_UNICODE)` on decoded documents: non-ASCII
 * characters are written as they are, '/' is escaped, control characters and the
 * two Unicode line terminators U+2028/U+2029 are escaped.
 */
module JsonEncode {
  import opened Json
  import opened Text

  function LowerHex(d: int): char
    requires 0 <= d < 16
  {
    if d < 10 then ('0' as int + d) as char else ('a' as int + d - 10) as char
  }

  /** `\uXXXX` for a code point below 0x10000, lower-case hexadecimal as PHP writes it. */
  function UnicodeEscape(n: int): (r: string)
    requires 0 <= n < 0x10000
    ensures |r| == 6 && NoLineBreak(r)
  {
    ['\\', 'u', LowerHex(n / 0x1000), LowerHex((n / 0x100) % 16), LowerHex((n / 16) % 16), LowerHex(n % 16)]
  }

  function EscapeChar(c: char): (r: string)
    ensures NoLineBreak(r)
  {
    if c == '"' then "\\\""
    else if c == '\\' then "\\\\"
    else if c == '/' then "\\/"
    else if c == '\U{8}' then "\\b"
    else if c == '\U{C}' then "\\f"
    else if c == '\n' then "\\n"
    else if c == '\r' then "\\r"
    else if c == '\t' then "\\t"
    else if c as int < 0x20 || c as int == 0x2028 || c as int == 0x2029 then UnicodeEscape(c as int)
    else [c]
  }

  function EscapeString(s: string): (r: string)
    ensures NoLineBreak(r)
  {
    if s == [] then [] else EscapeChar(s[0]) + EscapeString(s[1..])
  }

  function Quote(s: string): (r: string)
    ensures NoLineBreak(r)
  {
    "\"" + EscapeString(s) + "\""
  }

  /** The parts joined by `sep`. */
  function Join(parts: seq<string>, sep: string): (r: string)
    requires NoLineBreak(sep)
    requires forall i :: 0 <= i < |parts| ==> NoLineBreak(parts[i])
    ensures NoLineBreak(r)
  {
    if parts == [] then ""
    else if |parts| == 1 then parts[0]
    else
      var rest := Join(parts[1..], sep);
      NoLineBreakConcat(parts[0], sep);
      NoLineBreakConcat(parts[0] + sep, rest);
      parts[0] + sep + rest
  }

  /** `inner` between two bracket characters. */
  function Enclose(open: char, inner: string, close: char): (r: string)
    requires open != '\n' && open != '\r' && close != '\n' && close != '\r'
    requires NoLineBreak(inner)
    ensures NoLineBreak(r) && r != []
  {
    NoLineBreakConcat([open], inner);
    NoLineBreakConcat([open] + inner, [close]);
    [open] + inner + [close]
  }

  /** The JSON text of a value. The text never contains a raw line break, which is what
      lets it sit on one `data:` line of an event stream. An empty object is a PHP
      empty array and so is written `[]`. */
  function Encode(j: Json): (r: string)
    ensures NoLineBreak(r)
    ensures r != []
  {
    match j
    case JNull => "null"
    case JBool(b) => if b then "true" else "false"
    case JNum(n) => IntToString(n)
    case JStr(s) => Quote(s)
    case JArr(items) =>
      Enclose('[', Join(seq(|items|, i requires 0 <= i < |items| => Encode(items[i])), ","), ']')
    case JObj(fields) =>
      if fields == [] then "[]"
      else Enclose('{', Join(seq(|fields|, i requires 0 <= i < |fields| => NameValue(fields[i].0, Encode(fields[i].1))), ","), '}')
  }

  /** One `"name":value` member of an object. */
  function NameValue(name: string, value: string): (r: string)
    requires NoLineBreak(value)
    ensures NoLineBreak(r)
  {
    NoLineBreakConcat(Quote(name), ":");
    NoLineBreakConcat(Quote(name) + ":", value);
    Quote(name) + ":" + value
  }
}
