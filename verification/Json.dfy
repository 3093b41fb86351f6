/** JSON values and their compact printing, with strings escaped as in section 7 of RFC 8259. */
module Json {
  import opened Text

  /** Numbers keep the text they are printed with. Members of an object are kept in order. */
  datatype Value =
    | Null
    | Bool(b: bool)
    | Num(text: string)
    | Str(s: string)
    | Arr(items: seq<Value>)
    | Obj(members: seq<(string, Value)>)

  predicate IsNumberChar(c: char) {
    '0' <= c <= '9' || c in "+-.eE"
  }

  /** The number texts in `v` are made of number characters. */
  predicate WellFormed(v: Value)
    decreases v
  {
    match v
    case Num(text) => forall i | 0 <= i < |text| :: IsNumberChar(text[i])
    case Arr(items) => forall i | 0 <= i < |items| :: WellFormed(items[i])
    case Obj(members) => forall i | 0 <= i < |members| :: WellFormed(members[i].1)
    case _ => true
  }

  function HexDigit(n: int): char
    requires 0 <= n < 16
  {
    if n < 10 then ('0' as int + n) as char else ('a' as int + n - 10) as char
  }

  function EscapeChar(c: char): string {
    if c == '"' then "\\\""
    else if c == '\\' then "\\\\"
    else if c == '\n' then "\\n"
    else if c == '\r' then "\\r"
    else if c == '\t' then "\\t"
    else if c == '\U{08}' then "\\b"
    else if c == '\U{0C}' then "\\f"
    else if c < ' ' then "\\u00" + [HexDigit(c as int / 16), HexDigit(c as int % 16)]
    else [c]
  }

  function EscapeString(s: string): string {
    if |s| == 0 then "" else EscapeChar(s[0]) + EscapeString(s[1..])
  }

  function Quote(s: string): string {
    "\"" + EscapeString(s) + "\""
  }

  function Print(v: Value): string
    decreases v, 0
  {
    match v
    case Null => "null"
    case Bool(b) => if b then "true" else "false"
    case Num(text) => text
    case Str(s) => Quote(s)
    case Arr(items) => "[" + PrintItems(items) + "]"
    case Obj(members) => "{" + PrintMembers(members) + "}"
  }

  function PrintItems(items: seq<Value>): string
    decreases items, 1
  {
    if |items| == 0 then ""
    else if |items| == 1 then Print(items[0])
    else Print(items[0]) + "," + PrintItems(items[1..])
  }

  function PrintMember(member: (string, Value)): string
    decreases member, 1
  {
    Quote(member.0) + ":" + Print(member.1)
  }

  function PrintMembers(members: seq<(string, Value)>): string
    decreases members, 2
  {
    if |members| == 0 then ""
    else if |members| == 1 then PrintMember(members[0])
    else PrintMember(members[0]) + "," + PrintMembers(members[1..])
  }

  /** The value at a path of positions in nested arrays and objects. */
  function At(v: Value, path: seq<nat>): Option<Value>
    decreases |path|
  {
    if |path| == 0 then Some(v) else
      match v
      case Arr(items) => if path[0] < |items| then At(items[path[0]], path[1..]) else None
      case Obj(members) => if path[0] < |members| then At(members[path[0]].1, path[1..]) else None
      case _ => None
  }
}
