/** Canonical JSON: a printer that sorts the keys of every object and leaves out its
    null members, and a reader for RFC 8259 sections 4 to 7 (without insignificant
    whitespace) that takes the text apart again. */
module Json {
  import opened Domain
  import opened StringOrder

  /** A decoded value; a number keeps its literal. */
  datatype Json =
    | Null
    | Bool(b: bool)
    | Num(literal: string)
    | Str(s: string)
    | Arr(items: seq<Json>)
    | Obj(members: map<string, Json>)

  /** The value with null-valued object members removed at every depth. */
  function Strip(v: Json): Json {
    match v
    case Arr(items) => Arr(seq(|items|, i requires 0 <= i < |items| => Strip(items[i])))
    case Obj(m) => Obj(map k | k in m && m[k] != Null :: Strip(m[k]))
    case _ => v
  }

  /* ------------------------------------------------------------------ strings */

  const HEX: string := "0123456789abcdef"

  function Hex4(n: nat): string
    requires n < 0x10000
  {
    [HEX[n / 4096], HEX[n / 256 % 16], HEX[n / 16 % 16], HEX[n % 16]]
  }

  /** Quote, backslash, control characters and the two line separators are escaped;
      the HTML characters are not. */
  function EscapeChar(c: char): string {
    if c == '"' then "\\\""
    else if c == '\\' then "\\\\"
    else if c == 8 as char then "\\b"
    else if c == 12 as char then "\\f"
    else if c == '\n' then "\\n"
    else if c == '\r' then "\\r"
    else if c == '\t' then "\\t"
    else if c < ' ' || c == 0x2028 as char || c == 0x2029 as char then "\\u" + Hex4(c as int)
    else [c]
  }

  function Escape(s: string): string {
    if s == "" then "" else EscapeChar(s[0]) + Escape(s[1..])
  }

  function Quote(s: string): string {
    "\"" + Escape(s) + "\""
  }

  /* ------------------------------------------------------------------ printing */

  function Kept(v: Json): set<string>
    requires v.Obj?
  {
    set k | k in v.members && v.members[k] != Null
  }

  ghost function Print(v: Json): string
    decreases v
  {
    match v
    case Null => "null"
    case Bool(b) => if b then "true" else "false"
    case Num(literal) => literal
    case Str(s) => Quote(s)
    case Arr(_) => "[" + Items(v, 0) + "]"
    case Obj(_) => "{" + Members(v, SortedKeys(Kept(v)), 0) + "}"
  }

  /** Items from `i` on, each after the first with its comma. */
  ghost function Items(v: Json, i: nat): string
    requires v.Arr? && i <= |v.items|
    decreases v, |v.items| - i
  {
    if i == |v.items| then ""
    else (if i > 0 then "," else "") + Print(v.items[i]) + Items(v, i + 1)
  }

  ghost function Members(v: Json, ks: seq<string>, i: nat): string
    requires v.Obj? && i <= |ks| && forall k | k in ks :: k in v.members
    decreases v, |ks| - i
  {
    if i == |ks| then ""
    else (if i > 0 then "," else "") + Quote(ks[i]) + ":" + Print(v.members[ks[i]]) + Members(v, ks, i + 1)
  }

  /** The keys of the members that are not null, each once, every one before the next
      as texts. */
  ghost predicate InOrder(v: Json, ks: seq<string>)
    requires v.Obj?
  {
    && (forall k :: k in ks <==> k in v.members && v.members[k] != Null)
    && forall i, j | 0 <= i < j < |ks| :: Before(ks[i], ks[j])
  }

  /** An object's text is its members in that order, and in no other. */
  lemma KeysComeInOrder(v: Json, ks: seq<string>)
    requires v.Obj?
    ensures InOrder(v, SortedKeys(Kept(v)))
    ensures InOrder(v, ks) ==> ks == SortedKeys(Kept(v)) && Print(v) == "{" + Members(v, ks, 0) + "}"
  {
    var sorted := SortedKeys(Kept(v));
    forall i, j | 0 <= i < j < |sorted| ensures Before(sorted[i], sorted[j]) {
      OrderIsFirstDifference(sorted[i], sorted[j]);
    }
    if InOrder(v, ks) {
      forall i, j | 0 <= i < j < |ks| ensures LexLe(ks[i], ks[j]) && ks[i] != ks[j] {
        OrderIsFirstDifference(ks[i], ks[j]);
      }
      AscendingIsSorted(ks, Kept(v));
    }
  }

  /** What is escaped and how; every other character is printed as it is. */
  lemma EscapesExactly(c: char)
    ensures match c as int
            case 0x22 => EscapeChar(c) == ['\\', '"']
            case 0x5C => EscapeChar(c) == ['\\', '\\']
            case 0x08 => EscapeChar(c) == ['\\', 'b']
            case 0x0C => EscapeChar(c) == ['\\', 'f']
            case 0x0A => EscapeChar(c) == ['\\', 'n']
            case 0x0D => EscapeChar(c) == ['\\', 'r']
            case 0x09 => EscapeChar(c) == ['\\', 't']
            case n =>
              if n < 0x20 || n == 0x2028 || n == 0x2029 then
                EscapeChar(c) == ['\\', 'u'] + LowerHex(n / 4096) + LowerHex(n / 256 % 16) + LowerHex(n / 16 % 16)
                  + LowerHex(n % 16)
              else EscapeChar(c) == [c]
  {
    if c < ' ' || c == 0x2028 as char || c == 0x2029 as char {
      Hex4Is(c as int);
    }
    hide Hex4, LowerHex;
  }

  lemma Hex4Is(n: nat)
    requires n < 0x10000
    ensures Hex4(n) == LowerHex(n / 4096) + LowerHex(n / 256 % 16) + LowerHex(n / 16 % 16) + LowerHex(n % 16)
  {
    forall d: nat | d < 16 ensures [HEX[d]] == LowerHex(d) {}
    hide LowerHex;
  }

  function LowerHex(d: nat): string
    requires d < 16
  {
    [if d < 10 then ('0' as int + d) as char else ('a' as int + d - 10) as char]
  }

  /** A text is escaped character by character. */
  lemma {:induction false} EscapeConcat(s: string, t: string)
    ensures Escape(s + t) == Escape(s) + Escape(t)
  {
    hide EscapeChar;
    if s == "" {
      assert s + t == t;
    } else {
      EscapeConcat(s[1..], t);
      assert (s + t)[1..] == s[1..] + t;
      assert EscapeChar(s[0]) + (Escape(s[1..]) + Escape(t)) == EscapeChar(s[0]) + Escape(s[1..]) + Escape(t);
    }
  }

  function Pair(key: string, text: string): string {
    Quote(key) + ":" + text
  }

  /** Texts with a comma between each two. */
  function Joined(parts: seq<string>): string {
    if parts == [] then ""
    else if |parts| == 1 then parts[0]
    else parts[0] + "," + Joined(parts[1..])
  }

  ghost function Pairs(v: Json, ks: seq<string>): seq<string>
    requires v.Obj? && forall k | k in ks :: k in v.members
  {
    seq(|ks|, j requires 0 <= j < |ks| => Pair(ks[j], Print(v.members[ks[j]])))
  }

  lemma Gather(a: string, b: string, c: string, d: string)
    ensures a + b + ":" + c + d == a + (b + ":" + c) + d
  {
  }

  /** The members' text is a pair for each key, with commas between them. */
  lemma {:induction false} MembersJoined(v: Json, ks: seq<string>, i: nat)
    requires v.Obj? && i <= |ks| && forall k | k in ks :: k in v.members
    ensures Members(v, ks, i) == (if 0 < i < |ks| then "," else "") + Joined(Pairs(v, ks)[i..])
    decreases |ks| - i
  {
    hide Print, Quote, Pair;
    if i < |ks| {
      MembersJoined(v, ks, i + 1);
      var parts, sep := Pairs(v, ks), if i > 0 then "," else "";
      assert parts[i..][1..] == parts[i + 1..];
      MemberText(v, ks, i);
      Between(sep, parts[i], Joined(parts[i + 1..]), i + 1 < |ks|);
    }
  }

  lemma MemberText(v: Json, ks: seq<string>, i: nat)
    requires v.Obj? && i < |ks| && forall k | k in ks :: k in v.members
    ensures Members(v, ks, i) == (if i > 0 then "," else "") + Pairs(v, ks)[i] + Members(v, ks, i + 1)
  {
    hide Print, Quote;
    assert ks[i] in ks;
    Gather(if i > 0 then "," else "", Quote(ks[i]), Print(v.members[ks[i]]), Members(v, ks, i + 1));
  }

  lemma Between(sep: string, part: string, rest: string, more: bool)
    ensures sep + part + ((if more then "," else "") + rest) ==
            sep + (if more then part + "," + rest else part + rest)
  {
  }

  /** The text of an object whose keys in order are these. */
  lemma ObjectText(v: Json, ks: seq<string>)
    requires v.Obj? && InOrder(v, ks)
    ensures Print(v) == "{" + Joined(Pairs(v, ks)) + "}"
  {
    hide Print, Joined, Members;
    KeysComeInOrder(v, ks);
    MembersJoined(v, ks, 0);
    assert Pairs(v, ks)[0..] == Pairs(v, ks);
    assert "" + Joined(Pairs(v, ks)) == Joined(Pairs(v, ks));
  }

  /* -------------------------------------------------------------------- numbers */

  predicate Digit(c: char) {
    '0' <= c <= '9'
  }

  predicate NumChar(c: char) {
    Digit(c) || c in "+-.eE"
  }

  function SkipDigits(s: string): string {
    if s != "" && Digit(s[0]) then SkipDigits(s[1..]) else s
  }

  predicate ExpPart(s: string) {
    s == "" ||
    (s[0] in "eE" &&
     var t := if |s| > 1 && s[1] in "+-" then s[2..] else s[1..];
     t != "" && SkipDigits(t) == "")
  }

  predicate FracPart(s: string) {
    if s != "" && s[0] == '.' then |s| > 1 && Digit(s[1]) && ExpPart(SkipDigits(s[1..])) else ExpPart(s)
  }

  /** The number grammar of section 6. */
  predicate IsNumber(s: string) {
    var a := if s != "" && s[0] == '-' then s[1..] else s;
    && a != "" && Digit(a[0])
    && FracPart(if a[0] == '0' then a[1..] else SkipDigits(a))
  }

  /** Every number in the value is a number. */
  ghost predicate Valid(v: Json) {
    match v
    case Num(literal) => IsNumber(literal)
    case Arr(items) => forall i | 0 <= i < |items| :: Valid(items[i])
    case Obj(m) => forall k | k in m :: Valid(m[k])
    case _ => true
  }

  /* -------------------------------------------------------------------- reading */

  function NumLength(s: string): (n: nat)
    ensures n <= |s|
  {
    if s != "" && NumChar(s[0]) then 1 + NumLength(s[1..]) else 0
  }

  function HexValue(c: char): Option<nat> {
    if '0' <= c <= '9' then Some(c as int - '0' as int)
    else if 'a' <= c <= 'f' then Some(c as int - 'a' as int + 10)
    else if 'A' <= c <= 'F' then Some(c as int - 'A' as int + 10)
    else None
  }

  function ReadHex4(s: string): Option<nat>
    requires |s| == 4
  {
    var a, b, c, d := HexValue(s[0]), HexValue(s[1]), HexValue(s[2]), HexValue(s[3]);
    if a.None? || b.None? || c.None? || d.None? then None
    else Some(4096 * a.value + 256 * b.value + 16 * c.value + d.value)
  }

  /** One possibly escaped character and how many characters of text it took. */
  function ReadChar(s: string): (r: Option<(char, nat)>)
    ensures r.Some? ==> 0 < r.value.1 <= |s|
  {
    if s == "" || s[0] == '"' || s[0] < ' ' then None
    else if s[0] != '\\' then Some((s[0], 1))
    else if |s| < 2 then None
    else
      match s[1]
      case '"' => Some(('"', 2))
      case '\\' => Some(('\\', 2))
      case '/' => Some(('/', 2))
      case 'b' => Some((8 as char, 2))
      case 'f' => Some((12 as char, 2))
      case 'n' => Some(('\n', 2))
      case 'r' => Some(('\r', 2))
      case 't' => Some(('\t', 2))
      case 'u' =>
        if |s| < 6 || ReadHex4(s[2..6]).None? then None
        else
          var n := ReadHex4(s[2..6]).value;
          if n < 0xD800 || 0xE000 <= n < 0x10000 then Some((n as char, 6)) else None
      case _ => None
  }

  /** The characters up to the closing quote, and the text after it. */
  function ReadString(s: string): (r: Option<(string, string)>)
    ensures r.Some? ==> |r.value.1| < |s|
  {
    if s != "" && s[0] == '"' then Some(("", s[1..]))
    else
      var c := ReadChar(s);
      if c.None? then None
      else
        var rest := ReadString(s[c.value.1..]);
        if rest.None? then None else Some(([c.value.0] + rest.value.0, rest.value.1))
  }

  predicate StartsWith(s: string, prefix: string) {
    |prefix| <= |s| && s[..|prefix|] == prefix
  }

  function ReadValue(s: string): (r: Option<(Json, string)>)
    ensures r.Some? ==> |r.value.1| < |s|
    decreases |s|, 1
  {
    if s == "" then None
    else if s[0] == '"' then
      var t := ReadString(s[1..]);
      if t.None? then None else Some((Str(t.value.0), t.value.1))
    else if s[0] == '[' then
      if StartsWith(s, "[]") then Some((Arr([]), s[2..]))
      else
        var t := ReadItems(s[1..]);
        if t.None? then None else Some((Arr(t.value.0), t.value.1))
    else if s[0] == '{' then
      if StartsWith(s, "{}") then Some((Obj(map[]), s[2..]))
      else
        var t := ReadMembers(s[1..]);
        if t.None? then None else Some((Obj(t.value.0), t.value.1))
    else if StartsWith(s, "null") then Some((Null, s[4..]))
    else if StartsWith(s, "true") then Some((Bool(true), s[4..]))
    else if StartsWith(s, "false") then Some((Bool(false), s[5..]))
    else
      var n := NumLength(s);
      if IsNumber(s[..n]) then Some((Num(s[..n]), s[n..])) else None
  }

  /** One or more values up to the closing bracket. */
  function ReadItems(s: string): (r: Option<(seq<Json>, string)>)
    ensures r.Some? ==> |r.value.1| < |s|
    decreases |s|, 2
  {
    var first := ReadValue(s);
    if first.None? || first.value.1 == "" then None
    else
      var (v, rest) := first.value;
      if rest[0] == ']' then Some(([v], rest[1..]))
      else if rest[0] != ',' then None
      else
        var more := ReadItems(rest[1..]);
        if more.None? then None else Some(([v] + more.value.0, more.value.1))
  }

  /** One or more members up to the closing brace; a later duplicate wins. */
  function ReadMembers(s: string): (r: Option<(map<string, Json>, string)>)
    ensures r.Some? ==> |r.value.1| < |s|
    decreases |s|, 2
  {
    if s == "" || s[0] != '"' then None
    else
      var key := ReadString(s[1..]);
      if key.None? || key.value.1 == "" || key.value.1[0] != ':' then None
      else
        var first := ReadValue(key.value.1[1..]);
        if first.None? || first.value.1 == "" then None
        else
          var (k, v, rest) := (key.value.0, first.value.0, first.value.1);
          if rest[0] == '}' then Some((map[k := v], rest[1..]))
          else if rest[0] != ',' then None
          else
            var more := ReadMembers(rest[1..]);
            if more.None? then None else Some((map[k := v] + more.value.0, more.value.1))
  }

  /** A whole text is one value and nothing after it. */
  function Read(s: string): Option<Json> {
    var r := ReadValue(s);
    if r.Some? && r.value.1 == "" then Some(r.value.0) else None
  }
}
