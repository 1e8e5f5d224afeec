/** Reading what was printed gives the value back without its null members, so the
    printed text identifies the value up to them. */
module JsonRoundTrip {
  import opened Domain
  import opened Json
  import opened StringOrder

  /** The text may follow a value: it does not extend a number. */
  ghost predicate Ends(rest: string) {
    rest == "" || !NumChar(rest[0])
  }

  /* ------------------------------------------------------------------ strings */

  lemma HexReads(d: nat)
    requires d < 16
    ensures HexValue(HEX[d]) == Some(d)
  {
  }

  lemma Nibbles(n: nat)
    ensures n == 4096 * (n / 4096) + 256 * (n / 256 % 16) + 16 * (n / 16 % 16) + n % 16
  {
    var a := n / 16;
    var b := a / 16;
    assert n == 16 * a + n % 16;
    assert a == 16 * b + a % 16;
    assert b == 16 * (b / 16) + b % 16;
    assert n / 256 == b;
    assert n / 4096 == b / 16;
  }

  lemma Hex4Reads(n: nat)
    requires n < 0x10000
    ensures ReadHex4(Hex4(n)) == Some(n)
  {
    hide HexValue;
    Nibbles(n);
    HexReads(n / 4096);
    HexReads(n / 256 % 16);
    HexReads(n / 16 % 16);
    HexReads(n % 16);
  }

  lemma CharReads(c: char, rest: string)
    ensures EscapeChar(c) != "" && EscapeChar(c)[0] != '"'
    ensures ReadChar(EscapeChar(c) + rest) == Some((c, |EscapeChar(c)|))
  {
    if Unicode(c) {
      UnicodeReads(c, rest);
    } else {
      ShortReads(c, rest);
    }
  }

  /** Characters escaped by their number. */
  predicate Unicode(c: char) {
    (c < ' ' || c == 0x2028 as char || c == 0x2029 as char) && c as int !in {8, 9, 10, 12, 13}
  }

  lemma UnicodeReads(c: char, rest: string)
    requires Unicode(c)
    ensures |EscapeChar(c)| == 6 && EscapeChar(c)[0] == '\\' && ReadChar(EscapeChar(c) + rest) == Some((c, 6))
  {
    assert |Hex4(c as int)| == 4;
    hide Hex4, ReadHex4;
    var s := EscapeChar(c) + rest;
    assert EscapeChar(c) == "\\u" + Hex4(c as int);
    Hex4Reads(c as int);
    assert s[2..6] == Hex4(c as int);
  }

  lemma ShortReads(c: char, rest: string)
    requires !Unicode(c)
    ensures EscapeChar(c) != "" && EscapeChar(c)[0] != '"'
    ensures ReadChar(EscapeChar(c) + rest) == Some((c, |EscapeChar(c)|))
  {
    hide Hex4, ReadHex4;
  }

  lemma StringStep(s: string, c: char, n: nat)
    requires s != "" && s[0] != '"' && ReadChar(s) == Some((c, n))
    ensures ReadString(s) == match ReadString(s[n..])
              case None => None
              case Some(more) => Some(([c] + more.0, more.1))
  {
    hide ReadChar;
  }

  lemma {:induction false} StringReads(t: string, rest: string)
    ensures ReadString(Escape(t) + "\"" + rest) == Some((t, rest))
  {
    if t == "" {
      assert Escape(t) + "\"" + rest == "\"" + rest;
    } else {
      var e := EscapeChar(t[0]);
      var tail := Escape(t[1..]) + "\"" + rest;
      assert Escape(t) + "\"" + rest == e + tail;
      CharReads(t[0], tail);
      StringReads(t[1..], rest);
      StringStep(e + tail, t[0], |e|);
      hide EscapeChar, ReadChar, ReadString;
      assert (e + tail)[|e|..] == tail;
      assert t == [t[0]] + t[1..];
    }
  }

  lemma QuoteReads(t: string, rest: string)
    ensures var s := Quote(t) + rest; s != "" && s[0] == '"' && ReadString(s[1..]) == Some((t, rest))
  {
    StringReads(t, rest);
    hide Escape, ReadString;
    assert (Quote(t) + rest)[1..] == Escape(t) + "\"" + rest;
  }

  /* ------------------------------------------------------------------ numbers */

  ghost predicate AllNumChars(s: string) {
    forall i | 0 <= i < |s| :: NumChar(s[i])
  }

  lemma {:induction false} DigitsThen(s: string)
    requires AllNumChars(SkipDigits(s))
    ensures AllNumChars(s)
  {
    if s != "" && Digit(s[0]) {
      DigitsThen(s[1..]);
      assert s == [s[0]] + s[1..];
    }
  }

  lemma ExpChars(s: string)
    requires ExpPart(s)
    ensures AllNumChars(s)
  {
    if s != "" {
      var t := if |s| > 1 && s[1] in "+-" then s[2..] else s[1..];
      DigitsThen(t);
      assert s == s[..|s| - |t|] + t;
    }
  }

  lemma NumberChars(s: string)
    requires IsNumber(s)
    ensures s != "" && AllNumChars(s) && (s[0] == '-' || Digit(s[0]))
  {
    var a := if s[0] == '-' then s[1..] else s;
    var f := if a[0] == '0' then a[1..] else SkipDigits(a);
    if f != "" && f[0] == '.' {
      ExpChars(SkipDigits(f[1..]));
      DigitsThen(f[1..]);
      assert f == [f[0]] + f[1..];
    } else {
      ExpChars(f);
    }
    assert AllNumChars(f);
    if a[0] == '0' {
      assert a == [a[0]] + a[1..];
    } else {
      DigitsThen(a);
    }
    assert s == (if s[0] == '-' then "-" else "") + a;
  }

  lemma {:induction false} NumberEnds(s: string, rest: string)
    requires AllNumChars(s) && Ends(rest)
    ensures NumLength(s + rest) == |s|
  {
    if s == "" {
      assert s + rest == rest;
    } else {
      NumberEnds(s[1..], rest);
      assert (s + rest)[1..] == s[1..] + rest;
    }
  }

  /** A text that starts like a number is read as one. */
  lemma NumberBranch(s: string)
    requires s != "" && (s[0] == '-' || Digit(s[0]))
    ensures var n := NumLength(s); ReadValue(s) == if IsNumber(s[..n]) then Some((Num(s[..n]), s[n..])) else None
  {
    hide IsNumber, NumLength, ReadItems, ReadMembers, ReadString;
    assert "null"[0] == 'n' && "true"[0] == 't' && "false"[0] == 'f';
  }

  lemma NumberReads(literal: string, rest: string)
    requires IsNumber(literal) && Ends(rest)
    ensures ReadValue(literal + rest) == Some((Num(literal), rest))
  {
    NumberChars(literal);
    NumberEnds(literal, rest);
    var s := literal + rest;
    assert s[0] == literal[0];
    NumberBranch(s);
    hide *;
    assert s[..|literal|] == literal && s[|literal|..] == rest;
  }

  /* ------------------------------------------------------------------- values */

  lemma ValidParts(v: Json)
    requires Valid(v)
    ensures v.Arr? ==> forall i | 0 <= i < |v.items| :: Valid(v.items[i])
    ensures v.Obj? ==> forall k | k in v.members :: Valid(v.members[k])
  {
  }

  function Tail(s: string, i: nat): string
    requires i > 0 ==> s != ""
  {
    if i > 0 then s[1..] else s
  }

  /** The text of the items from `i` on: the first of them, then the rest behind a
      comma if there is any. */
  lemma ItemsSplit(v: Json, i: nat)
    requires v.Arr? && i < |v.items| && Valid(v)
    ensures Items(v, i) != "" && Tail(Items(v, i), i) == Print(v.items[i]) + Items(v, i + 1)
    ensures if i + 1 < |v.items| then Items(v, i + 1) != "" && Items(v, i + 1)[0] == ',' else Items(v, i + 1) == ""
    ensures Strip(v).Arr? && |Strip(v).items| == |v.items|
    ensures Strip(v).items[i..] == [Strip(v.items[i])] + Strip(v).items[i + 1..]
  {
    hide Print, Valid;
    ValidParts(v);
    PrintStarts(v.items[i]);
  }

  lemma LastItem(s: string, v: Json, rest: string)
    requires ReadValue(s) == Some((v, "]" + rest))
    ensures ReadItems(s) == Some(([v], rest))
  {
    assert ("]" + rest)[1..] == rest;
  }

  lemma ItemThenMore(s: string, v: Json, t: string, more: seq<Json>, rest: string)
    requires ReadValue(s) == Some((v, "," + t)) && ReadItems(t) == Some((more, rest))
    ensures ReadItems(s) == Some(([v] + more, rest))
  {
    assert ("," + t)[1..] == t;
  }

  lemma {:induction false} ItemsRead(v: Json, i: nat, rest: string)
    requires v.Arr? && i < |v.items| && Valid(v)
    ensures Items(v, i) != ""
    ensures ReadItems(Tail(Items(v, i), i) + "]" + rest) == Some((Strip(v).items[i..], rest))
    decreases v, |v.items| - i
  {
    hide ReadItems, ReadValue, Print, Valid, Strip, Items;
    ValidParts(v);
    ItemsSplit(v, i);
    var item, after := v.items[i], Items(v, i + 1) + ("]" + rest);
    var text := Tail(Items(v, i), i) + "]" + rest;
    assert text == Print(item) + after;
    ValueReads(item, after);
    if i + 1 < |v.items| {
      ItemsRead(v, i + 1, rest);
      var t := Tail(Items(v, i + 1), i + 1) + "]" + rest;
      assert after == "," + t;
      ItemThenMore(text, Strip(item), t, Strip(v).items[i + 1..], rest);
    } else {
      assert after == "]" + rest;
      LastItem(text, Strip(item), rest);
      assert Strip(v).items[i..] == [Strip(item)];
    }
  }

  /** The stripped members named by the keys from `i` on. */
  ghost function MembersFrom(v: Json, ks: seq<string>, i: nat): map<string, Json>
    requires v.Obj? && i <= |ks| && forall k | k in ks :: k in v.members
  {
    map k | k in ks[i..] :: Strip(v.members[k])
  }

  lemma MembersSplit(v: Json, ks: seq<string>, i: nat)
    requires v.Obj? && i < |ks| && forall k | k in ks :: k in v.members
    ensures Members(v, ks, i) != ""
    ensures Tail(Members(v, ks, i), i) == Quote(ks[i]) + (":" + Print(v.members[ks[i]]) + Members(v, ks, i + 1))
    ensures i + 1 < |ks| ==> Members(v, ks, i + 1) != "" && Members(v, ks, i + 1)[0] == ','
    ensures i + 1 == |ks| ==> Members(v, ks, i + 1) == ""
  {
    hide Print, Quote;
    var body := Quote(ks[i]) + ":" + Print(v.members[ks[i]]) + Members(v, ks, i + 1);
    assert body == Quote(ks[i]) + (":" + Print(v.members[ks[i]]) + Members(v, ks, i + 1));
    if i > 0 {
      assert Members(v, ks, i) == "," + body;
    } else {
      assert Members(v, ks, i) == body;
    }
  }

  lemma Regroup(key: string, value: string, more: string, rest: string)
    ensures key + (":" + value + more) + rest == key + (":" + (value + (more + rest)))
  {
  }

  lemma LastMember(s: string, k: string, t: string, v: Json, rest: string)
    requires s != "" && s[0] == '"' && ReadString(s[1..]) == Some((k, ":" + t))
    requires ReadValue(t) == Some((v, "}" + rest))
    ensures ReadMembers(s) == Some((map[k := v], rest))
  {
    assert (":" + t)[1..] == t;
    assert ("}" + rest)[1..] == rest;
  }

  lemma MemberThenMore(s: string, k: string, t: string, v: Json, u: string, more: map<string, Json>, rest: string)
    requires s != "" && s[0] == '"' && ReadString(s[1..]) == Some((k, ":" + t))
    requires ReadValue(t) == Some((v, "," + u)) && ReadMembers(u) == Some((more, rest))
    ensures ReadMembers(s) == Some((map[k := v] + more, rest))
  {
    assert (":" + t)[1..] == t;
    assert ("," + u)[1..] == u;
  }

  lemma {:induction false} MembersRead(v: Json, ks: seq<string>, i: nat, rest: string)
    requires v.Obj? && i < |ks| && Valid(v) && forall k | k in ks :: k in v.members
    requires forall a, b | 0 <= a < b < |ks| :: ks[a] != ks[b]
    ensures Members(v, ks, i) != ""
    ensures ReadMembers(Tail(Members(v, ks, i), i) + "}" + rest) == Some((MembersFrom(v, ks, i), rest))
    decreases v, |ks| - i
  {
    hide ReadMembers, ReadValue, ReadString, Print, Escape, Valid, Strip, Members, MembersFrom;
    ValidParts(v);
    assert ks[i] in ks;
    var k, value, more := ks[i], v.members[ks[i]], Members(v, ks, i + 1);
    MembersSplit(v, ks, i);
    FirstMember(v, ks, i);
    var after := more + ("}" + rest);
    var text := Tail(Members(v, ks, i), i) + "}" + rest;
    assert text == Tail(Members(v, ks, i), i) + ("}" + rest);
    Regroup(Quote(k), Print(value), more, "}" + rest);
    QuoteReads(k, ":" + (Print(value) + after));
    ValueReads(value, after);
    if i + 1 < |ks| {
      MembersRead(v, ks, i + 1, rest);
      var u := Tail(more, i + 1) + "}" + rest;
      assert after == "," + u;
      MemberThenMore(text, k, Print(value) + after, Strip(value), u, MembersFrom(v, ks, i + 1), rest);
    } else {
      assert after == "}" + rest;
      LastMember(text, k, Print(value) + after, Strip(value), rest);
    }
  }

  lemma FirstMember(v: Json, ks: seq<string>, i: nat)
    requires v.Obj? && i < |ks| && forall k | k in ks :: k in v.members
    requires forall a, b | 0 <= a < b < |ks| :: ks[a] != ks[b]
    ensures MembersFrom(v, ks, i) == map[ks[i] := Strip(v.members[ks[i]])] + MembersFrom(v, ks, i + 1)
    ensures i + 1 == |ks| ==> MembersFrom(v, ks, i) == map[ks[i] := Strip(v.members[ks[i]])]
  {
    assert ks[i..] == [ks[i]] + ks[i + 1..];
  }

  lemma StrippedMembers(v: Json)
    requires v.Obj?
    ensures Strip(v) == Obj(MembersFrom(v, SortedKeys(Kept(v)), 0))
  {
    var ks := SortedKeys(Kept(v));
    assert ks[0..] == ks;
    assert Strip(v).members == MembersFrom(v, ks, 0);
  }

  lemma EmptyReads(open: string, rest: string)
    requires open == "[]" || open == "{}"
    ensures ReadValue(open + rest) == Some((if open == "[]" then Arr([]) else Obj(map[]), rest))
  {
    var s := open + rest;
    assert s[..2] == open && s[2..] == rest;
  }

  lemma BracketedReads(body: string, items: seq<Json>, rest: string)
    requires ReadItems(body + "]" + rest) == Some((items, rest)) && body != "" && body[0] != ']'
    ensures ReadValue("[" + body + "]" + rest) == Some((Arr(items), rest))
  {
    hide ReadItems, ReadMembers, ReadString, NumLength, IsNumber;
    var s := "[" + body + "]" + rest;
    assert s[0] == '[' && s[1] == body[0];
    assert s[1..] == body + "]" + rest;
  }

  lemma BracedReads(body: string, members: map<string, Json>, rest: string)
    requires ReadMembers(body + "}" + rest) == Some((members, rest)) && body != "" && body[0] == '"'
    ensures ReadValue("{" + body + "}" + rest) == Some((Obj(members), rest))
  {
    hide ReadItems, ReadMembers, ReadString, NumLength, IsNumber;
    var s := "{" + body + "}" + rest;
    assert s[0] == '{' && s[1] == body[0];
    assert s[1..] == body + "}" + rest;
  }

  /** A printed value starts with none of the closing characters. */
  lemma PrintStarts(v: Json)
    requires Valid(v)
    ensures Print(v) != "" && Print(v)[0] != ']'
  {
    if v.Num? {
      NumberChars(v.literal);
    }
  }

  lemma {:induction false} ValueReads(v: Json, rest: string)
    requires Valid(v) && Ends(rest)
    ensures ReadValue(Print(v) + rest) == Some((Strip(v), rest))
    decreases v
  {
    match v
    case Null => assert StartsWith("null" + rest, "null") && ("null" + rest)[4..] == rest;
    case Bool(b) =>
      var word := if b then "true" else "false";
      assert StartsWith(word + rest, word) && (word + rest)[|word|..] == rest;
    case Num(literal) => NumberReads(literal, rest);
    case Str(t) => QuoteReads(t, rest);
    case Arr(_) => ArrayReads(v, rest);
    case Obj(_) => ObjectReads(v, rest);
  }

  lemma {:induction false} ArrayReads(v: Json, rest: string)
    requires v.Arr? && Valid(v)
    ensures ReadValue(Print(v) + rest) == Some((Strip(v), rest))
    decreases v, |v.items| + 1
  {
    hide ReadItems, ReadValue;
    if v.items == [] {
      EmptyReads("[]", rest);
      assert Print(v) == "[]";
    } else {
      ItemsRead(v, 0, rest);
      ItemsSplit(v, 0);
      ValidParts(v);
      PrintStarts(v.items[0]);
      assert Strip(v).items[0..] == Strip(v).items;
      BracketedReads(Items(v, 0), Strip(v).items, rest);
    }
  }

  lemma {:induction false} ObjectReads(v: Json, rest: string)
    requires v.Obj? && Valid(v)
    ensures ReadValue(Print(v) + rest) == Some((Strip(v), rest))
    decreases v, |SortedKeys(Kept(v))| + 1
  {
    hide ReadMembers, ReadValue;
    var ks := SortedKeys(Kept(v));
    StrippedMembers(v);
    if ks == [] {
      EmptyReads("{}", rest);
      assert Members(v, ks, 0) == "";
      assert Print(v) == "{}";
    } else {
      MembersRead(v, ks, 0, rest);
      MembersSplit(v, ks, 0);
      BracedReads(Members(v, ks, 0), MembersFrom(v, ks, 0), rest);
    }
  }

  /* ------------------------------------------------------------- main results */

  /** Reading the printed text gives back the value without its null members. */
  lemma RoundTrip(v: Json)
    requires Valid(v)
    ensures Read(Print(v)) == Some(Strip(v))
  {
    ValueReads(v, "");
    assert Print(v) + "" == Print(v);
  }

  lemma StripKeepsNull(v: Json)
    ensures Strip(v) == Null <==> v == Null
  {
  }

  lemma StripKeepsKept(v: Json)
    requires v.Obj?
    ensures Kept(Strip(v)) == Kept(v)
  {
    forall k | k in v.members {
      StripKeepsNull(v.members[k]);
    }
  }

  /** Printing already leaves the null members out. */
  lemma {:induction false} PrintStrips(v: Json)
    ensures Print(Strip(v)) == Print(v)
    decreases v
  {
    match v
    case Arr(_) => ItemsStrip(v, 0);
    case Obj(_) =>
      StripKeepsKept(v);
      MembersStrip(v, SortedKeys(Kept(v)), 0);
    case _ =>
  }

  lemma {:induction false} ItemsStrip(v: Json, i: nat)
    requires v.Arr? && i <= |v.items|
    ensures Items(Strip(v), i) == Items(v, i)
    decreases v, |v.items| - i
  {
    if i < |v.items| {
      PrintStrips(v.items[i]);
      ItemsStrip(v, i + 1);
    }
  }

  lemma {:induction false} MembersStrip(v: Json, ks: seq<string>, i: nat)
    requires v.Obj? && i <= |ks| && forall k | k in ks :: k in Kept(v) && k in Strip(v).members
    ensures Members(Strip(v), ks, i) == Members(v, ks, i)
    decreases v, |ks| - i
  {
    if i < |ks| {
      assert ks[i] in ks;
      PrintStrips(v.members[ks[i]]);
      MembersStrip(v, ks, i + 1);
    }
  }

  /** Two values print the same text exactly when they agree up to null members. */
  lemma PrintIdentifies(v: Json, w: Json)
    requires Valid(v) && Valid(w)
    ensures Print(v) == Print(w) <==> Strip(v) == Strip(w)
  {
    RoundTrip(v);
    RoundTrip(w);
    PrintStrips(v);
    PrintStrips(w);
  }

  /* --------------------------------------------- what the text of each value reads as */

  /** The text of an object reads as an object with exactly the members that are not
      null, each reading as its own text does; nulls deeper inside go the same way. */
  lemma ObjectReadsMemberwise(m: map<string, Json>)
    requires Valid(Obj(m))
    ensures exists t :: Read(Print(Obj(m))) == Some(Obj(t))
              && t.Keys == (set k | k in m && m[k] != Null)
              && forall k | k in t :: Read(Print(m[k])) == Some(t[k])
  {
    RoundTrip(Obj(m));
    var t := Strip(Obj(m)).members;
    forall k | k in t ensures Read(Print(m[k])) == Some(t[k]) {
      RoundTrip(m[k]);
    }
    assert Strip(Obj(m)) == Obj(t);
  }

  /** The text of an array reads as an array of as many items, null ones included. */
  lemma ArrayReadsItemwise(items: seq<Json>)
    requires Valid(Arr(items))
    ensures exists t :: Read(Print(Arr(items))) == Some(Arr(t)) && |t| == |items|
              && forall i | 0 <= i < |t| :: Read(Print(items[i])) == Some(t[i])
  {
    RoundTrip(Arr(items));
    var t := Strip(Arr(items)).items;
    forall i | 0 <= i < |t| ensures Read(Print(items[i])) == Some(t[i]) {
      RoundTrip(items[i]);
    }
    assert Strip(Arr(items)) == Arr(t);
  }

  /** Every other value reads as itself. */
  lemma ScalarReadsAsItself(v: Json)
    requires Valid(v) && !v.Arr? && !v.Obj?
    ensures Read(Print(v)) == Some(v)
  {
    RoundTrip(v);
  }
}
