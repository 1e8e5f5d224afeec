/** The canonical printer as it runs: a recursive writer appending to a shared
    buffer, with every object's keys collected in whatever order the map yields them
    and sorted in place. */
module JsonWriter {
  import opened Json
  import opened StringOrder

  class Builder {
    var text: string

    constructor ()
      ensures text == ""
    {
      text := "";
    }

    method WriteString(s: string)
      modifies this
      ensures text == old(text) + s
    {
      text := text + s;
    }
  }

  /** The keys that are not left out, in the map's own order. */
  method CollectKeys(v: Json) returns (keys: array<string>)
    requires v.Obj?
    ensures fresh(keys)
    ensures Distinct(keys[..]) && forall k :: k in keys[..] <==> k in Kept(v)
  {
    var kept: seq<string> := [];
    var rest := v.members.Keys;
    while rest != {}
      invariant rest <= v.members.Keys
      invariant Distinct(kept)
      invariant forall k :: k in kept <==> k in Kept(v) && k !in rest
    {
      var k :| k in rest;
      rest := rest - {k};
      if v.members[k] != Null {
        kept := kept + [k];
      }
    }
    keys := new string[|kept|](i requires 0 <= i < |kept| => kept[i]);
    assert keys[..] == kept;
  }

  /** Appends exactly the canonical text, whichever order the maps were walked in. */
  method Write(b: Builder, v: Json)
    modifies b
    ensures b.text == old(b.text) + Print(v)
    decreases v, 2
  {
    match v
    case Obj(_) => WriteObject(b, v);
    case Arr(_) => WriteArray(b, v);
    case Null => b.WriteString("null");
    case Bool(x) => b.WriteString(if x then "true" else "false");
    case Num(literal) => b.WriteString(literal);
    case Str(s) => b.WriteString(Quote(s));
  }

  lemma Regroup(start: string, sep: string, part: string, more: string)
    ensures start + (sep + part + more) == start + sep + part + more
  {
  }

  lemma RegroupMember(start: string, sep: string, key: string, value: string, more: string)
    ensures start + (sep + key + ":" + value + more) == start + sep + key + ":" + value + more
  {
  }

  lemma MembersAt(v: Json, ks: seq<string>, i: nat)
    requires v.Obj? && i <= |ks| && forall k | k in ks :: k in v.members
    ensures i == |ks| ==> Members(v, ks, i) == ""
    ensures i < |ks| ==>
              Members(v, ks, i) ==
              (if i > 0 then "," else "") + Quote(ks[i]) + ":" + Print(v.members[ks[i]]) + Members(v, ks, i + 1)
  {
    hide Print, Quote;
  }

  method WriteMember(b: Builder, v: Json, ks: seq<string>, i: nat)
    requires v.Obj? && i < |ks| && forall k | k in ks :: k in v.members
    modifies b
    ensures b.text + Members(v, ks, i + 1) == old(b.text) + Members(v, ks, i)
    decreases v, 0
  {
    hide Print, Quote, Members;
    MembersAt(v, ks, i);
    var sep := if i > 0 then "," else "";
    assert ks[i] in ks;
    b.WriteString(sep);
    b.WriteString(Quote(ks[i]));
    b.WriteString(":");
    Write(b, v.members[ks[i]]);
    RegroupMember(old(b.text), sep, Quote(ks[i]), Print(v.members[ks[i]]), Members(v, ks, i + 1));
  }

  method WriteObject(b: Builder, v: Json)
    requires v.Obj?
    modifies b
    ensures b.text == old(b.text) + Print(v)
    ensures exists ks :: InOrder(v, ks) && b.text == old(b.text) + ("{" + Members(v, ks, 0) + "}")
    decreases v, 1
  {
    var keys := CollectKeys(v);
    SortStrings(keys);
    ghost var ks := keys[..];
    AscendingIsSorted(ks, Kept(v));
    KeysComeInOrder(v, ks);
    b.WriteString("{");
    assert Print(v) == "{" + Members(v, ks, 0) + "}";
    hide Print, Members;
    for i := 0 to keys.Length
      invariant keys[..] == ks
      invariant b.text + Members(v, ks, i) == old(b.text) + "{" + Members(v, ks, 0)
    {
      WriteMember(b, v, keys[..], i);
    }
    MembersAt(v, ks, |ks|);
    assert b.text + "" == b.text;
    b.WriteString("}");
    Regroup(old(b.text), "{", Members(v, ks, 0), "}");
  }

  lemma ItemsAt(v: Json, i: nat)
    requires v.Arr? && i <= |v.items|
    ensures i == |v.items| ==> Items(v, i) == ""
    ensures i < |v.items| ==> Items(v, i) == (if i > 0 then "," else "") + Print(v.items[i]) + Items(v, i + 1)
  {
    hide Print;
  }

  method WriteArray(b: Builder, v: Json)
    requires v.Arr?
    modifies b
    ensures b.text == old(b.text) + Print(v)
    decreases v, 1
  {
    b.WriteString("[");
    assert Print(v) == "[" + Items(v, 0) + "]";
    hide Print, Items;
    for i := 0 to |v.items|
      invariant b.text + Items(v, i) == old(b.text) + "[" + Items(v, 0)
    {
      var sep := if i > 0 then "," else "";
      ghost var start := b.text;
      b.WriteString(sep);
      Write(b, v.items[i]);
      ItemsAt(v, i);
      Regroup(start, sep, Print(v.items[i]), Items(v, i + 1));
    }
    ItemsAt(v, |v.items|);
    assert b.text + "" == b.text;
    b.WriteString("]");
    Regroup(old(b.text), "[", Items(v, 0), "]");
  }

  method CanonicalJson(v: Json) returns (s: string)
    ensures s == Print(v)
  {
    var b := new Builder();
    Write(b, v);
    s := b.text;
  }
}
