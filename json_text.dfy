/** Compact JSON text (RFC 8259) as serde_json writes it, for objects whose member
    values are strings or arrays of strings, and a reference reader for that text.
    The reader is the writer's inverse: reading what was written gives back the value. */
module JsonText {

  import opened Wrappers
  import opened Json

  /** Lower-case hex digit, as serde_json writes `\u00XX` escapes. */
  function HexDigit(d: nat): (c: char)
    requires d < 16
    ensures IsHex(c) && HexValue(c) == d
  {
    if d < 10 then (('0' as int) + d) as char else (('a' as int) + d - 10) as char
  }

  predicate IsHex(c: char) { '0' <= c <= '9' || 'a' <= c <= 'f' || 'A' <= c <= 'F' }

  function HexValue(c: char): (d: nat)
    requires IsHex(c)
    ensures d < 16
  {
    if '0' <= c <= '9' then (c as int) - ('0' as int)
    else if 'a' <= c <= 'f' then (c as int) - ('a' as int) + 10
    else (c as int) - ('A' as int) + 10
  }

  /** serde_json's escape of one character: quote, backslash and the control characters. */
  function EscapeChar(c: char): (e: string)
    ensures |e| >= 1
  {
    if c == '"' then "\\\""
    else if c == '\\' then "\\\\"
    else if c == 8 as char then "\\b"
    else if c == 9 as char then "\\t"
    else if c == 10 as char then "\\n"
    else if c == 12 as char then "\\f"
    else if c == 13 as char then "\\r"
    else if (c as int) < 0x20 then "\\u00" + [HexDigit((c as int) / 16), HexDigit((c as int) % 16)]
    else [c]
  }

  function Escape(s: string): string
    decreases |s|
  {
    if |s| == 0 then "" else EscapeChar(s[0]) + Escape(s[1..])
  }

  /** A JSON string literal. */
  function Quote(s: string): string {
    "\"" + Escape(s) + "\""
  }

  /** A plain string needs no escaping. */
  predicate Plain(s: string) {
    forall i :: 0 <= i < |s| ==> s[i] != '"' && s[i] != '\\' && (s[i] as int) >= 0x20
  }

  lemma {:induction false} EscapePlain(s: string)
    requires Plain(s)
    ensures Escape(s) == s
    decreases |s|
  {
    if |s| > 0 {
      assert Plain(s[1..]) by {
        assert forall i :: 0 <= i < |s| - 1 ==> s[1..][i] == s[i + 1];
      }
      EscapePlain(s[1..]);
      assert [s[0]] + s[1..] == s;
    }
  }

  /** The values this writer handles: a string, or an array of strings. */
  predicate Stringy(v: Json) {
    v.JStr? || (v.JArr? && forall i :: 0 <= i < |v.items| ==> v.items[i].JStr?)
  }

  function ItemsText(items: seq<Json>): string
    requires forall i :: 0 <= i < |items| ==> items[i].JStr?
    decreases |items|
  {
    if |items| == 0 then ""
    else if |items| == 1 then Quote(items[0].s)
    else Quote(items[0].s) + "," + ItemsText(items[1..])
  }

  function ValueText(v: Json): string
    requires Stringy(v)
  {
    if v.JStr? then Quote(v.s) else "[" + ItemsText(v.items) + "]"
  }

  predicate StringyMembers(ms: seq<(string, Json)>) {
    forall i :: 0 <= i < |ms| ==> Stringy(ms[i].1)
  }

  /** Members `"key":value` separated by commas, followed by `tail`. */
  function MembersThen(ms: seq<(string, Json)>, tail: string): string
    requires StringyMembers(ms)
    decreases |ms|
  {
    if |ms| == 0 then tail
    else
      var after := if |ms| == 1 then tail else "," + MembersThen(ms[1..], tail);
      Quote(ms[0].0) + (":" + (ValueText(ms[0].1) + after))
  }

  /** `serde_json::to_string` of an object whose members come in the order given. */
  function ObjectText(ms: seq<(string, Json)>): string
    requires StringyMembers(ms)
  {
    if |ms| == 0 then "{}" else "{" + MembersThen(ms, "}")
  }

  /** The object such text denotes: members assigned left to right, a later key replacing an earlier one. */
  function Assign(acc: map<string, Json>, ms: seq<(string, Json)>): map<string, Json>
    decreases |ms|
  {
    if |ms| == 0 then acc else Assign(acc[ms[0].0 := ms[0].1], ms[1..])
  }

  // ---------------------------------------------------------------------------
  // The reference reader.

  /** The character an escape denotes and the number of characters it spans after the backslash. */
  function ReadEscape(t: string): (r: Option<(char, nat)>)
    ensures r.Some? ==> 1 <= r.value.1 <= |t|
  {
    if |t| == 0 then None
    else if t[0] == '"' then Some(('"', 1))
    else if t[0] == '\\' then Some(('\\', 1))
    else if t[0] == '/' then Some(('/', 1))
    else if t[0] == 'b' then Some((8 as char, 1))
    else if t[0] == 't' then Some((9 as char, 1))
    else if t[0] == 'n' then Some((10 as char, 1))
    else if t[0] == 'f' then Some((12 as char, 1))
    else if t[0] == 'r' then Some((13 as char, 1))
    else if t[0] == 'u' && |t| >= 5 && IsHex(t[1]) && IsHex(t[2]) && IsHex(t[3]) && IsHex(t[4]) then
      var v := ((HexValue(t[1]) * 16 + HexValue(t[2])) * 16 + HexValue(t[3])) * 16 + HexValue(t[4]);
      assert v < 0x10000;
      if v < 0xD800 || 0xE000 <= v then Some((v as char, 5)) else None
    else None
  }

  /** The body of a string literal up to its closing quote, and the text after that quote. */
  function ReadStringBody(t: string): (r: Option<(string, string)>)
    ensures r.Some? ==> |r.value.1| < |t|
    decreases |t|
  {
    if |t| == 0 then None
    else if t[0] == '"' then Some(("", t[1..]))
    else if t[0] == '\\' then
      match ReadEscape(t[1..])
      case None => None
      case Some((c, n)) =>
        match ReadStringBody(t[1 + n..])
        case None => None
        case Some((s, rest)) => Some(([c] + s, rest))
    else if (t[0] as int) < 0x20 then None
    else
      match ReadStringBody(t[1..])
      case None => None
      case Some((s, rest)) => Some(([t[0]] + s, rest))
  }

  /** A string literal. */
  function ReadString(t: string): (r: Option<(string, string)>)
    ensures r.Some? ==> |r.value.1| < |t|
  {
    if |t| == 0 || t[0] != '"' then None else ReadStringBody(t[1..])
  }

  /** One or more string literals separated by commas, up to the closing bracket. */
  function ReadItems(t: string): (r: Option<(seq<Json>, string)>)
    ensures r.Some? ==> |r.value.1| < |t|
    decreases |t|
  {
    match ReadString(t)
    case None => None
    case Some((s, rest)) =>
      if |rest| > 0 && rest[0] == ']' then Some(([JStr(s)], rest[1..]))
      else if |rest| > 0 && rest[0] == ',' then
        match ReadItems(rest[1..])
        case None => None
        case Some((more, rest')) => Some(([JStr(s)] + more, rest'))
      else None
  }

  /** A string literal or an array of string literals. */
  function ReadValue(t: string): (r: Option<(Json, string)>)
    ensures r.Some? ==> |r.value.1| < |t|
  {
    if |t| >= 2 && t[0] == '[' && t[1] == ']' then Some((JArr([]), t[2..]))
    else if |t| >= 1 && t[0] == '[' then
      match ReadItems(t[1..])
      case None => None
      case Some((items, rest)) => Some((JArr(items), rest))
    else
      match ReadString(t)
      case None => None
      case Some((s, rest)) => Some((JStr(s), rest))
  }

  /** Members `"key":value` separated by commas, up to the closing brace. */
  function ReadMembers(t: string, acc: map<string, Json>): (r: Option<(map<string, Json>, string)>)
    decreases |t|
  {
    match ReadString(t)
    case None => None
    case Some((k, r1)) =>
      if |r1| == 0 || r1[0] != ':' then None
      else
        match ReadValue(r1[1..])
        case None => None
        case Some((v, r2)) =>
          if |r2| > 0 && r2[0] == '}' then Some((acc[k := v], r2[1..]))
          else if |r2| > 0 && r2[0] == ',' then ReadMembers(r2[1..], acc[k := v])
          else None
  }

  /** A whole text that is exactly one object. */
  function ReadObject(t: string): Option<Json> {
    if t == "{}" then Some(JObj(map[]))
    else if |t| >= 1 && t[0] == '{' then
      match ReadMembers(t[1..], map[])
      case Some((m, rest)) => if rest == "" then Some(JObj(m)) else None
      case None => None
    else None
  }

  // ---------------------------------------------------------------------------
  // Reading back what was written.

  lemma EscapeCons(s: string)
    requires |s| > 0
    ensures Escape(s) == EscapeChar(s[0]) + Escape(s[1..])
  {
  }

  /** One escaped character followed by more string text reads as that character. */
  lemma ReadEscapedChar(c: char, t: string)
    requires ReadStringBody(t).Some?
    ensures ReadStringBody(EscapeChar(c) + t) == Some(([c] + ReadStringBody(t).value.0, ReadStringBody(t).value.1))
  {
    if c == '"' || c == '\\' || c == 8 as char || c == 9 as char || c == 10 as char
       || c == 12 as char || c == 13 as char {
      ReadShortEscape(c, t);
    } else if (c as int) < 0x20 {
      ReadUnicodeEscape(c, t);
    } else {
      var u := EscapeChar(c) + t;
      assert EscapeChar(c) == [c];
      assert u[1..] == t;
    }
  }

  lemma ReadShortEscape(c: char, t: string)
    requires c == '"' || c == '\\' || c == 8 as char || c == 9 as char || c == 10 as char
             || c == 12 as char || c == 13 as char
    requires ReadStringBody(t).Some?
    ensures ReadStringBody(EscapeChar(c) + t) == Some(([c] + ReadStringBody(t).value.0, ReadStringBody(t).value.1))
  {
    var e := EscapeChar(c);
    var u := e + t;
    assert |e| == 2 && e[0] == '\\';
    assert ReadEscape(u[1..]) == Some((c, 1));
    assert u[2..] == t;
  }

  lemma ReadUnicodeEscape(c: char, t: string)
    requires (c as int) < 0x20 && c != 8 as char && c != 9 as char && c != 10 as char
             && c != 12 as char && c != 13 as char
    requires ReadStringBody(t).Some?
    ensures ReadStringBody(EscapeChar(c) + t) == Some(([c] + ReadStringBody(t).value.0, ReadStringBody(t).value.1))
  {
    var e := EscapeChar(c);
    var u := e + t;
    var hi, lo := (c as int) / 16, (c as int) % 16;
    assert e == ['\\', 'u', '0', '0', HexDigit(hi), HexDigit(lo)];
    var w := u[1..];
    assert w[0] == 'u' && w[1] == '0' && w[2] == '0' && w[3] == HexDigit(hi) && w[4] == HexDigit(lo);
    assert ((HexValue(w[1]) * 16 + HexValue(w[2])) * 16 + HexValue(w[3])) * 16 + HexValue(w[4]) == c as int;
    assert ReadEscape(w) == Some((c, 5));
    assert u[6..] == t;
  }

  lemma {:induction false} ReadEscaped(s: string, rest: string)
    ensures ReadStringBody(Escape(s) + "\"" + rest) == Some((s, rest))
    decreases |s|
  {
    if |s| == 0 {
      assert Escape(s) + "\"" + rest == "\"" + rest;
    } else {
      ReadEscaped(s[1..], rest);
      EscapeCons(s);
      assert Escape(s) + "\"" + rest == EscapeChar(s[0]) + (Escape(s[1..]) + "\"" + rest);
      ReadEscapedChar(s[0], Escape(s[1..]) + "\"" + rest);
      assert [s[0]] + s[1..] == s;
    }
  }

  /** A string literal reads back as the string. */
  lemma ReadQuoted(s: string, rest: string)
    ensures ReadString(Quote(s) + rest) == Some((s, rest))
  {
    var t := Quote(s) + rest;
    assert t[1..] == Escape(s) + "\"" + rest;
    ReadEscaped(s, rest);
  }

  lemma ReadItemsLast(t: string, s: string, rest: string)
    requires ReadString(t) == Some((s, "]" + rest))
    ensures ReadItems(t) == Some(([JStr(s)], rest))
  {
    assert ("]" + rest)[1..] == rest;
  }

  lemma ReadItemsMore(t: string, s: string, tail: string)
    requires ReadString(t) == Some((s, "," + tail))
    requires ReadItems(tail).Some?
    ensures ReadItems(t) == Some(([JStr(s)] + ReadItems(tail).value.0, ReadItems(tail).value.1))
  {
    assert ("," + tail)[1..] == tail;
  }

  lemma {:induction false} ReadItemsText(items: seq<Json>, rest: string)
    requires |items| >= 1 && forall i :: 0 <= i < |items| ==> items[i].JStr?
    ensures ReadItems(ItemsText(items) + "]" + rest) == Some((items, rest))
    decreases |items|
  {
    if |items| == 1 {
      ReadOneItem(items, rest);
    } else {
      ReadItemsText(items[1..], rest);
      ReadNextItem(items, rest);
    }
  }

  lemma ReadOneItem(items: seq<Json>, rest: string)
    requires |items| == 1 && items[0].JStr?
    ensures ReadItems(ItemsText(items) + "]" + rest) == Some((items, rest))
  {
    var q := Quote(items[0].s);
    assert ItemsText(items) + "]" + rest == q + ("]" + rest);
    ReadQuoted(items[0].s, "]" + rest);
    ReadItemsLast(q + ("]" + rest), items[0].s, rest);
    assert [JStr(items[0].s)] == items;
  }

  lemma ReadNextItem(items: seq<Json>, rest: string)
    requires |items| >= 2 && forall i :: 0 <= i < |items| ==> items[i].JStr?
    requires ReadItems(ItemsText(items[1..]) + "]" + rest) == Some((items[1..], rest))
    ensures ReadItems(ItemsText(items) + "]" + rest) == Some((items, rest))
  {
    var q := Quote(items[0].s);
    var it := ItemsText(items[1..]);
    var tail := it + "]" + rest;
    assert ItemsText(items) == q + "," + it;
    Associate(q, it, rest);
    ReadQuoted(items[0].s, "," + tail);
    ReadItemsMore(q + ("," + tail), items[0].s, tail);
    assert [JStr(items[0].s)] + items[1..] == items;
  }

  lemma Associate(q: string, it: string, rest: string)
    ensures q + "," + it + "]" + rest == q + ("," + (it + "]" + rest))
  {
  }

  lemma ReadValueText(v: Json, rest: string)
    requires Stringy(v)
    ensures ReadValue(ValueText(v) + rest) == Some((v, rest))
  {
    if v.JStr? {
      ReadStringValue(v.s, rest);
    } else if |v.items| == 0 {
      var t := ValueText(v) + rest;
      assert t == "[]" + rest;
      assert t[2..] == rest;
    } else {
      assert ValueText(v) + rest == "[" + ItemsText(v.items) + "]" + rest;
      ReadArrayValue(v.items, rest);
    }
  }

  lemma ReadStringValue(s: string, rest: string)
    ensures ReadValue(Quote(s) + rest) == Some((JStr(s), rest))
  {
    ReadQuoted(s, rest);
    assert (Quote(s) + rest)[0] == '"';
  }

  lemma ReadArrayValue(items: seq<Json>, rest: string)
    requires |items| >= 1 && forall i :: 0 <= i < |items| ==> items[i].JStr?
    ensures ReadValue("[" + ItemsText(items) + "]" + rest) == Some((JArr(items), rest))
  {
    var it := ItemsText(items);
    ItemsTextHead(items);
    ArrayTextHead(it, rest);
    ReadItemsText(items, rest);
  }

  /** The text of one or more items starts with the opening quote of the first. */
  lemma ItemsTextHead(items: seq<Json>)
    requires |items| >= 1 && forall i :: 0 <= i < |items| ==> items[i].JStr?
    ensures |ItemsText(items)| >= 1 && ItemsText(items)[0] == '"'
  {
    var q := Quote(items[0].s);
    assert |q| >= 2 && q[0] == '"';
    if |items| > 1 {
      assert ItemsText(items) == q + "," + ItemsText(items[1..]);
    }
  }

  lemma ArrayTextHead(it: string, rest: string)
    requires |it| >= 1 && it[0] == '"'
    ensures var t := "[" + it + "]" + rest; |t| >= 2 && t[0] == '[' && t[1] == '"' && t[1..] == it + "]" + rest
  {
  }

  lemma ReadMemberLast(t: string, acc: map<string, Json>, k: string, v: Json, vt: string, rest: string)
    requires ReadString(t) == Some((k, ":" + (vt + "}" + rest)))
    requires ReadValue(vt + "}" + rest) == Some((v, "}" + rest))
    ensures ReadMembers(t, acc) == Some((acc[k := v], rest))
  {
    assert (":" + (vt + "}" + rest))[1..] == vt + "}" + rest;
    assert ("}" + rest)[1..] == rest;
  }

  lemma ReadMemberMore(t: string, acc: map<string, Json>, k: string, v: Json, vt: string, tail: string)
    requires ReadString(t) == Some((k, ":" + (vt + "," + tail)))
    requires ReadValue(vt + "," + tail) == Some((v, "," + tail))
    ensures ReadMembers(t, acc) == ReadMembers(tail, acc[k := v])
  {
    assert (":" + (vt + "," + tail))[1..] == vt + "," + tail;
    assert ("," + tail)[1..] == tail;
  }

  lemma {:induction false} ReadMembersText(ms: seq<(string, Json)>, acc: map<string, Json>, rest: string)
    requires |ms| >= 1 && StringyMembers(ms)
    ensures ReadMembers(MembersThen(ms, "}" + rest), acc) == Some((Assign(acc, ms), rest))
    decreases |ms|
  {
    var k, v := ms[0].0, ms[0].1;
    var vt := ValueText(v);
    var q := Quote(k);
    if |ms| == 1 {
      ReadQuoted(k, ":" + (vt + ("}" + rest)));
      ReadValueText(v, "}" + rest);
      assert vt + "}" + rest == vt + ("}" + rest);
      ReadMemberLast(q + (":" + (vt + ("}" + rest))), acc, k, v, vt, rest);
      assert Assign(acc, ms) == Assign(acc[k := v], ms[1..]);
    } else {
      var tail := MembersThen(ms[1..], "}" + rest);
      ReadQuoted(k, ":" + (vt + ("," + tail)));
      ReadValueText(v, "," + tail);
      assert vt + "," + tail == vt + ("," + tail);
      ReadMemberMore(q + (":" + (vt + ("," + tail))), acc, k, v, vt, tail);
      assert StringyMembers(ms[1..]) by {
        assert forall i :: 0 <= i < |ms| - 1 ==> ms[1..][i] == ms[i + 1];
      }
      ReadMembersText(ms[1..], acc[k := v], rest);
    }
  }

  /** Reading the text of an object gives the object it denotes. */
  lemma ReadObjectText(ms: seq<(string, Json)>)
    requires StringyMembers(ms)
    ensures ReadObject(ObjectText(ms)) == Some(JObj(Assign(map[], ms)))
  {
    var t := ObjectText(ms);
    if |ms| > 0 {
      assert Quote(ms[0].0)[0] == '"';
      assert t[1] == '"';
      assert "}" + "" == "}";
      assert t[1..] == MembersThen(ms, "}");
      ReadMembersText(ms, map[], "");
    }
  }
}
