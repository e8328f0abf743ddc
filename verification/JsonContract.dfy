/** The canonical JSON text that requests are hashed from: it determines the request. */
module JsonContract {
  import opened Common
  import opened PortableText
  import opened Numbers

  /** A JSON-safe value; the order in which a dictionary was filled is not part of it. */
  datatype Json =
    | JNull
    | JBool(flag: bool)
    | JInt(number: int)
    | JText(text: string)
    | JList(items: seq<Json>)
    | JObject(fields: map<string, Json>)

  // ---- Keys in ascending order ----

  predicate Less(a: string, b: string) {
    |b| > 0 && (|a| == 0 || a[0] < b[0] || (a[0] == b[0] && Less(a[1..], b[1..])))
  }

  lemma {:induction false} LessTotal(a: string, b: string)
    ensures a == b || Less(a, b) || Less(b, a)
  {
    if |a| > 0 && |b| > 0 && a[0] == b[0] {
      LessTotal(a[1..], b[1..]);
      assert a == [a[0]] + a[1..] && b == [b[0]] + b[1..];
    }
  }

  lemma {:induction false} LessTransitive(a: string, b: string, c: string)
    requires Less(a, b) && Less(b, c)
    ensures Less(a, c)
  {
    if |a| > 0 && a[0] == b[0] == c[0] {
      LessTransitive(a[1..], b[1..], c[1..]);
    }
  }

  ghost predicate IsLeast(k: string, keys: set<string>) { k in keys && forall x :: x in keys && x != k ==> Less(k, x) }

  lemma {:induction false} LeastExists(keys: set<string>)
    requires keys != {}
    ensures exists k :: IsLeast(k, keys)
    decreases |keys|
  {
    var a :| a in keys;
    var rest := keys - {a};
    if rest != {} {
      LeastExists(rest);
      var b :| IsLeast(b, rest);
      LessTotal(a, b);
      if Less(a, b) {
        forall x | x in keys && x != a ensures Less(a, x) {
          if x != b {
            LessTransitive(a, b, x);
          }
        }
        assert IsLeast(a, keys);
      } else {
        forall x | x in keys && x != b ensures Less(b, x) {
          assert x == a || x in rest;
        }
        assert IsLeast(b, keys);
      }
    } else {
      assert keys == {a};
      assert IsLeast(a, keys);
    }
  }

  ghost function Least(keys: set<string>): (k: string)
    requires keys != {}
    ensures IsLeast(k, keys)
  {
    LeastExists(keys);
    var k :| IsLeast(k, keys);
    k
  }

  ghost function Sorted(keys: set<string>): (s: seq<string>)
    ensures forall k :: k in s <==> k in keys
    ensures forall i, j :: 0 <= i < j < |s| ==> Less(s[i], s[j])
    decreases |keys|
  {
    if keys == {} then [] else [Least(keys)] + Sorted(keys - {Least(keys)})
  }

  // ---- The text ----

  /** Two hexadecimal digits for the control characters without a short form. */
  function Escape(c: char): string {
    if c == '"' then "\\\""
    else if c == '\\' then "\\\\"
    else if c == '\n' then "\\n"
    else if c == '\r' then "\\r"
    else if c == '\t' then "\\t"
    else if c as int == 8 then "\\b"
    else if c as int == 12 then "\\f"
    else if c as int < 32 then "\\u00" + Padded(c as int, 16, 2)
    else [c]
  }

  function Escaped(s: string): string { if |s| == 0 then "" else Escape(s[0]) + Escaped(s[1..]) }

  function Quoted(s: string): string { "\"" + Escaped(s) + "\"" }

  function IntText(n: int): string { (if n < 0 then "-" else "") + Natural(Abs(n)) }

  function Comma(more: bool): string { if more then "," else "" }

  /** `json.dumps` with sorted keys and without spaces. */
  ghost function Canonical(j: Json): string
    decreases j, 0, 1
  {
    match j
    case JNull => "null"
    case JBool(flag) => if flag then "true" else "false"
    case JInt(n) => IntText(n)
    case JText(s) => Quoted(s)
    case JList(items) => "[" + (Elements(items) + "]")
    case JObject(fields) => "{" + (Members(j, Sorted(fields.Keys)) + "}")
  }

  ghost function Elements(items: seq<Json>): string {
    if |items| == 0 then "" else Canonical(items[0]) + (Comma(|items| > 1) + Elements(items[1..]))
  }

  ghost function Members(j: Json, keys: seq<string>): string
    requires j.JObject? && forall i :: 0 <= i < |keys| ==> keys[i] in j.fields
    decreases j, 0, 0, |keys|
  {
    if |keys| == 0 then "" else
    Quoted(keys[0]) + (":" + (Canonical(j.fields[keys[0]]) + (Comma(|keys| > 1) + Members(j, keys[1..]))))
  }

  // ---- Unique readability ----

  /** What may follow a value inside a text. */
  predicate Follows(x: string) { x == "" || x[0] == ',' || x[0] == ']' || x[0] == '}' }

  /** The first character tells the kind of a value. */
  function Head(j: Json): char {
    match j
    case JNull => 'n'
    case JBool(flag) => if flag then 't' else 'f'
    case JInt(n) => if n < 0 then '-' else Natural(Abs(n))[0]
    case JText(_) => '"'
    case JList(_) => '['
    case JObject(_) => '{'
  }

  lemma StartsWithHead(j: Json, x: string)
    ensures |Canonical(j) + x| > 0 && (Canonical(j) + x)[0] == Head(j)
  {
  }

  lemma SameKind(a: Json, b: Json, x: string, y: string)
    requires Canonical(a) + x == Canonical(b) + y
    ensures Head(a) == Head(b)
  {
    StartsWithHead(a, x);
    StartsWithHead(b, y);
  }

  lemma HeadIsNoEnd(j: Json)
    ensures Head(j) != ',' && Head(j) != ']' && Head(j) != '}'
  {
    if j.JInt? {
      assert DigitValue(Natural(Abs(j.number))[0], 10).Some?;
    }
  }

  /** A common prefix can be taken away. */
  lemma Cancel(p: string, x: string, y: string)
    requires p + x == p + y
    ensures x == y
  {
    assert (p + x)[|p|..] == x && (p + y)[|p|..] == y;
  }

  lemma Regroup(p: string, q: string, x: string)
    ensures (p + q) + x == p + (q + x)
  {
  }

  // Numbers.

  lemma NaturalsReadable(m: nat, n: nat, x: string, y: string)
    requires Follows(x) && Follows(y) && Natural(m) + x == Natural(n) + y
    ensures m == n && x == y
  {
    SameLength(Natural(m), Natural(n), x, y);
    SameLength(Natural(n), Natural(m), y, x);
    assert (Natural(m) + x)[..|Natural(m)|] == Natural(m) && (Natural(n) + y)[..|Natural(n)|] == Natural(n);
    NaturalReadsBack(m);
    NaturalReadsBack(n);
    Cancel(Natural(m), x, y);
  }

  lemma SameLength(a: string, b: string, x: string, y: string)
    requires Follows(x) && a + x == b + y
    requires forall i :: 0 <= i < |b| ==> DigitValue(b[i], 10).Some?
    ensures |b| <= |a|
  {
    NextCharacter(a, b, x, y);
  }

  lemma NextCharacter(a: string, b: string, x: string, y: string)
    requires a + x == b + y
    ensures |a| < |b| ==> |x| > 0 && x[0] == b[|a|]
  {
    if |a| < |b| {
      assert |a + x| == |b + y|;
      assert (a + x)[|a|] == x[0] && (b + y)[|a|] == b[|a|];
    }
  }

  // Texts.

  predicate Plain(c: char) { c != '"' && c != '\\' && c as int >= 32 }

  /** The code of a character starts with a backslash exactly when the character needs one, and never with a quote. */
  lemma EscapeShape(c: char)
    ensures |Escape(c)| >= 1
    ensures if Plain(c) then Escape(c) == [c] else |Escape(c)| >= 2 && Escape(c)[0] == '\\'
  {
  }

  lemma EscapesReadable(c: char, d: char, x: string, y: string)
    requires Escape(c) + x == Escape(d) + y
    ensures c == d && x == y
  {
    EscapeShape(c);
    EscapeShape(d);
    assert (Escape(c) + x)[0] == Escape(c)[0] && (Escape(d) + y)[0] == Escape(d)[0];
    if !Plain(c) {
      assert (Escape(c) + x)[1] == Escape(c)[1] && (Escape(d) + y)[1] == Escape(d)[1];
      LongEscapes(c, d, x, y);
    }
    Cancel(Escape(c), x, y);
  }

  lemma LongEscapes(c: char, d: char, x: string, y: string)
    requires !Plain(c) && !Plain(d) && Escape(c) + x == Escape(d) + y
    ensures c == d
  {
    EscapeShape(c);
    EscapeShape(d);
    var e, f := Escape(c), Escape(d);
    assert (e + x)[1] == e[1] && (f + y)[1] == f[1];
    if |e| == 6 && |f| == 6 {
      assert (e + x)[4..6] == Padded(c as int, 16, 2) && (f + y)[4..6] == Padded(d as int, 16, 2);
      SmallCodes(c as int);
      SmallCodes(d as int);
    }
  }

  lemma SmallCodes(n: nat)
    requires n < 32
    ensures ReadDigits(Padded(n, 16, 2), 16) == Some(n)
  {
    assert Power(16, 2) == 256;
    PaddedReadsBack(n, 16, 2);
  }

  lemma {:induction false} TextsReadable(s: string, t: string, x: string, y: string)
    requires Escaped(s) + ("\"" + x) == Escaped(t) + ("\"" + y)
    ensures s == t && x == y
    decreases |s|
  {
    FirstCode(s, x);
    FirstCode(t, y);
    if |s| == 0 || |t| == 0 {
      assert "" + ("\"" + x) == "\"" + x && "" + ("\"" + y) == "\"" + y;
      Cancel("\"", x, y);
    } else {
      Regroup(Escape(s[0]), Escaped(s[1..]), "\"" + x);
      Regroup(Escape(t[0]), Escaped(t[1..]), "\"" + y);
      EscapesReadable(s[0], t[0], Escaped(s[1..]) + ("\"" + x), Escaped(t[1..]) + ("\"" + y));
      TextsReadable(s[1..], t[1..], x, y);
      assert s == [s[0]] + s[1..] && t == [t[0]] + t[1..];
    }
  }

  /** The closing quote is told from the code of a further character. */
  lemma FirstCode(s: string, x: string)
    ensures (Escaped(s) + ("\"" + x))[0] == '"' <==> |s| == 0
  {
    var closing := "\"" + x;
    if |s| > 0 {
      EscapeShape(s[0]);
      FirstOf(Escape(s[0]), Escaped(s[1..]));
      FirstOf(Escaped(s), closing);
    } else {
      assert Escaped(s) + closing == closing;
    }
  }

  lemma FirstOf(p: string, q: string)
    requires |p| > 0
    ensures |p + q| > 0 && (p + q)[0] == p[0]
  {
  }

  lemma QuotedParts(s: string, x: string)
    ensures Quoted(s) + x == "\"" + (Escaped(s) + ("\"" + x))
  {
    Regroup("\"", Escaped(s), "\"");
    Regroup("\"", Escaped(s) + "\"", x);
    Regroup(Escaped(s), "\"", x);
  }

  lemma QuotedReadable(s: string, t: string, x: string, y: string)
    requires Quoted(s) + x == Quoted(t) + y
    ensures s == t && x == y
  {
    QuotedParts(s, x);
    QuotedParts(t, y);
    Cancel("\"", Escaped(s) + ("\"" + x), Escaped(t) + ("\"" + y));
    TextsReadable(s, t, x, y);
  }

  // Values.

  /** Wherever a canonical text starts, it says where it ends and what it stands for. */
  lemma {:induction false} Readable(a: Json, b: Json, x: string, y: string)
    requires Follows(x) && Follows(y) && Canonical(a) + x == Canonical(b) + y
    ensures a == b && x == y
    decreases a, 1
  {
    SameKind(a, b, x, y);
    match a
    case JNull => KindsDiffer(a, b); Cancel("null", x, y);
    case JBool(flag) => KindsDiffer(a, b); Cancel(Canonical(a), x, y);
    case JInt(n) => KindsDiffer(a, b); IntsReadable(n, b.number, x, y);
    case JText(s) => KindsDiffer(a, b); QuotedReadable(s, b.text, x, y);
    case JList(items) => KindsDiffer(a, b); ListReadable(items, b.items, x, y);
    case JObject(fields) => KindsDiffer(a, b); ObjectReadable(a, b, x, y);
  }

  lemma {:induction false} ListReadable(a: seq<Json>, b: seq<Json>, x: string, y: string)
    requires Canonical(JList(a)) + x == Canonical(JList(b)) + y
    ensures a == b && x == y
    decreases a, 1
  {
    Regroup("[", Elements(a) + "]", x);
    Regroup("[", Elements(b) + "]", y);
    Regroup(Elements(a), "]", x);
    Regroup(Elements(b), "]", y);
    Cancel("[", Elements(a) + ("]" + x), Elements(b) + ("]" + y));
    ListsReadable(a, b, x, y);
  }

  lemma {:induction false} ObjectReadable(a: Json, b: Json, x: string, y: string)
    requires a.JObject? && b.JObject? && Canonical(a) + x == Canonical(b) + y
    ensures a == b && x == y
    decreases a, 0
  {
    var keys, keys' := Sorted(a.fields.Keys), Sorted(b.fields.Keys);
    Regroup("{", Members(a, keys) + "}", x);
    Regroup("{", Members(b, keys') + "}", y);
    Regroup(Members(a, keys), "}", x);
    Regroup(Members(b, keys'), "}", y);
    Cancel("{", Members(a, keys) + ("}" + x), Members(b, keys') + ("}" + y));
    MembersReadable(a, b, keys, keys', x, y);
    SameFields(a.fields, b.fields, keys);
  }

  lemma SameFields(m: map<string, Json>, n: map<string, Json>, keys: seq<string>)
    requires (forall k :: k in keys <==> k in m.Keys) && (forall k :: k in keys <==> k in n.Keys)
    requires forall i :: 0 <= i < |keys| ==> m[keys[i]] == n[keys[i]]
    ensures m == n
  {
    forall k | k in m ensures k in n && m[k] == n[k] {
      var i :| 0 <= i < |keys| && keys[i] == k;
    }
  }

  lemma KindsDiffer(a: Json, b: Json)
    requires Head(a) == Head(b)
    ensures (a.JNull? <==> b.JNull?) && (a.JBool? <==> b.JBool?) && (a.JInt? <==> b.JInt?)
    ensures (a.JText? <==> b.JText?) && (a.JList? <==> b.JList?) && (a.JObject? <==> b.JObject?)
    ensures a.JBool? ==> a == b
  {
    DigitHead(a);
    DigitHead(b);
  }

  lemma DigitHead(j: Json)
    ensures j.JInt? ==> Head(j) == '-' || '0' <= Head(j) <= '9'
  {
    if j.JInt? {
      assert DigitValue(Natural(Abs(j.number))[0], 10).Some?;
    }
  }

  lemma IntsReadable(m: int, n: int, x: string, y: string)
    requires Follows(x) && Follows(y) && IntText(m) + x == IntText(n) + y
    ensures m == n && x == y
  {
    SameKind(JInt(m), JInt(n), x, y);
    DigitHead(JInt(Abs(m)));
    DigitHead(JInt(Abs(n)));
    var sign := if m < 0 then "-" else "";
    assert (m < 0) == (n < 0);
    Regroup(sign, Natural(Abs(m)), x);
    Regroup(sign, Natural(Abs(n)), y);
    Cancel(sign, Natural(Abs(m)) + x, Natural(Abs(n)) + y);
    NaturalsReadable(Abs(m), Abs(n), x, y);
  }

  /** What comes after the first element. */
  ghost function RestOf(items: seq<Json>, x: string): string
    requires |items| > 0
  {
    Comma(|items| > 1) + (Elements(items[1..]) + ("]" + x))
  }

  lemma FirstElement(items: seq<Json>, x: string)
    requires |items| > 0
    ensures Elements(items) + ("]" + x) == Canonical(items[0]) + RestOf(items, x)
    ensures Follows(RestOf(items, x)) && RestOf(items, x)[0] == if |items| > 1 then ',' else ']'
  {
    var tail := Comma(|items| > 1) + Elements(items[1..]);
    Regroup(Canonical(items[0]), tail, "]" + x);
    Regroup(Comma(|items| > 1), Elements(items[1..]), "]" + x);
  }

  lemma {:induction false} ListsReadable(a: seq<Json>, b: seq<Json>, x: string, y: string)
    requires Elements(a) + ("]" + x) == Elements(b) + ("]" + y)
    ensures a == b && x == y
    decreases a, 0
  {
    if |a| == 0 || |b| == 0 {
      EmptyLists(a, b, x, y);
    } else {
      FirstElement(a, x);
      FirstElement(b, y);
      Readable(a[0], b[0], RestOf(a, x), RestOf(b, y));
      Cancel(Comma(|a| > 1), Elements(a[1..]) + ("]" + x), Elements(b[1..]) + ("]" + y));
      ListsReadable(a[1..], b[1..], x, y);
      assert a == [a[0]] + a[1..] && b == [b[0]] + b[1..];
    }
  }

  lemma EmptyLists(a: seq<Json>, b: seq<Json>, x: string, y: string)
    requires Elements(a) + ("]" + x) == Elements(b) + ("]" + y) && (|a| == 0 || |b| == 0)
    ensures a == b && x == y
  {
    if |a| > 0 {
      FirstElement(a, x);
      StartsWithHead(a[0], RestOf(a, x));
      HeadIsNoEnd(a[0]);
    }
    if |b| > 0 {
      FirstElement(b, y);
      StartsWithHead(b[0], RestOf(b, y));
      HeadIsNoEnd(b[0]);
    }
    assert "" + ("]" + x) == "]" + x && "" + ("]" + y) == "]" + y;
    Cancel("]", x, y);
  }

  ghost predicate KeysOf(j: Json, keys: seq<string>) {
    j.JObject? && forall i :: 0 <= i < |keys| ==> keys[i] in j.fields
  }

  ghost function RestOfMembers(j: Json, keys: seq<string>, x: string): string
    requires KeysOf(j, keys) && |keys| > 0
  {
    Comma(|keys| > 1) + (Members(j, keys[1..]) + ("}" + x))
  }

  lemma FirstMember(j: Json, keys: seq<string>, x: string)
    requires KeysOf(j, keys) && |keys| > 0
    ensures Members(j, keys) + ("}" + x)
         == Quoted(keys[0]) + (":" + (Canonical(j.fields[keys[0]]) + RestOfMembers(j, keys, x)))
    ensures Follows(RestOfMembers(j, keys, x)) && RestOfMembers(j, keys, x)[0] == if |keys| > 1 then ',' else '}'
    ensures (Members(j, keys) + ("}" + x))[0] == '"'
  {
    var rest := Members(j, keys[1..]);
    var value := Canonical(j.fields[keys[0]]);
    Regroup(Comma(|keys| > 1), rest, "}" + x);
    Regroup(value, Comma(|keys| > 1) + rest, "}" + x);
    Regroup(":", value + (Comma(|keys| > 1) + rest), "}" + x);
    Regroup(Quoted(keys[0]), ":" + (value + (Comma(|keys| > 1) + rest)), "}" + x);
  }

  lemma {:induction false} MembersReadable(
      a: Json, b: Json, keys: seq<string>, keys': seq<string>, x: string, y: string)
    requires KeysOf(a, keys) && KeysOf(b, keys')
    requires Members(a, keys) + ("}" + x) == Members(b, keys') + ("}" + y)
    ensures keys == keys' && x == y && forall i :: 0 <= i < |keys| ==> a.fields[keys[i]] == b.fields[keys[i]]
    decreases a, -1, |keys|
  {
    if |keys| == 0 || |keys'| == 0 {
      EmptyMembers(a, b, keys, keys', x, y);
    } else {
      FirstMember(a, keys, x);
      FirstMember(b, keys', y);
      var v, w := a.fields[keys[0]], b.fields[keys'[0]];
      var p, q := RestOfMembers(a, keys, x), RestOfMembers(b, keys', y);
      QuotedReadable(keys[0], keys'[0], ":" + (Canonical(v) + p), ":" + (Canonical(w) + q));
      Cancel(":", Canonical(v) + p, Canonical(w) + q);
      Readable(v, w, p, q);
      Cancel(Comma(|keys| > 1), Members(a, keys[1..]) + ("}" + x), Members(b, keys'[1..]) + ("}" + y));
      MembersReadable(a, b, keys[1..], keys'[1..], x, y);
      assert keys == [keys[0]] + keys[1..] && keys' == [keys'[0]] + keys'[1..];
    }
  }

  lemma EmptyMembers(a: Json, b: Json, keys: seq<string>, keys': seq<string>, x: string, y: string)
    requires KeysOf(a, keys) && KeysOf(b, keys') && (|keys| == 0 || |keys'| == 0)
    requires Members(a, keys) + ("}" + x) == Members(b, keys') + ("}" + y)
    ensures keys == keys' && x == y
  {
    if |keys| > 0 {
      FirstMember(a, keys, x);
    }
    if |keys'| > 0 {
      FirstMember(b, keys', y);
    }
    assert "" + ("}" + x) == "}" + x && "" + ("}" + y) == "}" + y;
    Cancel("}", x, y);
  }

  /** Two requests have the same canonical text, and so the same hash, exactly when they are the same request, in
      whatever order their dictionaries were filled. */
  lemma CanonicalDeterminesRequest(a: Json, b: Json)
    ensures Canonical(a) == Canonical(b) <==> a == b
  {
    if Canonical(a) == Canonical(b) {
      assert Canonical(a) + "" == Canonical(b) + "";
      Readable(a, b, "", "");
    }
  }
}
