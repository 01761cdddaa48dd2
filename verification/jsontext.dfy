// A concrete instance of the library contract: JSON text for the values of
// Json, patches written as RFC 6902 documents, and the diff of json.dfy.
module JsonText {
  import opened Common
  import opened Text
  import opened Json

  const QUOTE: byte := 34
  const COMMA: byte := 44
  const MINUS: byte := 45
  const SLASH: byte := 47
  const COLON: byte := 58
  const OPEN_LIST: byte := 91
  const BACKSLASH: byte := 92
  const CLOSE_LIST: byte := 93
  const OPEN_OBJECT: byte := 123
  const CLOSE_OBJECT: byte := 125
  const TILDE: byte := 126

  // ---------------------------------------------------------------- printing

  function Unit(c: byte): Text {
    if c == QUOTE || c == BACKSLASH then [BACKSLASH, c] else [c]
  }

  function Escape(s: Text): Text {
    if s == [] then []
    else Unit(s[0]) + Escape(s[1..])
  }

  function Quoted(s: Text): Text {
    [QUOTE] + Escape(s) + [QUOTE]
  }

  predicate IsDigit(c: byte) {
    48 <= c < 58
  }

  function Decimal(n: nat): (t: Text)
    ensures t != [] && forall i :: 0 <= i < |t| ==> IsDigit(t[i])
  {
    if n < 10 then [(48 + n) as byte] else Decimal(n / 10) + [(48 + n % 10) as byte]
  }

  function Separator(first: bool): Text {
    if first then [] else [COMMA]
  }

  function MemberText(first: bool, k: Text, value: Text, rest: Text): Text {
    Separator(first) + (Quoted(k) + ([COLON] + (value + rest)))
  }

  ghost function Print(v: Json): (t: Text)
    ensures t != []
    decreases v, 1, 0
  {
    match v
    case Null => [110, 117, 108, 108]
    case Bool(b) => if b then [116, 114, 117, 101] else [102, 97, 108, 115, 101]
    case Num(n) => if n < 0 then [MINUS] + Decimal(-n) else Decimal(n)
    case Str(s) => Quoted(s)
    case Arr(items) => [OPEN_LIST] + PrintItems(v, items, true)
    case Obj(m) => [OPEN_OBJECT] + PrintMembers(v, m, true)
  }

  ghost function PrintItems(v: Json, items: seq<Json>, first: bool): (t: Text)
    requires v.Arr? && forall i :: 0 <= i < |items| ==> items[i] in v.items
    ensures t != []
    decreases v, 0, |items|
  {
    if items == [] then [CLOSE_LIST]
    else Separator(first) + Print(items[0]) + PrintItems(v, items[1..], false)
  }

  ghost function PrintMembers(v: Json, m: map<Text, Json>, first: bool): (t: Text)
    requires v.Obj? && forall k <- m :: k in v.members && m[k] == v.members[k]
    ensures t != []
    decreases v, 0, |m|
  {
    if m == map[] then [CLOSE_OBJECT]
    else
      var k := Pick(m.Keys);
      MemberText(first, k, Print(m[k]), PrintMembers(v, m - {k}, false))
  }

  // ------------------------------------------------- no two values print alike

  function DecimalValue(t: Text): int {
    if t == [] then 0 else DecimalValue(t[..|t| - 1]) * 10 + (t[|t| - 1] as int - 48)
  }

  lemma {:induction false} ValueOfDecimal(n: nat)
    ensures DecimalValue(Decimal(n)) == n
  {
    var t := Decimal(n);
    if n >= 10 {
      ValueOfDecimal(n / 10);
      assert t[..|t| - 1] == Decimal(n / 10);
    } else {
      assert t[..0] == [];
    }
  }

  // What may follow a value inside a document.
  predicate Delimited(rest: Text) {
    rest == [] || rest[0] == COMMA || rest[0] == CLOSE_LIST || rest[0] == CLOSE_OBJECT
  }

  lemma DropPrefix(x: Text, a: Text, b: Text)
    requires x + a == x + b
    ensures a == b
  {
    assert a == (x + a)[|x|..] && b == (x + b)[|x|..];
  }

  lemma DecimalUnique(m: nat, n: nat, r: Text, s: Text)
    requires Decimal(m) + r == Decimal(n) + s && Delimited(r) && Delimited(s)
    ensures m == n && r == s
  {
    var a, b := Decimal(m), Decimal(n);
    var t := a + r;
    assert t == b + s;
    assert forall i :: 0 <= i < |a| ==> t[i] == a[i];
    assert forall i :: 0 <= i < |b| ==> t[i] == b[i];
    assert |a| < |t| ==> t[|a|] == r[0];
    assert |b| < |t| ==> t[|b|] == s[0];
    assert a == t[..|a|] && b == t[..|b|];
    DropPrefix(a, r, s);
    ValueOfDecimal(m);
    ValueOfDecimal(n);
  }

  lemma UnitUnique(c: byte, d: byte, x: Text, y: Text)
    requires Unit(c) + x == Unit(d) + y
    ensures c == d && x == y
  {
    var t := Unit(c) + x;
    assert t[0] == Unit(c)[0] && t[0] == Unit(d)[0];
    if t[0] == BACKSLASH {
      assert t[1] == c && t[1] == d;
    }
    DropPrefix(Unit(c), x, y);
  }

  lemma {:induction false} EscapeUnique(a: Text, b: Text, r: Text, s: Text)
    requires Escape(a) + ([QUOTE] + r) == Escape(b) + ([QUOTE] + s)
    ensures a == b && r == s
  {
    var x, y := [QUOTE] + r, [QUOTE] + s;
    assert a == [] ==> (Escape(a) + x)[0] == QUOTE;
    assert b == [] ==> (Escape(b) + y)[0] == QUOTE;
    assert a != [] ==> (Escape(a) + x)[0] == Unit(a[0])[0] != QUOTE;
    assert b != [] ==> (Escape(b) + y)[0] == Unit(b[0])[0] != QUOTE;
    if a == [] {
      assert x == Escape(a) + x && y == Escape(b) + y;
      DropPrefix([QUOTE], r, s);
    } else {
      Assoc(Unit(a[0]), Escape(a[1..]), x);
      Assoc(Unit(b[0]), Escape(b[1..]), y);
      UnitUnique(a[0], b[0], Escape(a[1..]) + x, Escape(b[1..]) + y);
      EscapeUnique(a[1..], b[1..], r, s);
      assert a == [a[0]] + a[1..] && b == [b[0]] + b[1..];
    }
  }

  lemma QuotedUnique(a: Text, b: Text, r: Text, s: Text)
    requires Quoted(a) + r == Quoted(b) + s
    ensures a == b && r == s
  {
    assert Quoted(a) + r == [QUOTE] + (Escape(a) + ([QUOTE] + r));
    assert Quoted(b) + s == [QUOTE] + (Escape(b) + ([QUOTE] + s));
    DropPrefix([QUOTE], Escape(a) + ([QUOTE] + r), Escape(b) + ([QUOTE] + s));
    EscapeUnique(a, b, r, s);
  }

  lemma SameKind(v: Json, w: Json)
    requires Print(v)[0] == Print(w)[0]
    ensures v.Null? <==> w.Null?
    ensures v.Bool? <==> w.Bool?
    ensures v.Bool? ==> v == w
    ensures v.Num? <==> w.Num?
    ensures v.Num? ==> (v.n < 0 <==> w.n < 0)
    ensures v.Str? <==> w.Str?
    ensures v.Arr? <==> w.Arr?
  {
    if v.Num? && v.n >= 0 { assert Print(v)[0] == Decimal(v.n)[0]; }
    if w.Num? && w.n >= 0 { assert Print(w)[0] == Decimal(w.n)[0]; }
  }

  // A printed value ends where it must: no other value prints to a text that
  // agrees with it up to what may follow.
  lemma {:induction false} PrintUnique(v: Json, w: Json, r: Text, s: Text)
    requires Print(v) + r == Print(w) + s && Delimited(r) && Delimited(s)
    ensures v == w && r == s
    decreases v, 1, 0
  {
    assert (Print(v) + r)[0] == Print(v)[0] && (Print(w) + s)[0] == Print(w)[0];
    SameKind(v, w);
    match v {
      case Null => DropPrefix(Print(v), r, s);
      case Bool(_) => DropPrefix(Print(v), r, s);
      case Num(_) => NumUnique(v.n, w.n, r, s);
      case Str(_) => QuotedUnique(v.s, w.s, r, s);
      case Arr(_) =>
        var x, y := PrintItems(v, v.items, true), PrintItems(w, w.items, true);
        Assoc([OPEN_LIST], x, r);
        Assoc([OPEN_LIST], y, s);
        DropPrefix([OPEN_LIST], x + r, y + s);
        ItemsUnique(v, w, v.items, w.items, true, r, s);
      case Obj(_) =>
        var x, y := PrintMembers(v, v.members, true), PrintMembers(w, w.members, true);
        Assoc([OPEN_OBJECT], x, r);
        Assoc([OPEN_OBJECT], y, s);
        DropPrefix([OPEN_OBJECT], x + r, y + s);
        MembersUnique(v, w, v.members, w.members, true, r, s);
    }
  }

  lemma NumUnique(m: int, n: int, r: Text, s: Text)
    requires m < 0 <==> n < 0
    requires Print(Num(m)) + r == Print(Num(n)) + s && Delimited(r) && Delimited(s)
    ensures m == n && r == s
  {
    if m < 0 {
      Assoc([MINUS], Decimal(-m), r);
      Assoc([MINUS], Decimal(-n), s);
      DropPrefix([MINUS], Decimal(-m) + r, Decimal(-n) + s);
      DecimalUnique(-m, -n, r, s);
    } else {
      DecimalUnique(m, n, r, s);
    }
  }

  lemma Assoc(a: Text, b: Text, c: Text)
    ensures (a + b) + c == a + (b + c)
  {
  }

  lemma FirstByte(v: Json)
    ensures Print(v)[0] != CLOSE_LIST && Print(v)[0] != CLOSE_OBJECT && Print(v)[0] != NEWLINE
  {
  }

  lemma FirstItem(v: Json, a: seq<Json>, first: bool, r: Text)
    requires v.Arr? && a != [] && forall i :: 0 <= i < |a| ==> a[i] in v.items
    ensures PrintItems(v, a, first) + r == Separator(first) + (Print(a[0]) + (PrintItems(v, a[1..], false) + r))
  {
  }

  lemma {:induction false} ItemsUnique(v: Json, w: Json, a: seq<Json>, b: seq<Json>, first: bool, r: Text, s: Text)
    requires v.Arr? && forall i :: 0 <= i < |a| ==> a[i] in v.items
    requires w.Arr? && forall i :: 0 <= i < |b| ==> b[i] in w.items
    requires PrintItems(v, a, first) + r == PrintItems(w, b, first) + s
    ensures a == b && r == s
    decreases v, 0, |a|
  {
    var t := PrintItems(v, a, first) + r;
    assert t[0] == PrintItems(v, a, first)[0] && t[0] == PrintItems(w, b, first)[0];
    if a != [] { FirstByte(a[0]); }
    if b != [] { FirstByte(b[0]); }
    if a == [] {
      DropPrefix([CLOSE_LIST], r, s);
    } else {
      assert b != [];
      var x, y := PrintItems(v, a[1..], false), PrintItems(w, b[1..], false);
      FirstItem(v, a, first, r);
      FirstItem(w, b, first, s);
      DropPrefix(Separator(first), Print(a[0]) + (x + r), Print(b[0]) + (y + s));
      PrintUnique(a[0], b[0], x + r, y + s);
      ItemsUnique(v, w, a[1..], b[1..], false, r, s);
      assert a == [a[0]] + a[1..] && b == [b[0]] + b[1..];
    }
  }

  lemma MemberTextAppend(first: bool, k: Text, value: Text, rest: Text, r: Text)
    ensures MemberText(first, k, value, rest) + r == MemberText(first, k, value, rest + r)
  {
    Assoc(value, rest, r);
    Assoc([COLON], value + rest, r);
    Assoc(Quoted(k), [COLON] + (value + rest), r);
    Assoc(Separator(first), Quoted(k) + ([COLON] + (value + rest)), r);
  }

  lemma MemberTextUnique(first: bool, j: Text, k: Text, v: Json, w: Json, x: Text, y: Text)
    requires MemberText(first, j, Print(v), x) == MemberText(first, k, Print(w), y)
    ensures j == k && Print(v) + x == Print(w) + y
  {
    var a, b := Print(v) + x, Print(w) + y;
    DropPrefix(Separator(first), Quoted(j) + ([COLON] + a), Quoted(k) + ([COLON] + b));
    QuotedUnique(j, k, [COLON] + a, [COLON] + b);
    DropPrefix([COLON], a, b);
  }

  lemma {:induction false} MembersUnique(v: Json, w: Json, a: map<Text, Json>, b: map<Text, Json>, first: bool,
                                         r: Text, s: Text)
    requires v.Obj? && forall k <- a :: k in v.members && a[k] == v.members[k]
    requires w.Obj? && forall k <- b :: k in w.members && b[k] == w.members[k]
    requires PrintMembers(v, a, first) + r == PrintMembers(w, b, first) + s
    ensures a == b && r == s
    decreases v, 0, |a|
  {
    MembersStart(v, a, first, r);
    MembersStart(w, b, first, s);
    if a == map[] {
      DropPrefix([CLOSE_OBJECT], r, s);
    } else {
      var j, k := Pick(a.Keys), Pick(b.Keys);
      var x, y := PrintMembers(v, a - {j}, false), PrintMembers(w, b - {k}, false);
      MemberTextAppend(first, j, Print(a[j]), x, r);
      MemberTextAppend(first, k, Print(b[k]), y, s);
      MemberTextUnique(first, j, k, a[j], b[k], x + r, y + s);
      MembersStart(v, a - {j}, false, r);
      MembersStart(w, b - {k}, false, s);
      PrintUnique(a[j], b[k], x + r, y + s);
      MembersUnique(v, w, a - {j}, b - {k}, false, r, s);
      assert a == (a - {j})[j := a[j]] && b == (b - {k})[k := b[k]];
    }
  }

  lemma MembersStart(v: Json, m: map<Text, Json>, first: bool, r: Text)
    requires v.Obj? && forall k <- m :: k in v.members && m[k] == v.members[k]
    ensures var t := PrintMembers(v, m, first) + r;
      && (m == map[] <==> t[0] == CLOSE_OBJECT)
      && (m != map[] ==> t[0] == if first then QUOTE else COMMA)
  {
    if m != map[] {
      var k := Pick(m.Keys);
      assert PrintMembers(v, m, first)[0] == (Separator(first) + Quoted(k))[0];
    }
  }

  // --------------------------------------------------------- patch documents

  // A reference token inside a JSON pointer (section 3 of RFC 6901).
  function TokenUnit(c: byte): Text {
    if c == TILDE then [TILDE, 48] else if c == SLASH then [TILDE, 49] else [c]
  }

  function EscapeToken(token: Text): Text {
    if token == [] then [] else TokenUnit(token[0]) + EscapeToken(token[1..])
  }

  function Pointer(path: seq<Text>): Text {
    if path == [] then [] else [SLASH] + EscapeToken(path[0]) + Pointer(path[1..])
  }

  function OpJson(op: Op): Json {
    match op
    case Add(path, v) => Obj(map[Ascii("op") := Str(Ascii("add")), Ascii("path") := Str(Pointer(path)), Ascii("value") := v])
    case Remove(path) => Obj(map[Ascii("op") := Str(Ascii("remove")), Ascii("path") := Str(Pointer(path))])
    case Replace(path, v) => Obj(map[Ascii("op") := Str(Ascii("replace")), Ascii("path") := Str(Pointer(path)), Ascii("value") := v])
  }

  function PatchJson(ops: seq<Op>): Json {
    Arr(seq(|ops|, i requires 0 <= i < |ops| => OpJson(ops[i])))
  }

  lemma {:induction false} EscapeTokenUnique(a: Text, b: Text, r: Text, s: Text)
    requires EscapeToken(a) + r == EscapeToken(b) + s
    requires (r == [] || r[0] == SLASH) && (s == [] || s[0] == SLASH)
    ensures a == b && r == s
  {
    if a != [] {
      Assoc(TokenUnit(a[0]), EscapeToken(a[1..]), r);
    }
    if b != [] {
      Assoc(TokenUnit(b[0]), EscapeToken(b[1..]), s);
    }
    if a == [] {
      assert EscapeToken(a) + r == r;
      assert b == [];
      assert EscapeToken(b) + s == s;
    } else {
      assert (EscapeToken(a) + r)[0] == TokenUnit(a[0])[0];
      assert b == [] ==> EscapeToken(b) + s == s;
      assert b != [];
      TokenUnitUnique(a[0], b[0], EscapeToken(a[1..]) + r, EscapeToken(b[1..]) + s);
      EscapeTokenUnique(a[1..], b[1..], r, s);
      assert a == [a[0]] + a[1..] && b == [b[0]] + b[1..];
    }
  }

  lemma TokenUnitUnique(c: byte, d: byte, x: Text, y: Text)
    requires TokenUnit(c) + x == TokenUnit(d) + y
    ensures c == d && x == y
  {
    var t := TokenUnit(c) + x;
    assert t[0] == TokenUnit(c)[0] && t[0] == TokenUnit(d)[0];
    if t[0] == TILDE {
      assert t[1] == TokenUnit(c)[1] && t[1] == TokenUnit(d)[1];
    }
    DropPrefix(TokenUnit(c), x, y);
  }

  lemma PointerHead(p: seq<Text>)
    requires p != []
    ensures Pointer(p) == [SLASH] + (EscapeToken(p[0]) + Pointer(p[1..]))
  {
  }

  lemma {:induction false} PointerUnique(p: seq<Text>, q: seq<Text>)
    requires Pointer(p) == Pointer(q)
    ensures p == q
  {
    if p != [] && q != [] {
      PointerHead(p);
      PointerHead(q);
      DropPrefix([SLASH], EscapeToken(p[0]) + Pointer(p[1..]), EscapeToken(q[0]) + Pointer(q[1..]));
      EscapeTokenUnique(p[0], q[0], Pointer(p[1..]), Pointer(q[1..]));
      PointerUnique(p[1..], q[1..]);
      assert p == [p[0]] + p[1..] && q == [q[0]] + q[1..];
    }
  }

  lemma OpJsonUnique(x: Op, y: Op)
    requires OpJson(x) == OpJson(y)
    ensures x == y
  {
    var op, path, value := Ascii("op"), Ascii("path"), Ascii("value");
    assert |op| != |path| && |value| != |path| && |op| != |value|;
    var m, n := OpJson(x).members, OpJson(y).members;
    assert m[op] == n[op] && m[path] == n[path];
    assert |Ascii("add")| == 3 && |Ascii("remove")| == 6 && |Ascii("replace")| == 7;
    PointerUnique(x.path, y.path);
    if !x.Remove? {
      assert m[value] == x.value && n[value] == y.value;
    }
  }

  lemma PatchJsonUnique(p: seq<Op>, q: seq<Op>)
    requires PatchJson(p) == PatchJson(q)
    ensures p == q
  {
    assert |PatchJson(p).items| == |p| && |PatchJson(q).items| == |q|;
    forall i | 0 <= i < |p| ensures p[i] == q[i] {
      assert PatchJson(p).items[i] == OpJson(p[i]) && PatchJson(q).items[i] == OpJson(q[i]);
      OpJsonUnique(p[i], q[i]);
    }
  }

  // ------------------------------------------------------------ the instance

  ghost predicate IsTextOf(t: Text, v: Json) {
    Print(v) == t
  }

  ghost function Parse(t: Text): Option<Json> {
    if exists v :: IsTextOf(Trim(t), v) then
      var v :| IsTextOf(Trim(t), v);
      Some(v)
    else None
  }

  ghost function CreatePatch(a: Text, b: Text): Option<seq<Op>> {
    if Parse(a).Some? && Parse(b).Some? then Some(Diff(Parse(a).value, Parse(b).value)) else None
  }

  ghost function DecodePatch(t: Text): Result<Option<seq<Op>>> {
    if exists p :: IsTextOf(t, PatchJson(p)) then
      var p :| IsTextOf(t, PatchJson(p));
      Ok(Some(p))
    else Err("invalid patch")
  }

  ghost function ApplyPatch(p: seq<Op>, t: Text): Result<Option<Text>> {
    if Parse(t).Some? && Apply(p, Parse(t).value).Some? then Ok(Some(Print(Apply(p, Parse(t).value).value)))
    else Err("patch does not apply")
  }

  ghost function Instance(): Library {
    Library(t => Parse(t), (a, b) => CreatePatch(a, b), p => Some(Print(PatchJson(p))),
            t => DecodePatch(t), (p, t) => ApplyPatch(p, t))
  }

  lemma ItemsEnd(v: Json, items: seq<Json>, first: bool)
    requires v.Arr? && forall i :: 0 <= i < |items| ==> items[i] in v.items
    ensures var t := PrintItems(v, items, first); t[|t| - 1] == CLOSE_LIST
    decreases |items|
  {
    if items != [] {
      ItemsEnd(v, items[1..], false);
    }
  }

  lemma MembersEnd(v: Json, m: map<Text, Json>, first: bool)
    requires v.Obj? && forall k <- m :: k in v.members && m[k] == v.members[k]
    ensures var t := PrintMembers(v, m, first); t[|t| - 1] == CLOSE_OBJECT
    decreases |m|
  {
    if m != map[] {
      MembersEnd(v, m - {Pick(m.Keys)}, false);
    }
  }

  lemma PrintIsTrimmed(v: Json)
    ensures Trim(Print(v)) == Print(v)
  {
    FirstByte(v);
    match v {
      case Arr(items) => ItemsEnd(v, items, true);
      case Obj(m) => MembersEnd(v, m, true);
      case _ =>
    }
    TrimBareText(Print(v));
  }

  lemma ParsePrint(v: Json)
    ensures Parse(Print(v)) == Some(v)
  {
    PrintIsTrimmed(v);
    assert IsTextOf(Trim(Print(v)), v);
    var w := Parse(Print(v)).value;
    PrintUnique(v, w, [], []);
  }

  lemma ParseTrim(t: Text)
    ensures Parse(Trim(t)) == Parse(t)
  {
    TrimIdempotent(t);
    if Parse(t).Some? {
      PrintUnique(Parse(t).value, Parse(Trim(t)).value, [], []);
    }
  }

  lemma DecodeMarshalled(p: seq<Op>)
    ensures DecodePatch(Print(PatchJson(p))) == Ok(Some(p))
  {
    var t := Print(PatchJson(p));
    assert IsTextOf(t, PatchJson(p));
    var q := DecodePatch(t).value.value;
    PrintUnique(PatchJson(p), PatchJson(q), [], []);
    PatchJsonUnique(p, q);
  }

  lemma CreatedPatchCarries(a: Text, b: Text)
    requires CreatePatch(a, b).Some?
    ensures Carries(Instance(), Print(PatchJson(CreatePatch(a, b).value)), a, b)
  {
    var lib := Instance();
    var x, y := Parse(a).value, Parse(b).value;
    var p := Diff(x, y);
    var ops := Print(PatchJson(p));
    PrintIsTrimmed(PatchJson(p));
    ApplyDiff(x, y);
    DecodeMarshalled(p);
    if ops == EMPTY_PATCH {
      assert Print(PatchJson([])) == [OPEN_LIST, CLOSE_LIST] == EMPTY_PATCH;
      DecodeMarshalled([]);
      assert p == [];
    } else {
      forall c | Same(lib, c, a) ensures Applies(lib, p, c, b) {
        ParseTrim(c);
        ParseTrim(a);
        ParsePrint(y);
      }
    }
  }

  // The contract is met by a real diff over real texts.
  lemma InstanceIsLawful()
    ensures Lawful(Instance())
  {
    var lib := Instance();
    forall t: Text ensures lib.parse(Trim(t)) == lib.parse(t) {
      ParseTrim(t);
    }
    forall a: Text, b: Text | lib.create(a, b).Some?
      ensures Carries(lib, lib.marshal(lib.create(a, b).value).value, a, b)
    {
      CreatedPatchCarries(a, b);
    }
  }
}
