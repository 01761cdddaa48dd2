// JSON values, RFC 6902 operations on them, and what the broadcast protocol
// needs from the JSON Patch library.
module Json {
  import opened Common
  import opened Text

  datatype Json =
    | Null
    | Bool(b: bool)
    | Num(n: int)
    | Str(s: Text)
    | Arr(items: seq<Json>)
    | Obj(members: map<Text, Json>)

  // Sections 4.1 to 4.3 of RFC 6902; a path is its list of reference tokens.
  datatype Op =
    | Add(path: seq<Text>, value: Json)
    | Remove(path: seq<Text>)
    | Replace(path: seq<Text>, value: Json)

  // The library as the program calls it.  parse stands for reading a text as
  // JSON; create and marshal may fail; decode and apply may fail or give nil.
  datatype Library = Library(
    parse: Text -> Option<Json>,
    create: (Text, Text) -> Option<seq<Op>>,
    marshal: seq<Op> -> Option<Text>,
    decode: Text -> Result<Option<seq<Op>>>,
    apply: (seq<Op>, Text) -> Result<Option<Text>>)

  const EMPTY_PATCH: Text := Ascii("[]")

  // Two texts a client cannot tell apart: equal once trimmed, or equal values.
  ghost predicate Same(lib: Library, a: Text, b: Text) {
    Trim(a) == Trim(b) || (lib.parse(a).Some? && lib.parse(a) == lib.parse(b))
  }

  // The text ops, received trimmed, turns anything the same as a into
  // something the same as b; the empty patch is the identity.
  ghost predicate Carries(lib: Library, ops: Text, a: Text, b: Text) {
    var sent := Trim(ops);
    if sent == EMPTY_PATCH then Same(lib, a, b)
    else
      var d := lib.decode(sent);
      d.Ok? && d.value.Some? && forall c :: Same(lib, c, a) ==> Applies(lib, d.value.value, c, b)
  }

  ghost predicate Applies(lib: Library, patch: seq<Op>, c: Text, b: Text) {
    var r := lib.apply(patch, c);
    r.Ok? && r.value.Some? && Same(lib, r.value.value, b)
  }

  ghost predicate TrimBlind(lib: Library) {
    forall t: Text :: lib.parse(Trim(t)) == lib.parse(t)
  }

  ghost predicate Faithful(lib: Library) {
    forall a: Text, b: Text :: lib.create(a, b).Some? && lib.marshal(lib.create(a, b).value).Some? ==>
      Carries(lib, lib.marshal(lib.create(a, b).value).value, a, b)
  }

  // The contract of the library.
  ghost predicate Lawful(lib: Library) {
    TrimBlind(lib) && Faithful(lib)
  }

  lemma SameReflexive(lib: Library, a: Text)
    ensures Same(lib, a, a)
  {
  }

  lemma SameTransitive(lib: Library, a: Text, b: Text, c: Text)
    requires TrimBlind(lib) && Same(lib, a, b) && Same(lib, b, c)
    ensures Same(lib, a, c) && Same(lib, c, a)
  {
    assert lib.parse(Trim(a)) == lib.parse(a) && lib.parse(Trim(b)) == lib.parse(b) && lib.parse(Trim(c)) == lib.parse(c);
  }

  lemma SameTrim(lib: Library, a: Text)
    ensures Same(lib, Trim(a), a) && Same(lib, a, Trim(a))
  {
    TrimIdempotent(a);
  }

  // ------------------------------------------------------ a concrete diff

  function ApplyOp(op: Op, v: Json): Option<Json>
    decreases |op.path|
  {
    if op.path == [] then
      (match op
       case Remove(_) => None
       case Add(_, w) => Some(w)
       case Replace(_, w) => Some(w))
    else if !v.Obj? then None
    else
      var k := op.path[0];
      if |op.path| == 1 then
        (match op
         case Add(_, w) => Some(Obj(v.members[k := w]))
         case Remove(_) => if k in v.members then Some(Obj(v.members - {k})) else None
         case Replace(_, w) => if k in v.members then Some(Obj(v.members[k := w])) else None)
      else if k !in v.members then None
      else
        match ApplyOp(Below(op), v.members[k])
        case None => None
        case Some(w) => Some(Obj(v.members[k := w]))
  }

  // The same operation seen from one level down, and from one level up.
  function Below(op: Op): Op
    requires op.path != []
  {
    op.(path := op.path[1..])
  }

  function Under(k: Text, ops: seq<Op>): (r: seq<Op>)
    ensures forall i :: 0 <= i < |r| ==> r[i].path != []
  {
    if ops == [] then [] else [ops[0].(path := [k] + ops[0].path)] + Under(k, ops[1..])
  }

  function Apply(ops: seq<Op>, v: Json): Option<Json> {
    if ops == [] then Some(v)
    else
      match ApplyOp(ops[0], v)
      case None => None
      case Some(w) => Apply(ops[1..], w)
  }

  ghost function Pick(keys: set<Text>): (k: Text)
    requires keys != {}
    ensures k in keys
  {
    var k :| k in keys; k
  }

  // Members one by one, descending where both sides hold an object.
  ghost function Diff(a: Json, b: Json): (ops: seq<Op>)
    ensures NeverRemovesRoot(ops)
    decreases a, 1, 0
  {
    if a == b then []
    else if a.Obj? && b.Obj? then DiffMembers(a, b, a.members.Keys + b.members.Keys)
    else [Replace([], b)]
  }

  ghost function DiffMembers(a: Json, b: Json, keys: set<Text>): (ops: seq<Op>)
    requires a.Obj? && b.Obj? && keys <= a.members.Keys + b.members.Keys
    ensures NeverRemovesRoot(ops)
    decreases a, 0, |keys|
  {
    if keys == {} then []
    else
      var k := Pick(keys);
      DiffMember(a, b, k) + DiffMembers(a, b, keys - {k})
  }

  ghost function DiffMember(a: Json, b: Json, k: Text): (ops: seq<Op>)
    requires a.Obj? && b.Obj? && k in a.members.Keys + b.members.Keys
    ensures NeverRemovesRoot(ops)
    decreases a, 0, 0
  {
    if k !in b.members then [Remove([k])]
    else if k !in a.members then [Add([k], b.members[k])]
    else Under(k, Diff(a.members[k], b.members[k]))
  }

  ghost predicate NeverRemovesRoot(ops: seq<Op>) {
    forall i :: 0 <= i < |ops| && ops[i].Remove? ==> ops[i].path != []
  }

  lemma {:induction false} ApplyAppend(p: seq<Op>, q: seq<Op>, v: Json)
    ensures Apply(p + q, v) == if Apply(p, v).Some? then Apply(q, Apply(p, v).value) else None
  {
    if p == [] {
      assert p + q == q;
    } else {
      assert (p + q)[1..] == p[1..] + q;
      match ApplyOp(p[0], v)
      case None =>
      case Some(w) => ApplyAppend(p[1..], q, w);
    }
  }

  lemma {:induction false} ApplyUnder(k: Text, ops: seq<Op>, m: map<Text, Json>)
    requires k in m && NeverRemovesRoot(ops)
    ensures Apply(Under(k, ops), Obj(m)) ==
            if Apply(ops, m[k]).Some? then Some(Obj(m[k := Apply(ops, m[k]).value])) else None
  {
    if ops == [] {
      assert m[k := m[k]] == m;
    } else {
      var op := ops[0].(path := [k] + ops[0].path);
      assert op.path[1..] == ops[0].path && Below(op) == ops[0];
      match ApplyOp(ops[0], m[k])
      case None =>
      case Some(w) =>
        assert ApplyOp(op, Obj(m)) == Some(Obj(m[k := w]));
        ApplyUnder(k, ops[1..], m[k := w]);
        if Apply(ops[1..], w).Some? {
          assert m[k := w][k := Apply(ops[1..], w).value] == m[k := Apply(ops[1..], w).value];
        }
    }
  }

  // m with the given keys as b has them.
  ghost function Overwrite(m: map<Text, Json>, b: map<Text, Json>, keys: set<Text>): map<Text, Json> {
    map k | k in m.Keys + b.Keys && (if k in keys then k in b else k in m) :: if k in keys then b[k] else m[k]
  }

  lemma OverwriteSplit(m: map<Text, Json>, b: map<Text, Json>, k: Text, keys: set<Text>)
    requires k in keys
    ensures Overwrite(Overwrite(m, b, {k}), b, keys - {k}) == Overwrite(m, b, keys)
  {
    var one := Overwrite(m, b, {k});
    forall j | j != k ensures (j in one <==> j in m) && (j in one ==> one[j] == m[j]) {
    }
    assert k in one <==> k in b;
  }

  ghost predicate AgreeOn(m: map<Text, Json>, a: map<Text, Json>, keys: set<Text>) {
    forall k <- keys :: (k in m <==> k in a) && (k in m ==> m[k] == a[k])
  }

  lemma {:induction false} ApplyDiffMembers(a: Json, b: Json, keys: set<Text>, m: map<Text, Json>)
    requires a.Obj? && b.Obj? && keys <= a.members.Keys + b.members.Keys
    requires AgreeOn(m, a.members, keys)
    ensures Apply(DiffMembers(a, b, keys), Obj(m)) == Some(Obj(Overwrite(m, b.members, keys)))
    decreases a, 0, |keys|
  {
    if keys == {} {
      assert Overwrite(m, b.members, keys) == m;
    } else {
      var k := Pick(keys);
      var one := Overwrite(m, b.members, {k});
      ApplyDiffMember(a, b, k, m);
      ApplyAppend(DiffMember(a, b, k), DiffMembers(a, b, keys - {k}), Obj(m));
      assert AgreeOn(one, a.members, keys - {k});
      ApplyDiffMembers(a, b, keys - {k}, one);
      OverwriteSplit(m, b.members, k, keys);
    }
  }

  lemma {:induction false} ApplyDiffMember(a: Json, b: Json, k: Text, m: map<Text, Json>)
    requires a.Obj? && b.Obj? && k in a.members.Keys + b.members.Keys
    requires (k in m <==> k in a.members) && (k in m ==> m[k] == a.members[k])
    ensures Apply(DiffMember(a, b, k), Obj(m)) == Some(Obj(Overwrite(m, b.members, {k})))
    decreases a, 0, 0
  {
    var ops := DiffMember(a, b, k);
    if k !in b.members {
      assert Overwrite(m, b.members, {k}) == m - {k};
      assert ops[1..] == [];
    } else {
      assert Overwrite(m, b.members, {k}) == m[k := b.members[k]];
      if k !in a.members {
        assert ops[1..] == [];
      } else {
        ApplyDiff(a.members[k], b.members[k]);
        ApplyUnder(k, Diff(a.members[k], b.members[k]), m);
      }
    }
  }

  // The diff of any two values turns the first into the second.
  lemma {:induction false} ApplyDiff(a: Json, b: Json)
    ensures Apply(Diff(a, b), a) == Some(b)
    decreases a, 1, 0
  {
    if a != b {
      if a.Obj? && b.Obj? {
        var keys := a.members.Keys + b.members.Keys;
        ApplyDiffMembers(a, b, keys, a.members);
        assert Overwrite(a.members, b.members, keys) == b.members;
      } else {
        assert Diff(a, b)[1..] == [];
      }
    }
  }
}
