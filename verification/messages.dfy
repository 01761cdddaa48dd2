// messages/messages.go and the framing of Stream.Write: how a broadcast is
// put on the wire and how a client folds it into its cache.
module Messages {
  import opened Common
  import opened Text
  import opened Json
  import Base64
  import Numerals

  datatype Message = Message(data: Text, version: string, snapshot: bool)

  // What the server hands to Write, before encoding.
  datatype Frame = Frame(payload: Text, snapshot: bool, version: int)

  function Encode(raw: Text): string {
    Base64.Encode(raw)
  }

  // ------------------------------------------------------------ server side

  function FormatBool(b: bool): string {
    if b then "true" else "false"
  }

  // The text Write concatenates.
  function WriteText(data: string, snapshot: bool, version: int): string {
    "{" +
    "\"snapshot\": " + FormatBool(snapshot) + "," +
    "\"version\": \"" + Numerals.FormatInt(version) + "\"," +
    "\"data\": \"" + data + "\"" +
    "}"
  }

  function Wire(f: Frame): string {
    WriteText(Encode(f.payload), f.snapshot, f.version)
  }

  // ------------------------------------------- reading a flat JSON object

  datatype Value = Flag(b: bool) | Chars(s: string)

  predicate IsSpace(c: char) {
    c == ' ' || c == '\t' || c == '\n' || c == '\r'
  }

  function SkipSpace(s: string): (r: string)
    ensures |r| <= |s|
  {
    if s != "" && IsSpace(s[0]) then SkipSpace(s[1..]) else s
  }

  // Characters of a JSON string that stand for themselves (section 7 of RFC 8259).
  predicate Plain(c: char) {
    c != '"' && c != '\\' && c >= ' '
  }

  // Up to the closing quote, and what follows it.  Escapes are not read.
  function ReadChars(s: string): (r: Option<(string, string)>)
    ensures r.Some? ==> |r.value.1| < |s|
  {
    if s == "" then None
    else if s[0] == '"' then Some(("", s[1..]))
    else if !Plain(s[0]) then None
    else
      match ReadChars(s[1..])
      case None => None
      case Some((chars, rest)) => Some(([s[0]] + chars, rest))
  }

  function ReadValue(s: string): (r: Option<(Value, string)>)
    ensures r.Some? ==> |r.value.1| < |s|
  {
    if s != "" && s[0] == '"' then
      (match ReadChars(s[1..])
       case None => None
       case Some((chars, rest)) => Some((Chars(chars), rest)))
    else if "true" <= s then Some((Flag(true), s[4..]))
    else if "false" <= s then Some((Flag(false), s[5..]))
    else None
  }

  // Members after '{' or ','.  A repeated name keeps its last value.
  function ReadMembers(s: string, m: map<string, Value>): Option<map<string, Value>>
    decreases |s|
  {
    var s := SkipSpace(s);
    if s == "" || s[0] != '"' then None
    else
      match ReadChars(s[1..])
      case None => None
      case Some((name, afterName)) =>
        var s := SkipSpace(afterName);
        if s == "" || s[0] != ':' then None
        else
          match ReadValue(SkipSpace(s[1..]))
          case None => None
          case Some((value, afterValue)) =>
            var s := SkipSpace(afterValue);
            var m := m[name := value];
            if s == "" then None
            else if s[0] == ',' then ReadMembers(s[1..], m)
            else if s[0] == '}' && SkipSpace(s[1..]) == "" then Some(m)
            else None
  }

  function ReadObject(s: string): Option<map<string, Value>> {
    var s := SkipSpace(s);
    if s == "" || s[0] != '{' then None
    else
      var s := SkipSpace(s[1..]);
      if s != "" && s[0] == '}' && SkipSpace(s[1..]) == "" then Some(map[])
      else ReadMembers(s, map[])
  }

  // A field that is absent keeps its zero value; a mistyped one is an error.
  function DecodeBuffer(data: string): Result<Message> {
    match ReadObject(data)
    case None => Err("invalid message")
    case Some(m) =>
      if "data" in m && !m["data"].Chars? then Err("data is not a string")
      else if "version" in m && !m["version"].Chars? then Err("version is not a string")
      else if "snapshot" in m && !m["snapshot"].Flag? then Err("snapshot is not a boolean")
      else
        var text := if "data" in m then m["data"].s else "";
        var version := if "version" in m then m["version"].s else "";
        var snapshot := "snapshot" in m && m["snapshot"].b;
        match Base64.Decode(text)
        case None => Err("illegal base64 data")
        case Some(raw) => Ok(Message(Trim(raw), version, snapshot))
  }

  // ------------------------------------------------------------ client side

  // The cache a client is left with, and whether it saw an error.
  datatype Patched = Patched(cache: Text, failed: bool)

  function FoldMessage(lib: Library, message: Message, cache: Text): Patched {
    if message.snapshot then Patched(message.data, false)
    else if message.data == EMPTY_PATCH then Patched(cache, false)
    else
      match lib.decode(message.data)
      case Err(_) => Patched(cache, true)
      case Ok(None) => Patched(cache, false)
      case Ok(Some(patch)) =>
        match lib.apply(patch, cache)
        case Err(_) => Patched(cache, true)
        case Ok(None) => Patched(cache, false)
        case Ok(Some(modified)) => Patched(modified, false)
  }

  function PatchCache(lib: Library, data: string, cache: Text): Patched {
    match DecodeBuffer(data)
    case Err(_) => Patched(cache, true)
    case Ok(message) => FoldMessage(lib, message, cache)
  }

  // A client sees an error exactly when the message cannot be read, or is a patch
  // that cannot be read or does not apply; its cache then stays as it was.
  lemma PatchFails(lib: Library, data: string, cache: Text)
    ensures var p, m := PatchCache(lib, data, cache), DecodeBuffer(data);
      && (p.failed <==> m.Err? || (!m.value.snapshot && m.value.data != EMPTY_PATCH &&
                          var patch := lib.decode(m.value.data);
                          patch.Err? || (patch.value.Some? && lib.apply(patch.value.value, cache).Err?)))
      && (p.failed ==> p.cache == cache)
  {
  }

  // PatchCache on a frame the server wrote (see ReceiveIsPatchCache).
  function Receive(lib: Library, f: Frame, cache: Text): Patched {
    FoldMessage(lib, Message(Trim(f.payload), Numerals.FormatInt(f.version), f.snapshot), cache)
  }

  // -------------------------------------------------------- wire round trip

  predicate AllPlain(s: string) {
    forall i :: 0 <= i < |s| ==> Plain(s[i])
  }

  lemma {:induction false} ReadQuoted(s: string, rest: string)
    requires AllPlain(s)
    ensures ReadChars(s + ("\"" + rest)) == Some((s, rest))
  {
    var t := s + ("\"" + rest);
    if s == "" {
      assert t == "\"" + rest && t[1..] == rest;
    } else {
      assert t[1..] == s[1..] + ("\"" + rest);
      ReadQuoted(s[1..], rest);
      assert s == [s[0]] + s[1..];
    }
  }

  function Quoted(s: string, rest: string): string {
    "\"" + (s + ("\"" + rest))
  }

  // One member and its separator, as Write lays members out.
  function Member(name: string, value: Value, rest: string): string {
    Quoted(name, ": " + match value case Flag(b) => FormatBool(b) + rest case Chars(s) => Quoted(s, rest))
  }

  lemma ReadMemberValue(value: Value, rest: string)
    requires value.Chars? ==> AllPlain(value.s)
    ensures ReadValue(match value case Flag(b) => FormatBool(b) + rest case Chars(s) => Quoted(s, rest)) == Some((value, rest))
  {
    match value {
      case Flag(b) =>
        var t := FormatBool(b) + rest;
        assert FormatBool(b) <= t && t[|FormatBool(b)|..] == rest;
        assert t[0] == FormatBool(b)[0];
      case Chars(s) =>
        var t := Quoted(s, rest);
        assert t[0] == '"' && t[1..] == s + ("\"" + rest);
        ReadQuoted(s, rest);
    }
  }

  lemma SkipToValue(body: string)
    requires body != "" && !IsSpace(body[0])
    ensures SkipSpace(": " + body) == ": " + body && SkipSpace((": " + body)[1..]) == body
  {
    assert (": " + body)[1..] == " " + body;
    assert (" " + body)[1..] == body;
    assert SkipSpace(body) == body;
  }

  lemma ReadOneMember(name: string, value: Value, rest: string, m: map<string, Value>)
    requires AllPlain(name) && (value.Chars? ==> AllPlain(value.s))
    requires rest != "" && !IsSpace(rest[0])
    ensures ReadMembers(Member(name, value, rest), m) ==
            if rest[0] == ',' then ReadMembers(rest[1..], m[name := value])
            else if rest[0] == '}' && SkipSpace(rest[1..]) == "" then Some(m[name := value])
            else None
  {
    var body := match value case Flag(b) => FormatBool(b) + rest case Chars(s) => Quoted(s, rest);
    var t := Member(name, value, rest);
    assert t == Quoted(name, ": " + body);
    assert t[0] == '"' && t[1..] == name + ("\"" + (": " + body));
    assert SkipSpace(t) == t;
    ReadQuoted(name, ": " + body);
    assert body != "" && !IsSpace(body[0]) by {
      if value.Flag? { assert body[0] == FormatBool(value.b)[0]; }
    }
    SkipToValue(body);
    ReadMemberValue(value, rest);
    assert SkipSpace(rest) == rest;
  }

  lemma FlagMember(name: string, b: bool, rest: string)
    ensures Member(name, Flag(b), rest) == ("\"" + name + "\": ") + (FormatBool(b) + rest)
  {
    var body := FormatBool(b) + rest;
    assert Member(name, Flag(b), rest) == Quoted(name, ": " + body);
    assert Quoted(name, ": " + body) == ("\"" + name + "\": ") + body;
  }

  lemma CharsMember(name: string, s: string, rest: string)
    ensures Member(name, Chars(s), rest) == ("\"" + name + "\": \"") + (s + ("\"" + rest))
  {
    var body := s + ("\"" + rest);
    assert Member(name, Chars(s), rest) == Quoted(name, ": " + ("\"" + body));
    assert Quoted(name, ": " + ("\"" + body)) == ("\"" + name + "\": \"") + body;
  }

  function ThirdMember(data: string): string {
    Member("data", Chars(data), "}")
  }

  function SecondMember(data: string, version: string): string {
    Member("version", Chars(version), "," + ThirdMember(data))
  }

  function FirstMember(data: string, snapshot: bool, version: string): string {
    Member("snapshot", Flag(snapshot), "," + SecondMember(data, version))
  }

  lemma Heads()
    ensures "\"" + "snapshot" + "\": " == "\"snapshot\": "
    ensures "\"" + "version" + "\": \"" == "\"version\": \""
    ensures "\"" + "data" + "\": \"" == "\"data\": \""
    ensures "\"" + "," == "\","
  {
  }

  lemma WriteTextIsMembers(data: string, snapshot: bool, version: int)
    ensures WriteText(data, snapshot, version) == "{" + FirstMember(data, snapshot, Numerals.FormatInt(version))
  {
    var b, v := FormatBool(snapshot), Numerals.FormatInt(version);
    var third, second := ThirdMember(data), SecondMember(data, v);
    Heads();
    CharsMember("data", data, "}");
    CharsMember("version", v, "," + third);
    FlagMember("snapshot", snapshot, "," + second);
    Flatten("\"snapshot\": ", b, "\"version\": \"", v, "\",", "\"data\": \"", data, "\"", "}", ",");
  }

  lemma Flatten(p: string, b: string, q: string, v: string, e: string, r: string, d: string, quote: string,
                close: string, comma: string)
    requires e == quote + comma
    ensures "{" + p + b + comma + q + v + e + r + d + quote + close ==
            "{" + (p + (b + (comma + (q + (v + (quote + (comma + (r + (d + (quote + close)))))))))) 
  {
    var x := r + (d + (quote + close));
    assert r + d + quote + close == x;
    var y := q + (v + (quote + (comma + x)));
    assert q + v + e + x == y;
    assert p + b + comma + y == p + (b + (comma + y));
  }

  lemma PlainParts(f: Frame)
    ensures AllPlain(Numerals.FormatInt(f.version)) && AllPlain(Encode(f.payload))
  {
    Base64.EncodeSymbols(f.payload);
    Numerals.FormatNatDigits(if f.version < 0 then -f.version else f.version);
  }

  lemma ReadThird(data: string, m: map<string, Value>)
    requires AllPlain(data)
    ensures ReadMembers(ThirdMember(data), m) == Some(m["data" := Chars(data)])
  {
    assert "}"[1..] == "";
    ReadOneMember("data", Chars(data), "}", m);
  }

  lemma ReadSecond(data: string, version: string, m: map<string, Value>)
    requires AllPlain(data) && AllPlain(version)
    ensures ReadMembers(SecondMember(data, version), m) == Some(m["version" := Chars(version)]["data" := Chars(data)])
  {
    assert ("," + ThirdMember(data))[1..] == ThirdMember(data);
    ReadOneMember("version", Chars(version), "," + ThirdMember(data), m);
    ReadThird(data, m["version" := Chars(version)]);
  }

  lemma ReadFirst(data: string, snapshot: bool, version: string, m: map<string, Value>)
    requires AllPlain(data) && AllPlain(version)
    ensures ReadMembers(FirstMember(data, snapshot, version), m) ==
            Some(m["snapshot" := Flag(snapshot)]["version" := Chars(version)]["data" := Chars(data)])
  {
    assert ("," + SecondMember(data, version))[1..] == SecondMember(data, version);
    ReadOneMember("snapshot", Flag(snapshot), "," + SecondMember(data, version), m);
    ReadSecond(data, version, m["snapshot" := Flag(snapshot)]);
  }

  lemma ReadWrittenObject(data: string, snapshot: bool, version: int)
    requires AllPlain(data) && AllPlain(Numerals.FormatInt(version))
    ensures ReadObject(WriteText(data, snapshot, version)) ==
            Some(map["snapshot" := Flag(snapshot), "version" := Chars(Numerals.FormatInt(version)), "data" := Chars(data)])
  {
    var first := FirstMember(data, snapshot, Numerals.FormatInt(version));
    WriteTextIsMembers(data, snapshot, version);
    ReadFirst(data, snapshot, Numerals.FormatInt(version), map[]);
    assert first[0] == '"' && SkipSpace(first) == first;
    assert ("{" + first)[1..] == first && SkipSpace("{" + first) == "{" + first;
  }

  // Base64 and base-16 text need no JSON escape, so what the client decodes is
  // the flag, the printed version and the payload without its outer newlines.
  lemma WireRoundTrip(f: Frame)
    ensures DecodeBuffer(Wire(f)) == Ok(Message(Trim(f.payload), Numerals.FormatInt(f.version), f.snapshot))
  {
    PlainParts(f);
    ReadWrittenObject(Encode(f.payload), f.snapshot, f.version);
    Base64.DecodeEncode(f.payload);
  }

  lemma ReceiveIsPatchCache(lib: Library, f: Frame, cache: Text)
    ensures PatchCache(lib, Wire(f), cache) == Receive(lib, f, cache)
  {
    WireRoundTrip(f);
  }

  // ------------------------------------------------------ any flat object

  // The text of an object's members after the opening brace.
  function MembersText(members: seq<(string, Value)>): string
    requires members != []
  {
    Member(members[0].0, members[0].1, if |members| == 1 then "}" else "," + MembersText(members[1..]))
  }

  ghost predicate AllReadable(members: seq<(string, Value)>) {
    forall i :: 0 <= i < |members| ==> AllPlain(members[i].0) && (members[i].1.Chars? ==> AllPlain(members[i].1.s))
  }

  // The members by name, a later one in place of an earlier.
  function ByName(members: seq<(string, Value)>, m: map<string, Value>): map<string, Value> {
    if members == [] then m else ByName(members[1..], m[members[0].0 := members[0].1])
  }

  lemma {:induction false} ReadAllMembers(members: seq<(string, Value)>, m: map<string, Value>)
    requires members != [] && AllReadable(members)
    ensures ReadMembers(MembersText(members), m) == Some(ByName(members, m))
    decreases |members|
  {
    var (name, value) := members[0];
    if |members| == 1 {
      assert "}"[1..] == "";
      ReadOneMember(name, value, "}", m);
      assert members[1..] == [];
    } else {
      var rest := MembersText(members[1..]);
      assert ("," + rest)[1..] == rest;
      ReadOneMember(name, value, "," + rest, m);
      ReadAllMembers(members[1..], m[name := value]);
    }
  }

  lemma ReadAnyObject(members: seq<(string, Value)>)
    requires members != [] && AllReadable(members)
    ensures ReadObject("{" + MembersText(members)) == Some(ByName(members, map[]))
  {
    var text := MembersText(members);
    ReadAllMembers(members, map[]);
    assert text[0] == '"' && SkipSpace(text) == text;
    assert ("{" + text)[1..] == text && SkipSpace("{" + text) == "{" + text;
  }

  lemma {:induction false} NoSuchName(members: seq<(string, Value)>, m: map<string, Value>, name: string)
    requires forall i :: 0 <= i < |members| ==> members[i].0 != name
    ensures (name in ByName(members, m) <==> name in m) && (name in m ==> ByName(members, m)[name] == m[name])
    decreases |members|
  {
    if members != [] {
      NoSuchName(members[1..], m[members[0].0 := members[0].1], name);
    }
  }

  // The member that counts is the last of its name.
  lemma {:induction false} LastOfAName(members: seq<(string, Value)>, m: map<string, Value>, i: nat)
    requires i < |members| && forall j :: i < j < |members| ==> members[j].0 != members[i].0
    ensures members[i].0 in ByName(members, m) && ByName(members, m)[members[i].0] == members[i].1
    decreases |members|
  {
    if i == 0 {
      NoSuchName(members[1..], m[members[0].0 := members[0].1], members[0].0);
    } else {
      LastOfAName(members[1..], m[members[0].0 := members[0].1], i - 1);
    }
  }

  // A message need not come from Write: whatever the order of its members, and
  // whichever are missing or repeated, the last of each name counts, a missing one
  // is empty or false, and it is refused exactly when one is of the wrong type or
  // the data are no base64.
  lemma DecodeAnyObject(members: seq<(string, Value)>)
    requires members != [] && AllReadable(members)
    ensures var r, m := DecodeBuffer("{" + MembersText(members)), ByName(members, map[]);
      && (r.Ok? <==>
            && ("data" in m ==> m["data"].Chars? && Base64.Decode(m["data"].s).Some?)
            && ("version" in m ==> m["version"].Chars?)
            && ("snapshot" in m ==> m["snapshot"].Flag?))
      && (r.Ok? ==>
            && r.value.data == (if "data" in m then Trim(Base64.Decode(m["data"].s).value) else [])
            && r.value.version == (if "version" in m then m["version"].s else "")
            && (r.value.snapshot <==> "snapshot" in m && m["snapshot"].b))
  {
    ReadAnyObject(members);
    assert Base64.Decode("") == Some([]) && Trim([]) == [];
  }
}
