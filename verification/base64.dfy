// Standard padded base64 (section 4 of RFC 4648).
module Base64 {
  import opened Common
  import opened Text

  predicate InAlphabet(c: char) {
    'A' <= c <= 'Z' || 'a' <= c <= 'z' || '0' <= c <= '9' || c == '+' || c == '/'
  }

  function Sextet(c: char): (d: nat)
    requires InAlphabet(c)
    ensures d < 64
  {
    if 'A' <= c <= 'Z' then c as int - 'A' as int
    else if 'a' <= c <= 'z' then c as int - 'a' as int + 26
    else if '0' <= c <= '9' then c as int - '0' as int + 52
    else if c == '+' then 62
    else 63
  }

  function Symbol(d: nat): (c: char)
    requires d < 64
    ensures InAlphabet(c) && Sextet(c) == d
  {
    if d < 26 then (d + 'A' as int) as char
    else if d < 52 then (d - 26 + 'a' as int) as char
    else if d < 62 then (d - 52 + '0' as int) as char
    else if d == 62 then '+'
    else '/'
  }

  function Encode(raw: Text): string {
    if raw == [] then ""
    else if |raw| == 1 then
      var x := raw[0] as int;
      [Symbol(x / 4), Symbol(x % 4 * 16), '=', '=']
    else if |raw| == 2 then
      var x, y := raw[0] as int, raw[1] as int;
      [Symbol(x / 4), Symbol(x % 4 * 16 + y / 16), Symbol(y % 16 * 4), '=']
    else
      var x, y, z := raw[0] as int, raw[1] as int, raw[2] as int;
      [Symbol(x / 4), Symbol(x % 4 * 16 + y / 16), Symbol(y % 16 * 4 + z / 64), Symbol(z % 64)] + Encode(raw[3..])
  }

  // Padding is accepted in the last quantum only; its unused bits are ignored.
  function Decode(s: string): Option<Text> {
    if s == "" then Some([])
    else if |s| < 4 || !InAlphabet(s[0]) || !InAlphabet(s[1]) then None
    else
      var a, b := Sextet(s[0]), Sextet(s[1]);
      var x := (a * 4 + b / 16) as byte;
      if |s| == 4 && s[2] == '=' && s[3] == '=' then Some([x])
      else if !InAlphabet(s[2]) then None
      else
        var c := Sextet(s[2]);
        var y := (b % 16 * 16 + c / 4) as byte;
        if |s| == 4 && s[3] == '=' then Some([x, y])
        else if !InAlphabet(s[3]) then None
        else
          var z := (c % 4 * 64 + Sextet(s[3])) as byte;
          match Decode(s[4..])
          case None => None
          case Some(rest) => Some([x, y, z] + rest)
  }

  lemma QuantumInverts(x: nat, y: nat, z: nat)
    requires x < 256 && y < 256 && z < 256
    ensures x / 4 * 4 + (x % 4 * 16 + y / 16) / 16 == x
    ensures (x % 4 * 16 + y / 16) % 16 * 16 + (y % 16 * 4 + z / 64) / 4 == y
    ensures (y % 16 * 4 + z / 64) % 4 * 64 + z % 64 == z
  {
  }

  // Three bytes are four sextets, and the other way round.
  predicate Quantum(x: byte, y: byte, z: byte, a: nat, b: nat, c: nat, d: nat) {
    && a < 64 && b < 64 && c < 64 && d < 64
    && a * 4 + b / 16 == x as int && b % 16 * 16 + c / 4 == y as int && c % 4 * 64 + d == z as int
  }

  lemma EncodeQuantum(raw: Text) returns (a: nat, b: nat, c: nat, d: nat)
    requires |raw| > 2
    ensures Quantum(raw[0], raw[1], raw[2], a, b, c, d)
    ensures Encode(raw) == [Symbol(a), Symbol(b), Symbol(c), Symbol(d)] + Encode(raw[3..])
  {
    var x, y, z := raw[0] as int, raw[1] as int, raw[2] as int;
    QuantumInverts(x, y, z);
    a, b, c, d := x / 4, x % 4 * 16 + y / 16, y % 16 * 4 + z / 64, z % 64;
  }

  lemma DecodeQuantum(x: byte, y: byte, z: byte, p: char, q: char, r: char, t: char, tail: string, rest: Text)
    requires InAlphabet(p) && InAlphabet(q) && InAlphabet(r) && InAlphabet(t)
    requires Quantum(x, y, z, Sextet(p), Sextet(q), Sextet(r), Sextet(t)) && Decode(tail) == Some(rest)
    ensures Decode([p, q, r, t] + tail) == Some([x, y, z] + rest)
  {
    assert ([p, q, r, t] + tail)[4..] == tail;
  }

  // Table 1 of RFC 4648.
  const UPPER := "ABCDEFGHIJKLMNOPQRSTUVWXYZ"
  const LOWER := "abcdefghijklmnopqrstuvwxyz"
  const DIGITS := "0123456789"
  const ALPHABET := UPPER + LOWER + DIGITS + "+/"

  lemma Letters(d: nat)
    requires d < 26
    ensures UPPER[d] as int == 'A' as int + d && LOWER[d] as int == 'a' as int + d
  {
  }

  lemma SymbolIsAlphabet(d: nat)
    requires d < 64
    ensures |ALPHABET| == 64 && Symbol(d) == ALPHABET[d]
  {
    if d < 26 {
      Letters(d);
    } else if d < 52 {
      Letters(d - 26);
    } else if d < 62 {
      Figures(d - 52);
    }
    AlphabetParts(UPPER, LOWER, DIGITS, d);
  }

  lemma Figures(d: nat)
    requires d < 10
    ensures DIGITS[d] as int == '0' as int + d
  {
  }

  lemma AlphabetParts(upper: string, lower: string, digits: string, d: nat)
    requires |upper| == 26 && |lower| == 26 && |digits| == 10 && d < 64
    ensures var all := upper + lower + digits + "+/";
      |all| == 64 && all[d] == if d < 26 then upper[d] else if d < 52 then lower[d - 26] else if d < 62 then digits[d - 52] else "+/"[d - 62]
  {
  }

  // Three bytes, as one number with the first the most significant, are four
  // symbols that are its digits in base 64.
  lemma EncodeIsBase64(raw: Text) returns (a: nat, b: nat, c: nat, d: nat)
    requires |raw| >= 3
    ensures a < 64 && b < 64 && c < 64 && d < 64
    ensures ((a * 64 + b) * 64 + c) * 64 + d == ((raw[0] as int) * 256 + raw[1] as int) * 256 + raw[2] as int
    ensures Encode(raw) == [ALPHABET[a], ALPHABET[b], ALPHABET[c], ALPHABET[d]] + Encode(raw[3..])
  {
    a, b, c, d := EncodeQuantum(raw);
    SymbolIsAlphabet(a);
    SymbolIsAlphabet(b);
    SymbolIsAlphabet(c);
    SymbolIsAlphabet(d);
  }

  // What is left over is encoded as if zero bytes followed, and padded.
  lemma EncodePads(x: byte, y: byte)
    ensures Encode([]) == "" && |Encode([x, y, 0])| == 4
    ensures Encode([x]) == Encode([x, 0, 0])[..2] + "=="
    ensures Encode([x, y]) == Encode([x, y, 0])[..3] + "="
  {
    EncodeThree(x, 0, 0);
    EncodeThree(x, y, 0);
  }

  lemma EncodeThree(x: byte, y: byte, z: byte)
    ensures var a, b, c, d := x as int, y as int, z as int, Encode([x, y, z]);
      d == [Symbol(a / 4), Symbol(a % 4 * 16 + b / 16), Symbol(b % 16 * 4 + c / 64), Symbol(c % 64)]
  {
    assert [x, y, z][3..] == [];
  }

  lemma SplitQuantum(raw: Text)
    requires |raw| > 2
    ensures raw == [raw[0], raw[1], raw[2]] + raw[3..]
  {
  }

  lemma DecodeOne(raw: Text)
    requires |raw| == 1
    ensures Decode(Encode(raw)) == Some(raw)
  {
    QuantumInverts(raw[0] as int, 0, 0);
    assert raw == [raw[0]];
  }

  // Two bytes are three sextets and a padding.
  lemma EncodePair(raw: Text) returns (a: nat, b: nat, c: nat)
    requires |raw| == 2
    ensures Quantum(raw[0], raw[1], 0, a, b, c, 0)
    ensures Encode(raw) == [Symbol(a), Symbol(b), Symbol(c), '=']
  {
    var x, y := raw[0] as int, raw[1] as int;
    QuantumInverts(x, y, 0);
    a, b, c := x / 4, x % 4 * 16 + y / 16, y % 16 * 4;
  }

  lemma DecodePair(x: byte, y: byte, p: char, q: char, r: char)
    requires InAlphabet(p) && InAlphabet(q) && InAlphabet(r) && Quantum(x, y, 0, Sextet(p), Sextet(q), Sextet(r), 0)
    ensures Decode([p, q, r, '=']) == Some([x, y])
  {
  }

  lemma DecodeTwo(raw: Text)
    requires |raw| == 2
    ensures Decode(Encode(raw)) == Some(raw)
  {
    var a, b, c := EncodePair(raw);
    DecodePair(raw[0], raw[1], Symbol(a), Symbol(b), Symbol(c));
    assert raw == [raw[0], raw[1]];
  }

  lemma {:induction false} DecodeEncode(raw: Text)
    ensures Decode(Encode(raw)) == Some(raw)
  {
    if |raw| == 1 {
      DecodeOne(raw);
    } else if |raw| == 2 {
      DecodeTwo(raw);
    } else if |raw| > 2 {
      DecodeEncode(raw[3..]);
      var a, b, c, d := EncodeQuantum(raw);
      DecodeQuantum(raw[0], raw[1], raw[2], Symbol(a), Symbol(b), Symbol(c), Symbol(d), Encode(raw[3..]), raw[3..]);
      SplitQuantum(raw);
    }
  }

  // Exactly the texts of whole quanta are decoded, with up to two paddings at the
  // very end.
  lemma {:induction false} DecodeAccepts(s: string)
    ensures Decode(s).Some? <==> |s| % 4 == 0 && exists p :: 0 <= p <= 2 && Padded(s, p)
    decreases |s|
  {
    if s == "" {
      assert Padded(s, 0);
    } else if |s| == 4 {
      OneQuantum(s);
    } else if |s| >= 4 {
      DecodeAccepts(s[4..]);
      MoreQuanta(s);
      forall p | 0 <= p <= 2 && |s| >= 8 ensures Padded(s, p) <==> Padded(s[4..], p) && forall i :: 0 <= i < 4 ==> InAlphabet(s[i]) {
        PaddedTail(s, p);
      }
    }
  }

  lemma OneQuantum(s: string)
    requires |s| == 4
    ensures Decode(s).Some? <==> Padded(s, 0) || Padded(s, 1) || Padded(s, 2)
  {
    assert Decode(s[4..]) == Some([]);
  }

  lemma MoreQuanta(s: string)
    requires |s| > 4
    ensures Decode(s).Some? <==> Decode(s[4..]).Some? && forall i :: 0 <= i < 4 ==> InAlphabet(s[i])
  {
  }

  predicate Padded(s: string, p: nat) {
    && p <= |s|
    && (forall i :: 0 <= i < |s| - p ==> InAlphabet(s[i]))
    && (forall i :: |s| - p <= i < |s| ==> s[i] == '=')
  }

  lemma PaddedTail(s: string, p: nat)
    requires |s| >= 4 + p
    ensures Padded(s, p) <==> Padded(s[4..], p) && forall i :: 0 <= i < 4 ==> InAlphabet(s[i])
  {
    if Padded(s[4..], p) {
      forall i | 4 <= i < |s| ensures if i < |s| - p then InAlphabet(s[i]) else s[i] == '=' {
        assert s[i] == s[4..][i - 4];
      }
    }
  }

  lemma {:induction false} EncodeSymbols(raw: Text)
    ensures forall i :: 0 <= i < |Encode(raw)| ==> InAlphabet(Encode(raw)[i]) || Encode(raw)[i] == '='
  {
    if |raw| > 2 {
      EncodeSymbols(raw[3..]);
    }
  }
}
