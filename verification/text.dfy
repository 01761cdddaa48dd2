// Byte strings, as the storage, the pool caches and the clients hold them.
module Text {
  newtype byte = x: int | 0 <= x < 256

  type Text = seq<byte>

  const NEWLINE: byte := 10

  // The bytes of an ASCII literal.
  function Ascii(s: string): (t: Text)
    ensures |t| == |s|
  {
    seq(|s|, i requires 0 <= i < |s| => ((s[i] as int) % 256) as byte)
  }

  function TrimLeft(t: Text): (r: Text)
    ensures |r| <= |t|
    ensures r != [] ==> r[0] != NEWLINE
  {
    if t != [] && t[0] == NEWLINE then TrimLeft(t[1..]) else t
  }

  function TrimRight(t: Text): (r: Text)
    ensures r <= t
    ensures r != [] ==> r[|r| - 1] != NEWLINE
  {
    if t != [] && t[|t| - 1] == NEWLINE then TrimRight(t[..|t| - 1]) else t
  }

  // strings.Trim(t, "\n").
  function Trim(t: Text): Text {
    TrimRight(TrimLeft(t))
  }

  predicate Newlines(t: Text) {
    forall i :: 0 <= i < |t| ==> t[i] == NEWLINE
  }

  lemma {:induction false} TrimLeftCuts(t: Text)
    ensures var i := |t| - |TrimLeft(t)|; TrimLeft(t) == t[i..] && Newlines(t[..i])
  {
    if t != [] && t[0] == NEWLINE {
      var rest := t[1..];
      var i := |rest| - |TrimLeft(rest)|;
      TrimLeftCuts(rest);
      Sliced(t, 1, i + 1);
      assert t[..i + 1] == [NEWLINE] + rest[..i];
    }
  }

  lemma {:induction false} TrimRightCuts(t: Text)
    ensures Newlines(t[|TrimRight(t)|..])
  {
    if t != [] && t[|t| - 1] == NEWLINE {
      var rest := t[..|t| - 1];
      TrimRightCuts(rest);
      assert t[|TrimRight(rest)|..] == rest[|TrimRight(rest)|..] + [NEWLINE];
    }
  }

  // Only newlines are cut off, and all of them, on both sides.
  lemma TrimCutsNewlines(t: Text) returns (i: nat, j: nat)
    ensures i <= j <= |t| && Trim(t) == t[i..j] && Newlines(t[..i]) && Newlines(t[j..])
    ensures i < j ==> t[i] != NEWLINE && t[j - 1] != NEWLINE
  {
    TrimLeftCuts(t);
    i := |t| - |TrimLeft(t)|;
    TrimRightCuts(t[i..]);
    j := i + |Trim(t)|;
    Sliced(t, i, j);
  }

  lemma Sliced(t: Text, i: nat, j: nat)
    requires i <= j <= |t|
    ensures t[i..][..j - i] == t[i..j] && t[i..][j - i..] == t[j..]
  {
  }

  lemma TrimBareText(t: Text)
    requires t != [] ==> t[0] != NEWLINE && t[|t| - 1] != NEWLINE
    ensures Trim(t) == t
  {
  }

  lemma TrimIdempotent(t: Text)
    ensures Trim(Trim(t)) == Trim(t)
  {
    var r := Trim(t);
    if r != [] {
      assert r[0] == TrimLeft(t)[0];
    }
    TrimBareText(r);
  }
}
