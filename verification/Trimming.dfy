/** Trimming white space, as strings of the browser language do it. */
module Trimming {
  predicate IsSpace(c: char) {
    var n := c as int;
    || 9 <= n <= 13 || n == 0x20 || n == 0xa0 || n == 0x1680 || 0x2000 <= n <= 0x200a
    || n == 0x2028 || n == 0x2029 || n == 0x202f || n == 0x205f || n == 0x3000 || n == 0xfeff
  }

  function TrimStart(s: string): string {
    if s != [] && IsSpace(s[0]) then TrimStart(s[1..]) else s
  }

  function TrimEnd(s: string): string {
    if s != [] && IsSpace(s[|s| - 1]) then TrimEnd(s[..|s| - 1]) else s
  }

  function Trim(s: string): string {
    TrimEnd(TrimStart(s))
  }

  predicate IsTrimmed(s: string) {
    s != [] ==> !IsSpace(s[0]) && !IsSpace(s[|s| - 1])
  }

  lemma {:induction false} TrimmedStays(s: string)
    requires IsTrimmed(s)
    ensures Trim(s) == s
  {
  }

  lemma {:induction false} TrimStartTrims(s: string)
    ensures |TrimStart(s)| <= |s| && TrimStart(s) == s[|s| - |TrimStart(s)|..]
    ensures TrimStart(s) != [] ==> !IsSpace(TrimStart(s)[0])
  {
    if s != [] && IsSpace(s[0]) { TrimStartTrims(s[1..]); }
  }

  lemma {:induction false} TrimEndTrims(s: string)
    ensures |TrimEnd(s)| <= |s| && TrimEnd(s) == s[..|TrimEnd(s)|]
    ensures TrimEnd(s) != [] ==> !IsSpace(TrimEnd(s)[|TrimEnd(s)| - 1])
    decreases |s|
  {
    if s != [] && IsSpace(s[|s| - 1]) { TrimEndTrims(s[..|s| - 1]); }
  }

  /** Trimming leaves a trimmed part of the text. */
  lemma TrimTrims(s: string)
    ensures IsTrimmed(Trim(s)) && |Trim(s)| <= |s|
    ensures forall c :: c in Trim(s) ==> c in s
  {
    TrimStartTrims(s);
    TrimEndTrims(TrimStart(s));
  }

  /** White space: tab to carriage return, the spaces of Unicode, the two line separators and the byte order mark. */
  lemma SpacesAre(c: char)
    ensures IsSpace(c) <==>
      || c == '\t' || c == '\n' || c == '\U{0B}' || c == '\U{0C}' || c == '\r' || c == ' ' || c == '\U{A0}'
      || c == '\U{1680}' || '\U{2000}' <= c <= '\U{200A}' || c == '\U{2028}' || c == '\U{2029}'
      || c == '\U{202F}' || c == '\U{205F}' || c == '\U{3000}' || c == '\U{FEFF}'
  {
  }

  predicate Blank(s: string) {
    forall i :: 0 <= i < |s| ==> IsSpace(s[i])
  }

  /** The text is the inner text with nothing but white space around it. */
  ghost predicate Surrounds(s: string, inner: string) {
    IsTrimmed(inner) && exists a: string, z: string :: s == a + inner + z && Blank(a) && Blank(z)
  }

  lemma {:induction false} BlankInFront(a: string, rest: string)
    requires Blank(a) && (rest != [] ==> !IsSpace(rest[0]))
    ensures TrimStart(a + rest) == rest
    decreases |a|
  {
    if a == [] {
      assert a + rest == rest;
    } else {
      assert (a + rest)[1..] == a[1..] + rest;
      BlankInFront(a[1..], rest);
    }
  }

  lemma {:induction false} BlankBehind(rest: string, z: string)
    requires Blank(z) && (rest != [] ==> !IsSpace(rest[|rest| - 1]))
    ensures TrimEnd(rest + z) == rest
    decreases |z|
  {
    if z == [] {
      assert rest + z == rest;
    } else {
      assert (rest + z)[..|rest + z| - 1] == rest + z[..|z| - 1];
      BlankBehind(rest, z[..|z| - 1]);
    }
  }

  /** Trimming takes away the white space around a text and nothing else. */
  lemma TrimIs(s: string, inner: string)
    ensures Trim(s) == inner <==> Surrounds(s, inner)
  {
    hide Trim, Surrounds;
    TrimmedIsInside(s);
    if Surrounds(s, inner) { InsideIsTrimmed(s, inner); }
  }

  lemma TrimmedIsInside(s: string)
    ensures Surrounds(s, Trim(s))
  {
    hide TrimStart, TrimEnd, Blank, IsTrimmed;
    var rest, inner := TrimStart(s), Trim(s);
    TrimTrims(s);
    var a := BlankStart(s);
    var z := BlankEnd(rest);
    assert s == a + (inner + z) == a + inner + z;
  }

  lemma InsideIsTrimmed(s: string, inner: string)
    requires Surrounds(s, inner)
    ensures Trim(s) == inner
  {
    var a: string, z: string :| s == a + inner + z && Blank(a) && Blank(z);
    if inner == "" {
      forall i | 0 <= i < |s| ensures IsSpace(s[i]) { assert s[i] == if i < |a| then a[i] else z[i - |a|]; }
      assert s == s + "";
      BlankInFront(s, "");
    } else {
      assert s == a + (inner + z) && (inner + z)[0] == inner[0];
      BlankInFront(a, inner + z);
      BlankBehind(inner, z);
    }
  }

  lemma {:induction false} BlankStart(s: string) returns (a: string)
    ensures s == a + TrimStart(s) && Blank(a)
  {
    if s != [] && IsSpace(s[0]) {
      a := BlankStart(s[1..]);
      a := [s[0]] + a;
      assert s == [s[0]] + s[1..];
    } else {
      a := "";
    }
  }

  lemma {:induction false} BlankEnd(s: string) returns (z: string)
    ensures s == TrimEnd(s) + z && Blank(z)
    decreases |s|
  {
    if s != [] && IsSpace(s[|s| - 1]) {
      z := BlankEnd(s[..|s| - 1]);
      z := z + [s[|s| - 1]];
      assert s == s[..|s| - 1] + [s[|s| - 1]];
    } else {
      z := "";
    }
  }

  /** Nothing is left of a text exactly if it is white space. */
  lemma TrimIsEmpty(s: string)
    ensures Trim(s) == "" <==> Blank(s)
  {
    TrimIs(s, "");
    if Blank(s) {
      assert s == s + "" + "" && Blank("");
    }
    if Surrounds(s, "") {
      var a: string, z: string :| s == a + "" + z && Blank(a) && Blank(z);
      forall i | 0 <= i < |s| ensures IsSpace(s[i]) { assert s[i] == if i < |a| then a[i] else z[i - |a|]; }
    }
  }
}
