/** The PHP string primitives the resolver relies on: `ltrim`, `rtrim` and
    `trim` with an explicit character list, and `implode`. */
module PhpStrings {

  /** The characters `trim` strips when no character list is given:
      space, tab, line feed, carriage return, NUL and vertical tab. */
  const Whitespace: set<char> := {' ', '\t', '\n', '\r', '\0', '\U{000B}'}

  /** The character list `"/"`. */
  const Slash: set<char> := {'/'}

  /** `ltrim(s, cs)`: `s` without its leading run of characters in `cs`;
      what is left does not start with one. */
  function LTrim(s: string, cs: set<char>): (r: string)
    ensures |r| <= |s|
    ensures r == [] || r[0] !in cs
  {
    if s != [] && s[0] in cs then LTrim(s[1..], cs) else s
  }

  /** `rtrim(s, cs)`: `s` without its trailing run of characters in `cs`;
      what is left does not end with one. */
  function RTrim(s: string, cs: set<char>): (r: string)
    ensures |r| <= |s|
    ensures r == [] || r[|r| - 1] !in cs
  {
    if s != [] && s[|s| - 1] in cs then RTrim(s[..|s| - 1], cs) else s
  }

  /** `ltrim` removes a prefix made only of characters in `cs`, and keeps
      the rest of `s` as it is. */
  lemma {:induction false} LTrimSpec(s: string, cs: set<char>)
    ensures LTrim(s, cs) == s[|s| - |LTrim(s, cs)|..]
    ensures forall i :: 0 <= i < |s| - |LTrim(s, cs)| ==> s[i] in cs
  {
    if s != [] && s[0] in cs {
      LTrimSpec(s[1..], cs);
    }
  }

  /** `rtrim` removes a suffix made only of characters in `cs`, and keeps
      the rest of `s` as it is. */
  lemma {:induction false} RTrimSpec(s: string, cs: set<char>)
    ensures RTrim(s, cs) == s[..|RTrim(s, cs)|]
    ensures forall i :: |RTrim(s, cs)| <= i < |s| ==> s[i] in cs
  {
    if s != [] && s[|s| - 1] in cs {
      RTrimSpec(s[..|s| - 1], cs);
    }
  }

  /** `trim(s, cs)`: both ends stripped; what is left neither starts nor
      ends with a character of `cs`. */
  function Trim(s: string, cs: set<char>): (r: string)
    ensures |r| <= |s|
    ensures r == [] || (r[0] !in cs && r[|r| - 1] !in cs)
  {
    var l := LTrim(s, cs);
    RTrimSpec(l, cs);
    RTrim(l, cs)
  }

  /** `trim` keeps a slice of `s` and drops only characters of `cs` on
      either side of it. */
  lemma TrimSlice(s: string, cs: set<char>)
    ensures Trim(s, cs) == s[|s| - |LTrim(s, cs)|..|s| - |LTrim(s, cs)| + |Trim(s, cs)|]
    ensures forall i :: 0 <= i < |s| - |LTrim(s, cs)| ==> s[i] in cs
    ensures forall i :: |s| - |LTrim(s, cs)| + |Trim(s, cs)| <= i < |s| ==> s[i] in cs
  {
    var l := LTrim(s, cs);
    var t := Trim(s, cs);
    var k := |s| - |l|;
    LTrimSpec(s, cs);
    RTrimSpec(l, cs);
    forall i | k + |t| <= i < |s| ensures s[i] in cs {
      assert s[i] == l[i - k];
    }
  }

  /** `trim` keeps a slice of `s` and drops only characters of `cs` on
      either side of it; that slice is empty exactly when every character
      of `s` is in `cs` (a blank string, for the whitespace list). */
  lemma TrimSpec(s: string, cs: set<char>)
    ensures Trim(s, cs) == s[|s| - |LTrim(s, cs)|..|s| - |LTrim(s, cs)| + |Trim(s, cs)|]
    ensures forall i :: 0 <= i < |s| - |LTrim(s, cs)| ==> s[i] in cs
    ensures forall i :: |s| - |LTrim(s, cs)| + |Trim(s, cs)| <= i < |s| ==> s[i] in cs
    ensures Trim(s, cs) == [] <==> forall i :: 0 <= i < |s| ==> s[i] in cs
  {
    TrimSlice(s, cs);
    var t := Trim(s, cs);
    var k := |s| - |LTrim(s, cs)|;
    if t != [] {
      assert s[k] == t[0];
    }
  }

  /** `implode(sep, parts)`: the parts in order with `sep` between
      neighbours. */
  function Implode(sep: string, parts: seq<string>): (r: string)
    ensures parts == [] ==> r == []
    ensures |parts| == 1 ==> r == parts[0]
    ensures parts != [] ==> |r| >= |parts[0]|
  {
    if parts == [] then []
    else if |parts| == 1 then parts[0]
    else parts[0] + sep + Implode(sep, parts[1..])
  }

  /** Imploding two non-empty lists is imploding each and joining the two
      results with one more separator. */
  lemma {:induction false} ImplodeAppend(sep: string, a: seq<string>, b: seq<string>)
    requires a != [] && b != []
    ensures Implode(sep, a + b) == Implode(sep, a) + sep + Implode(sep, b)
  {
    if |a| > 1 {
      assert (a + b)[1..] == a[1..] + b;
      ImplodeAppend(sep, a[1..], b);
    } else {
      assert (a + b)[1..] == b;
    }
  }

  /** Characters of `cs` in front of `s` make no difference to `ltrim`. */
  lemma {:induction false} LTrimPrefix(p: string, s: string, cs: set<char>)
    requires forall i :: 0 <= i < |p| ==> p[i] in cs
    ensures LTrim(p + s, cs) == LTrim(s, cs)
  {
    if p != [] {
      var ps := p + s;
      assert ps[0] == p[0] && p[0] in cs;
      assert ps[1..] == p[1..] + s;
      assert LTrim(ps, cs) == LTrim(ps[1..], cs);
      LTrimPrefix(p[1..], s, cs);
    } else {
      assert p + s == s;
    }
  }

  /** `ltrim` of a concatenation: once the first part has a character
      outside `cs`, the second part is kept whole. */
  lemma {:induction false} LTrimAppend(a: string, b: string, cs: set<char>)
    ensures LTrim(a + b, cs) == if LTrim(a, cs) == [] then LTrim(b, cs) else LTrim(a, cs) + b
  {
    if a == [] {
      assert a + b == b;
    } else if a[0] in cs {
      var ab := a + b;
      assert ab[0] == a[0] && ab[1..] == a[1..] + b;
      assert LTrim(ab, cs) == LTrim(ab[1..], cs);
      LTrimAppend(a[1..], b, cs);
    } else {
      assert (a + b)[0] == a[0];
    }
  }

  /** Characters of `cs` after `s` make no difference to `rtrim`. */
  lemma {:induction false} RTrimSuffix(s: string, q: string, cs: set<char>)
    requires forall i :: 0 <= i < |q| ==> q[i] in cs
    ensures RTrim(s + q, cs) == RTrim(s, cs)
  {
    if q != [] {
      var n := |q| - 1;
      var sq := s + q;
      assert sq[|sq| - 1] == q[n] && q[n] in cs;
      assert sq[..|sq| - 1] == s + q[..n];
      assert RTrim(sq, cs) == RTrim(sq[..|sq| - 1], cs);
      RTrimSuffix(s, q[..n], cs);
    } else {
      assert s + q == s;
    }
  }
}
