/** The string primitives the two halves of the application rely on:
    Python's `str.strip()` on the server, JavaScript's `toLowerCase()` and
    `includes()` on the client, and splitting a prompt into its lines. */
module Text {

  /** Every character Python's `str.isspace()` accepts, as a fixed list. */
  predicate IsSpace(c: char) {
    ('\t' <= c <= '\r') || ('\U{1C}' <= c <= ' ') || c == '\U{85}' || c == '\U{A0}'
    || c == '\U{1680}' || ('\U{2000}' <= c <= '\U{200A}') || c == '\U{2028}' || c == '\U{2029}'
    || c == '\U{202F}' || c == '\U{205F}' || c == '\U{3000}'
  }

  ghost predicate AllSpace(s: string) {
    forall i :: 0 <= i < |s| ==> IsSpace(s[i])
  }

  /** Neither end of `s` is whitespace. */
  ghost predicate Trimmed(s: string) {
    s == [] || (!IsSpace(s[0]) && !IsSpace(s[|s| - 1]))
  }

  /** Every character of `s` outside positions `i` to `j` is whitespace. */
  ghost predicate SpaceOutside(s: string, i: int, j: int) {
    forall k :: 0 <= k < |s| && (k < i || j <= k) ==> IsSpace(s[k])
  }

  /** Cutting `s` at `i` and `j` leaves whitespace outside and none at the ends inside. */
  ghost predicate StripsAt(s: string, i: int, j: int) {
    0 <= i <= j <= |s| && SpaceOutside(s, i, j) && Trimmed(s[i..j])
  }

  /** `r` is what is left of `s` once whitespace is cut from both ends:
      a slice of `s`, whitespace on either side of it, none at its ends. */
  ghost predicate IsStripOf(s: string, r: string) {
    exists i, j :: StripsAt(s, i, j) && r == s[i..j]
  }

  function TrimStart(s: string): (r: string)
    ensures |r| <= |s| && r == s[|s| - |r|..]
    ensures forall k :: 0 <= k < |s| - |r| ==> IsSpace(s[k])
    ensures r == [] || !IsSpace(r[0])
  {
    if s != [] && IsSpace(s[0]) then TrimStart(s[1..]) else s
  }

  function TrimEnd(s: string): (r: string)
    ensures |r| <= |s| && r == s[..|r|]
    ensures forall k :: |r| <= k < |s| ==> IsSpace(s[k])
    ensures r == [] || !IsSpace(r[|r| - 1])
  {
    if s != [] && IsSpace(s[|s| - 1]) then TrimEnd(s[..|s| - 1]) else s
  }

  /** Trimming the start, then the end, leaves exactly the stripped text. */
  lemma TrimsStrip(s: string)
    ensures IsStripOf(s, TrimEnd(TrimStart(s)))
  {
    var t := TrimStart(s);
    var r := TrimEnd(t);
    var i := |s| - |t|;
    assert s[i..i + |r|] == r by {
      assert t == s[i..] && r == t[..|r|];
    }
    forall k | 0 <= k < |s| && (k < i || i + |r| <= k) ensures IsSpace(s[k]) {
      if i + |r| <= k {
        assert s[k] == t[k - i];
      }
    }
    assert Trimmed(r) by {
      if r != [] { assert r[0] == t[0]; }
    }
    assert StripsAt(s, i, i + |r|);
  }

  /** Python's `s.strip()` with no argument. */
  function Strip(s: string): (r: string)
    ensures IsStripOf(s, r)
  {
    TrimsStrip(s);
    TrimEnd(TrimStart(s))
  }

  lemma EmptyCutAllSpace(s: string, i: int, j: int)
    requires StripsAt(s, i, j) && i == j
    ensures AllSpace(s)
  {
  }

  lemma StripCutsUnique(s: string, i: int, j: int, i': int, j': int)
    requires StripsAt(s, i, j) && StripsAt(s, i', j') && i < j && i' < j'
    ensures i == i' && j == j'
  {
    assert s[i..j][0] == s[i] && s[i'..j'][0] == s[i'];
    assert s[i..j][j - i - 1] == s[j - 1] && s[i'..j'][j' - i' - 1] == s[j' - 1];
  }

  /** Two cuts with the strip property cut out the same text. */
  lemma StripsAtSame(s: string, i: int, j: int, i': int, j': int)
    requires StripsAt(s, i, j) && StripsAt(s, i', j')
    ensures s[i..j] == s[i'..j']
  {
    if i == j {
      EmptyCutAllSpace(s, i, j);
    } else if i' == j' {
      EmptyCutAllSpace(s, i', j');
    } else {
      StripCutsUnique(s, i, j, i', j');
    }
  }

  /** Stripping has one possible answer: any slice with the strip property is `Strip(s)`. */
  lemma StripUnique(s: string, r: string)
    requires IsStripOf(s, r)
    ensures r == Strip(s)
  {
    var i, j :| StripsAt(s, i, j) && r == s[i..j];
    var i', j' :| StripsAt(s, i', j') && Strip(s) == s[i'..j'];
    StripsAtSame(s, i, j, i', j');
  }

  /** A string strips to nothing exactly when it is all whitespace. */
  lemma StripEmptyIff(s: string)
    ensures Strip(s) == [] <==> AllSpace(s)
  {
    assert IsStripOf(s, Strip(s));
    var i, j :| StripsAt(s, i, j) && Strip(s) == s[i..j];
    if i == j {
      EmptyCutAllSpace(s, i, j);
    } else {
      assert s[i..j][0] == s[i];
    }
  }

  /** Stripping twice is stripping once. */
  lemma StripIdempotent(s: string)
    ensures Strip(Strip(s)) == Strip(s)
  {
    var r := Strip(s);
    var i, j :| StripsAt(s, i, j) && r == s[i..j];
    assert r[0..|r|] == r;
    assert StripsAt(r, 0, |r|);
    StripUnique(r, r);
  }

  /** JavaScript's `toLowerCase()` on one character, for the ASCII letters. */
  function LowerChar(c: char): char {
    if 'A' <= c <= 'Z' then (c as int + 32) as char else c
  }

  /** JavaScript's `s.toLowerCase()`, character by character. */
  function Lower(s: string): (r: string)
    ensures |r| == |s|
  {
    seq(|s|, i requires 0 <= i < |s| => LowerChar(s[i]))
  }

  /** Lowering a slice is slicing the lowered text. */
  lemma LowerSlice(s: string, i: int, j: int)
    requires 0 <= i <= j <= |s|
    ensures Lower(s[i..j]) == Lower(s)[i..j]
  {
    var slice, low := s[i..j], Lower(s);
    var a, b := Lower(slice), low[i..j];
    forall k | 0 <= k < j - i ensures a[k] == b[k] {
      assert a[k] == LowerChar(slice[k]);
      assert b[k] == low[i + k] == LowerChar(s[i + k]);
    }
  }

  /** `pat` occurs in `s` at position `i`. */
  ghost predicate OccursAt(s: string, pat: string, i: int) {
    0 <= i && i + |pat| <= |s| && s[i..i + |pat|] == pat
  }

  /** JavaScript's `s.includes(pat)`: try each starting position from the left. */
  predicate Includes(s: string, pat: string)
    decreases |s|
  {
    |pat| <= |s| && (s[..|pat|] == pat || (s != [] && Includes(s[1..], pat)))
  }

  lemma {:induction false} IncludesFound(s: string, pat: string)
    requires Includes(s, pat)
    ensures exists i :: OccursAt(s, pat, i)
    decreases |s|
  {
    if s[..|pat|] == pat {
      assert s[0..|pat|] == pat;
      assert OccursAt(s, pat, 0);
    } else {
      IncludesFound(s[1..], pat);
      var i :| OccursAt(s[1..], pat, i);
      assert s[1..][i..i + |pat|] == s[i + 1..i + 1 + |pat|];
      assert OccursAt(s, pat, i + 1);
    }
  }

  lemma {:induction false} IncludesAt(s: string, pat: string, i: int)
    requires OccursAt(s, pat, i)
    ensures Includes(s, pat)
    decreases i
  {
    if i > 0 {
      assert s[1..][i - 1..i - 1 + |pat|] == s[i..i + |pat|];
      IncludesAt(s[1..], pat, i - 1);
    } else {
      assert s[..|pat|] == s[i..i + |pat|];
    }
  }

  /** `Includes` finds `pat` exactly when it occurs somewhere in `s`. */
  lemma IncludesIff(s: string, pat: string)
    ensures Includes(s, pat) <==> exists i :: OccursAt(s, pat, i)
  {
    if Includes(s, pat) {
      IncludesFound(s, pat);
    }
    if exists i :: OccursAt(s, pat, i) {
      var i :| OccursAt(s, pat, i);
      IncludesAt(s, pat, i);
    }
  }

  /** Python's `s.split("\n")`: the lines of `s`, always at least one. */
  function Lines(s: string): (r: seq<string>)
    ensures |r| >= 1
    decreases |s|
  {
    if s == [] then [""]
    else if s[0] == '\n' then [""] + Lines(s[1..])
    else
      var rest := Lines(s[1..]);
      [[s[0]] + rest[0]] + rest[1..]
  }

  /** Text without a line break joins the first line of what follows it. */
  lemma {:induction false} LinesPrepend(a: string, b: string)
    requires '\n' !in a
    ensures Lines(a + b) == [a + Lines(b)[0]] + Lines(b)[1..]
    decreases |a|
  {
    if a == [] {
      var lb := Lines(b);
      assert a + b == b && a + lb[0] == lb[0] && lb == [lb[0]] + lb[1..];
    } else {
      assert a[0] in a;
      assert (a + b)[0] == a[0] && (a + b)[1..] == a[1..] + b;
      LinesPrepend(a[1..], b);
      var rest := Lines(a[1..] + b);
      assert rest[0] == a[1..] + Lines(b)[0] && rest[1..] == Lines(b)[1..];
      assert [a[0]] + (a[1..] + Lines(b)[0]) == a + Lines(b)[0];
    }
  }

  /** A line break after a line-free text makes that text a line of its own. */
  lemma LinesJoin(a: string, b: string)
    requires '\n' !in a
    ensures Lines(a + "\n" + b) == [a] + Lines(b)
  {
    var nb := "\n" + b;
    assert a + "\n" + b == a + nb;
    assert nb[0] == '\n' && nb[1..] == b;
    assert Lines(nb) == [""] + Lines(b);
    LinesPrepend(a, nb);
    assert a + "" == a;
  }
}
