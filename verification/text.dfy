/**
 * The few string operations of Python that the bot uses, with Python's
 * semantics: slicing past the end, `str.strip()` and `str.split(sep)`.
 */
module Text {

  /** The characters Python's `str.isspace` accepts. */
  predicate IsSpace(c: char)
  {
    ('\t' <= c <= '\r') || ('\U{1C}' <= c <= ' ') || c == '\U{85}' || c == '\U{A0}' ||
    c == '\U{1680}' || ('\U{2000}' <= c <= '\U{200A}') || c == '\U{2028}' || c == '\U{2029}' ||
    c == '\U{202F}' || c == '\U{205F}' || c == '\U{3000}'
  }

  predicate AllSpace(s: string)
  {
    forall i | 0 <= i < |s| :: IsSpace(s[i])
  }

  /** A stripped string neither starts nor ends with whitespace. */
  predicate Trimmed(s: string)
  {
    s == [] || (!IsSpace(s[0]) && !IsSpace(s[|s| - 1]))
  }

  /** Python's `s[k:]` for `k >= 0`: empty when `k` is past the end. */
  function Drop(s: string, k: nat): (r: string)
    ensures |r| == if k <= |s| then |s| - k else 0
    ensures forall i | 0 <= i < |r| :: r[i] == s[k + i]
  {
    if k <= |s| then s[k..] else []
  }

  /** Python's `s.lstrip()`. */
  function TrimLeft(s: string): (r: string)
    ensures |r| <= |s| && r == s[|s| - |r|..]
    ensures AllSpace(s[..|s| - |r|])
    ensures r == [] || !IsSpace(r[0])
    decreases |s|
  {
    if s != [] && IsSpace(s[0]) then
      var r := TrimLeft(s[1..]);
      var removed := s[..|s| - |r|];
      forall i | 0 <= i < |removed|
        ensures IsSpace(removed[i])
      {
        if i > 0 { assert removed[i] == s[1..][..|s| - 1 - |r|][i - 1]; }
      }
      r
    else s
  }

  /** Python's `s.rstrip()`. */
  function TrimRight(s: string): (r: string)
    ensures |r| <= |s| && r == s[..|r|]
    ensures AllSpace(s[|r|..])
    ensures r == [] || !IsSpace(r[|r| - 1])
    decreases |s|
  {
    if s != [] && IsSpace(s[|s| - 1]) then
      var r := TrimRight(s[..|s| - 1]);
      assert forall i | |r| <= i < |s| :: IsSpace(s[i]) by {
        forall i | |r| <= i < |s| ensures IsSpace(s[i]) {
          if i < |s| - 1 { assert s[..|s| - 1][|r|..][i - |r|] == s[i]; }
        }
      }
      assert forall i | 0 <= i < |s| - |r| :: s[|r|..][i] == s[|r| + i];
      r
    else s
  }

  /** Python's `s.strip()`: the string with its leading and trailing whitespace removed. */
  function Strip(s: string): (r: string)
    ensures |r| <= |s| && Trimmed(r)
  {
    TrimRight(TrimLeft(s))
  }

  /** What `Strip` removes is whitespace, from the two ends of `s` only. */
  lemma StripRemovesSpace(s: string) returns (i: nat)
    ensures i + |Strip(s)| <= |s|
    ensures s[i..i + |Strip(s)|] == Strip(s)
    ensures AllSpace(s[..i]) && AllSpace(s[i + |Strip(s)|..])
  {
    var t := TrimLeft(s);
    var r := TrimRight(t);
    i := |s| - |t|;
    assert t[|r|..] == s[i + |r|..];
  }

  lemma {:induction false} TrimLeftSpaces(p: string, t: string)
    requires AllSpace(p)
    ensures TrimLeft(p + t) == TrimLeft(t)
    decreases |p|
  {
    if p != [] {
      assert (p + t)[0] == p[0] && IsSpace(p[0]);
      assert (p + t)[1..] == p[1..] + t;
      assert AllSpace(p[1..]) by {
        forall i | 0 <= i < |p| - 1 ensures IsSpace(p[1..][i]) {
          assert p[1..][i] == p[i + 1];
        }
      }
      TrimLeftSpaces(p[1..], t);
    } else {
      assert p + t == t;
    }
  }

  lemma {:induction false} TrimRightSpaces(t: string, q: string)
    requires AllSpace(q)
    ensures TrimRight(t + q) == TrimRight(t)
    decreases |q|
  {
    if q != [] {
      var q' := q[..|q| - 1];
      assert (t + q)[|t + q| - 1] == q[|q| - 1] && IsSpace(q[|q| - 1]);
      assert (t + q)[..|t + q| - 1] == t + q';
      assert AllSpace(q') by {
        forall i | 0 <= i < |q'| ensures IsSpace(q'[i]) {
          assert q'[i] == q[i];
        }
      }
      TrimRightSpaces(t, q');
    } else {
      assert t + q == t;
    }
  }

  /**
   * `Strip` is the only way to take whitespace off both ends: whenever `s` is
   * `r` surrounded by whitespace and `r` itself is trimmed, `Strip(s)` is `r`.
   */
  lemma {:induction false} StripUnique(p: string, r: string, q: string)
    requires AllSpace(p) && AllSpace(q) && Trimmed(r)
    ensures Strip(p + r + q) == r
  {
    var s := p + r + q;
    assert s == p + (r + q);
    TrimLeftSpaces(p, r + q);
    assert TrimLeft(s) == TrimLeft(r + q);
    if r == [] {
      assert r + q == q + [];
      TrimLeftSpaces(q, []);
      assert TrimLeft([]) == [];
      assert TrimLeft(s) == [];
      assert TrimRight([]) == [];
    } else {
      assert (r + q)[0] == r[0] && !IsSpace(r[0]);
      assert TrimLeft(r + q) == r + q;
      TrimRightSpaces(r, q);
      assert TrimRight(r) == r;
      assert Strip(s) == TrimRight(r + q);
    }
  }

  /** Stripping twice is stripping once. */
  lemma {:induction false} StripIdempotent(s: string)
    ensures Strip(Strip(s)) == Strip(s)
  {
    var r := Strip(s);
    assert [] + r + [] == r;
    StripUnique([], r, []);
  }

  /** The number of occurrences of `c` in `s`. */
  function Count(s: string, c: char): nat
  {
    multiset(s)[c]
  }

  /** The index of the first `sep` in `s`. */
  function IndexOf(s: string, sep: char): (i: nat)
    requires sep in s
    ensures i < |s| && s[i] == sep && sep !in s[..i]
  {
    if s[0] == sep then 0 else
      var j := IndexOf(s[1..], sep);
      assert s[..j + 1] == [s[0]] + s[1..][..j];
      j + 1
  }

  /** The parts joined back with `sep` between them (Python's `sep.join(parts)`). */
  function Join(parts: seq<string>, sep: char): string
  {
    if |parts| == 0 then []
    else if |parts| == 1 then parts[0]
    else parts[0] + [sep] + Join(parts[1..], sep)
  }

  /**
   * Python's `s.split(sep)` for a one-character separator: every occurrence
   * of `sep` cuts, so there is one part more than there are separators.
   */
  function Split(s: string, sep: char): (parts: seq<string>)
    ensures |parts| == Count(s, sep) + 1
    ensures forall p <- parts :: sep !in p
    ensures Join(parts, sep) == s
    decreases |s|
  {
    if sep !in s then
      assert multiset(s)[sep] == 0;
      [s]
    else
      var i := IndexOf(s, sep);
      var rest := Split(s[i + 1..], sep);
      assert s == s[..i] + [sep] + s[i + 1..];
      assert multiset(s) == multiset(s[..i]) + multiset([sep]) + multiset(s[i + 1..]);
      assert multiset(s[..i])[sep] == 0;
      [s[..i]] + rest
  }

  lemma SplitNoSeparator(s: string, sep: char)
    requires sep !in s
    ensures Split(s, sep) == [s]
  {
  }

  /** Splitting `k + sep + v` gives back exactly `k` and `v` when neither holds `sep`. */
  lemma {:induction false} SplitPair(k: string, v: string, sep: char)
    requires sep !in k && sep !in v
    ensures Split(k + [sep] + v, sep) == [k, v]
  {
    var s := k + [sep] + v;
    assert s[|k|] == sep;
    assert s[..|k|] == k;
    IndexOfFirst(s, sep, |k|);
    assert s[|k| + 1..] == v;
    SplitNoSeparator(v, sep);
  }

  lemma IndexOfFirst(s: string, sep: char, i: nat)
    requires i < |s| && s[i] == sep && sep !in s[..i]
    ensures IndexOf(s, sep) == i
  {
  }
}
