/** The `std::string` searches the settings reader relies on, as total
    functions: `npos` is `None`. */
module TextSearch {
  import opened Options

  const Quote: char := '"'

  /** `p` occurs in `s` at position `j`. */
  predicate MatchAt(s: string, p: string, j: int) {
    0 <= j && j + |p| <= |s| && s[j..j + |p|] == p
  }

  /** `s.find(p, from)`: the first position at or after `from` where `p`
      occurs. */
  function IndexOf(s: string, p: string, from: nat): (r: Option<nat>)
    ensures r.Some? ==> from <= r.value && MatchAt(s, p, r.value)
    ensures r.Some? ==> forall j :: from <= j < r.value ==> !MatchAt(s, p, j)
    ensures r.None? ==> forall j :: from <= j ==> !MatchAt(s, p, j)
    decreases |s| - from
  {
    if from + |p| > |s| then None
    else if s[from..from + |p|] == p then Some(from)
    else IndexOf(s, p, from + 1)
  }

  /** The search result is pinned down by one occurrence with none before it. */
  lemma IndexOfIs(s: string, p: string, from: nat, r: nat)
    requires from <= r && MatchAt(s, p, r)
    requires forall j :: from <= j < r ==> !MatchAt(s, p, j)
    ensures IndexOf(s, p, from) == Some(r)
  {
  }

  /** `s.find(ch, from)` for a single character. */
  function FindChar(s: string, ch: char, from: nat): (r: Option<nat>)
    ensures r.Some? ==> from <= r.value < |s| && s[r.value] == ch
    ensures r.Some? ==> forall j :: from <= j < r.value ==> s[j] != ch
    ensures r.None? ==> forall j :: from <= j < |s| ==> s[j] != ch
    decreases |s| - from
  {
    if from >= |s| then None
    else if s[from] == ch then Some(from)
    else FindChar(s, ch, from + 1)
  }

  lemma FindCharIs(s: string, ch: char, from: nat, r: nat)
    requires from <= r < |s| && s[r] == ch
    requires forall j :: from <= j < r ==> s[j] != ch
    ensures FindChar(s, ch, from) == Some(r)
  {
  }

  /** `s.find_first_of(cs, from)`. */
  function FirstOf(s: string, cs: set<char>, from: nat): (r: Option<nat>)
    ensures r.Some? ==> from <= r.value < |s| && s[r.value] in cs
    ensures r.Some? ==> forall j :: from <= j < r.value ==> s[j] !in cs
    ensures r.None? ==> forall j :: from <= j < |s| ==> s[j] !in cs
    decreases |s| - from
  {
    if from >= |s| then None
    else if s[from] in cs then Some(from)
    else FirstOf(s, cs, from + 1)
  }

  lemma FirstOfIs(s: string, cs: set<char>, from: nat, r: nat)
    requires from <= r < |s| && s[r] in cs
    requires forall j :: from <= j < r ==> s[j] !in cs
    ensures FirstOf(s, cs, from) == Some(r)
  {
  }

  /** `s.substr(pos, count)`, where `count` may run past the end. */
  function Substr(s: string, pos: nat, count: nat): (r: string)
    requires pos <= |s|
    ensures pos + count <= |s| ==> r == s[pos..pos + count]
    ensures pos + count > |s| ==> r == s[pos..]
  {
    if pos + count <= |s| then s[pos..pos + count] else s[pos..]
  }

  /** Segments each preceded by a quote: `"a"b"c` for `[a, b, c]`. */
  function Quoted(segs: seq<string>): (r: string)
    ensures |segs| > 0 ==> |r| > 0 && r[0] == Quote
  {
    if |segs| == 0 then [] else [Quote] + segs[0] + Quoted(segs[1..])
  }

  predicate AllQuoteFree(segs: seq<string>) {
    forall i :: 0 <= i < |segs| ==> Quote !in segs[i]
  }

  /** The quoted text of a suffix of the segments is a suffix of the text. */
  lemma {:induction false} QuotedSuffix(segs: seq<string>, m: nat)
    requires m <= |segs|
    ensures |Quoted(segs[m..])| <= |Quoted(segs)|
    ensures Quoted(segs)[|Quoted(segs)| - |Quoted(segs[m..])|..] == Quoted(segs[m..])
  {
    if m > 0 {
      QuotedSuffix(segs[1..], m - 1);
      assert segs[1..][m - 1..] == segs[m..];
    }
  }

  /** No quoted pattern starts inside quote-free text. */
  lemma QuoteFreeNoMatch(a: string, b: string, x: string)
    requires Quote !in a && |x| > 0 && x[0] == Quote
    ensures forall j :: 0 <= j < |a| ==> !MatchAt(a + b, x, j)
  {
    forall j | 0 <= j < |a| ensures !MatchAt(a + b, x, j) {
      if j + |x| <= |a + b| {
        assert (a + b)[j..j + |x|][0] == a[j];
      }
    }
  }

  /** When nothing matches in a prefix, the search finds in the whole text
      what it finds in the rest, shifted by the prefix length. */
  lemma FindAfter(a: string, b: string, x: string, r: nat)
    requires forall j :: 0 <= j < |a| ==> !MatchAt(a + b, x, j)
    requires IndexOf(b, x, 0) == Some(r)
    ensures IndexOf(a + b, x, 0) == Some(|a| + r)
  {
    var s := a + b;
    forall j | |a| <= j < |a| + r ensures !MatchAt(s, x, j) {
      if j + |x| <= |s| {
        assert s[j..j + |x|] == b[j - |a|..j - |a| + |x|];
        assert !MatchAt(b, x, j - |a|);
      }
    }
    assert b[r..r + |x|] == s[|a| + r..|a| + r + |x|];
    IndexOfIs(s, x, 0, |a| + r);
  }

  /** `"k"` does not occur at the start of `"a"` followed by quoted text,
      nor inside `a`, when `a` differs from `k` and both are quote-free. */
  lemma NoMatchInHead(a: string, k: string, q: string)
    requires Quote !in a && Quote !in k && a != k
    requires |q| > 0 && q[0] == Quote
    ensures forall j :: 0 <= j < |a| + 1 ==> !MatchAt([Quote] + a + q, [Quote] + k + [Quote], j)
  {
    var s := [Quote] + a + q;
    var x := [Quote] + k + [Quote];
    assert s == [Quote] + (a + q);
    QuoteFreeNoMatch(a, q, x);
    forall j | 1 <= j < |a| + 1 ensures !MatchAt(s, x, j) {
      assert MatchAt(s, x, j) == MatchAt(a + q, x, j - 1) by {
        if j + |x| <= |s| {
          assert s[j..j + |x|] == (a + q)[j - 1..j - 1 + |x|];
        }
      }
    }
    if |x| <= |s| {
      var w := s[..|x|];
      if |a| == |k| {
        assert s[1..1 + |a|] == a;
        assert w[1..1 + |k|] == s[1..1 + |k|];
        assert x[1..1 + |k|] == k;
      } else if |a| < |k| {
        assert w[|a| + 1] == q[0];
        assert x[|a| + 1] == k[|a|];
      } else {
        assert w[|k| + 1] == a[|k|];
        assert x[|k| + 1] == Quote;
      }
      assert s[0..0 + |x|] == w;
    }
  }

  /** Searching quoted segments for `"k"` finds the first segment equal to
      `k` that is followed by another segment, when all are quote-free. */
  lemma {:induction false} FindInQuoted(segs: seq<string>, k: string, m: nat)
    requires AllQuoteFree(segs) && Quote !in k
    requires m + 1 < |segs| && segs[m] == k && forall i :: 0 <= i < m ==> segs[i] != k
    ensures IndexOf(Quoted(segs), [Quote] + k + [Quote], 0) == Some(|Quoted(segs)| - |Quoted(segs[m..])|)
  {
    var s := Quoted(segs);
    var x := [Quote] + k + [Quote];
    var rest := segs[1..];
    var q := Quoted(rest);
    assert s == [Quote] + segs[0] + q;
    assert q[0] == Quote;
    if m == 0 {
      assert q == [Quote] + rest[0] + Quoted(rest[1..]);
      assert s[0..0 + |x|] == x;
      assert segs[0..] == segs;
      IndexOfIs(s, x, 0, 0);
    } else {
      var a := segs[0];
      assert forall i :: 0 <= i < m - 1 ==> rest[i] == segs[i + 1];
      FindInQuoted(rest, k, m - 1);
      assert rest[m - 1..] == segs[m..];
      NoMatchInHead(a, k, q);
      assert s == ([Quote] + a) + q;
      FindAfter([Quote] + a, q, x, |q| - |Quoted(segs[m..])|);
    }
  }

  lemma QuotedUnfold(segs: seq<string>, m: nat)
    requires m < |segs|
    ensures Quoted(segs[m..]) == [Quote] + segs[m] + Quoted(segs[m + 1..])
  {
    assert segs[m..][1..] == segs[m + 1..];
  }

  /** In a quote-free prefix followed by quoted segments, `"k"` for the
      first segment `k` that has a successor is found where that segment's
      quoted text begins. */
  lemma FindSegment(prefix: string, segs: seq<string>, m: nat)
    requires Quote !in prefix && AllQuoteFree(segs)
    requires m + 1 < |segs| && forall i :: 0 <= i < m ==> segs[i] != segs[m]
    ensures var content := prefix + Quoted(segs);
      var p := |content| - |Quoted(segs[m..])|;
      && 0 <= p <= |content|
      && content[p..] == Quoted(segs[m..])
      && IndexOf(content, [Quote] + segs[m] + [Quote], 0) == Some(p)
  {
    var k := segs[m];
    var x := [Quote] + k + [Quote];
    FindInQuoted(segs, k, m);
    QuotedSuffix(segs, m);
    QuoteFreeNoMatch(prefix, Quoted(segs), x);
    FindAfter(prefix, Quoted(segs), x, |Quoted(segs)| - |Quoted(segs[m..])|);
  }
}
