/** `resolve_pair` of risk.py: split an upper-case symbol into two table codes. */
module PairResolver {
  import opened Wrappers

  /** A base that starts the text and a quote right behind it, both in the table. */
  predicate ValidSplit(alpha: string, codes: set<string>, i: nat, j: nat) {
    i + j <= |alpha| && alpha[..i] in codes && alpha[i..i + j] in codes
  }

  /** Fewer characters first, then the longer base. */
  predicate Better(i: nat, j: nat, i': nat, j': nat) {
    i + j < i' + j' || (i + j == i' + j' && i > i')
  }

  ghost predicate Best(alpha: string, codes: set<string>, i: nat, j: nat) {
    && ValidSplit(alpha, codes, i, j)
    && forall i': nat, j': nat :: ValidSplit(alpha, codes, i', j') ==> (i', j') == (i, j) || Better(i, j, i', j')
  }

  /** The lengths the table carries, ascending. */
  method CodeLengths(codes: set<string>) returns (lengths: seq<nat>)
    ensures forall c :: c in codes ==> |c| in lengths
    ensures forall n :: n in lengths ==> exists c :: c in codes && |c| == n
    ensures forall a, b :: 0 <= a < b < |lengths| ==> lengths[a] < lengths[b]
  {
    lengths := [];
    var rest := codes;
    while rest != {}
      invariant rest <= codes
      invariant forall c :: c in codes - rest ==> |c| in lengths
      invariant forall n :: n in lengths ==> exists c :: c in codes && |c| == n
      invariant forall a, b :: 0 <= a < b < |lengths| ==> lengths[a] < lengths[b]
      decreases rest
    {
      var c :| c in rest;
      rest := rest - {c};
      lengths := Inserted(lengths, |c|);
    }
  }

  function Inserted(s: seq<nat>, n: nat): (r: seq<nat>)
    requires forall a, b :: 0 <= a < b < |s| ==> s[a] < s[b]
    ensures forall a, b :: 0 <= a < b < |r| ==> r[a] < r[b]
    ensures forall x :: x in r <==> x in s || x == n
  {
    if s == [] || n < s[0] then [n] + s
    else if n == s[0] then s
    else
      var t := Inserted(s[1..], n);
      assert forall x :: x in t ==> x > s[0];
      [s[0]] + t
  }

  ghost predicate Resolves(alpha: string, codes: set<string>, base: string, quote: string) {
    Best(alpha, codes, |base|, |quote|) && alpha[..|base|] == base && alpha[|base|..|base| + |quote|] == quote
  }

  /** The running best is at least as good as this split, if it is one. */
  ghost predicate Covered(alpha: string, codes: set<string>, best: Option<(nat, nat)>, i: nat, j: nat) {
    ValidSplit(alpha, codes, i, j) ==>
      best.Some? && ((i, j) == best.value || Better(best.value.0, best.value.1, i, j))
  }

  ghost predicate Running(alpha: string, codes: set<string>, best: Option<(nat, nat)>) {
    best.Some? ==> ValidSplit(alpha, codes, best.value.0, best.value.1)
  }

  lemma CoverageStays(alpha: string, codes: set<string>, best: Option<(nat, nat)>, i: nat, j: nat, seen: (nat, nat))
    requires Running(alpha, codes, best) && Covered(alpha, codes, best, seen.0, seen.1)
    requires best.None? || Better(i, j, best.value.0, best.value.1)
    ensures Covered(alpha, codes, Some((i, j)), seen.0, seen.1)
  {
  }

  method ResolvePair(alpha: string, codes: set<string>) returns (r: Option<(string, string)>)
    ensures r.None? <==> forall i: nat, j: nat :: !ValidSplit(alpha, codes, i, j)
    ensures r.Some? ==> Resolves(alpha, codes, r.value.0, r.value.1)
  {
    hide Covered, Running, ValidSplit, Best;
    var lengths := CodeLengths(codes);
    var best: Option<(nat, nat)> := None;
    NothingRuns(alpha, codes);
    var a := 0;
    assert lengths[..a] == [];
    while a < |lengths|
      invariant 0 <= a <= |lengths| && Running(alpha, codes, best)
      invariant forall i: nat, j: nat :: i in lengths[..a] ==> Covered(alpha, codes, best, i, j)
    {
      var i := lengths[a];
      assert lengths[..a + 1] == lengths[..a] + [i];
      if i <= |alpha| && alpha[..i] in codes {
        best := BestQuote(alpha, codes, lengths, lengths[..a], i, best);
      } else {
        forall j: nat ensures Covered(alpha, codes, best, i, j) { BadBase(alpha, codes, best, i, j); }
      }
      a := a + 1;
    }
    assert lengths[..a] == lengths;
    AllCovered(alpha, codes, lengths, best);
    if best.Some? {
      var (i, j) := best.value;
      BestResolves(alpha, codes, i, j);
      r := Some((alpha[..i], alpha[i..i + j]));
    } else {
      r := None;
    }
  }

  lemma NothingRuns(alpha: string, codes: set<string>)
    ensures Running(alpha, codes, None)
  {
  }

  lemma BadBase(alpha: string, codes: set<string>, best: Option<(nat, nat)>, i: nat, j: nat)
    requires i > |alpha| || alpha[..i] !in codes
    ensures Covered(alpha, codes, best, i, j)
  {
  }

  lemma BestResolves(alpha: string, codes: set<string>, i: nat, j: nat)
    requires Best(alpha, codes, i, j)
    ensures Resolves(alpha, codes, alpha[..i], alpha[i..i + j])
  {
    assert |alpha[..i]| == i && |alpha[i..i + j]| == j;
  }

  lemma AllCovered(alpha: string, codes: set<string>, lengths: seq<nat>, best: Option<(nat, nat)>)
    requires Running(alpha, codes, best) && forall c :: c in codes ==> |c| in lengths
    requires forall i: nat, j: nat :: i in lengths ==> Covered(alpha, codes, best, i, j)
    ensures best.None? <==> forall i: nat, j: nat :: !ValidSplit(alpha, codes, i, j)
    ensures best.Some? ==> Best(alpha, codes, best.value.0, best.value.1) && best.value.0 + best.value.1 <= |alpha|
  {
    forall i: nat, j: nat | ValidSplit(alpha, codes, i, j)
      ensures best.Some? && ((i, j) == best.value || Better(best.value.0, best.value.1, i, j))
    {
      assert |alpha[..i]| == i;
      assert Covered(alpha, codes, best, i, j);
    }
  }

  /** The inner loop: every quote length behind the base of length `i`. */
  method BestQuote(alpha: string, codes: set<string>, lengths: seq<nat>, ghost done: seq<nat>, i: nat,
                   best: Option<(nat, nat)>) returns (r: Option<(nat, nat)>)
    requires i <= |alpha| && alpha[..i] in codes && forall c :: c in codes ==> |c| in lengths
    requires Running(alpha, codes, best)
    requires forall i': nat, j: nat :: i' in done ==> Covered(alpha, codes, best, i', j)
    ensures Running(alpha, codes, r)
    ensures forall i': nat, j: nat :: i' in done + [i] ==> Covered(alpha, codes, r, i', j)
  {
    r := best;
    var b := 0;
    while b < |lengths|
      invariant 0 <= b <= |lengths| && Running(alpha, codes, r)
      invariant forall i': nat, j: nat :: i' in done ==> Covered(alpha, codes, r, i', j)
      invariant forall j: nat :: j in lengths[..b] ==> Covered(alpha, codes, r, i, j)
    {
      var j := lengths[b];
      assert lengths[..b + 1] == lengths[..b] + [j];
      if i + j <= |alpha| && alpha[i..i + j] in codes {
        if r.None? || Better(i, j, r.value.0, r.value.1) {
          forall i': nat, j': nat | Covered(alpha, codes, r, i', j')
            ensures Covered(alpha, codes, Some((i, j)), i', j')
          {
            CoverageStays(alpha, codes, r, i, j, (i', j'));
          }
          r := Some((i, j));
        }
      }
      b := b + 1;
    }
    assert lengths[..b] == lengths;
    forall j: nat ensures Covered(alpha, codes, r, i, j) {
      if ValidSplit(alpha, codes, i, j) { assert |alpha[i..i + j]| == j; }
    }
  }

  /** The rule in full: both are codes, they start the symbol one after the other, and of all
      such pairs none uses fewer letters, nor as many with a longer base. */
  lemma ResolvesExactly(alpha: string, codes: set<string>, base: string, quote: string)
    ensures Resolves(alpha, codes, base, quote) <==>
            && base in codes && quote in codes && base + quote <= alpha
            && forall b, q :: b in codes && q in codes && b + q <= alpha ==>
                 |base| + |quote| < |b| + |q| || (|base| + |quote| == |b| + |q| && |base| >= |b|)
  {
    PairSplits(alpha, codes, base, quote);
    if Resolves(alpha, codes, base, quote) {
      forall b, q | b in codes && q in codes && b + q <= alpha
        ensures |base| + |quote| < |b| + |q| || (|base| + |quote| == |b| + |q| && |base| >= |b|)
      {
        PairSplits(alpha, codes, b, q);
      }
    } else if base in codes && quote in codes && base + quote <= alpha {
      var b, q := BetterPair(alpha, codes, |base|, |quote|);
    }
  }

  /** A pair of codes at the start of a text is a valid split, cut where the base ends. */
  lemma PairSplits(alpha: string, codes: set<string>, b: string, q: string)
    ensures b in codes && q in codes && b + q <= alpha <==>
            ValidSplit(alpha, codes, |b|, |q|) && alpha[..|b|] == b && alpha[|b|..|b| + |q|] == q
  {
    if |b| + |q| <= |alpha| {
      var s := alpha[..|b| + |q|];
      assert s[..|b|] == alpha[..|b|] && s[|b|..] == alpha[|b|..|b| + |q|];
      assert s == s[..|b|] + s[|b|..];
      assert b + q <= alpha <==> s == b + q;
      assert (b + q)[..|b|] == b && (b + q)[|b|..] == q;
    }
  }

  /** A split that is not the best one has a better one beside it. */
  lemma BetterPair(alpha: string, codes: set<string>, i: nat, j: nat) returns (b: string, q: string)
    requires ValidSplit(alpha, codes, i, j) && !Best(alpha, codes, i, j)
    ensures b in codes && q in codes && b + q <= alpha
    ensures !(i + j < |b| + |q| || (i + j == |b| + |q| && i >= |b|))
  {
    var i': nat, j': nat :| ValidSplit(alpha, codes, i', j') && (i', j') != (i, j) && !Better(i, j, i', j');
    b, q := alpha[..i'], alpha[i'..i' + j'];
    assert |b| == i' && |q| == j';
    PairSplits(alpha, codes, b, q);
  }

  /** The rule leaves no choice. */
  lemma ResolutionUnique(alpha: string, codes: set<string>, b: string, q: string, b': string, q': string)
    requires Resolves(alpha, codes, b, q) && Resolves(alpha, codes, b', q')
    ensures (b, q) == (b', q')
  {
    assert ValidSplit(alpha, codes, |b|, |q|) && ValidSplit(alpha, codes, |b'|, |q'|);
  }

  /** A suffix never changes the answer of a symbol that resolves. */
  lemma SuffixIrrelevant(alpha: string, suffix: string, codes: set<string>, base: string, quote: string)
    requires Resolves(alpha, codes, base, quote)
    ensures Resolves(alpha + suffix, codes, base, quote)
  {
    var longer := alpha + suffix;
    var i, j := |base|, |quote|;
    assert longer[..i] == alpha[..i] && longer[i..i + j] == alpha[i..i + j];
    forall i': nat, j': nat | ValidSplit(longer, codes, i', j')
      ensures (i', j') == (i, j) || Better(i, j, i', j')
    {
      if i' + j' <= |alpha| {
        assert longer[..i'] == alpha[..i'] && longer[i'..i' + j'] == alpha[i'..i' + j'];
        assert ValidSplit(alpha, codes, i', j');
      }
    }
  }

  /** No code starts another one. */
  ghost predicate PrefixFree(codes: set<string>) {
    forall c, d :: c in codes && d in codes && c <= d ==> c == d
  }

  lemma PrefixesComparable(s: string, i: nat, i': nat)
    requires i <= i' <= |s|
    ensures s[..i] <= s[..i']
  {
  }

  /** With a prefix-free table there is nothing to choose: one split at most. */
  lemma PrefixFreeUnambiguous(alpha: string, codes: set<string>, i: nat, j: nat, i': nat, j': nat)
    requires PrefixFree(codes) && ValidSplit(alpha, codes, i, j) && ValidSplit(alpha, codes, i', j')
    ensures (i, j) == (i', j')
  {
    if i <= i' { PrefixesComparable(alpha, i, i'); } else { PrefixesComparable(alpha, i', i); }
    assert i == i' by { assert |alpha[..i]| == i && |alpha[..i']| == i'; }
    var rest := alpha[i..];
    assert rest[..j] == alpha[i..i + j] && rest[..j'] == alpha[i..i + j'];
    if j <= j' { PrefixesComparable(rest, j, j'); } else { PrefixesComparable(rest, j', j); }
    assert |rest[..j]| == j && |rest[..j']| == j';
  }

  /** A symbol that splits three and three keeps that reading in any table whose
      codes have at least three letters. */
  lemma ThreeAndThreeKept(alpha: string, codes: set<string>)
    requires forall c :: c in codes ==> |c| >= 3
    requires ValidSplit(alpha, codes, 3, 3)
    ensures Best(alpha, codes, 3, 3)
  {
    forall i: nat, j: nat | ValidSplit(alpha, codes, i, j) ensures (i, j) == (3, 3) || Better(3, 3, i, j) {
      assert |alpha[..i]| == i && |alpha[i..i + j]| == j;
    }
  }
}
