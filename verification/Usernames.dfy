/** Allocation of a username from the slug of an e-mail address. */
module Usernames {
  import opened Strings

  /** What the store says about a name. */
  datatype Reply = Found | NotFound | Failed

  const LAST: nat := 9999

  function Base(slug: string): string { if slug == "" then "user" else slug }

  /** The i-th name tried: base, base2, base3, ... */
  function Candidate(base: string, i: nat): string {
    if i == 1 then base else base + DecimalNat(i)
  }

  /** The first two names, and that the others are the base with the decimal of a number. */
  lemma CandidateNames(base: string, i: nat)
    ensures Candidate(base, 1) == base && Candidate(base, 2) == base + "2"
    ensures i >= 2 ==> base <= Candidate(base, i) && NumberOf(Candidate(base, i)[|base|..]) == i
  {
    DecimalDenotes(i);
    assert DecimalNat(2) == "2";
  }

  predicate Free(lookup: string -> Reply, base: string, i: nat) { lookup(Candidate(base, i)) == NotFound }

  /** The first free candidate. */
  predicate FirstFree(lookup: string -> Reply, base: string, i: nat) {
    1 <= i <= LAST && Free(lookup, base, i) && forall j | 1 <= j < i :: !Free(lookup, base, j)
  }

  /** Tries the candidates in order; a lookup that fails counts as taken. As the candidates
      are distinct, lookup can stand for any sequence of replies. */
  method GenerateUniqueUsername(lookup: string -> Reply, slug: string) returns (name: Option<string>)
    ensures name.Some? ==> exists i :: FirstFree(lookup, Base(slug), i) && name.value == Candidate(Base(slug), i)
    ensures name.None? <==> forall i | 1 <= i <= 9999 :: !Free(lookup, Base(slug), i)
    ensures var base := if slug == "" then "user" else slug; lookup(base) == NotFound ==> name == Some(base)
  {
    var base := slug;
    if base == "" { base := "user"; }
    assert base == Base(slug) && Candidate(base, 1) == base;
    if lookup(base) == NotFound {
      assert FirstFree(lookup, base, 1);
      return Some(base);
    }
    var i := 2;
    while i <= LAST
      invariant 2 <= i <= LAST + 1
      invariant forall j | 1 <= j < i :: !Free(lookup, base, j)
    {
      var candidate := base + DecimalNat(i);
      assert candidate == Candidate(base, i);
      if lookup(candidate) == NotFound {
        assert FirstFree(lookup, base, i);
        return Some(candidate);
      }
      i := i + 1;
    }
    return None;
  }

  lemma CandidatesDistinct(base: string, i: nat, j: nat)
    requires i >= 1 && j >= 1 && Candidate(base, i) == Candidate(base, j)
    ensures i == j
  {
    if i > 1 && j > 1 {
      assert DecimalNat(i) == Candidate(base, i)[|base|..] == DecimalNat(j);
      DecimalNatInjective(i, j);
    }
  }

  function Candidates(base: string, n: nat): set<string> {
    set i: nat | 1 <= i <= n :: Candidate(base, i)
  }

  lemma {:induction false} CandidateCount(base: string, n: nat)
    ensures |Candidates(base, n)| == n
  {
    if n > 0 {
      CandidateCount(base, n - 1);
      assert Candidates(base, n) == Candidates(base, n - 1) + {Candidate(base, n)};
      if Candidate(base, n) in Candidates(base, n - 1) {
        var i: nat :| 1 <= i <= n - 1 && Candidate(base, i) == Candidate(base, n);
        CandidatesDistinct(base, i, n);
      }
    }
  }

  /** Some candidate is not among the names taken. */
  ghost predicate Allocates(base: string, taken: set<string>) {
    exists i | 1 <= i <= LAST :: Candidate(base, i) !in taken
  }

  lemma SubsetSize(a: set<string>, b: set<string>)
    requires a <= b
    ensures |a| <= |b|
  {
    assert b == a + (b - a);
  }

  /** Pigeonhole: n taken names, whichever they are, leave a candidate free if and only if
      there are fewer of them than candidates. */
  lemma AllocationSucceedsIff(base: string, n: nat)
    ensures (forall taken: set<string> | |taken| == n :: Allocates(base, taken)) <==> n < 9999
  {
    CandidateCount(base, LAST);
    CandidateCount(base, n);
    if n < LAST {
      forall taken: set<string> | |taken| == n ensures Allocates(base, taken) {
        if !Allocates(base, taken) { SubsetSize(Candidates(base, LAST), taken); }
      }
    } else {
      var taken := Candidates(base, n);
      forall i | 1 <= i <= LAST ensures Candidate(base, i) in taken {}
      assert !Allocates(base, taken);
    }
  }

  /** With lookups that succeed or report not-found, allocation succeeds whenever fewer than
      9999 usernames exist. */
  method Allocate(taken: set<string>, slug: string) returns (name: Option<string>)
    ensures name.Some? ==> name.value !in taken
    ensures |taken| < 9999 ==> name.Some?
  {
    var lookup := s => if s in taken then Found else NotFound;
    name := GenerateUniqueUsername(lookup, slug);
    AllocationSucceedsIff(Base(slug), |taken|);
    if name.None? {
      forall i | 1 <= i <= LAST ensures Candidate(Base(slug), i) in taken {
        assert !Free(lookup, Base(slug), i);
      }
    }
  }
}
