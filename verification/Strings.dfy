/** String operations of the Go standard library that the registry is written with,
    on sequences of Unicode scalar values. */
module Strings {

  datatype Option<+T> = None | Some(value: T)

  // ---------------------------------------------------------------- searching

  /** First position at or after n that holds c, or the length of s. */
  function Find(s: string, c: char, n: nat): (i: nat)
    requires n <= |s|
    ensures n <= i <= |s|
    ensures forall k | n <= k < i :: s[k] != c
    ensures i < |s| ==> s[i] == c
    decreases |s| - n
  {
    if n == |s| || s[n] == c then n else Find(s, c, n + 1)
  }

  /** strings.Index with a one-character needle: first position of c, or -1. */
  function Index(s: string, c: char): (i: int)
    ensures -1 <= i < |s|
    ensures i == -1 <==> c !in s
    ensures i >= 0 ==> s[i] == c && forall k | 0 <= k < i :: s[k] != c
  {
    var i := Find(s, c, 0);
    if i == |s| then -1 else i
  }

  lemma CutAtIndex(s: string, c: char)
    requires c in s
    ensures var i := Index(s, c);
            s == s[..i] + [c] + s[i + 1..] && c !in s[..i]
  {
  }

  /** strings.LastIndex with a one-character needle: last position of c, or -1. */
  function LastIndex(s: string, c: char): (i: int)
    ensures -1 <= i < |s|
    ensures i == -1 <==> c !in s
    ensures i >= 0 ==> s[i] == c && forall k | i < k < |s| :: s[k] != c
  {
    LastIndexBelow(s, c, |s|)
  }

  function LastIndexBelow(s: string, c: char, n: nat): (i: int)
    requires n <= |s| && forall k | n <= k < |s| :: s[k] != c
    ensures -1 <= i < |s|
    ensures i == -1 <==> c !in s
    ensures i >= 0 ==> s[i] == c && forall k | i < k < |s| :: s[k] != c
  {
    if n == 0 then -1 else if s[n - 1] == c then n - 1 else LastIndexBelow(s, c, n - 1)
  }

  predicate OccursAt(s: string, sub: string, i: int) {
    0 <= i <= |s| - |sub| && s[i..i + |sub|] == sub
  }

  /** strings.Contains. */
  predicate Contains(s: string, sub: string) {
    exists i | 0 <= i <= |s| - |sub| :: OccursAt(s, sub, i)
  }

  lemma ContainsTransitive(s: string, mid: string, sub: string)
    requires Contains(s, mid) && Contains(mid, sub)
    ensures Contains(s, sub)
  {
    var i :| 0 <= i <= |s| - |mid| && OccursAt(s, mid, i);
    var j :| 0 <= j <= |mid| - |sub| && OccursAt(mid, sub, j);
    forall k | 0 <= k < |sub| ensures s[i + j + k] == sub[k] {
      assert s[i..i + |mid|][j + k] == s[i + j + k];
      assert mid[j..j + |sub|][k] == mid[j + k];
    }
    assert OccursAt(s, sub, i + j);
  }

  // ---------------------------------------------------------------- mapping

  function LowerChar(c: char): char {
    if 'A' <= c <= 'Z' then (c as int + 32) as char else c
  }

  /** strings.ToLower on ASCII letters; every other character is left alone. */
  function ToLower(s: string): (r: string)
    ensures |r| == |s|
    ensures forall i | 0 <= i < |s| :: r[i] == LowerChar(s[i])
  {
    seq(|s|, i requires 0 <= i < |s| => LowerChar(s[i]))
  }

  /** strings.ReplaceAll of one character by another. */
  function Replace(s: string, from: char, to: char): (r: string)
    ensures |r| == |s|
    ensures forall i | 0 <= i < |s| :: r[i] == if s[i] == from then to else s[i]
  {
    seq(|s|, i requires 0 <= i < |s| => if s[i] == from then to else s[i])
  }

  // ---------------------------------------------------------------- trimming

  /** unicode.IsSpace. */
  predicate IsSpace(c: char) {
    || '\t' <= c <= '\r' || c == ' ' || c == '\U{85}' || c == '\U{A0}' || c == '\U{1680}'
    || '\U{2000}' <= c <= '\U{200a}' || c == '\U{2028}' || c == '\U{2029}'
    || c == '\U{202f}' || c == '\U{205f}' || c == '\U{3000}'
  }

  /** Drops the leading and trailing characters that p accepts (strings.TrimFunc). */
  function TrimFunc(s: string, p: char -> bool): (r: string)
    ensures r == "" || (!p(r[0]) && !p(r[|r| - 1]))
    ensures forall c | c in r :: c in s
    ensures s == "" || (!p(s[0]) && !p(s[|s| - 1])) ==> r == s
    ensures |r| <= |s|
    ensures s != "" && (p(s[0]) || p(s[|s| - 1])) ==> |r| < |s|
    decreases |s|
  {
    if s == "" then ""
    else if p(s[0]) then TrimFunc(s[1..], p)
    else if p(s[|s| - 1]) then TrimFunc(s[..|s| - 1], p)
    else s
  }

  predicate All(s: string, p: char -> bool) { forall c | c in s :: p(c) }

  /** What is trimmed is accepted by p, on either side of what is left. */
  lemma {:induction false} TrimCuts(s: string, p: char -> bool) returns (pre: string, post: string)
    ensures s == pre + TrimFunc(s, p) + post && All(pre, p) && All(post, p)
    decreases |s|
  {
    pre, post := "", "";
    if s != "" && p(s[0]) {
      pre, post := TrimCuts(s[1..], p);
      pre := [s[0]] + pre;
    } else if s != "" && p(s[|s| - 1]) {
      pre, post := TrimCuts(s[..|s| - 1], p);
      post := post + [s[|s| - 1]];
    }
  }

  function TrimSpace(s: string): string { TrimFunc(s, c => IsSpace(c)) }

  function TrimChar(s: string, d: char): string { TrimFunc(s, c => c == d) }

  // ---------------------------------------------------------------- splitting

  /** strings.Join with a one-character separator. */
  function Join(parts: seq<string>, d: char): string
    requires parts != []
  {
    if |parts| == 1 then parts[0] else parts[0] + [d] + Join(parts[1..], d)
  }

  lemma JoinTwo(a: string, b: string, d: char)
    ensures Join([a, b], d) == a + [d] + b
  {
  }

  lemma JoinThree(a: string, b: string, c: string, d: char)
    ensures Join([a, b, c], d) == a + [d] + b + [d] + c
  {
    assert [a, b, c][1..] == [b, c];
    JoinTwo(b, c, d);
    assert a + [d] + (b + [d] + c) == a + [d] + b + [d] + c;
  }

  /** strings.Split with a one-character separator. */
  function Split(s: string, d: char): (parts: seq<string>)
    ensures parts != []
    ensures forall p | p in parts :: d !in p
  {
    var i := Index(s, d);
    if i == -1 then [s] else [s[..i]] + Split(s[i + 1..], d)
  }

  lemma {:induction false} SplitParts(s: string, d: char)
    ensures Join(Split(s, d), d) == s
    ensures forall p, c | p in Split(s, d) && c in p :: c in s
  {
    var i := Index(s, d);
    if i != -1 {
      CutAtIndex(s, d);
      SplitParts(s[i + 1..], d);
      assert Split(s, d)[1..] == Split(s[i + 1..], d);
    }
  }

  /** A separator-free prefix is determined by what follows its first separator. */
  lemma CutUnique(a: string, x: string, b: string, y: string, d: char)
    requires a + [d] + x == b + [d] + y
    requires d !in a && d !in b
    ensures a == b && x == y
  {
    var s := a + [d] + x;
    assert a == s[..|a|] && b == s[..|b|];
    assert x == s[|a| + 1..] && y == s[|b| + 1..];
    assert s[|a|] == d && s[|b|] == d;
    if |a| < |b| || |b| < |a| {
      assert false;
    }
  }

  /** A separator-free suffix is determined by what precedes its last separator. */
  lemma CutUniqueRight(a: string, x: string, b: string, y: string, d: char)
    requires a + [d] + x == b + [d] + y
    requires d !in x && d !in y
    ensures a == b && x == y
  {
    var s := a + [d] + x;
    assert a == s[..|a|] && b == s[..|b|];
    assert x == s[|a| + 1..] && y == s[|b| + 1..];
    assert s[|a|] == d && s[|b|] == d;
    if |a| < |b| || |b| < |a| {
      assert false;
    }
  }

  lemma SplitCons(a: string, rest: string, d: char)
    requires d !in a
    ensures Split(a + [d] + rest, d) == [a] + Split(rest, d)
  {
    var s := a + [d] + rest;
    assert s[|a|] == d;
    CutAtIndex(s, d);
    var i := Index(s, d);
    CutUnique(a, rest, s[..i], s[i + 1..], d);
  }

  lemma {:induction false} SplitJoin(parts: seq<string>, d: char)
    requires parts != []
    requires forall p | p in parts :: d !in p
    ensures Split(Join(parts, d), d) == parts
  {
    if |parts| == 1 {
      assert d !in parts[0];
    } else {
      SplitJoin(parts[1..], d);
      SplitJoinCons(parts[0], parts[1..], d);
      assert parts == [parts[0]] + parts[1..];
    }
  }

  lemma SplitJoinCons(a: string, rest: seq<string>, d: char)
    requires rest != [] && d !in a && Split(Join(rest, d), d) == rest
    ensures Split(Join([a] + rest, d), d) == [a] + rest
  {
    assert ([a] + rest)[1..] == rest;
    SplitCons(a, Join(rest, d), d);
  }

  /** Number of occurrences of d. */
  function Count(s: string, d: char): nat {
    if s == "" then 0 else (if s[0] == d then 1 else 0) + Count(s[1..], d)
  }

  lemma {:induction false} CountConcat(a: string, b: string, d: char)
    ensures Count(a + b, d) == Count(a, d) + Count(b, d)
  {
    if a == "" {
      assert a + b == b;
    } else {
      assert (a + b)[1..] == a[1..] + b;
      CountConcat(a[1..], b, d);
    }
  }

  lemma {:induction false} CountZero(s: string, d: char)
    ensures Count(s, d) == 0 <==> d !in s
  {
    if s != "" { CountZero(s[1..], d); }
  }

  lemma {:induction false} JoinCount(parts: seq<string>, d: char)
    requires parts != []
    ensures Count(Join(parts, d), d) >= |parts| - 1
    ensures Count(Join(parts, d), d) == |parts| - 1 <==> forall p | p in parts :: d !in p
  {
    CountZero(parts[0], d);
    if |parts| > 1 {
      CountConcat(parts[0] + [d], Join(parts[1..], d), d);
      CountConcat(parts[0], [d], d);
      JoinCount(parts[1..], d);
      assert parts == [parts[0]] + parts[1..];
    }
  }

  /** Joining two neighbours first does not change the joined text. */
  lemma {:induction false} JoinMerge(parts: seq<string>, k: nat, d: char)
    requires k + 1 < |parts|
    ensures Join(parts, d) == Join(parts[..k] + [parts[k] + [d] + parts[k + 1]] + parts[k + 2..], d)
  {
    var merged := parts[..k] + [parts[k] + [d] + parts[k + 1]] + parts[k + 2..];
    if k == 0 {
      assert merged[1..] == parts[2..] == parts[1..][1..];
      if |parts| > 2 {
        assert (parts[0] + [d] + parts[1]) + [d] + Join(parts[2..], d)
                 == parts[0] + [d] + (parts[1] + [d] + Join(parts[2..], d));
      }
    } else {
      JoinMerge(parts[1..], k - 1, d);
      assert merged[1..] == parts[1..][..k - 1] + [parts[1..][k - 1] + [d] + parts[1..][k]] + parts[1..][k + 1..];
    }
  }

  lemma {:induction false} JoinLast(parts: seq<string>, last: string, d: char)
    requires parts != []
    ensures Join(parts + [last], d) == Join(parts, d) + [d] + last
  {
    if |parts| == 1 {
      assert parts + [last] == [parts[0], last];
      JoinTwo(parts[0], last, d);
    } else {
      assert (parts + [last])[1..] == parts[1..] + [last];
      JoinLast(parts[1..], last, d);
      assert parts[0] + [d] + (Join(parts[1..], d) + [d] + last) == parts[0] + [d] + Join(parts[1..], d) + [d] + last;
    }
  }

  lemma JoinAround(first: string, mid: seq<string>, last: string, d: char)
    requires mid != []
    ensures Join([first] + mid + [last], d) == first + [d] + Join(mid, d) + [d] + last
  {
    assert ([first] + mid)[1..] == mid;
    JoinLast([first] + mid, last, d);
  }

  // ---------------------------------------------------------------- numbers

  function DigitChar(d: nat): char
    requires d < 10
  {
    ('0' as int + d) as char
  }

  function DecimalNat(n: nat): (s: string)
    ensures s != "" && '0' <= s[0] <= '9'
    ensures forall c | c in s :: '0' <= c <= '9'
  {
    if n < 10 then [DigitChar(n)] else DecimalNat(n / 10) + [DigitChar(n % 10)]
  }

  /** The %d verb. */
  function Decimal(n: int): (s: string)
    ensures s != "" && (s[0] == '-' <==> n < 0)
    ensures forall c | c in s :: '0' <= c <= '9' || c == '-'
  {
    if n < 0 then "-" + DecimalNat(-n) else DecimalNat(n)
  }

  /** The number that decimal digits denote. */
  function NumberOf(digits: string): int {
    if digits == "" then 0
    else 10 * NumberOf(digits[..|digits| - 1]) + (digits[|digits| - 1] as int - '0' as int)
  }

  /** Decimal notation: the digits denote the number, without a leading zero. */
  lemma {:induction false} DecimalDenotes(n: nat)
    ensures NumberOf(DecimalNat(n)) == n && (n > 0 ==> DecimalNat(n)[0] != '0')
  {
    if n < 10 {
      assert DecimalNat(n)[..0] == "";
    } else {
      DecimalDenotes(n / 10);
      assert DecimalNat(n)[..|DecimalNat(n)| - 1] == DecimalNat(n / 10);
    }
  }

  lemma {:induction false} DecimalNatInjective(m: nat, n: nat)
    requires DecimalNat(m) == DecimalNat(n)
    ensures m == n
  {
    var s := DecimalNat(m);
    if m >= 10 && n >= 10 {
      assert DecimalNat(m / 10) == s[..|s| - 1] == DecimalNat(n / 10);
      DecimalNatInjective(m / 10, n / 10);
      assert DigitChar(m % 10) == s[|s| - 1] == DigitChar(n % 10);
    }
  }

  lemma DecimalInjective(m: int, n: int)
    requires Decimal(m) == Decimal(n)
    ensures m == n
  {
    if m < 0 && n < 0 {
      assert Decimal(m)[1..] == DecimalNat(-m) && Decimal(n)[1..] == DecimalNat(-n);
      DecimalNatInjective(-m, -n);
    } else if m >= 0 && n >= 0 {
      DecimalNatInjective(m, n);
    }
  }
}
