/** The rule-based threat score of a registration. Case folding is a parameter: any mapping
    of single characters will do. */
module Threat {
  import opened Strings

  type Folding = char -> char

  /** A rule that matched, on which keyword, with its confidence in tenths. */
  datatype Finding = Finding(rule: string, keyword: string, confidence: nat)

  datatype Severity = Nothing | Low | Medium | High | Critical

  datatype Report = Report(score: nat, severity: Severity, findings: seq<Finding>, rejected: bool)

  const CAPABILITY_KEYWORDS: seq<string> := ["shell", "exec", "sudo", "admin", "root", "system", "kernel", "daemon"]

  const DESCRIPTION_PHRASES: seq<string> := [
    "exfiltrat", "bypass", "escalat", "inject", "exploit", "malware", "arbitrary shell", "arbitrary command",
    "remote code", "privilege", "backdoor", "rootkit", "keylog"]

  const NAME_KEYWORDS: seq<string> := [
    "shell executor", "command executor", "root agent", "system agent", "admin agent", "sudo agent", "kernel agent"]

  function Fold(fold: Folding, s: string): (r: string)
    ensures |r| == |s| && forall i | 0 <= i < |s| :: r[i] == fold(s[i])
  {
    seq(|s|, i requires 0 <= i < |s| => fold(s[i]))
  }

  lemma FoldContains(fold: Folding, s: string, sub: string)
    requires Contains(s, sub)
    ensures Contains(Fold(fold, s), Fold(fold, sub))
  {
    var i :| 0 <= i <= |s| - |sub| && OccursAt(s, sub, i);
    forall k | 0 <= k < |sub| ensures Fold(fold, s)[i + k] == Fold(fold, sub)[k] {
      assert s[i..i + |sub|][k] == s[i + k];
    }
    assert OccursAt(Fold(fold, s), Fold(fold, sub), i);
  }

  // ------------------------------------------------------- what the score counts

  predicate Mentions(fold: Folding, text: string, keyword: string) { Contains(Fold(fold, text), keyword) }

  predicate Suspicious(fold: Folding, cap: string) {
    exists k | 0 <= k < |CAPABILITY_KEYWORDS| :: Mentions(fold, cap, CAPABILITY_KEYWORDS[k])
  }

  predicate Insecure(fold: Folding, endpoint: string) {
    var lower := Fold(fold, endpoint);
    "http://" <= lower && !Contains(lower, "localhost") && !Contains(lower, "127.0.0.1")
  }

  /** How many keywords a text mentions. */
  function Mentioned(fold: Folding, text: string, keywords: seq<string>): nat {
    if keywords == [] then 0
    else Mentioned(fold, text, keywords[..|keywords| - 1]) + if Mentions(fold, text, keywords[|keywords| - 1])
        then 1 else 0
  }

  /** How many capabilities are suspicious. */
  function SuspiciousIn(fold: Folding, caps: seq<string>): nat {
    if caps == [] then 0
    else SuspiciousIn(fold, caps[..|caps| - 1]) + if Suspicious(fold, caps[|caps| - 1]) then 1 else 0
  }

  lemma {:induction false} MentionedCount(fold: Folding, text: string, keywords: seq<string>)
    ensures Mentioned(fold, text, keywords) == |set k: nat | k < |keywords| && Mentions(fold, text, keywords[k])|
  {
    if keywords != [] {
      var n := |keywords| - 1;
      MentionedCount(fold, text, keywords[..n]);
      var before := set k: nat | k < n && Mentions(fold, text, keywords[..n][k]);
      assert before == set k: nat | k < n && Mentions(fold, text, keywords[k]);
      assert (set k: nat | k < |keywords| && Mentions(fold, text, keywords[k]))
          == before + if Mentions(fold, text, keywords[n]) then {n} else {};
    }
  }

  lemma {:induction false} SuspiciousCount(fold: Folding, caps: seq<string>)
    ensures SuspiciousIn(fold, caps) == |set i: nat | i < |caps| && Suspicious(fold, caps[i])|
  {
    if caps != [] {
      var n := |caps| - 1;
      SuspiciousCount(fold, caps[..n]);
      var before := set i: nat | i < n && Suspicious(fold, caps[..n][i]);
      assert before == set i: nat | i < n && Suspicious(fold, caps[i]);
      assert (set i: nat | i < |caps| && Suspicious(fold, caps[i]))
          == before + if Suspicious(fold, caps[n]) then {n} else {};
    }
  }

  /** The points of a registration: 17 for each suspicious capability, 20 for each phrase in
      the description, 10 for the endpoint, 15 for each keyword in the name. */
  function PointsOf(fold: Folding, name: string, description: string, endpoint: string, caps: seq<string>): nat {
    17 * SuspiciousIn(fold, caps) + 20 * Mentioned(fold, description, DESCRIPTION_PHRASES)
    + (if Insecure(fold, endpoint) then 10 else 0) + 15 * Mentioned(fold, name, NAME_KEYWORDS)
  }

  function ScoreOf(fold: Folding, name: string, description: string, endpoint: string, caps: seq<string>): nat {
    var n := PointsOf(fold, name, description, endpoint, caps);
    if n > 100 then 100 else n
  }

  function SeverityLabel(score: int): Severity {
    if score >= 85 then Critical
    else if score >= 65 then High
    else if score >= 35 then Medium
    else if score >= 15 then Low
    else Nothing
  }

  // ------------------------------------------------------- the scorer

  /** The points of a finding: its confidence times 25, rounded down. */
  function Points(f: Finding): nat { f.confidence * 25 / 10 }

  function Total(findings: seq<Finding>): nat {
    if findings == [] then 0 else Total(findings[..|findings| - 1]) + Points(findings[|findings| - 1])
  }

  lemma {:induction false} TotalConcat(a: seq<Finding>, b: seq<Finding>)
    ensures Total(a + b) == Total(a) + Total(b)
  {
    if b == [] {
      assert a + b == a;
    } else {
      assert (a + b)[..|a + b| - 1] == a + b[..|b| - 1];
      TotalConcat(a, b[..|b| - 1]);
    }
  }

  lemma {:induction false} TotalUniform(findings: seq<Finding>, points: nat)
    requires forall f | f in findings :: Points(f) == points
    ensures Total(findings) == points * |findings|
  {
    if findings != [] { TotalUniform(findings[..|findings| - 1], points); }
  }

  /** The suspicious capabilities, in order. */
  function Flagged(fold: Folding, caps: seq<string>): (r: seq<string>)
    ensures |r| == SuspiciousIn(fold, caps)
  {
    if caps == [] then []
    else
      var before := Flagged(fold, caps[..|caps| - 1]);
      if Suspicious(fold, caps[|caps| - 1]) then before + [caps[|caps| - 1]] else before
  }

  /** Keyword k is the first in the list that a capability mentions. */
  predicate FirstMentioned(fold: Folding, cap: string, k: nat)
    requires k < |CAPABILITY_KEYWORDS|
  {
    Mentions(fold, cap, CAPABILITY_KEYWORDS[k]) && forall j | 0 <= j < k :: !Mentions(fold, cap, CAPABILITY_KEYWORDS[j])
  }

  /** The finding for a capability names the first keyword it mentions. */
  predicate FindingFor(fold: Folding, f: Finding, cap: string) {
    && f.rule == "capability_keyword" && f.confidence == 7
    && exists k: nat | k < |CAPABILITY_KEYWORDS| :: FirstMentioned(fold, cap, k) && f.keyword == CAPABILITY_KEYWORDS[k]
  }

  /** One finding for each suspicious capability, in their order. */
  method RuleCapabilityKeywords(fold: Folding, caps: seq<string>) returns (findings: seq<Finding>)
    ensures |findings| == |Flagged(fold, caps)| == SuspiciousIn(fold, caps)
    ensures forall i | 0 <= i < |findings| :: FindingFor(fold, findings[i], Flagged(fold, caps)[i])
  {
    findings := [];
    for i := 0 to |caps|
      invariant |findings| == |Flagged(fold, caps[..i])|
      invariant forall j | 0 <= j < |findings| :: FindingFor(fold, findings[j], Flagged(fold, caps[..i])[j])
    {
      var lower := Fold(fold, caps[i]);
      ghost var before := findings;
      var found := false;
      for k := 0 to |CAPABILITY_KEYWORDS|
        invariant !found && findings == before
        invariant forall j | 0 <= j < k :: !Mentions(fold, caps[i], CAPABILITY_KEYWORDS[j])
      {
        if Contains(lower, CAPABILITY_KEYWORDS[k]) {
          assert FirstMentioned(fold, caps[i], k);
          findings := findings + [Finding("capability_keyword", CAPABILITY_KEYWORDS[k], 7)];
          found := true;
          break;
        }
      }
      assert found <==> Suspicious(fold, caps[i]);
      assert found ==> FindingFor(fold, findings[|before|], caps[i]);
      assert caps[..i + 1][..i] == caps[..i];
    }
    assert caps[..|caps|] == caps;
  }

  /** The two rules that match a text against a list: one finding for each keyword that the
      text mentions. */
  method RuleKeywords(fold: Folding, text: string, keywords: seq<string>, rule: string, confidence: nat)
    returns (findings: seq<Finding>)
    ensures |findings| == Mentioned(fold, text, keywords)
    ensures forall k | 0 <= k < |keywords| :: Mentions(fold, text, keywords[k])
              ==> Finding(rule, keywords[k], confidence) in findings
    ensures forall f | f in findings :: Mentions(fold, text, f.keyword) && f == Finding(rule, f.keyword, confidence)
  {
    findings := [];
    var lower := Fold(fold, text);
    for i := 0 to |keywords|
      invariant |findings| == Mentioned(fold, text, keywords[..i])
      invariant forall k | 0 <= k < i :: Mentions(fold, text, keywords[k])
                  ==> Finding(rule, keywords[k], confidence) in findings
      invariant forall f | f in findings :: Mentions(fold, text, f.keyword) && f == Finding(rule, f.keyword, confidence)
    {
      if Contains(lower, keywords[i]) {
        findings := findings + [Finding(rule, keywords[i], confidence)];
      }
      assert keywords[..i + 1][..i] == keywords[..i];
    }
    assert keywords[..|keywords|] == keywords;
  }

  method RuleEndpointScheme(fold: Folding, endpoint: string) returns (findings: seq<Finding>)
    ensures |findings| == if Insecure(fold, endpoint) then 1 else 0
    ensures var lower := Fold(fold, endpoint);
            findings != [] <==>
            "http://" <= lower && !Contains(lower, "localhost") && !Contains(lower, "127.0.0.1")
    ensures forall f | f in findings :: f.rule == "endpoint_scheme" && f.confidence == 4
  {
    if endpoint == "" { return []; }
    var lower := Fold(fold, endpoint);
    if "http://" <= lower && !Contains(lower, "localhost") && !Contains(lower, "127.0.0.1") {
      return [Finding("endpoint_scheme", "", 4)];
    }
    return [];
  }

  lemma TotalFour(a: seq<Finding>, b: seq<Finding>, c: seq<Finding>, d: seq<Finding>)
    ensures Total(a + b + c + d) == Total(a) + Total(b) + Total(c) + Total(d)
  {
    TotalConcat(a + b + c, d);
    TotalConcat(a + b, c);
    TotalConcat(a, b);
  }

  method Analyse(findings: seq<Finding>) returns (r: Report)
    ensures r.score == (if Total(findings) > 100 then 100 else Total(findings)) && r.findings == findings
    ensures r.rejected <==> r.severity == Critical
    ensures r.severity == SeverityLabel(r.score)
  {
    var total := 0;
    for i := 0 to |findings|
      invariant total == Total(findings[..i])
    {
      total := total + Points(findings[i]);
      assert findings[..i + 1][..i] == findings[..i];
    }
    assert findings[..|findings|] == findings;
    if total > 100 { total := 100; }
    return Report(total, SeverityLabel(total), findings, total >= 85);
  }

  /** The score is the points of the registration up to 100; rejected means critical. */
  method Score(fold: Folding, name: string, description: string, endpoint: string, caps: seq<string>)
    returns (r: Report)
    ensures r.score == ScoreOf(fold, name, description, endpoint, caps)
    ensures var a := |set i: nat | i < |caps| && Suspicious(fold, caps[i])|;
            var b := |set k: nat | k < |DESCRIPTION_PHRASES| && Mentions(fold, description, DESCRIPTION_PHRASES[k])|;
            var c := if Insecure(fold, endpoint) then 1 else 0;
            var d := |set k: nat | k < |NAME_KEYWORDS| && Mentions(fold, name, NAME_KEYWORDS[k])|;
            var points := 17 * a + 20 * b + 10 * c + 15 * d;
            r.score == if points <= 100 then points else 100
    ensures r.rejected <==> r.score >= 85
    ensures r.severity == Critical <==> 85 <= r.score
    ensures r.severity == High <==> 65 <= r.score <= 84
    ensures r.severity == Medium <==> 35 <= r.score <= 64
    ensures r.severity == Low <==> 15 <= r.score <= 34
  {
    SuspiciousCount(fold, caps);
    MentionedCount(fold, description, DESCRIPTION_PHRASES);
    MentionedCount(fold, name, NAME_KEYWORDS);
    var capabilities := RuleCapabilityKeywords(fold, caps);
    var phrases := RuleKeywords(fold, description, DESCRIPTION_PHRASES, "description_phrase", 8);
    var scheme := RuleEndpointScheme(fold, endpoint);
    var names := RuleKeywords(fold, name, NAME_KEYWORDS, "name_keyword", 6);
    TotalFour(capabilities, phrases, scheme, names);
    TotalUniform(capabilities, 17);
    TotalUniform(phrases, 20);
    TotalUniform(scheme, 10);
    TotalUniform(names, 15);
    r := Analyse(capabilities + phrases + scheme + names);
  }

  // ------------------------------------------------------- monotonicity

  lemma {:induction false} MentionedMonotone(fold: Folding, text: string, longer: string, keywords: seq<string>)
    requires Contains(longer, text)
    requires forall k | 0 <= k < |keywords| :: Mentions(fold, text, keywords[k]) ==> Mentions(fold, longer, keywords[k])
    ensures Mentioned(fold, text, keywords) <= Mentioned(fold, longer, keywords)
  {
    if keywords != [] { MentionedMonotone(fold, text, longer, keywords[..|keywords| - 1]); }
  }

  lemma MentionsMonotone(fold: Folding, text: string, longer: string, keyword: string)
    requires Contains(longer, text) && Mentions(fold, text, keyword)
    ensures Mentions(fold, longer, keyword)
  {
    FoldContains(fold, longer, text);
    ContainsTransitive(Fold(fold, longer), Fold(fold, text), keyword);
  }

  lemma {:induction false} SuspiciousConcat(fold: Folding, a: seq<string>, b: seq<string>)
    ensures SuspiciousIn(fold, a + b) == SuspiciousIn(fold, a) + SuspiciousIn(fold, b)
  {
    if b == [] {
      assert a + b == a;
    } else {
      assert (a + b)[..|a + b| - 1] == a + b[..|b| - 1];
      SuspiciousConcat(fold, a, b[..|b| - 1]);
    }
  }

  lemma SuspiciousOne(fold: Folding, a: seq<string>, cap: string, b: seq<string>)
    ensures SuspiciousIn(fold, a + [cap] + b) == SuspiciousIn(fold, a + b) + if Suspicious(fold, cap) then 1 else 0
  {
    SuspiciousConcat(fold, a, b);
    SuspiciousConcat(fold, a + [cap], b);
    assert (a + [cap])[..|a|] == a;
  }

  lemma FewerWithout(a: seq<string>, b: seq<string>, c: seq<string>, x: string)
    requires multiset(a + [x]) <= multiset(b + [x] + c)
    ensures multiset(a) <= multiset(b + c)
  {
    forall y ensures multiset(a)[y] <= multiset(b + c)[y] {
      assert multiset(a + [x])[y] <= multiset(b + [x] + c)[y];
    }
  }

  /** More capabilities, in any order and wherever the new ones are put. */
  lemma {:induction false} SuspiciousMonotone(fold: Folding, caps: seq<string>, more: seq<string>)
    requires multiset(caps) <= multiset(more)
    ensures SuspiciousIn(fold, caps) <= SuspiciousIn(fold, more)
  {
    if caps != [] {
      var (rest, last) := (caps[..|caps| - 1], caps[|caps| - 1]);
      assert caps == rest + [last] && last in multiset(more);
      var i :| 0 <= i < |more| && more[i] == last;
      var (a, b) := (more[..i], more[i + 1..]);
      assert more == a + [last] + b;
      FewerWithout(rest, a, b, last);
      SuspiciousMonotone(fold, rest, a + b);
      SuspiciousOne(fold, a, last, b);
    }
  }

  function Rank(s: Severity): nat {
    match s
    case Nothing => 0
    case Low => 1
    case Medium => 2
    case High => 3
    case Critical => 4
  }

  /** Adding capabilities, and replacing name and description by texts that contain them,
      lowers neither the score nor the severity and turns no rejection into acceptance. */
  lemma ScoreMonotone(
    fold: Folding, name: string, name': string, description: string, description': string, endpoint: string,
    caps: seq<string>, caps': seq<string>)
    requires Contains(name', name) && Contains(description', description) && multiset(caps) <= multiset(caps')
    ensures var before := ScoreOf(fold, name, description, endpoint, caps);
            var after := ScoreOf(fold, name', description', endpoint, caps');
            && before <= after
            && Rank(SeverityLabel(before)) <= Rank(SeverityLabel(after))
            && (SeverityLabel(before) == Critical ==> SeverityLabel(after) == Critical)
  {
    SuspiciousMonotone(fold, caps, caps');
    forall k | 0 <= k < |NAME_KEYWORDS| && Mentions(fold, name, NAME_KEYWORDS[k])
      ensures Mentions(fold, name', NAME_KEYWORDS[k])
    {
      MentionsMonotone(fold, name, name', NAME_KEYWORDS[k]);
    }
    forall k | 0 <= k < |DESCRIPTION_PHRASES| && Mentions(fold, description, DESCRIPTION_PHRASES[k])
      ensures Mentions(fold, description', DESCRIPTION_PHRASES[k])
    {
      MentionsMonotone(fold, description, description', DESCRIPTION_PHRASES[k]);
    }
    MentionedMonotone(fold, name, name', NAME_KEYWORDS);
    MentionedMonotone(fold, description, description', DESCRIPTION_PHRASES);
  }

  predicate Local(fold: Folding, endpoint: string) {
    Contains(Fold(fold, endpoint), "localhost") || Contains(Fold(fold, endpoint), "127.0.0.1")
  }

  lemma FoldConcat(fold: Folding, a: string, b: string)
    ensures Fold(fold, a + b) == Fold(fold, a) + Fold(fold, b)
  {
  }

  /** An insecure endpoint made longer stays insecure unless it has come to mention a local
      address. */
  lemma InsecureLonger(fold: Folding, endpoint: string, tail: string)
    requires Insecure(fold, endpoint)
    ensures Insecure(fold, endpoint + tail) <==> !Local(fold, endpoint + tail)
  {
    FoldConcat(fold, endpoint, tail);
  }

  /** The endpoint has no such property. The exact condition: appending to it lowers the score
      if and only if it was insecure, has come to mention a local address, and its ten points
      were not above the cap; and that undoes a rejection if and only if they made the
      difference. */
  lemma LongerEndpointLowersIff(
    fold: Folding, name: string, description: string, endpoint: string, tail: string, caps: seq<string>)
    ensures var points := PointsOf(fold, name, description, endpoint, caps);
            var (before, after) := (ScoreOf(fold, name, description, endpoint, caps),
                                    ScoreOf(fold, name, description, endpoint + tail, caps));
            && (after < before <==> Insecure(fold, endpoint) && Local(fold, endpoint + tail) && points < 110)
            && (SeverityLabel(before) == Critical && SeverityLabel(after) != Critical
                <==> Insecure(fold, endpoint) && Local(fold, endpoint + tail) && 85 <= points < 95)
  {
    if Insecure(fold, endpoint) { InsecureLonger(fold, endpoint, tail); }
  }

  /** It happens to every insecure endpoint: the word localhost will do, in its path or query
      say. */
  lemma EndpointNotMonotone(fold: Folding, name: string, description: string, endpoint: string, caps: seq<string>)
    requires forall c | 'a' <= c <= 'z' :: fold(c) == c
    requires Insecure(fold, endpoint) && PointsOf(fold, name, description, endpoint, caps) < 110
    ensures ScoreOf(fold, name, description, endpoint + "localhost", caps)
            < ScoreOf(fold, name, description, endpoint, caps)
  {
    FoldConcat(fold, endpoint, "localhost");
    assert Fold(fold, "localhost") == "localhost";
    assert OccursAt(Fold(fold, endpoint + "localhost"), "localhost", |endpoint|);
    LongerEndpointLowersIff(fold, name, description, endpoint, "localhost", caps);
  }
}
