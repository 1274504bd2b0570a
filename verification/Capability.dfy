/** Capability paths ("finance>accounting>reconciliation") and the skill slug that goes
    into an agent's URI. */
module Capability {
  import opened Strings

  /** Length in UTF-8 bytes, which is what the length limits count. */
  function ByteLen(s: string): nat {
    if s == "" then 0
    else
      (if s[0] < '\U{80}' then 1 else if s[0] < '\U{800}' then 2 else if s[0] < '\U{10000}' then 3 else 4)
      + ByteLen(s[1..])
  }

  predicate IsSlugRune(c: char) {
    'a' <= c <= 'z' || 'A' <= c <= 'Z' || '0' <= c <= '9' || c == '-' || c == '_'
  }

  function NormalizeCapability(cap: string): string {
    TrimChar(Replace(ToLower(TrimSpace(cap)), '/', '>'), '>')
  }

  predicate ValidSegment(p: string) { p != "" && ByteLen(p) <= 100 }

  /** ValidateCapabilityNode returns no error. */
  predicate ValidCapability(cap: string) {
    var parts := Split(cap, '>');
    && cap != "" && ByteLen(cap) <= 200
    && |parts| <= 3
    && (forall p | p in parts :: ValidSegment(p))
    && (forall c | c in parts[0] :: IsSlugRune(c))
  }

  function TopLevelCategory(cap: string): string {
    var i := Index(cap, '>');
    if i != -1 then cap[..i] else cap
  }

  function SlugifySkillID(id: string): string {
    Replace(ToLower(TrimSpace(id)), ' ', '-')
  }

  /** The first declared skill ID when there is one and it is not empty, otherwise the last
      capability segment below the top level, otherwise nothing. */
  function DerivePrimarySkill(skillIDs: seq<string>, cap: string): string {
    if skillIDs != [] && skillIDs[0] != "" then SlugifySkillID(skillIDs[0])
    else
      var i := LastIndex(cap, '>');
      if i != -1 then cap[i + 1..] else ""
  }

  // ------------------------------------------------------- properties

  predicate NoUpper(s: string) { forall c | c in s :: !('A' <= c <= 'Z') }

  lemma NormalizedForm(cap: string)
    ensures var n := NormalizeCapability(cap);
            && NoUpper(n) && '/' !in n
            && (n != "" ==> n[0] != '>' && n[|n| - 1] != '>')
  {
  }

  lemma NormalizeFixes(s: string)
    requires NoUpper(s) && '/' !in s
    ensures NormalizeCapability(s) == TrimChar(TrimSpace(s), '>')
  {
    var t := TrimSpace(s);
    forall i | 0 <= i < |t| ensures LowerChar(t[i]) == t[i] {
      assert t[i] in s;
    }
    assert ToLower(t) == t;
    assert Replace(t, '/', '>') == t;
  }

  lemma SlugTrims(s: string)
    requires s != "" && forall c | c in s :: IsSlugRune(c)
    ensures TrimChar(TrimSpace(s), '>') == s && '/' !in s
  {
    assert s[0] in s && s[|s| - 1] in s;
  }

  predicate IsSeparator(c: char) { c == '/' || c == '>' }

  /** What is left of an input inside its outer white space and then its outer separators. */
  function Core(cap: string): string { TrimFunc(TrimSpace(cap), c => IsSeparator(c)) }

  function NormalChar(c: char): char { if IsSeparator(c) then '>' else LowerChar(c) }

  function NormalText(s: string): (r: string)
    ensures |r| == |s| && forall i | 0 <= i < |s| :: r[i] == NormalChar(s[i])
  {
    Replace(ToLower(s), '/', '>')
  }

  /** Trimming separators commutes with mapping characters to their normal form. */
  lemma {:induction false} TrimNormal(s: string)
    ensures TrimChar(NormalText(s), '>') == NormalText(TrimFunc(s, c => IsSeparator(c)))
    decreases |s|
  {
    if s != "" && IsSeparator(s[0]) {
      NormalTail(s);
      TrimNormal(s[1..]);
    } else if s != "" && IsSeparator(s[|s| - 1]) {
      NormalFront(s);
      TrimNormal(s[..|s| - 1]);
    }
  }

  lemma NormalTail(s: string)
    requires s != ""
    ensures NormalText(s)[1..] == NormalText(s[1..])
  {
  }

  lemma NormalFront(s: string)
    requires s != ""
    ensures NormalText(s)[..|s| - 1] == NormalText(s[..|s| - 1])
  {
  }

  lemma NormalFormOfCore(cap: string)
    ensures NormalizeCapability(cap) == NormalText(Core(cap))
  {
    TrimNormal(TrimSpace(cap));
  }

  /** Neither end is white space. */
  predicate Tight(s: string) { s == "" || (!IsSpace(s[0]) && !IsSpace(s[|s| - 1])) }

  lemma NormalTextTight(s: string)
    ensures Tight(NormalText(s)) <==> Tight(s)
  {
  }

  lemma TrimsNothingIff(n: string)
    requires n != "" ==> n[0] != '>' && n[|n| - 1] != '>'
    ensures TrimChar(TrimSpace(n), '>') == n <==> Tight(n)
  {
  }

  /** The exact inputs on which normalizing twice is normalizing once: what is inside the
      outer white space and the outer separators neither starts nor ends with white space. */
  lemma NormalizeIdempotentIff(cap: string)
    ensures NormalizeCapability(NormalizeCapability(cap)) == NormalizeCapability(cap) <==> Tight(Core(cap))
  {
    var n := NormalizeCapability(cap);
    NormalizedForm(cap);
    NormalizeFixes(n);
    TrimsNothingIff(n);
    NormalFormOfCore(cap);
    NormalTextTight(Core(cap));
  }

  /** An input that meets the bad case: the second pass strips the blank that the first one
      uncovered. */
  lemma NormalizeNotIdempotent()
    ensures NormalizeCapability(NormalizeCapability("a>b >")) != NormalizeCapability("a>b >")
  {
  }

  /** What normalizing drops is white space and separators around a core that starts and ends
      with neither separator. */
  lemma CoreCut(cap: string) returns (pre: string, post: string)
    ensures cap == pre + Core(cap) + post
    ensures forall c | c in pre :: IsSpace(c) || IsSeparator(c)
    ensures forall c | c in post :: IsSpace(c) || IsSeparator(c)
    ensures Core(cap) == "" || (!IsSeparator(Core(cap)[0]) && !IsSeparator(Core(cap)[|Core(cap)| - 1]))
  {
    var a, d := TrimCuts(cap, c => IsSpace(c));
    var b, c := TrimCuts(TrimSpace(cap), c => IsSeparator(c));
    pre, post := a + b, c + d;
    Regroup(a, b, Core(cap), c, d);
  }

  lemma Regroup(a: string, b: string, mid: string, c: string, d: string)
    ensures a + (b + mid + c) + d == (a + b) + mid + (c + d)
  {
  }

  /** Every character of a normal form is the lower-case form of one of the core's, with the
      separator '>' for '/'. */
  lemma NormalizedText(cap: string)
    ensures var (n, core) := (NormalizeCapability(cap), Core(cap));
            |n| == |core| && forall i | 0 <= i < |core| ::
              n[i] == if core[i] == '/' then '>'
                      else if 'A' <= core[i] <= 'Z' then (core[i] as int + 32) as char else core[i]
  {
    NormalFormOfCore(cap);
  }

  /** The top-level category of a capability is its first segment. */
  lemma TopLevelIsFirst(cap: string)
    ensures TopLevelCategory(cap) == Split(cap, '>')[0]
  {
  }

  lemma {:induction false} ByteLenConcat(a: string, b: string)
    ensures ByteLen(a + b) == ByteLen(a) + ByteLen(b)
  {
    if a == "" {
      assert a + b == b;
    } else {
      assert (a + b)[1..] == a[1..] + b;
      ByteLenConcat(a[1..], b);
    }
  }

  /** ASCII text, and no other, has as many bytes as characters. */
  lemma {:induction false} AsciiBytes(s: string)
    ensures |s| <= ByteLen(s) <= 4 * |s|
    ensures ByteLen(s) == |s| <==> forall c | c in s :: c as int < 128
  {
    if s != "" {
      AsciiBytes(s[1..]);
      var k := ByteLen(s) - ByteLen(s[1..]);
      assert 1 <= k <= 4 && (k == 1 <==> s[0] as int < 128);
      if forall c | c in s[1..] :: c as int < 128 {
        assert s[0] in s && forall c | c in s :: c == s[0] || c in s[1..];
      } else {
        var c :| c in s[1..] && c as int >= 128;
        assert c in s;
      }
    }
  }

  lemma ValidSegments(levels: seq<string>)
    ensures (forall p | p in levels :: ValidSegment(p)) <==> (forall p | p in levels :: 1 <= ByteLen(p) <= 100)
  {
    forall p | p in levels ensures ValidSegment(p) <==> 1 <= ByteLen(p) <= 100 {
      if p != "" { AsciiBytes(p); }
    }
  }

  lemma SlugRunes(s: string)
    ensures (forall c | c in s :: IsSlugRune(c)) <==>
            forall c | c in s :: 'a' <= c <= 'z' || 'A' <= c <= 'Z' || '0' <= c <= '9' || c == '-' || c == '_'
  {
  }

  /** Which paths are accepted: one to three levels of 1 to 100 bytes each, 200 bytes in all,
      the first of letters, digits, hyphens and underscores. */
  lemma ValidJoinIff(levels: seq<string>)
    requires levels != [] && forall p | p in levels :: '>' !in p
    ensures ValidCapability(Join(levels, '>')) <==>
            && |levels| <= 3 && (forall p | p in levels :: 1 <= ByteLen(p) <= 100)
            && ByteLen(Join(levels, '>')) <= 200
            && forall c | c in levels[0] ::
                 'a' <= c <= 'z' || 'A' <= c <= 'Z' || '0' <= c <= '9' || c == '-' || c == '_'
  {
    var path := Join(levels, '>');
    SplitJoin(levels, '>');
    ValidSegments(levels);
    SlugRunes(levels[0]);
    if path == "" { assert Split("", '>')[0] == "" && ByteLen(levels[0]) == 0; }
    assert ValidCapability(path) <==>
           path != "" && ByteLen(path) <= 200 && |levels| <= 3
           && (forall p | p in levels :: ValidSegment(p)) && (forall c | c in levels[0] :: IsSlugRune(c));
  }

  /** A skill slug, character by character: the ID inside its outer white space, in lower
      case and with hyphens for blanks. */
  lemma SlugText(id: string) returns (pre: string, core: string, post: string)
    ensures id == pre + core + post && Tight(core)
    ensures (forall c | c in pre :: IsSpace(c)) && (forall c | c in post :: IsSpace(c))
    ensures var slug := SlugifySkillID(id);
            |slug| == |core| && forall i | 0 <= i < |core| ::
              && slug[i] != ' ' && !('A' <= slug[i] <= 'Z')
              && slug[i] == if core[i] == ' ' then '-'
                            else if 'A' <= core[i] <= 'Z' then (core[i] as int + 32) as char else core[i]
  {
    core := TrimSpace(id);
    pre, post := TrimCuts(id, c => IsSpace(c));
  }

  /** The category that a URI carries survives the normalization that Resolve applies, and is
      slug-safe; so looking an agent up by it finds the capability it came from. */
  lemma CategoryIsFixedPoint(cap: string)
    requires ValidCapability(NormalizeCapability(cap))
    ensures var category := TopLevelCategory(NormalizeCapability(cap));
            && category != "" && (forall c | c in category :: IsSlugRune(c))
            && NormalizeCapability(category) == category
  {
    var n := NormalizeCapability(cap);
    var category := TopLevelCategory(n);
    TopLevelIsFirst(n);
    NormalizedForm(cap);
    SplitParts(n, '>');
    assert category in Split(n, '>');
    assert forall c | c in category :: c in n;
    SlugTrims(category);
    NormalizeFixes(category);
  }
}
