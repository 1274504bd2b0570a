/** The agent:// URI scheme: parsing (on top of the generic URL grammar), printing, and the
    agreement of the two. Inputs are free of percent escapes throughout. */
module Uri {
  import opened Strings

  // ------------------------------------------------------- generic URL syntax

  predicate IsCtl(c: char) { c < ' ' || c == '\U{7f}' }

  predicate HasCtl(s: string) { exists k | 0 <= k < |s| :: IsCtl(s[k]) }

  predicate IsAlpha(c: char) { 'a' <= c <= 'z' || 'A' <= c <= 'Z' }

  predicate IsDigit(c: char) { '0' <= c <= '9' }

  /** Letters, digits, anything outside ASCII, and !"$&'()*+,-.:;<=>[]_~ */
  predicate HostChar(c: char) {
    || c >= '\U{80}' || IsAlpha(c) || IsDigit(c) || c == '!' || c == '"' || c == '$' || '&' <= c <= '.'
    || ':' <= c <= '>' || c == '[' || c == ']' || c == '_' || c == '~'
  }

  predicate UserinfoChar(c: char) {
    || IsAlpha(c) || IsDigit(c) || c == '!' || '$' <= c <= '.' || c == ':' || c == ';' || c == '='
    || c == '@' || c == '_' || c == '~'
  }

  /** From position i on: nothing, or a colon and digits. */
  predicate ValidOptionalPort(s: string, i: nat)
    requires i <= |s|
  {
    i == |s| || (s[i] == ':' && forall k | i < k < |s| :: IsDigit(s[k]))
  }

  predicate ValidHost(host: string) {
    && (forall k | 0 <= k < |host| :: HostChar(host[k]))
    && if host != "" && host[0] == '[' then
         var i := LastIndex(host, ']');
         i != -1 && ValidOptionalPort(host, i + 1)
       else
         var i := LastIndex(host, ':');
         i == -1 || ValidOptionalPort(host, i)
  }

  predicate ValidUserinfo(authority: string, end: nat)
    requires end <= |authority|
  {
    forall k | 0 <= k < end :: UserinfoChar(authority[k])
  }

  datatype Url = Url(scheme: string, host: string, path: string)

  /** The host of an authority, without any user information in front of it. */
  function ParseAuthority(authority: string): Option<string> {
    var i := LastIndex(authority, '@');
    var host := authority[i + 1..];
    if ValidHost(host) && (i >= 0 ==> ValidUserinfo(authority, i)) then Some(host) else None
  }

  /** What follows the scheme: "//" and an authority, a rooted path, or opaque text. */
  function HierPart(scheme: string, rest: string): Option<Url> {
    if "//" <= rest then
      var end := Find(rest, '/', 2);
      var host := ParseAuthority(rest[2..end]);
      if host.None? then None else Some(Url(scheme, host.value, rest[end..]))
    else Some(Url(scheme, "", if "/" <= rest then rest else ""))
  }

  /** Position of the colon that ends a scheme, or -1 when the text has no scheme. */
  function SchemeColon(s: string, i: nat): (c: int)
    requires i <= |s|
    ensures c == -1 || (i <= c < |s| && s[c] == ':')
    decreases |s| - i
  {
    if i == |s| then -1
    else if IsAlpha(s[i]) then SchemeColon(s, i + 1)
    else if IsDigit(s[i]) || s[i] == '+' || s[i] == '-' || s[i] == '.' then
      if i == 0 then -1 else SchemeColon(s, i + 1)
    else if s[i] == ':' then i
    else -1
  }

  /** raw up to its first '#'. */
  function WithoutFragment(raw: string): string { raw[..Find(raw, '#', 0)] }

  /** url.Parse, down to the three parts the agent scheme looks at. Texts without a scheme
      are not taken apart: the caller rejects them whatever they hold. */
  function UrlParse(raw: string): Option<Url>
    requires '%' !in raw
  {
    var u := WithoutFragment(raw);
    var colon := SchemeColon(u, 0);
    if HasCtl(u) || colon == 0 then None
    else if colon == -1 then Some(Url("", "", ""))
    else HierPart(ToLower(u[..colon]), u[colon + 1..Find(u, '?', colon + 1)])
  }

  // ------------------------------------------------------- the agent scheme

  datatype URI = URI(orgName: string, category: string, primarySkill: string, agentID: string)

  datatype ParseError =
    InvalidURI | UnsupportedScheme | MissingOrg | MissingPath | TooFewSegments | BadOrg | BadCategory | BadAgentID

  datatype ParseResult = Ok(uri: URI) | Err(error: ParseError)

  predicate ValidSegment(s: string) {
    s != "" && ' ' !in s && '\\' !in s && '?' !in s && '#' !in s
  }

  predicate ValidAgentID(id: string) { "agent_" <= id }

  function TrimSlash(path: string): string { if "/" <= path then path[1..] else path }

  function Parse(raw: string): ParseResult
    requires '%' !in raw
  {
    match UrlParse(raw)
    case None => Err(InvalidURI)
    case Some(u) =>
      if u.scheme != "agent" then Err(UnsupportedScheme)
      else if u.host == "" then Err(MissingOrg)
      else if TrimSlash(u.path) == "" then Err(MissingPath)
      else FromParts(u.host, Split(TrimSlash(u.path), '/'))
  }

  /** The components of a URI whose path has the given segments: category first, agent ID
      last, and a skill only when there are exactly three. */
  function FromParts(org: string, parts: seq<string>): ParseResult
    requires parts != []
  {
    if |parts| < 2 then Err(TooFewSegments)
    else
      var u := URI(org, parts[0], if |parts| == 3 then parts[1] else "", parts[|parts| - 1]);
      if !ValidSegment(u.orgName) then Err(BadOrg)
      else if !ValidSegment(u.category) then Err(BadCategory)
      else if !ValidAgentID(u.agentID) then Err(BadAgentID)
      else Ok(u)
  }

  const PREFIX: string := "agent://"

  /** The canonical text of a URI. */
  function Print(u: URI): string {
    PREFIX + u.orgName + "/" + PathOf(u)
  }

  function PathOf(u: URI): string {
    if u.primarySkill != "" then u.category + "/" + u.primarySkill + "/" + u.agentID
    else u.category + "/" + u.agentID
  }

  // ------------------------------------------------------- clean components

  predicate PathChar(c: char) { !IsCtl(c) && c != '?' && c != '#' && c != '%' }

  /** Text that passes through a URL path unchanged. */
  predicate PathText(s: string) { forall k | 0 <= k < |s| :: PathChar(s[k]) }

  predicate CleanHost(host: string) {
    ValidHost(host) && PathText(host) && '/' !in host && '@' !in host
  }

  predicate CleanOrg(org: string) {
    ValidSegment(org) && CleanHost(org)
  }

  predicate CleanCategory(category: string) {
    ValidSegment(category) && PathText(category) && '/' !in category
  }

  predicate CleanID(id: string) { ValidAgentID(id) && PathText(id) && '/' !in id }

  predicate Clean(u: URI) {
    CleanOrg(u.orgName) && CleanCategory(u.category) && CleanID(u.agentID)
    && PathText(u.primarySkill) && '/' !in u.primarySkill
  }

  lemma PathTextConcat(a: string, b: string)
    ensures PathText(a + b) <==> PathText(a) && PathText(b)
  {
    if PathText(a + b) {
      assert forall k | 0 <= k < |a| :: a[k] == (a + b)[k];
      assert forall k | 0 <= k < |b| :: b[k] == (a + b)[|a| + k];
    }
  }

  lemma SlicesClean(s: string, i: nat, j: nat)
    requires i <= j <= |s| && PathText(s)
    ensures PathText(s[i..j]) && ('/' !in s ==> '/' !in s[i..j])
  {
  }

  lemma SuffixClean(s: string, i: nat)
    requires i <= |s| && PathText(s)
    ensures PathText(s[i..]) && ('/' !in s ==> '/' !in s[i..])
  {
  }

  lemma FindInConcat(a: string, c: char, b: string, n: nat)
    requires n <= |a| && forall k | n <= k < |a| :: a[k] != c
    ensures Find(a + [c] + b, c, n) == |a|
  {
    var s := a + [c] + b;
    assert s[|a|] == c;
    assert forall k | 0 <= k < |a| :: s[k] == a[k];
  }

  lemma SchemeOfPrefix(rest: string)
    ensures SchemeColon("agent:" + rest, 0) == 5
  {
    var s := "agent:" + rest;
    assert s[0] == 'a' && s[1] == 'g' && s[2] == 'e' && s[3] == 'n' && s[4] == 't' && s[5] == ':';
    assert SchemeColon(s, 5) == 5;
    assert SchemeColon(s, 3) == SchemeColon(s, 4) == 5;
    assert SchemeColon(s, 1) == SchemeColon(s, 2) == 5;
  }

  lemma CutsNothing(s: string, n: nat)
    requires PathText(s) && n <= |s|
    ensures Find(s, '?', n) == |s| && Find(s, '#', n) == |s|
  {
  }

  lemma UrlOfRest(rest: string)
    requires PathText(rest)
    ensures '%' !in "agent:" + rest && UrlParse("agent:" + rest) == HierPart("agent", rest)
  {
    var raw := "agent:" + rest;
    assert PathText("agent:");
    PathTextConcat("agent:", rest);
    CutsNothing(raw, 0);
    CutsNothing(raw, 6);
    assert WithoutFragment(raw) == raw;
    SchemeOfPrefix(rest);
    assert raw[..5] == "agent" && raw[6..|raw|] == rest;
    assert ToLower("agent") == "agent";
  }

  lemma AuthorityPlain(org: string)
    requires CleanHost(org)
    ensures ParseAuthority(org) == Some(org)
  {
  }

  lemma Slices(a: string, b: string, c: string)
    ensures (a + b + c)[|a|..|a| + |b|] == b && (a + b + c)[|a| + |b|..] == c
  {
  }

  lemma HierOfParts(scheme: string, org: string, path: string)
    requires CleanHost(org)
    ensures HierPart(scheme, "//" + org + "/" + path) == Some(Url(scheme, org, "/" + path))
  {
    var rest := "//" + org + "/" + path;
    FindInConcat("//" + org, '/', path, 2);
    assert rest == "//" + org + ("/" + path);
    Slices("//", org, "/" + path);
    AuthorityPlain(org);
  }

  /** A clean organisation and a clean path come out of the URL parser as they went in. */
  lemma UrlOfParts(org: string, path: string)
    requires CleanOrg(org) && PathText(path)
    ensures '%' !in PREFIX + org + "/" + path
    ensures UrlParse(PREFIX + org + "/" + path) == Some(Url("agent", org, "/" + path))
  {
    var rest := "//" + org + "/" + path;
    assert PREFIX + org + "/" + path == "agent:" + rest;
    assert PathText("/") && PathText("//");
    PathTextConcat("//", org);
    PathTextConcat("//" + org, "/");
    PathTextConcat("//" + org + "/", path);
    UrlOfRest(rest);
    HierOfParts("agent", org, path);
  }

  lemma ParseOfParts(org: string, path: string)
    requires CleanOrg(org) && PathText(path) && path != ""
    ensures '%' !in PREFIX + org + "/" + path
    ensures Parse(PREFIX + org + "/" + path) == FromParts(org, Split(path, '/'))
  {
    UrlOfParts(org, path);
    assert TrimSlash("/" + path) == path;
  }

  lemma PathOfClean(u: URI)
    requires PathText(u.category) && PathText(u.primarySkill) && CleanID(u.agentID)
    ensures PathText(PathOf(u)) && PathOf(u) != ""
  {
  }

  function Segments(u: URI): seq<string> {
    if u.primarySkill != "" then [u.category, u.primarySkill, u.agentID] else [u.category, u.agentID]
  }

  lemma SplitPath(u: URI)
    requires Clean(u)
    ensures Split(PathOf(u), '/') == Segments(u)
  {
    JoinThree(u.category, u.primarySkill, u.agentID, '/');
    JoinTwo(u.category, u.agentID, '/');
    SplitJoin(Segments(u), '/');
  }

  // ------------------------------------------------------- round trips

  /** Printing then parsing returns every clean tuple of components. */
  lemma ParsePrint(u: URI)
    requires Clean(u)
    ensures '%' !in Print(u) && Parse(Print(u)) == Ok(u)
  {
    PathOfClean(u);
    SplitPath(u);
    ParseOfParts(u.orgName, PathOf(u));
  }

  lemma AuthorityHost(authority: string, host: string)
    requires ParseAuthority(authority) == Some(host)
    ensures host == authority[LastIndex(authority, '@') + 1..] && ValidHost(host)
  {
    var i := LastIndex(authority, '@');
    if !(ValidHost(authority[i + 1..]) && (i >= 0 ==> ValidUserinfo(authority, i))) {
      assert false;
    }
  }

  lemma AfterLast(s: string, c: char)
    ensures c !in s[LastIndex(s, c) + 1..]
  {
  }

  /** The host of a clean authority is clean. */
  lemma HostOf(authority: string, host: string)
    requires PathText(authority) && '/' !in authority && ParseAuthority(authority) == Some(host)
    ensures CleanHost(host)
  {
    assert ValidHost(host) && host == authority[LastIndex(authority, '@') + 1..] by {
      AuthorityHost(authority, host);
    }
    AfterLast(authority, '@');
    SuffixClean(authority, LastIndex(authority, '@') + 1);
  }

  lemma HierOf(scheme: string, rest: string, u: Url)
    requires HierPart(scheme, rest) == Some(u) && u.host != ""
    ensures "//" <= rest
    ensures var end := Find(rest, '/', 2);
            ParseAuthority(rest[2..end]) == Some(u.host) && u.path == rest[end..]
  {
  }

  lemma BeforeSlash(s: string, n: nat)
    requires n <= |s|
    ensures '/' !in s[n..Find(s, '/', n)]
  {
  }

  /** What the URL parser hands over is free of the characters that would change meaning if
      printed again. */
  lemma HierParts(scheme: string, rest: string, u: Url)
    requires PathText(rest) && HierPart(scheme, rest) == Some(u) && u.host != ""
    ensures CleanHost(u.host) && PathText(u.path)
  {
    HierOf(scheme, rest, u);
    var end := Find(rest, '/', 2);
    SlicesClean(rest, 2, end);
    SuffixClean(rest, end);
    BeforeSlash(rest, 2);
    HostOf(rest[2..end], u.host);
  }

  lemma FragmentCut(raw: string)
    requires '%' !in raw
    ensures '%' !in WithoutFragment(raw) && '#' !in WithoutFragment(raw)
  {
  }

  lemma QueryCut(u: string, n: nat)
    requires n <= |u| && '%' !in u && '#' !in u && !HasCtl(u)
    ensures PathText(u[n..Find(u, '?', n)])
  {
  }

  lemma UrlParts(raw: string)
    requires '%' !in raw && UrlParse(raw).Some? && UrlParse(raw).value.host != ""
    ensures CleanHost(UrlParse(raw).value.host) && PathText(UrlParse(raw).value.path)
  {
    var u := WithoutFragment(raw);
    FragmentCut(raw);
    var colon := SchemeColon(u, 0);
    QueryCut(u, colon + 1);
    HierParts(ToLower(u[..colon]), u[colon + 1..Find(u, '?', colon + 1)], UrlParse(raw).value);
  }

  lemma SegmentsClean(path: string)
    requires PathText(path)
    ensures forall p | p in Split(path, '/') :: PathText(p) && '/' !in p
  {
  }

  /** Every URI that Parse returns is clean. */
  lemma ParseGivesClean(raw: string)
    requires '%' !in raw && Parse(raw).Ok?
    ensures Clean(Parse(raw).uri)
  {
    UrlParts(raw);
    var u := UrlParse(raw).value;
    var path := TrimSlash(u.path);
    if "/" <= u.path { SlicesClean(u.path, 1, |u.path|); }
    SegmentsClean(path);
    FromPartsClean(u.host, Split(path, '/'));
  }

  lemma FromPartsClean(org: string, parts: seq<string>)
    requires parts != [] && CleanHost(org) && forall p | p in parts :: PathText(p) && '/' !in p
    requires FromParts(org, parts).Ok?
    ensures Clean(FromParts(org, parts).uri)
  {
  }

  /** Canonical form: whatever escape-free text Parse accepts, with extra or empty middle
      segments, user information, a query or a fragment, printing the result and parsing it
      again gives the same components, and printing has reached a fixed point. */
  lemma CanonicalForm(raw: string)
    requires '%' !in raw && Parse(raw).Ok?
    ensures var u := Parse(raw).uri;
            && '%' !in Print(u) && Parse(Print(u)) == Ok(u)
            && Print(Parse(Print(u)).uri) == Print(u)
  {
    ParseGivesClean(raw);
    ParsePrint(Parse(raw).uri);
  }

  /** The exact set of component tuples that survive printing. */
  lemma RoundTripIff(u: URI)
    requires '%' !in Print(u)
    ensures Parse(Print(u)) == Ok(u) <==> Clean(u)
  {
    if Parse(Print(u)) == Ok(u) { ParseGivesClean(Print(u)); }
    if Clean(u) { ParsePrint(u); }
  }

  // ------------------------------------------------------- what is accepted

  predicate Letters(s: string) { forall k | 0 <= k < |s| :: IsAlpha(s[k]) }

  lemma {:induction false} SchemeOfLetters(scheme: string, rest: string, i: nat)
    requires Letters(scheme) && i <= |scheme|
    ensures SchemeColon(scheme + ":" + rest, i) == |scheme|
    decreases |scheme| - i
  {
    var s := scheme + ":" + rest;
    if i < |scheme| {
      assert s[i] == scheme[i];
      SchemeOfLetters(scheme, rest, i + 1);
    } else {
      assert s[i] == ':';
    }
  }

  lemma UrlOfScheme(scheme: string, rest: string)
    requires scheme != "" && Letters(scheme) && PathText(rest)
    ensures '%' !in scheme + ":" + rest
    ensures UrlParse(scheme + ":" + rest) == HierPart(ToLower(scheme), rest)
  {
    var raw := scheme + ":" + rest;
    assert PathText(scheme) && PathText(":");
    PathTextConcat(scheme, ":");
    PathTextConcat(scheme + ":", rest);
    CutsNothing(raw, 0);
    CutsNothing(raw, |scheme| + 1);
    assert WithoutFragment(raw) == raw;
    SchemeOfLetters(scheme, rest, 0);
    assert raw[..|scheme|] == scheme && raw[|scheme| + 1..|raw|] == rest;
  }

  lemma {:induction false} JoinIsPathText(segments: seq<string>)
    requires segments != [] && forall p | p in segments :: PathText(p)
    ensures PathText(Join(segments, '/'))
  {
    if |segments| > 1 {
      JoinIsPathText(segments[1..]);
      assert PathText("/");
      PathTextConcat(segments[0], "/");
      PathTextConcat(segments[0] + "/", Join(segments[1..], '/'));
    }
  }

  /** The text of an absolute URI. */
  function Absolute(scheme: string, org: string, segments: seq<string>): string
    requires segments != []
  {
    scheme + ":" + ("//" + org + "/" + Join(segments, '/'))
  }

  lemma UrlOfAbsolute(scheme: string, org: string, segments: seq<string>)
    requires scheme != "" && Letters(scheme) && CleanHost(org)
    requires segments != [] && forall p | p in segments :: PathText(p)
    ensures '%' !in Absolute(scheme, org, segments)
    ensures UrlParse(Absolute(scheme, org, segments)) == Some(Url(ToLower(scheme), org, "/" + Join(segments, '/')))
  {
    var path := Join(segments, '/');
    JoinIsPathText(segments);
    assert PathText("/") && PathText("//");
    PathTextConcat("//", org);
    PathTextConcat("//" + org, "/");
    PathTextConcat("//" + org + "/", path);
    UrlOfScheme(scheme, "//" + org + "/" + path);
    HierOfParts(ToLower(scheme), org, path);
  }

  /** Which texts are agent URIs, among those with a scheme of letters, a host that needs no
      escapes and any number of path segments: the scheme is agent in any case, the host is not
      empty and has neither blanks nor backslashes, there are two segments or more, the first
      not empty and likewise, and the last starts with agent_. What is returned are the host,
      the first segment, the middle one of three, and the last. */
  lemma AcceptedIff(scheme: string, org: string, segments: seq<string>) returns (raw: string, parsed: ParseResult)
    requires scheme != "" && Letters(scheme) && CleanHost(org)
    requires segments != [] && forall p | p in segments :: PathText(p) && '/' !in p
    ensures raw == scheme + ":" + ("//" + org + "/" + Join(segments, '/')) && '%' !in raw && parsed == Parse(raw)
    ensures var n := |segments|;
            && (parsed.Ok? <==>
                  && |scheme| == 5 && (forall i | 0 <= i < 5 :: scheme[i] in ["agent"[i], "AGENT"[i]])
                  && org != "" && ' ' !in org && '\\' !in org
                  && n >= 2 && segments[0] != "" && ' ' !in segments[0] && '\\' !in segments[0]
                  && "agent_" <= segments[n - 1])
            && (parsed.Ok? ==>
                  parsed.uri == URI(org, segments[0], if n == 3 then segments[1] else "", segments[n - 1]))
  {
    raw := Absolute(scheme, org, segments);
    UrlOfAbsolute(scheme, org, segments);
    AgentInAnyCase(scheme);
    FromPartsIff(org, segments);
    parsed := ParseOfUrl(raw, ToLower(scheme), org, segments);
  }

  lemma ParseOfUrl(raw: string, scheme: string, org: string, segments: seq<string>) returns (parsed: ParseResult)
    requires segments != [] && forall p | p in segments :: '/' !in p
    requires '%' !in raw && UrlParse(raw) == Some(Url(scheme, org, "/" + Join(segments, '/')))
    ensures parsed == Parse(raw)
    ensures parsed.Ok? <==> scheme == "agent" && org != "" && FromParts(org, segments).Ok?
    ensures parsed.Ok? ==> parsed == FromParts(org, segments)
  {
    parsed := Parse(raw);
    SplitJoin(segments, '/');
    assert TrimSlash("/" + Join(segments, '/')) == Join(segments, '/');
    if Join(segments, '/') == "" { EmptyJoin(segments); }
  }

  lemma EmptyJoin(segments: seq<string>)
    requires segments != [] && (forall p | p in segments :: '/' !in p) && Join(segments, '/') == ""
    ensures |segments| == 1
  {
    SplitJoin(segments, '/');
    assert Split("", '/') == [""];
  }

  lemma FromPartsIff(org: string, segments: seq<string>)
    requires PathText(org) && segments != [] && forall p | p in segments :: PathText(p)
    ensures var (r, n) := (FromParts(org, segments), |segments|);
            && (r.Ok? <==>
                  && org != "" && ' ' !in org && '\\' !in org
                  && n >= 2 && segments[0] != "" && ' ' !in segments[0] && '\\' !in segments[0]
                  && "agent_" <= segments[n - 1])
            && (r.Ok? ==> r.uri == URI(org, segments[0], if n == 3 then segments[1] else "", segments[n - 1]))
  {
    NoQueryText(org);
    NoQueryText(segments[0]);
  }

  lemma AgentInAnyCase(scheme: string)
    ensures ToLower(scheme) == "agent" <==>
            |scheme| == 5 && forall i | 0 <= i < 5 :: scheme[i] in ["agent"[i], "AGENT"[i]]
  {
    if |scheme| == 5 {
      var l := ToLower(scheme);
      forall i | 0 <= i < 5 ensures l[i] == "agent"[i] <==> scheme[i] in ["agent"[i], "AGENT"[i]] {
        LowerIs(scheme[i], "agent"[i], "AGENT"[i]);
      }
      assert l == "agent" <==> forall i | 0 <= i < 5 :: l[i] == "agent"[i];
    }
  }

  lemma LowerIs(c: char, lower: char, upper: char)
    requires 'a' <= lower <= 'z' && lower as int == upper as int + 32
    ensures LowerChar(c) == lower <==> c in [lower, upper]
  {
  }

  lemma NoQueryText(s: string)
    requires PathText(s)
    ensures ValidSegment(s) <==> s != "" && ' ' !in s && '\\' !in s
  {
  }

  // ------------------------------------------------------- skills of any shape

  /** The text parses, and to the organisation, category and agent ID it was printed from. */
  predicate ParsesBack(u: URI)
    requires '%' !in Print(u)
  {
    var p := Parse(Print(u));
    p.Ok? && p.uri.orgName == u.orgName && p.uri.category == u.category && p.uri.agentID == u.agentID
  }

  /** Whatever segments the skill falls into, the category stays first and the ID last. */
  lemma OuterSegments(u: URI)
    requires '/' !in u.category && '/' !in u.agentID
    ensures var parts := Split(PathOf(u), '/');
            |parts| >= 2 && parts[0] == u.category && parts[|parts| - 1] == u.agentID
  {
    if u.primarySkill != "" {
      var mid := Split(u.primarySkill, '/');
      SplitParts(u.primarySkill, '/');
      JoinAround(u.category, mid, u.agentID, '/');
      SplitJoin([u.category] + mid + [u.agentID], '/');
    } else {
      JoinTwo(u.category, u.agentID, '/');
      SplitJoin([u.category, u.agentID], '/');
    }
  }

  /** A '/' in the skill, or any other text without '?', '#' and control characters, does not
      disturb the other components. */
  lemma AnySkillParsesBack(u: URI)
    requires CleanOrg(u.orgName) && CleanCategory(u.category) && CleanID(u.agentID) && PathText(u.primarySkill)
    ensures '%' !in Print(u) && ParsesBack(u)
  {
    PathOfClean(u);
    OuterSegments(u);
    ParseOfParts(u.orgName, PathOf(u));
  }

  /** A '#' in front: the parser never sees what comes after. */
  lemma FragmentHidesTail(front: string, x: string)
    requires '#' in front
    ensures WithoutFragment(front + x) == WithoutFragment(front)
  {
    var i := Find(front, '#', 0);
    assert forall k | 0 <= k < |front| :: (front + x)[k] == front[k];
    assert Find(front + x, '#', 0) == i;
  }

  lemma NoFragment(front: string, x: string)
    requires '#' !in front && PathText(x)
    ensures WithoutFragment(front + x) == front + x
  {
  }

  lemma CtlOfConcat(front: string, x: string)
    requires PathText(x)
    ensures HasCtl(front + x) <==> HasCtl(front)
  {
    var s := front + x;
    forall k | 0 <= k < |s| ensures IsCtl(s[k]) ==> k < |front| && IsCtl(front[k]) {
      assert s[k] == if k < |front| then front[k] else x[k - |front|];
    }
    if HasCtl(front) {
      var k :| 0 <= k < |front| && IsCtl(front[k]);
      assert s[k] == front[k];
    }
  }

  /** A '?' in front: likewise. */
  lemma QueryHidesTail(front: string, x: string, n: nat)
    requires n <= |front| && Find(front, '?', n) < |front|
    ensures Find(front + x, '?', n) == Find(front, '?', n)
    ensures (front + x)[n..Find(front, '?', n)] == front[n..Find(front, '?', n)]
  {
    assert forall k | 0 <= k < |front| :: (front + x)[k] == front[k];
  }

  /** What comes after a text that is not path text does not influence parsing. */
  lemma UrlIgnoresTail(rest: string, x: string)
    requires var front := "agent:" + rest; '%' !in front && !PathText(front) && PathText(x)
    ensures '%' !in "agent:" + rest + x
    ensures UrlParse("agent:" + rest + x) == UrlParse("agent:" + rest)
  {
    var front := "agent:" + rest;
    if '#' in front {
      FragmentHidesTail(front, x);
    } else {
      NoFragment(front, x);
      NoFragment(front, "");
      assert front + "" == front;
      CtlOfConcat(front, x);
      if !HasCtl(front) {
        SchemeOfPrefix(rest);
        SchemeOfPrefix(rest + x);
        assert front + x == "agent:" + (rest + x);
        QueryIn(front);
        QueryHidesTail(front, x, 6);
        assert (front + x)[..5] == front[..5];
      }
    }
  }

  lemma QueryIn(front: string)
    requires "agent:" <= front && !PathText(front) && '%' !in front && '#' !in front && !HasCtl(front)
    ensures Find(front, '?', 6) < |front|
  {
  }

  /** Everything up to the agent ID, without "agent:". */
  function RestBeforeID(u: URI): string
    requires u.primarySkill != ""
  {
    "//" + u.orgName + "/" + u.category + "/" + u.primarySkill + "/"
  }

  lemma PrintAroundID(u: URI)
    requires u.primarySkill != ""
    ensures Print(u) == "agent:" + RestBeforeID(u) + u.agentID
  {
  }

  lemma BadRest(u: URI)
    requires !PathText(u.primarySkill) && '%' !in Print(u)
    ensures '%' !in "agent:" + RestBeforeID(u) && !PathText("agent:" + RestBeforeID(u))
  {
    var before := "agent:" + ("//" + u.orgName + "/" + u.category + "/");
    assert "agent:" + RestBeforeID(u) == before + u.primarySkill + "/";
    PathTextConcat(before, u.primarySkill);
    PathTextConcat(before + u.primarySkill, "/");
    PrintAroundID(u);
    var front := "agent:" + RestBeforeID(u);
    forall k | 0 <= k < |front| ensures front[k] != '%' {
      assert Print(u)[k] == front[k];
    }
  }

  /** With a skill that is not path text, two IDs cannot be told apart by parsing. */
  lemma BadSkillCollides(u: URI, v: URI)
    requires v == u.(agentID := v.agentID) && !PathText(u.primarySkill)
    requires '%' !in Print(u) && '%' !in Print(v) && PathText(u.agentID) && PathText(v.agentID)
    ensures Parse(Print(u)) == Parse(Print(v))
  {
    PrintAroundID(u);
    PrintAroundID(v);
    BadRest(u);
    UrlIgnoresTail(RestBeforeID(u), u.agentID);
    UrlIgnoresTail(RestBeforeID(u), v.agentID);
  }

  lemma PrintEscapeFree(u: URI)
    requires '%' !in u.orgName && '%' !in u.category && '%' !in u.primarySkill && '%' !in u.agentID
    ensures '%' !in Print(u)
  {
  }

  lemma TwoIDsParseBack(u: URI, v: URI)
    requires v == u.(agentID := v.agentID) && u.agentID != v.agentID
    requires '%' !in Print(u) && '%' !in Print(v) && PathText(u.agentID) && PathText(v.agentID)
    requires ParsesBack(u) && ParsesBack(v)
    ensures CleanOrg(u.orgName) && PathText(u.primarySkill)
  {
    ParseGivesClean(Print(u));
    if !PathText(u.primarySkill) { BadSkillCollides(u, v); }
  }

  /** Every agent ID parses back under this organisation, category and skill. */
  ghost predicate AlwaysParsesBack(org: string, category: string, skill: string) {
    forall id: string | CleanID(id) && '%' !in Print(URI(org, category, skill, id)) ::
      ParsesBack(URI(org, category, skill, id))
  }

  lemma CleanAlwaysParsesBack(org: string, category: string, skill: string)
    requires CleanCategory(category) && CleanOrg(org) && PathText(skill)
    ensures AlwaysParsesBack(org, category, skill)
  {
    forall id: string | CleanID(id) && '%' !in Print(URI(org, category, skill, id))
      ensures ParsesBack(URI(org, category, skill, id))
    {
      AnySkillParsesBack(URI(org, category, skill, id));
    }
  }

  lemma CleanIDs()
    ensures CleanID("agent_a") && CleanID("agent_b") && '%' !in "agent_a" && '%' !in "agent_b"
    ensures "agent_a" != "agent_b"
  {
  }

  lemma AlwaysParsesBackIsClean(org: string, category: string, skill: string)
    requires CleanCategory(category) && '%' !in org && '%' !in skill && AlwaysParsesBack(org, category, skill)
    ensures CleanOrg(org) && PathText(skill)
  {
    var (u, v) := (URI(org, category, skill, "agent_a"), URI(org, category, skill, "agent_b"));
    CleanIDs();
    assert !PathChar('%') && '%' !in category;
    PrintEscapeFree(u);
    PrintEscapeFree(v);
    TwoIDsParseBack(u, v);
  }

  /** The exact condition: for a clean category, every agent ID parses back under an
      organisation and a skill if and only if the organisation is clean and the skill has no
      '?', '#' or control character. */
  lemma ParsesBackIff(org: string, category: string, skill: string)
    requires CleanCategory(category) && '%' !in org && '%' !in skill
    ensures AlwaysParsesBack(org, category, skill) <==> CleanOrg(org) && PathText(skill)
  {
    if CleanOrg(org) && PathText(skill) {
      CleanAlwaysParsesBack(org, category, skill);
    } else if AlwaysParsesBack(org, category, skill) {
      AlwaysParsesBackIsClean(org, category, skill);
    }
  }
}
