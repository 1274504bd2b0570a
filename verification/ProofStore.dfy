/** The stores behind the verification gate: DNS challenges, users and their tokens, updated
    in place. Every method is shown to do what the statements of module Lifecycle do. */
module ProofStore {
  import opened AgentTable
  import opened Lifecycle

  datatype VerifyResult = ChallengeVerified | ChallengeNotFound | ChallengeExpired | VerificationFailed

  datatype TokenResult = Used(user: UserId) | TokenNotFound | AlreadyUsed | TokenExpired

  /** A system in which nothing but the given tables and the clock matters. */
  function Alone(p: Proofs, now: Time): Lifecycle.World {
    Lifecycle.World(map[], p, map[], now, {}, [], [], [])
  }

  /** The statements of one verification that nothing interleaves with, with the clock
      readings of the service, of the lookup's own check and of the reply. */
  function VerifyCall(p: Proofs, ch: ChallengeId, now: Time, checkAt: Time, replyAt: Time, found: bool): Proofs {
    var read := DoReadChallenge(Alone(p, now), 0, ch);
    var begun := DoCheckExpiry(read.(now := checkAt), 0);
    DoMarkVerified(DoTxtReply(begun.(now := replyAt), 0, found), 0).proofs
  }

  /** The two statements of one use of a token that nothing interleaves with. */
  function UseCall(p: Proofs, token: string, isEmail: bool, now: Time): Proofs {
    DoSpendToken(DoReadToken(Alone(p, now), 0, token, isEmail), 0).proofs
  }

  /** A token that can be used: present, of the type asked for, unused and not expired. */
  predicate Spendable(tokens: map<string, Token>, token: string, isEmail: bool, now: Time) {
    && token in tokens && tokens[token].isEmailVerification == isEmail && !tokens[token].used
    && now <= tokens[token].expiresAt
  }

  function WhyNot(tokens: map<string, Token>, token: string, isEmail: bool): TokenResult {
    if token !in tokens || tokens[token].isEmailVerification != isEmail then TokenNotFound
    else if tokens[token].used then AlreadyUsed else TokenExpired
  }

  class Store {
    var challenges: map<ChallengeId, Challenge>
    var users: map<UserId, bool>
    var tokens: map<string, Token>
    ghost var issued: map<ChallengeId, Time>
    ghost var evidence: map<ChallengeId, Evidence>
    ghost var answered: set<ChallengeId>

    ghost function View(): Proofs
      reads this
    {
      Proofs(challenges, users, tokens, issued, evidence, answered)
    }

    constructor ()
      ensures View() == Lifecycle.INIT.proofs
    {
      challenges, users, tokens, issued, evidence, answered := map[], map[], map[], map[], map[], {};
    }

    method StartChallenge(ch: ChallengeId, domain: string, now: Time) returns (ok: bool)
      requires ch !in issued
      modifies this
      ensures ok <==> domain != ""
      ensures View() == DoStartChallenge(Alone(old(View()), now), ch, domain).proofs
      ensures challenges == if ok then old(challenges)[ch := Challenge(domain, now + 900, false)] else old(challenges)
    {
      if domain == "" { return false; }
      challenges := challenges[ch := Challenge(domain, now + CHALLENGE_TTL, false)];
      issued := issued[ch := now + CHALLENGE_TTL];
      return true;
    }

    /** The TXT lookup is an outside event: found says whether it succeeds. */
    method VerifyChallenge(ch: ChallengeId, now: Time, checkAt: Time, replyAt: Time, found: bool)
      returns (r: VerifyResult)
      modifies this
      ensures View() == VerifyCall(old(View()), ch, now, checkAt, replyAt, found)
      ensures r == ChallengeVerified <==> ch in challenges && challenges[ch].verified
      ensures r == ChallengeNotFound <==> ch !in old(challenges)
      ensures ch in old(challenges) && !old(challenges)[ch].verified ==>
                var c := old(challenges)[ch];
                && (r == ChallengeExpired <==> now > c.expiresAt)
                && (r == VerificationFailed <==> now <= c.expiresAt && (checkAt > c.expiresAt || !found))
      ensures challenges == if r == ChallengeVerified then old(challenges)[ch := old(challenges)[ch].(verified := true)]
                            else old(challenges)
    {
      if ch !in challenges { return ChallengeNotFound; }
      var c := challenges[ch];
      if c.verified { return ChallengeVerified; }
      if now > c.expiresAt { return ChallengeExpired; }
      if checkAt > c.expiresAt || !found { return VerificationFailed; }
      evidence := evidence[ch := Evidence(checkAt, replyAt)];
      if ch in issued && replyAt <= issued[ch] { answered := answered + {ch}; }
      challenges := challenges[ch := c.(verified := true)];
      return ChallengeVerified;
    }

    method IsDomainVerified(domain: string) returns (ok: bool)
      ensures ok <==> exists ch | ch in challenges :: challenges[ch].domain == domain && challenges[ch].verified
    {
      var todo := challenges.Keys;
      while todo != {}
        invariant todo <= challenges.Keys
        invariant forall ch | ch in challenges && ch !in todo ::
                    !(challenges[ch].domain == domain && challenges[ch].verified)
        decreases |todo|
      {
        var ch :| ch in todo;
        if challenges[ch].domain == domain && challenges[ch].verified { return true; }
        todo := todo - {ch};
      }
      return false;
    }

    method DeleteExpired(now: Time) returns (n: nat)
      modifies this`challenges
      ensures View() == DoDeleteExpired(Alone(old(View()), now)).proofs
      ensures n == |old(challenges)| - |challenges|
      ensures forall ch :: ch in challenges <==>
                ch in old(challenges) && (old(challenges)[ch].verified || old(challenges)[ch].expiresAt >= now)
      ensures forall ch | ch in challenges :: challenges[ch] == old(challenges)[ch]
    {
      n := 0;
      var todo := challenges.Keys;
      ghost var before := challenges;
      while todo != {}
        invariant todo <= challenges.Keys
        invariant forall ch :: ch in challenges <==>
                    ch in before && (ch in todo || before[ch].expiresAt >= now || before[ch].verified)
        invariant forall ch | ch in challenges :: challenges[ch] == before[ch]
        invariant n + |challenges| == |before|
        decreases |todo|
      {
        var ch :| ch in todo;
        todo := todo - {ch};
        if challenges[ch].expiresAt < now && !challenges[ch].verified {
          ghost var rest := challenges - {ch};
          assert rest.Keys == challenges.Keys - {ch} && |rest| == |rest.Keys| && |challenges| == |challenges.Keys|;
          challenges := challenges - {ch};
          n := n + 1;
        }
      }
    }

    method CreateUser(u: UserId, viaOAuth: bool)
      modifies this`users
      ensures View() == DoUser(old(View()), Lifecycle.CreateUser(u, viaOAuth))
      ensures users == if u in old(users) then old(users) else old(users)[u := viaOAuth]
    {
      if u !in users { users := users[u := viaOAuth]; }
    }

    /** The branch of an OAuth login that finds an account by its e-mail address. */
    method LinkExisting(u: UserId)
      modifies this`users
      ensures View() == DoUser(old(View()), OAuthLogin(u))
      ensures u in users <==> u in old(users)
      ensures u in users ==> users[u]
      ensures forall v | v != u :: (v in users <==> v in old(users)) && (v in users ==> users[v] == old(users)[v])
    {
      if u in users && !users[u] { SetEmailVerified(u); }
    }

    method SetEmailVerified(u: UserId)
      modifies this`users
      ensures users == if u in old(users) then old(users)[u := true] else old(users)
    {
      if u in users { users := users[u := true]; }
    }

    method CreateToken(token: string, u: UserId, isEmailVerification: bool, expires: Time)
      modifies this`tokens
      ensures View() == DoUser(old(View()), Lifecycle.CreateToken(token, u, isEmailVerification, expires))
      ensures tokens == if token in old(tokens) || u !in users then old(tokens)
                        else old(tokens)[token := Token(u, isEmailVerification, expires, false)]
    {
      if token !in tokens && u in users { tokens := tokens[token := Token(u, isEmailVerification, expires, false)]; }
    }

    method UseVerificationToken(token: string, now: Time) returns (r: TokenResult)
      modifies this`tokens, this`users
      ensures View() == UseCall(old(View()), token, true, now)
      ensures r.Used? <==> Spendable(old(tokens), token, true, now)
      ensures r.Used? ==>
                && r.user == old(tokens)[token].user
                && tokens == old(tokens)[token := old(tokens)[token].(used := true)]
                && users == if r.user in old(users) then old(users)[r.user := true] else old(users)
      ensures !r.Used? ==> tokens == old(tokens) && users == old(users) && r == WhyNot(tokens, token, true)
    {
      if token !in tokens || !tokens[token].isEmailVerification { return TokenNotFound; }
      var k := tokens[token];
      if k.used { return AlreadyUsed; }
      if now > k.expiresAt { return TokenExpired; }
      tokens := tokens[token := k.(used := true)];
      SetEmailVerified(k.user);
      return Used(k.user);
    }

    method UsePasswordResetToken(token: string, now: Time) returns (r: TokenResult)
      modifies this`tokens
      ensures View() == UseCall(old(View()), token, false, now)
      ensures r.Used? <==> Spendable(old(tokens), token, false, now)
      ensures r.Used? ==>
                && r.user == old(tokens)[token].user
                && tokens == old(tokens)[token := old(tokens)[token].(used := true)]
      ensures !r.Used? ==> tokens == old(tokens) && r == WhyNot(tokens, token, false)
    {
      if token !in tokens || tokens[token].isEmailVerification { return TokenNotFound; }
      var k := tokens[token];
      if k.used { return AlreadyUsed; }
      if now > k.expiresAt { return TokenExpired; }
      tokens := tokens[token := k.(used := true)];
      return Used(k.user);
    }

    method IsEmailVerified(u: UserId) returns (ok: bool)
      ensures ok <==> u in users && users[u]
    {
      return u in users && users[u];
    }
  }

  /** A verification succeeds exactly for a challenge that was verified before, or is in time
      at both checks and has its TXT record found; when the reply comes does not matter. */
  lemma VerifyCallIff(p: Proofs, ch: ChallengeId, now: Time, checkAt: Time, replyAt: Time, found: bool)
    requires ch in p.challenges
    ensures VerifyCall(p, ch, now, checkAt, replyAt, found).challenges[ch].verified <==>
            var c := p.challenges[ch];
            c.verified || (now <= c.expiresAt && checkAt <= c.expiresAt && found)
  {
  }
}
