/** E-mail tokens. A token is used by a transaction that first reads it and then marks it used,
    at the isolation level READ COMMITTED, so the row may change in between. How often a token
    can be used. */
module Tokens {
  import opened AgentTable
  import Registry
  import opened Lifecycle

  /** How often a token has been used. */
  function Uses(spent: seq<string>, token: string): nat {
    if spent == [] then 0 else Uses(spent[..|spent| - 1], token) + if spent[|spent| - 1] == token then 1 else 0
  }

  /** The calls that have read a token and have still to mark it used. */
  function Holders(s: World, token: string): set<ThreadId> {
    set t | t in s.threads && s.threads[t].TokenRead? && s.threads[t].token == token
  }

  /** What a call must find to get past the SELECT. */
  predicate Usable(s: World, token: string, isEmail: bool) {
    && token in s.proofs.tokens
    && var k := s.proofs.tokens[token]; k.isEmailVerification == isEmail && !k.used && s.now <= k.expiresAt
  }

  /** A call that nothing interleaves with: it uses the token exactly if the token is there, of
      the right type, unused and not expired; it then marks it used, and verifies the address of
      the user it was made out to if it is for that. Otherwise it changes nothing. */
  lemma UndisturbedUse(s: World, t: ThreadId, token: string, isEmail: bool)
    requires t !in s.threads
    ensures var s' := DoSpendToken(DoReadToken(s, t, token, isEmail), t);
            var p := s.proofs;
            if token in p.tokens && p.tokens[token].isEmailVerification == isEmail && !p.tokens[token].used
               && s.now <= p.tokens[token].expiresAt
            then
              && s'.spent == s.spent + [token] && s'.threads == s.threads
              && s'.proofs.tokens == p.tokens[token := p.tokens[token].(used := true)]
              && s'.proofs.users == (if isEmail && p.tokens[token].user in p.users
                                     then p.users[p.tokens[token].user := true] else p.users)
            else s' == s
  {
    var s1 := DoReadToken(s, t, token, isEmail);
    if s1 != s { assert s1.threads - {t} == s.threads; }
  }

  // ------------------------------------------------------- what every step keeps

  /** What a call read of a token is still right but for the mark, and tokens are marked used
      exactly when they have been used. */
  ghost predicate TokensOk(s: World) {
    && (forall t | t in s.threads && s.threads[t].TokenRead? :: HoldsToken(s.proofs, s.threads[t]))
    && forall token :: Uses(s.spent, token) > 0 <==> token in s.proofs.tokens && s.proofs.tokens[token].used
  }

  predicate HoldsToken(p: Proofs, ph: Phase)
    requires ph.TokenRead?
  {
    ph.token in p.tokens && ph.found == p.tokens[ph.token].(used := false)
  }

  predicate AboutTokens(step: Step) { step.CreateToken? || step.ReadToken? || step.SpendToken? }

  lemma OtherTables(cfg: Registry.Config, s: World, step: Step)
    requires !AboutTokens(step)
    ensures var s' := Next(cfg, s, step);
            s'.proofs.tokens == s.proofs.tokens && s'.spent == s.spent && s'.now >= s.now
  {
  }

  lemma OtherCalls(cfg: Registry.Config, s: World, step: Step)
    requires !AboutTokens(step)
    ensures var s' := Next(cfg, s, step);
            && (forall t | t in s'.threads && s'.threads[t].TokenRead? ::
                  t in s.threads && s'.threads[t] == s.threads[t])
            && (forall t | t in s.threads && s.threads[t].TokenRead? ::
                  t in s'.threads && s'.threads[t] == s.threads[t])
  {
  }

  lemma OneMore(spent: seq<string>, used: string, token: string)
    ensures Uses(spent + [used], token) == Uses(spent, token) + if used == token then 1 else 0
  {
    assert (spent + [used])[..|spent|] == spent;
  }

  lemma SpendKeepsTokens(s: World, t: ThreadId)
    requires TokensOk(s)
    ensures TokensOk(DoSpendToken(s, t))
  {
    var s' := DoSpendToken(s, t);
    if s' != s {
      assert HoldsToken(s.proofs, s.threads[t]);
      forall token
        ensures Uses(s'.spent, token) > 0 <==> token in s'.proofs.tokens && s'.proofs.tokens[token].used
      {
        OneMore(s.spent, s.threads[t].token, token);
      }
      forall u | u in s'.threads && s'.threads[u].TokenRead? ensures HoldsToken(s'.proofs, s'.threads[u]) {
        assert HoldsToken(s.proofs, s.threads[u]);
      }
    }
  }

  lemma ReadKeepsTokens(s: World, t: ThreadId, token: string, isEmail: bool)
    requires TokensOk(s)
    ensures TokensOk(DoReadToken(s, t, token, isEmail))
  {
    var s' := DoReadToken(s, t, token, isEmail);
    forall u | u in s'.threads && s'.threads[u].TokenRead? ensures HoldsToken(s'.proofs, s'.threads[u]) {
      if u != t { assert HoldsToken(s.proofs, s.threads[u]); }
    }
  }

  lemma CreateKeepsTokens(s: World, step: Step)
    requires TokensOk(s) && step.CreateToken?
    ensures TokensOk(s.(proofs := DoUser(s.proofs, step)))
  {
    var s' := s.(proofs := DoUser(s.proofs, step));
    forall u | u in s'.threads && s'.threads[u].TokenRead? ensures HoldsToken(s'.proofs, s'.threads[u]) {
      assert HoldsToken(s.proofs, s.threads[u]);
    }
  }

  lemma NextKeepsTokens(cfg: Registry.Config, s: World, step: Step)
    requires TokensOk(s)
    ensures TokensOk(Next(cfg, s, step))
  {
    if step.SpendToken? {
      SpendKeepsTokens(s, step.t);
    } else if step.ReadToken? {
      ReadKeepsTokens(s, step.t, step.token, step.isEmailVerification);
    } else if step.CreateToken? {
      CreateKeepsTokens(s, step);
    } else {
      OtherTables(cfg, s, step);
      OtherCalls(cfg, s, step);
    }
  }

  lemma {:induction false} RunKeepsTokens(cfg: Registry.Config, s: World, steps: seq<Step>)
    requires TokensOk(s)
    ensures TokensOk(Run(cfg, s, steps))
    decreases |steps|
  {
    if steps != [] {
      NextKeepsTokens(cfg, s, steps[0]);
      RunKeepsTokens(cfg, Next(cfg, s, steps[0]), steps[1..]);
    }
  }

  // ------------------------------------------------------- how often

  /** No further call gets past the SELECT. */
  predicate Closed(s: World, token: string) {
    && token in s.proofs.tokens && (s.proofs.tokens[token].used || s.now > s.proofs.tokens[token].expiresAt)
  }

  /** A call comes to hold a token only by reading it unused and not expired, and only by using
      it does one cease to. */
  lemma HoldersAfter(cfg: Registry.Config, s: World, step: Step, token: string)
    ensures var s' := Next(cfg, s, step);
            var (before, after) := (Holders(s, token), Holders(s', token));
            if step.ReadToken? && step.t !in s.threads && step.token == token
               && Usable(s, token, step.isEmailVerification)
            then after == before + {step.t} && step.t !in before && s'.spent == s.spent
            else if step.SpendToken? && step.t in before
            then after == before - {step.t} && s'.spent == s.spent + [token]
            else after == before && Uses(s'.spent, token) == Uses(s.spent, token)
  {
    if !AboutTokens(step) {
      OtherTables(cfg, s, step);
      OtherCalls(cfg, s, step);
    } else if step.SpendToken? && Next(cfg, s, step) != s {
      OneMore(s.spent, s.threads[step.t].token, token);
    }
  }

  lemma ClosedStays(cfg: Registry.Config, s: World, step: Step, token: string)
    requires Closed(s, token)
    ensures Closed(Next(cfg, s, step), token)
  {
    if !AboutTokens(step) { OtherTables(cfg, s, step); }
  }

  lemma UseConserved(cfg: Registry.Config, s: World, step: Step, token: string)
    requires Closed(s, token)
    ensures var s' := Next(cfg, s, step);
            && Holders(s', token) <= Holders(s, token)
            && Uses(s'.spent, token) + |Holders(s', token)| == Uses(s.spent, token) + |Holders(s, token)|
  {
    HoldersAfter(cfg, s, step, token);
    OneMore(s.spent, token, token);
  }

  /** Once a token is used or has expired, uses and calls holding it are kept in sum: each
      further use is by a call that read it before. */
  lemma {:induction false} UsesConserved(cfg: Registry.Config, s: World, steps: seq<Step>, token: string)
    requires Closed(s, token)
    ensures var s' := Run(cfg, s, steps);
            && Closed(s', token) && Holders(s', token) <= Holders(s, token)
            && Uses(s'.spent, token) + |Holders(s', token)| == Uses(s.spent, token) + |Holders(s, token)|
    decreases |steps|
  {
    if steps != [] {
      ClosedStays(cfg, s, steps[0], token);
      UseConserved(cfg, s, steps[0], token);
      UsesConserved(cfg, Next(cfg, s, steps[0]), steps[1..], token);
    }
  }

  /** The steps use the token no further. */
  ghost predicate Unused(cfg: Registry.Config, s: World, token: string, steps: seq<Step>) {
    Uses(Run(cfg, s, steps).spent, token) == Uses(s.spent, token)
  }

  /** The exact condition: a used or expired token is never used again, whatever follows, if
      and only if no call holds it. */
  lemma NeverAgainIff(cfg: Registry.Config, s: World, token: string)
    requires Closed(s, token)
    ensures (forall steps :: Unused(cfg, s, token, steps)) <==> Holders(s, token) == {}
  {
    if Holders(s, token) == {} {
      forall steps ensures Unused(cfg, s, token, steps) {
        UsesConserved(cfg, s, steps, token);
      }
    } else {
      var t :| t in Holders(s, token);
      UseNow(cfg, s, t, token);
    }
  }

  lemma UseNow(cfg: Registry.Config, s: World, t: ThreadId, token: string)
    requires t in Holders(s, token)
    ensures !Unused(cfg, s, token, [SpendToken(t)])
  {
    RunFirst(cfg, s, SpendToken(t), []);
    assert [SpendToken(t)] + [] == [SpendToken(t)];
    OneMore(s.spent, token, token);
  }

  /** No call reads the token while another holds it. */
  ghost predicate OneAtATime(cfg: Registry.Config, s: World, steps: seq<Step>, token: string)
    decreases |steps|
  {
    steps == [] ||
    (!(steps[0].ReadToken? && steps[0].token == token && Holders(s, token) != {})
     && OneAtATime(cfg, Next(cfg, s, steps[0]), steps[1..], token))
  }

  lemma TurnTaken(cfg: Registry.Config, s: World, step: Step, token: string)
    requires TokensOk(s) && !(step.ReadToken? && step.token == token && Holders(s, token) != {})
    requires Uses(s.spent, token) + |Holders(s, token)| <= 1
    ensures var s' := Next(cfg, s, step); Uses(s'.spent, token) + |Holders(s', token)| <= 1
  {
    HoldersAfter(cfg, s, step, token);
    OneMore(s.spent, token, token);
  }

  lemma {:induction false} OnceFrom(cfg: Registry.Config, s: World, steps: seq<Step>, token: string)
    requires TokensOk(s) && OneAtATime(cfg, s, steps, token) && Uses(s.spent, token) + |Holders(s, token)| <= 1
    ensures Uses(Run(cfg, s, steps).spent, token) <= 1
    decreases |steps|
  {
    if steps != [] {
      NextKeepsTokens(cfg, s, steps[0]);
      TurnTaken(cfg, s, steps[0], token);
      OnceFrom(cfg, Next(cfg, s, steps[0]), steps[1..], token);
    }
  }

  /** Every token is used at most once in every run in which the calls that use it take turns,
      whatever else interleaves. */
  lemma UsedOnce(cfg: Registry.Config, steps: seq<Step>, token: string)
    requires OneAtATime(cfg, INIT, steps, token)
    ensures Uses(Run(cfg, INIT, steps).spent, token) <= 1
  {
    OnceFrom(cfg, INIT, steps, token);
  }

  /** Taking turns is what it needs: from any state with a usable token there is a run in which
      two calls use it. */
  lemma UsedTwice(cfg: Registry.Config, s: World, t: ThreadId, u: ThreadId, token: string, isEmail: bool)
    returns (steps: seq<Step>)
    requires t !in s.threads && u !in s.threads && t != u && Usable(s, token, isEmail)
    ensures Run(cfg, s, steps).spent == s.spent + [token, token]
  {
    var (a, b) := (ReadToken(t, token, isEmail), ReadToken(u, token, isEmail));
    BothUse(s, t, u, token, isEmail);
    var s2 := DoReadToken(DoReadToken(s, t, token, isEmail), u, token, isEmail);
    RunTwo(cfg, s, a, b);
    RunTwo(cfg, s2, SpendToken(t), SpendToken(u));
    RunConcat(cfg, s, [a, b], [SpendToken(t), SpendToken(u)]);
    steps := [a, b] + [SpendToken(t), SpendToken(u)];
  }

  lemma RunTwo(cfg: Registry.Config, s: World, a: Step, b: Step)
    ensures Run(cfg, s, [a, b]) == Next(cfg, Next(cfg, s, a), b)
  {
    RunFirst(cfg, s, a, [b]);
    RunFirst(cfg, Next(cfg, s, a), b, []);
    assert [a, b] == [a] + [b] && [b] == [b] + [];
  }

  lemma BothUse(s: World, t: ThreadId, u: ThreadId, token: string, isEmail: bool)
    requires t !in s.threads && u !in s.threads && t != u && Usable(s, token, isEmail)
    ensures var s2 := DoReadToken(DoReadToken(s, t, token, isEmail), u, token, isEmail);
            DoSpendToken(DoSpendToken(s2, t), u).spent == s.spent + [token, token]
  {
    var s2 := DoReadToken(DoReadToken(s, t, token, isEmail), u, token, isEmail);
    var k := s.proofs.tokens[token];
    assert s2.threads == s.threads[t := TokenRead(token, k)][u := TokenRead(token, k)];
    var s3 := DoSpendToken(s2, t);
    assert s3.spent == s.spent + [token] && u in s3.threads;
  }
}
