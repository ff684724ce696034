/**
 * Exactly when a request under way obtains tokens, what that means for a session
 * that is already revoked, and when two requests obtain the same pair.
 */
module SessionGrants {
  import opened Prelude
  import opened Sessions
  import opened SessionProtocol

  // The row still knows the token; whether it is revoked plays no part.
  predicate Rotatable(s: System, token: Token) {
    token.sid in s.rows
    && (s.rows[token.sid].refreshTokenHash == HashOf(token) || InGrace(s.rows[token.sid], token, s.now))
  }

  // What the checks make of the row as it was when it was looked up.
  predicate Passes(cfg: Config, r: Request, now: Time) {
    match r.phase
    case Looked(_, snapshot) =>
      Verify(cfg.refreshSecret, r.token, now) == Genuine && !snapshot.isRevoked && now <= snapshot.expiresAt
    case Decided(_, action) => action.TryRotate?
    case Done(_) => false
  }

  // The steps a request has still to take.
  function Rest(req: Uuid, phase: Phase): seq<Step> {
    match phase
    case Looked(_, _) => [Check(req), Act(req)]
    case Decided(_, _) => [Act(req)]
    case Done(_) => []
  }

  lemma TwoSteps(cfg: Config, s: System, a: Step, b: Step)
    requires Inv(cfg, s)
    ensures Inv(cfg, Next(cfg, s, a)) && Exec(cfg, s, [a, b]) == Next(cfg, Next(cfg, s, a), b)
  {
    ExecCons(cfg, s, a, [b]);
    assert [a] + [b] == [a, b];
    OneStep(cfg, Next(cfg, s, a), b);
  }

  lemma OneStep(cfg: Config, s: System, a: Step)
    requires Inv(cfg, s)
    ensures Exec(cfg, s, [a]) == Next(cfg, s, a)
  {
    ExecCons(cfg, s, a, []);
    assert [a] + [] == [a];
  }

  // A request that decided to rotate is granted tokens exactly when the row still
  // knows its token.
  lemma DecidedGrantsIff(cfg: Config, s: System, req: Uuid)
    requires Inv(cfg, s) && req in s.reqs && s.reqs[req].phase.Decided?
    ensures IsGrant(Next(cfg, s, Act(req)), req)
            <==> s.reqs[req].phase.action.TryRotate? && Rotatable(s, s.reqs[req].token)
  {
    DecidedIsInformed(cfg, s, req);
  }

  lemma CheckDecides(cfg: Config, s: System, req: Uuid)
    requires Inv(cfg, s) && req in s.reqs && s.reqs[req].phase.Looked?
    ensures var r, t := s.reqs[req], Next(cfg, s, Check(req));
            && t.rows == s.rows && t.now == s.now && req in t.reqs && t.reqs[req].token == r.token
            && t.reqs[req].phase == Decided(r.phase.sid, Decide(cfg, r.phase.snapshot, r.token, s.now))
  {
  }

  // Left to finish undisturbed, a request is granted tokens exactly when it passes
  // the checks on what it saw and the row still knows its token.
  lemma GrantsIff(cfg: Config, s: System, req: Uuid)
    requires Inv(cfg, s) && req in s.reqs && !s.reqs[req].phase.Done?
    ensures IsGrant(Exec(cfg, s, Rest(req, s.reqs[req].phase)), req)
            <==> Passes(cfg, s.reqs[req], s.now) && Rotatable(s, s.reqs[req].token)
  {
    if s.reqs[req].phase.Looked? {
      TwoSteps(cfg, s, Check(req), Act(req));
      CheckDecides(cfg, s, req);
      DecidedGrantsIff(cfg, Next(cfg, s, Check(req)), req);
    } else {
      OneStep(cfg, s, Act(req));
      DecidedGrantsIff(cfg, s, req);
    }
  }

  // A session that is revoked gives out tokens, in whatever continuation, only to
  // requests that had been looked up before and pass on what they saw then; and
  // such a request is given them if it finishes while the row knows its token.
  lemma RevokedGrantsOnlyToThosePassed(cfg: Config, s: System, steps: seq<Step>, sid: Uuid, req: Uuid)
    requires Inv(cfg, s) && sid in s.rows && s.rows[sid].isRevoked && !IsGrant(s, req)
    ensures var t := Exec(cfg, s, steps);
            IsGrant(t, req) && t.reqs[req].token.sid == sid ==>
              req in s.reqs && s.reqs[req].token.sid == sid &&
              match s.reqs[req].phase
              case Looked(_, snapshot) => !snapshot.isRevoked && s.now <= snapshot.expiresAt
              case Decided(_, action) => action.TryRotate?
              case Done(_) => false
    ensures req in s.reqs && !s.reqs[req].phase.Done? ==>
              (IsGrant(Exec(cfg, s, Rest(req, s.reqs[req].phase)), req)
               <==> Passes(cfg, s.reqs[req], s.now) && Rotatable(s, s.reqs[req].token))
  {
    if Barred(s, sid, req) {
      ClosedRunStaysBarred(cfg, s, steps, sid, req);
    }
    TokenStays(cfg, s, steps, req);
    if req in s.reqs && !s.reqs[req].phase.Done? {
      GrantsIff(cfg, s, req);
    }
  }

  lemma StepKeepsToken(cfg: Config, s: System, step: Step, req: Uuid)
    requires TableOk(cfg, s.rows, s.now) && req in s.reqs
    ensures req in Next(cfg, s, step).reqs && Next(cfg, s, step).reqs[req].token == s.reqs[req].token
  {
  }

  lemma {:induction false} TokenStays(cfg: Config, s: System, steps: seq<Step>, req: Uuid)
    requires Inv(cfg, s)
    ensures var t := Exec(cfg, s, steps); req in s.reqs ==> req in t.reqs && t.reqs[req].token == s.reqs[req].token
    decreases |steps|
  {
    if steps != [] && req in s.reqs {
      NextKeepsInv(cfg, s, steps[0]);
      StepKeepsToken(cfg, s, steps[0], req);
      TokenStays(cfg, Next(cfg, s, steps[0]), steps[1..], req);
    }
  }

  // Reuse is detected exactly on a genuine token of a session seen as revoked; it
  // leaves the owner no active session and everybody else's alone.
  lemma ReuseIsDetectedIff(cfg: Config, s: System, req: Uuid)
    requires Inv(cfg, s) && req in s.reqs && s.reqs[req].phase.Looked?
    ensures var r, t := s.reqs[req], Next(cfg, s, Check(req));
            req in t.reqs && t.reqs[req].phase.Decided?
            && (t.reqs[req].phase.action.RevokeOwner?
                <==> Verify(cfg.refreshSecret, r.token, s.now) == Genuine && r.phase.snapshot.isRevoked)
    ensures var r, t := s.reqs[req], Exec(cfg, s, [Check(req), Act(req)]);
            Verify(cfg.refreshSecret, r.token, s.now) == Genuine && r.phase.snapshot.isRevoked ==>
              && !IsGrant(t, req) && t.rows.Keys == s.rows.Keys
              && (forall sid <- t.rows :: t.rows[sid].userId == s.rows[sid].userId)
              && (forall sid <- t.rows :: t.rows[sid].userId == r.token.sub ==> t.rows[sid].isRevoked)
              && (forall sid <- t.rows :: t.rows[sid].userId != r.token.sub ==> t.rows[sid] == s.rows[sid])
  {
    CheckDecides(cfg, s, req);
    TwoSteps(cfg, s, Check(req), Act(req));
    var mid := Next(cfg, s, Check(req));
    if mid.reqs[req].phase.action.RevokeOwner? {
      ReuseLocksOutTheOwner(cfg, mid, req);
    }
  }

  // ------------------------------------------------------------ two grants of one token

  // A granted pair is signed for the holder of the presented token, in one second.
  predicate Fits(cfg: Config, token: Token, pair: Pair) {
    && pair == PairOf(cfg, pair.refresh)
    && Minted(cfg, token, token.sub, token.sid) && Minted(cfg, pair.refresh, token.sub, token.sid)
    && pair.refresh.roles == token.roles && token.iat <= pair.refresh.iat
  }

  ghost predicate GrantsFit(cfg: Config, s: System) {
    forall q :: IsGrant(s, q) ==> Fits(cfg, s.reqs[q].token, PairFor(s, q))
  }

  lemma ActFits(cfg: Config, s: System, req: Uuid)
    requires Inv(cfg, s) && req in s.reqs && s.reqs[req].phase.Decided?
    ensures var t := Perform(cfg, s, req); IsGrant(t, req) ==> Fits(cfg, t.reqs[req].token, PairFor(t, req))
  {
    DecidedIsInformed(cfg, s, req);
  }

  lemma StepFits(cfg: Config, s: System, step: Step)
    requires Inv(cfg, s) && GrantsFit(cfg, s)
    ensures GrantsFit(cfg, Next(cfg, s, step))
  {
    var t := Next(cfg, s, step);
    if step.Act? && Enabled(s, step) {
      ActFits(cfg, s, step.req);
    }
    forall q | IsGrant(t, q) ensures Fits(cfg, t.reqs[q].token, PairFor(t, q)) {
      assert (step.Act? && step.req == q && Enabled(s, step)) || IsGrant(s, q);
    }
  }

  lemma {:induction false} RunFits(cfg: Config, s: System, steps: seq<Step>)
    requires Inv(cfg, s) && GrantsFit(cfg, s)
    ensures GrantsFit(cfg, Exec(cfg, s, steps))
    decreases |steps|
  {
    if steps != [] {
      StepFits(cfg, s, steps[0]);
      NextKeepsInv(cfg, s, steps[0]);
      RunFits(cfg, Next(cfg, s, steps[0]), steps[1..]);
    }
  }

  // In every run two requests granted the same token obtain the same pair exactly
  // when both or neither were answered with a pair of a later second.
  lemma SamePairIff(cfg: Config, start: Time, steps: seq<Step>, p: Uuid, q: Uuid)
    requires var t := Run(cfg, start, steps); IsGrant(t, p) && IsGrant(t, q) && t.reqs[p].token == t.reqs[q].token
    ensures var t := Run(cfg, start, steps); PairFor(t, p) == PairFor(t, q) <==> (Later(t, p) <==> Later(t, q))
  {
    InitIsOk(cfg, start);
    RunFits(cfg, Init(start), steps);
    var t := Run(cfg, start, steps);
    assert Fits(cfg, t.reqs[p].token, PairFor(t, p)) && Fits(cfg, t.reqs[q].token, PairFor(t, q));
    if Later(t, p) && Later(t, q) {
      RotatesAtMostOnce(cfg, start, steps, p, q);
    }
  }

  // ------------------------------------------- the protocol and the uninterrupted request

  // What the statement after the checks leaves, if it comes at once.
  lemma ActAtOnce(cfg: Config, s: System, req: Uuid, token: Token)
    requires TableOk(cfg, s.rows, s.now) && token.sid in s.rows && Matches(s.rows[token.sid], token)
    requires req in s.reqs && s.reqs[req].token == token
    requires s.reqs[req].phase == Decided(token.sid, Decide(cfg, s.rows[token.sid], token, s.now))
    ensures var t := Next(cfg, s, Act(req));
            && t.rows == Presented(cfg, s.rows, token, s.now)
            && (IsGrant(t, req) <==> Honours(cfg, s.rows, token, s.now))
            && (IsGrant(t, req) ==>
                  token.sid in t.rows && PairFor(t, req) == PairOf(cfg, t.rows[token.sid].refreshTokenHash.preimage))
  {
    RotateAnswers(cfg, token.sid, s.rows[token.sid], token.roles, token, s.now);
  }

  // The three steps of a request taken in one go are the middleware as a whole: the
  // same table, and tokens exactly when the table honours the one presented.
  lemma InOneGo(cfg: Config, s: System, req: Uuid, token: Token)
    requires Inv(cfg, s) && req !in s.reqs && token.sid in s.rows && Matches(s.rows[token.sid], token)
    ensures var t := Exec(cfg, s, [Look(req, token, token.sid), Check(req), Act(req)]);
            && t.rows == Presented(cfg, s.rows, token, s.now)
            && (IsGrant(t, req) <==> Honours(cfg, s.rows, token, s.now))
            && (IsGrant(t, req) ==>
                  token.sid in t.rows && PairFor(t, req) == PairOf(cfg, t.rows[token.sid].refreshTokenHash.preimage))
  {
    var look := Look(req, token, token.sid);
    ExecCons(cfg, s, look, [Check(req), Act(req)]);
    assert [look] + [Check(req), Act(req)] == [look, Check(req), Act(req)];
    var looked := Next(cfg, s, look);
    TwoSteps(cfg, looked, Check(req), Act(req));
    CheckDecides(cfg, looked, req);
    ActAtOnce(cfg, Next(cfg, looked, Check(req)), req, token);
  }
}
