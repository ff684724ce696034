/**
 * The refresh protocol under concurrency. Every request is a look-up, then the
 * checks on the row it saw, then one database statement or the locked rotation;
 * between any two of these any number of steps of other requests may happen.
 *
 * A request that is over remembers what it obtained, so the map of requests is
 * also the history over which the theorems quantify.
 */
module SessionProtocol {
  import opened Prelude
  import opened Sessions

  datatype Outcome = Denied | LoggedOff | Granted(pair: Pair, at: Time, replay: bool)

  datatype Phase =
    | Looked(sid: Uuid, snapshot: Session)
    | Decided(target: Uuid, action: Action)
    | Done(outcome: Outcome)

  datatype Request = Request(token: Token, phase: Phase)

  datatype System = System(now: Time, rows: Table, reqs: map<Uuid, Request>, used: set<Uuid>)

  datatype Step =
    | Tick(now: Time)
    | SignIn(sid: Uuid, user: Uuid, roles: seq<UserRole>)
    | Look(req: Uuid, token: Token, found: Uuid)
    | LookNone(req: Uuid, token: Token)
    | LogoutLook(req: Uuid, token: Token, found: Uuid)
    | Check(req: Uuid)
    | Act(req: Uuid)
    | DropUser(user: Uuid)

  function Init(now: Time): System {
    System(now, map[], map[], {})
  }

  predicate Enabled(s: System, step: Step) {
    match step
    case Tick(now) => s.now <= now
    case SignIn(sid, _, _) => sid !in s.used
    case Look(req, token, found) => req !in s.reqs && found in s.rows && Matches(s.rows[found], token)
    case LookNone(req, token) => req !in s.reqs && forall sid <- s.rows :: !Matches(s.rows[sid], token)
    case LogoutLook(req, token, found) =>
      req !in s.reqs && found in s.rows && s.rows[found].refreshTokenHash == HashOf(token)
    case Check(req) => req in s.reqs && s.reqs[req].phase.Looked?
    case Act(req) => req in s.reqs && s.reqs[req].phase.Decided?
    case DropUser(_) => true
  }

  function Move(s: System, req: Uuid, phase: Phase): System
    requires req in s.reqs
  {
    s.(reqs := s.reqs[req := s.reqs[req].(phase := phase)])
  }

  // The statement or the locked transaction a decided request issues.
  function Perform(cfg: Config, s: System, req: Uuid): System
    requires TableOk(cfg, s.rows, s.now)
    requires req in s.reqs && s.reqs[req].phase.Decided?
  {
    var Request(token, Decided(sid, action)) := s.reqs[req];
    match action
    case RevokeOwner(user) => Move(s, req, Done(Denied)).(rows := RevokeAll(s.rows, user))
    case Retire(reason) =>
      var s' := Move(s, req, Done(Denied));
      if sid in s.rows then s'.(rows := s.rows[sid := Revoked(s.rows[sid], reason)]) else s'
    case LogOut =>
      var s' := Move(s, req, Done(LoggedOff));
      if sid in s.rows then s'.(rows := s.rows[sid := Revoked(s.rows[sid], LoggedOut)]) else s'
    case TryRotate(user, roles) =>
      if sid !in s.rows then Move(s, req, Done(Denied)) else
      var (row, answer) := Rotate(cfg, sid, s.rows[sid], roles, token, s.now);
      if answer.Refused? then Move(s, req, Done(Denied)) else
      Move(s, req, Done(Granted(answer.pair, s.now, answer.Replayed?))).(rows := s.rows[sid := row])
  }

  // One step; a step that is not enabled leaves the system alone.
  function Next(cfg: Config, s: System, step: Step): System
    requires TableOk(cfg, s.rows, s.now)
  {
    if !Enabled(s, step) then s else
    match step
    case Tick(now) => s.(now := now)
    case SignIn(sid, user, roles) =>
      s.(rows := s.rows[sid := NewSession(cfg, sid, user, roles, s.now)], used := s.used + {sid})
    case Look(req, token, found) =>
      s.(reqs := s.reqs[req := Request(token, Looked(found, s.rows[found]))])
    case LookNone(req, token) =>
      s.(reqs := s.reqs[req := Request(token, Done(Denied))])
    case LogoutLook(req, token, found) =>
      s.(reqs := s.reqs[req := Request(token,
        if s.rows[found].isRevoked then Done(LoggedOff) else Decided(found, LogOut))])
    case Check(req) =>
      var r := s.reqs[req];
      Move(s, req, Decided(r.phase.sid, Decide(cfg, r.phase.snapshot, r.token, s.now)))
    case Act(req) => Perform(cfg, s, req)
    case DropUser(user) =>
      s.(rows := map sid | sid in s.rows && s.rows[sid].userId != user :: s.rows[sid])
  }

  // ------------------------------------------------------------- the invariant

  // What a request still under way knows is about the session its token names.
  ghost predicate RequestOk(cfg: Config, s: System, r: Request) {
    match r.phase
    case Looked(sid, snapshot) =>
      sid == r.token.sid && sid in s.used && Minted(cfg, r.token, snapshot.userId, sid)
      && (sid in s.rows ==> s.rows[sid].userId == snapshot.userId && s.rows[sid].expiresAt == snapshot.expiresAt)
    case Decided(sid, action) =>
      && sid == r.token.sid && sid in s.used && Minted(cfg, r.token, r.token.sub, sid)
      && (sid in s.rows ==> s.rows[sid].userId == r.token.sub)
      && (action.TryRotate? ==> action == TryRotate(r.token.sub, r.token.roles))
      && (action.RevokeOwner? ==> action.user == r.token.sub)
    case Done(outcome) => outcome.Granted? ==> r.token.sid in s.used
  }

  // Every grant went either from the stored predecessor to the current token, or
  // to a token no younger than the predecessor.
  ghost predicate GrantOk(cfg: Config, s: System, r: Request)
    requires r.phase.Done? && r.phase.outcome.Granted?
  {
    r.token.sid in s.rows ==>
      var row := s.rows[r.token.sid];
      var pair := r.phase.outcome.pair;
      && row.rotatedAt.Some? && row.previousRefreshTokenHash.Some?
      && var current, previous := row.refreshTokenHash.preimage, row.previousRefreshTokenHash.value.preimage;
      && r.token.roles == current.roles
      && Minted(cfg, r.token, row.userId, r.token.sid)
      && r.token.iat <= pair.refresh.iat
      && ((r.token == previous && pair == PairOf(cfg, current)) || pair.refresh.iat <= previous.iat)
  }

  predicate IsGrant(s: System, q: Uuid) {
    q in s.reqs && s.reqs[q].phase.Done? && s.reqs[q].phase.outcome.Granted?
  }

  function PairFor(s: System, q: Uuid): Pair
    requires IsGrant(s, q)
  {
    s.reqs[q].phase.outcome.pair
  }

  // The token was superseded in a later second than the one it was issued in.
  predicate Later(s: System, q: Uuid)
    requires IsGrant(s, q)
  {
    s.reqs[q].token.iat < PairFor(s, q).refresh.iat
  }

  ghost predicate Agreement(s: System) {
    forall p, q | IsGrant(s, p) && IsGrant(s, q) && s.reqs[p].token == s.reqs[q].token && Later(s, p) && Later(s, q) ::
      && PairFor(s, p) == PairFor(s, q)
      && (s.reqs[p].phase.outcome.replay || s.reqs[q].phase.outcome.replay || p == q)
  }

  // `q` was answered by replaying the rotation that `p` made at most 5 s before.
  predicate ReplayOf(s: System, q: Uuid, p: Uuid) {
    && IsGrant(s, p) && IsGrant(s, q)
    && !s.reqs[p].phase.outcome.replay
    && s.reqs[p].token == s.reqs[q].token && PairFor(s, p) == PairFor(s, q)
    && s.reqs[p].phase.outcome.at <= s.reqs[q].phase.outcome.at
    && s.reqs[q].phase.outcome.at - s.reqs[p].phase.outcome.at <= REFRESH_ROTATION_GRACE_PERIOD
  }

  // `p` is the request whose rotation the row of `sid` still stores.
  predicate Rotator(cfg: Config, s: System, sid: Uuid, p: Uuid)
    requires sid in s.rows
  {
    var row := s.rows[sid];
    && IsGrant(s, p) && row.rotatedAt.Some?
    && s.reqs[p].phase.outcome == Granted(PairOf(cfg, row.refreshTokenHash.preimage), row.rotatedAt.value, false)
    && Some(HashOf(s.reqs[p].token)) == row.previousRefreshTokenHash
  }

  ghost predicate Inv(cfg: Config, s: System) {
    && TableOk(cfg, s.rows, s.now)
    && s.rows.Keys <= s.used
    && (forall q <- s.reqs :: RequestOk(cfg, s, s.reqs[q]))
    && (forall q :: IsGrant(s, q) ==> GrantOk(cfg, s, s.reqs[q]))
    && Agreement(s)
    && (forall sid <- s.rows :: s.rows[sid].rotatedAt.Some? ==> exists p :: Rotator(cfg, s, sid, p))
    && (forall q :: IsGrant(s, q) && s.reqs[q].phase.outcome.replay ==> exists p :: ReplayOf(s, q, p))
  }

  // Rows of `t` are rows of `s` up to revocation, or sessions that never existed before.
  ghost predicate QuietRows(cfg: Config, s: System, t: System) {
    && s.now <= t.now && s.used <= t.used && t.rows.Keys <= t.used
    && (forall sid <- t.rows :: sid in s.rows || sid !in s.used)
    && (forall sid <- t.rows :: sid !in s.rows ==> RowOk(cfg, sid, t.rows[sid], t.now) && t.rows[sid].rotatedAt.None?)
    && (forall sid <- t.rows :: sid in s.rows ==>
          t.rows[sid] == s.rows[sid].(isRevoked := t.rows[sid].isRevoked, revokedReason := t.rows[sid].revokedReason))
  }

  ghost predicate SameGrants(s: System, t: System) {
    && (forall q :: IsGrant(s, q) <==> IsGrant(t, q))
    && (forall q :: IsGrant(s, q) ==> t.reqs[q] == s.reqs[q])
  }

  // A step that grants nothing keeps the invariant if the requests stay well informed.
  lemma QuietStepKeepsInv(cfg: Config, s: System, t: System)
    requires Inv(cfg, s) && QuietRows(cfg, s, t) && SameGrants(s, t)
    requires forall q <- t.reqs :: RequestOk(cfg, t, t.reqs[q])
    ensures Inv(cfg, t)
  {
    forall sid <- t.rows ensures RowOk(cfg, sid, t.rows[sid], t.now) {
      if sid in s.rows {
        assert RowOk(cfg, sid, s.rows[sid], s.now);
      }
    }
    forall q | IsGrant(t, q) ensures GrantOk(cfg, t, t.reqs[q]) {
      assert GrantOk(cfg, s, s.reqs[q]);
      assert RequestOk(cfg, s, s.reqs[q]);
    }
    forall sid <- t.rows | t.rows[sid].rotatedAt.Some? ensures exists p :: Rotator(cfg, t, sid, p) {
      var p :| Rotator(cfg, s, sid, p);
      assert Rotator(cfg, t, sid, p);
    }
    forall q | IsGrant(t, q) && t.reqs[q].phase.outcome.replay ensures exists p :: ReplayOf(t, q, p) {
      var p :| ReplayOf(s, q, p);
      assert ReplayOf(t, q, p);
    }
  }

  // The requests stay well informed when one of them moves and rows change quietly.
  lemma RequestsStayOk(cfg: Config, s: System, t: System, req: Uuid)
    requires Inv(cfg, s) && QuietRows(cfg, s, t)
    requires forall q <- t.reqs :: q == req || (q in s.reqs && t.reqs[q] == s.reqs[q])
    requires req in t.reqs ==> RequestOk(cfg, t, t.reqs[req])
    ensures forall q <- t.reqs :: RequestOk(cfg, t, t.reqs[q])
  {
  }

  // The grant itself: the new pair agrees with every earlier grant of the same token.
  lemma GrantAgrees(cfg: Config, s: System, req: Uuid, p: Uuid)
    requires Inv(cfg, s)
    requires req in s.reqs && s.reqs[req].phase.Decided? && s.reqs[req].phase.action.TryRotate?
    requires var t := Perform(cfg, s, req); IsGrant(t, req) && Later(t, req)
    requires IsGrant(s, p) && s.reqs[p].token == s.reqs[req].token && Later(s, p)
    ensures var t := Perform(cfg, s, req);
            t.reqs[req].phase.outcome.replay && PairFor(t, req) == PairFor(s, p)
  {
  }

  lemma GrantKeepsGrantsOk(cfg: Config, s: System, req: Uuid, q: Uuid)
    requires Inv(cfg, s)
    requires req in s.reqs && s.reqs[req].phase.Decided? && s.reqs[req].phase.action.TryRotate?
    requires var t := Perform(cfg, s, req); IsGrant(t, req) && IsGrant(t, q)
    ensures GrantOk(cfg, Perform(cfg, s, req), Perform(cfg, s, req).reqs[q])
  {
    assert RequestOk(cfg, s, s.reqs[req]);
    var sid := s.reqs[req].token.sid;
    assert RowOk(cfg, sid, s.rows[sid], s.now);
    RotateKeepsRowOk(cfg, sid, s.rows[sid], s.reqs[req].token, s.now);
    if q != req {
      assert GrantOk(cfg, s, s.reqs[q]);
    }
  }

  lemma GrantKeepsInv(cfg: Config, s: System, req: Uuid)
    requires Inv(cfg, s)
    requires req in s.reqs && s.reqs[req].phase.Decided? && s.reqs[req].phase.action.TryRotate?
    requires IsGrant(Perform(cfg, s, req), req)
    ensures Inv(cfg, Perform(cfg, s, req))
  {
    var t := Perform(cfg, s, req);
    var token := s.reqs[req].token;
    var sid := token.sid;
    assert RequestOk(cfg, s, s.reqs[req]);
    RotateKeepsRowOk(cfg, sid, s.rows[sid], token, s.now);
    assert t.rows == s.rows[sid := t.rows[sid]];
    assert RowOk(cfg, sid, s.rows[sid], s.now);
    forall q <- t.reqs ensures RequestOk(cfg, t, t.reqs[q]) {
      assert RequestOk(cfg, s, s.reqs[q]);
    }
    forall q | IsGrant(t, q) ensures GrantOk(cfg, t, t.reqs[q]) {
      GrantKeepsGrantsOk(cfg, s, req, q);
    }
    forall p, q | IsGrant(t, p) && IsGrant(t, q) && t.reqs[p].token == t.reqs[q].token && Later(t, p) && Later(t, q)
      ensures PairFor(t, p) == PairFor(t, q)
      ensures t.reqs[p].phase.outcome.replay || t.reqs[q].phase.outcome.replay || p == q
    {
      if p != q {
        if p == req {
          GrantAgrees(cfg, s, req, q);
        } else if q == req {
          GrantAgrees(cfg, s, req, p);
        } else {
          assert IsGrant(s, p) && IsGrant(s, q) && Later(s, p) && Later(s, q);
        }
      }
    }
    GrantKeepsWitnesses(cfg, s, req);
  }

  lemma GrantKeepsWitnesses(cfg: Config, s: System, req: Uuid)
    requires Inv(cfg, s)
    requires req in s.reqs && s.reqs[req].phase.Decided? && s.reqs[req].phase.action.TryRotate?
    requires IsGrant(Perform(cfg, s, req), req)
    ensures var t := Perform(cfg, s, req);
            && (forall sid <- t.rows :: t.rows[sid].rotatedAt.Some? ==> exists p :: Rotator(cfg, t, sid, p))
            && (forall q :: IsGrant(t, q) && t.reqs[q].phase.outcome.replay ==> exists p :: ReplayOf(t, q, p))
  {
    var t := Perform(cfg, s, req);
    assert RequestOk(cfg, s, s.reqs[req]);
    var mine := s.reqs[req].token.sid;
    assert RowOk(cfg, mine, s.rows[mine], s.now);
    forall sid <- t.rows | t.rows[sid].rotatedAt.Some? ensures exists p :: Rotator(cfg, t, sid, p) {
      if sid == mine && !t.reqs[req].phase.outcome.replay {
        assert Rotator(cfg, t, sid, req);
      } else {
        var p :| Rotator(cfg, s, sid, p);
        assert Rotator(cfg, t, sid, p);
      }
    }
    forall q | IsGrant(t, q) && t.reqs[q].phase.outcome.replay ensures exists p :: ReplayOf(t, q, p) {
      if q == req {
        var p :| Rotator(cfg, s, mine, p);
        assert ReplayOf(t, q, p);
      } else {
        var p :| ReplayOf(s, q, p);
        assert ReplayOf(t, q, p);
      }
    }
  }

  lemma ActKeepsInv(cfg: Config, s: System, req: Uuid)
    requires Inv(cfg, s) && req in s.reqs && s.reqs[req].phase.Decided?
    ensures Inv(cfg, Perform(cfg, s, req))
  {
    var t := Perform(cfg, s, req);
    if IsGrant(t, req) {
      GrantKeepsInv(cfg, s, req);
    } else {
      DeniedActIsQuiet(cfg, s, req);
      RequestsStayOk(cfg, s, t, req);
      QuietStepKeepsInv(cfg, s, t);
    }
  }

  predicate SameButRevoked(row: Session, row': Session) {
    row' == row.(isRevoked := row'.isRevoked, revokedReason := row'.revokedReason)
  }

  lemma RevokingIsQuiet(cfg: Config, s: System, t: System)
    requires s.rows.Keys <= s.used && t.now == s.now && t.used == s.used && t.rows.Keys == s.rows.Keys
    requires forall sid <- t.rows :: SameButRevoked(s.rows[sid], t.rows[sid])
    ensures QuietRows(cfg, s, t)
  {
  }

  lemma DeniedActKeepsRows(cfg: Config, s: System, req: Uuid)
    requires TableOk(cfg, s.rows, s.now) && s.rows.Keys <= s.used && req in s.reqs && s.reqs[req].phase.Decided?
    requires !IsGrant(Perform(cfg, s, req), req)
    ensures QuietRows(cfg, s, Perform(cfg, s, req))
  {
    RevokingIsQuiet(cfg, s, Perform(cfg, s, req));
  }

  lemma DeniedActGrantsNothing(cfg: Config, s: System, req: Uuid)
    requires TableOk(cfg, s.rows, s.now) && req in s.reqs && s.reqs[req].phase.Decided?
    requires !IsGrant(Perform(cfg, s, req), req)
    ensures var t := Perform(cfg, s, req);
            && SameGrants(s, t)
            && t.reqs == s.reqs[req := t.reqs[req]] && t.reqs[req].phase.Done? && !t.reqs[req].phase.outcome.Granted?
  {
  }

  lemma DeniedActIsQuiet(cfg: Config, s: System, req: Uuid)
    requires Inv(cfg, s) && req in s.reqs && s.reqs[req].phase.Decided?
    requires !IsGrant(Perform(cfg, s, req), req)
    ensures var t := Perform(cfg, s, req);
            && QuietRows(cfg, s, t) && SameGrants(s, t)
            && t.reqs == s.reqs[req := t.reqs[req]] && t.reqs[req].phase.Done? && !t.reqs[req].phase.outcome.Granted?
  {
    DeniedActKeepsRows(cfg, s, req);
    DeniedActGrantsNothing(cfg, s, req);
  }

  lemma LookUpKeepsInv(cfg: Config, s: System, step: Step)
    requires Inv(cfg, s) && Enabled(s, step)
    requires step.Look? || step.LookNone? || step.LogoutLook?
    ensures Inv(cfg, Next(cfg, s, step))
  {
    var t := Next(cfg, s, step);
    LookupIsUnique(cfg, s.rows, step.token, s.now);
    RequestsStayOk(cfg, s, t, step.req);
    QuietStepKeepsInv(cfg, s, t);
  }

  lemma CheckKeepsInv(cfg: Config, s: System, req: Uuid)
    requires Inv(cfg, s) && Enabled(s, Check(req))
    ensures Inv(cfg, Next(cfg, s, Check(req)))
  {
    var t := Next(cfg, s, Check(req));
    assert RequestOk(cfg, s, s.reqs[req]);
    RequestsStayOk(cfg, s, t, req);
    QuietStepKeepsInv(cfg, s, t);
  }

  lemma QuietWithoutRequests(cfg: Config, s: System, t: System)
    requires Inv(cfg, s) && QuietRows(cfg, s, t) && s.reqs == t.reqs
    ensures Inv(cfg, t)
  {
    forall q <- t.reqs ensures RequestOk(cfg, t, t.reqs[q]) {
      assert RequestOk(cfg, s, s.reqs[q]);
    }
    QuietStepKeepsInv(cfg, s, t);
  }

  lemma NextKeepsInv(cfg: Config, s: System, step: Step)
    requires Inv(cfg, s)
    ensures Inv(cfg, Next(cfg, s, step))
  {
    var t := Next(cfg, s, step);
    if Enabled(s, step) {
      match step
      case Act(req) => ActKeepsInv(cfg, s, req);
      case Check(req) => CheckKeepsInv(cfg, s, req);
      case Look(_, _, _) => LookUpKeepsInv(cfg, s, step);
      case LookNone(_, _) => LookUpKeepsInv(cfg, s, step);
      case LogoutLook(_, _, _) => LookUpKeepsInv(cfg, s, step);
      case Tick(_) => QuietWithoutRequests(cfg, s, t);
      case SignIn(_, _, _) => QuietWithoutRequests(cfg, s, t);
      case DropUser(_) => QuietWithoutRequests(cfg, s, t);
    }
  }

  // A whole run, of any length and in any order.
  ghost function Exec(cfg: Config, s: System, steps: seq<Step>): System
    requires Inv(cfg, s)
    decreases |steps|
  {
    if steps == [] then s else
    NextKeepsInv(cfg, s, steps[0]);
    Exec(cfg, Next(cfg, s, steps[0]), steps[1..])
  }

  lemma {:induction false} RunKeepsInv(cfg: Config, s: System, steps: seq<Step>)
    requires Inv(cfg, s)
    ensures Inv(cfg, Exec(cfg, s, steps))
    decreases |steps|
  {
    if steps != [] {
      NextKeepsInv(cfg, s, steps[0]);
      RunKeepsInv(cfg, Next(cfg, s, steps[0]), steps[1..]);
    }
  }

  // ------------------------------------------------------------- the theorems

  lemma InitIsOk(cfg: Config, start: Time)
    ensures Inv(cfg, Init(start))
  {
  }

  ghost function Run(cfg: Config, start: Time, steps: seq<Step>): System {
    InitIsOk(cfg, start);
    Exec(cfg, Init(start), steps)
  }

  // However the requests interleave, a token superseded in a later second is
  // rotated by one request only, and all requests that succeed with it are given
  // the same pair.
  lemma {:induction false} RotatesAtMostOnce(cfg: Config, start: Time, steps: seq<Step>, p: Uuid, q: Uuid)
    requires var t := Run(cfg, start, steps);
             IsGrant(t, p) && IsGrant(t, q) && t.reqs[p].token == t.reqs[q].token && Later(t, p) && Later(t, q)
    ensures var t := Run(cfg, start, steps);
            && PairFor(t, p) == PairFor(t, q)
            && (p != q ==> t.reqs[p].phase.outcome.replay || t.reqs[q].phase.outcome.replay)
  {
    InitIsOk(cfg, start);
    RunKeepsInv(cfg, Init(start), steps);
  }

  // Whoever is given stored tokens is given those of one rotation of the very
  // token it presented, made no more than the grace period earlier.
  lemma {:induction false} ReplaysFollowARotation(cfg: Config, s: System, steps: seq<Step>, q: Uuid)
    requires Inv(cfg, s)
    requires var t := Exec(cfg, s, steps); IsGrant(t, q) && t.reqs[q].phase.outcome.replay
    ensures exists p :: ReplayOf(Exec(cfg, s, steps), q, p)
  {
    RunKeepsInv(cfg, s, steps);
  }

  // The session of `sid` is over: gone, revoked or past its end.
  predicate Closed(s: System, sid: Uuid) {
    sid in s.used && (sid in s.rows ==> s.rows[sid].isRevoked || s.rows[sid].expiresAt < s.now)
  }

  // The request has not passed the checks, and the row it saw, if any, was already over.
  predicate Barred(s: System, sid: Uuid, req: Uuid) {
    req in s.reqs && s.reqs[req].token.sid == sid ==>
      match s.reqs[req].phase
      case Looked(_, snapshot) => snapshot.isRevoked || snapshot.expiresAt < s.now
      case Decided(_, action) => !action.TryRotate?
      case Done(outcome) => !outcome.Granted?
  }

  lemma SessionStep(cfg: Config, s: System, step: Step, sid: Uuid)
    requires Inv(cfg, s) && sid in s.rows && sid in Next(cfg, s, step).rows
    ensures var row, row' := s.rows[sid], Next(cfg, s, step).rows[sid];
            (row.isRevoked ==> row'.isRevoked) && row'.expiresAt == row.expiresAt && row'.userId == row.userId
  {
    if step.Act? && Enabled(s, step) {
      assert RequestOk(cfg, s, s.reqs[step.req]);
    }
  }

  lemma ClosedStep(cfg: Config, s: System, step: Step, sid: Uuid)
    requires Inv(cfg, s) && Closed(s, sid)
    ensures Closed(Next(cfg, s, step), sid)
  {
    if sid in s.rows && sid in Next(cfg, s, step).rows {
      SessionStep(cfg, s, step, sid);
    }
  }

  lemma BarredLook(cfg: Config, s: System, step: Step, sid: Uuid, req: Uuid)
    requires TableOk(cfg, s.rows, s.now) && Closed(s, sid) && Barred(s, sid, req) && step.Look?
    ensures Barred(Next(cfg, s, step), sid, req)
  {
    if Enabled(s, step) {
      LookupIsUnique(cfg, s.rows, step.token, s.now);
    }
  }

  lemma BarredStep(cfg: Config, s: System, step: Step, sid: Uuid, req: Uuid)
    requires Inv(cfg, s) && Closed(s, sid) && Barred(s, sid, req)
    ensures Barred(Next(cfg, s, step), sid, req)
  {
    if step.Look? {
      BarredLook(cfg, s, step, sid, req);
    } else if step.Act? && Enabled(s, step) {
      assert RequestOk(cfg, s, s.reqs[step.req]);
    }
  }

  lemma {:induction false} ClosedRunStaysBarred(cfg: Config, s: System, steps: seq<Step>, sid: Uuid, req: Uuid)
    requires Inv(cfg, s) && Closed(s, sid) && Barred(s, sid, req)
    ensures Closed(Exec(cfg, s, steps), sid) && Barred(Exec(cfg, s, steps), sid, req)
    decreases |steps|
  {
    if steps != [] {
      ClosedStep(cfg, s, steps[0], sid);
      BarredStep(cfg, s, steps[0], sid, req);
      NextKeepsInv(cfg, s, steps[0]);
      ClosedRunStaysBarred(cfg, Next(cfg, s, steps[0]), steps[1..], sid, req);
    }
  }

  // Revocation: a request that looks the session up afterwards never obtains
  // tokens for it, whatever else runs and however long.
  lemma {:induction false} RevokedNeverRefreshed(cfg: Config, s: System, steps: seq<Step>, sid: Uuid, req: Uuid)
    requires Inv(cfg, s) && sid in s.rows && s.rows[sid].isRevoked && req !in s.reqs
    ensures var t := Exec(cfg, s, steps);
            && (IsGrant(t, req) ==> t.reqs[req].token.sid != sid)
            && (sid in t.rows ==> t.rows[sid].isRevoked || t.rows[sid].expiresAt < t.now)
  {
    ClosedRunStaysBarred(cfg, s, steps, sid, req);
  }

  // Expiry: the same for a request that has not been checked by the end of the
  // session, even if it looked the session up before; rotations do not extend it.
  lemma {:induction false} ExpiredNeverRefreshed(cfg: Config, s: System, steps: seq<Step>, sid: Uuid, req: Uuid)
    requires Inv(cfg, s) && sid in s.rows && s.rows[sid].expiresAt < s.now
    requires req in s.reqs ==> s.reqs[req].phase.Looked?
    ensures IsGrant(Exec(cfg, s, steps), req) ==> Exec(cfg, s, steps).reqs[req].token.sid != sid
  {
    if req in s.reqs {
      assert RequestOk(cfg, s, s.reqs[req]);
    }
    ClosedRunStaysBarred(cfg, s, steps, sid, req);
  }

  // No step un-revokes a session, moves its end or changes its owner.
  lemma {:induction false} RevocationIsPermanent(cfg: Config, s: System, steps: seq<Step>, sid: Uuid)
    requires Inv(cfg, s) && sid in s.rows
    ensures var t := Exec(cfg, s, steps);
            sid in t.rows ==>
              && (s.rows[sid].isRevoked ==> t.rows[sid].isRevoked)
              && t.rows[sid].expiresAt == s.rows[sid].expiresAt && t.rows[sid].userId == s.rows[sid].userId
    decreases |steps|
  {
    if steps != [] {
      NextKeepsInv(cfg, s, steps[0]);
      var next := Next(cfg, s, steps[0]);
      if sid in next.rows {
        SessionStep(cfg, s, steps[0], sid);
        RevocationIsPermanent(cfg, next, steps[1..], sid);
      } else {
        DroppedStaysDropped(cfg, next, steps[1..], sid);
      }
    }
  }

  lemma {:induction false} DroppedStaysDropped(cfg: Config, s: System, steps: seq<Step>, sid: Uuid)
    requires Inv(cfg, s) && sid in s.used && sid !in s.rows
    ensures sid !in Exec(cfg, s, steps).rows
    decreases |steps|
  {
    if steps != [] {
      NextKeepsInv(cfg, s, steps[0]);
      DroppedStaysDropped(cfg, Next(cfg, s, steps[0]), steps[1..], sid);
    }
  }

  // The stored predecessor, and all the more the current token, is younger.
  predicate Dead(s: System, token: Token) {
    token.sid in s.used && (token.sid in s.rows ==>
      s.rows[token.sid].previousRefreshTokenHash.Some?
      && token.iat < s.rows[token.sid].previousRefreshTokenHash.value.preimage.iat)
  }

  lemma DeadStaysDead(cfg: Config, s: System, step: Step, token: Token)
    requires Inv(cfg, s) && Dead(s, token)
    ensures Dead(Next(cfg, s, step), token)
  {
    if step.Act? && Enabled(s, step) {
      DecidedIsInformed(cfg, s, step.req);
    }
  }

  lemma DeadIsRefused(cfg: Config, s: System, step: Step, token: Token, q: Uuid)
    requires Inv(cfg, s) && Dead(s, token)
    ensures var t := Next(cfg, s, step);
            IsGrant(t, q) && t.reqs[q].token == token ==> IsGrant(s, q) && s.reqs[q].token == token
  {
    if step.Act? && Enabled(s, step) {
      DecidedIsInformed(cfg, s, step.req);
    }
  }

  lemma DecidedIsInformed(cfg: Config, s: System, req: Uuid)
    requires Inv(cfg, s) && req in s.reqs && s.reqs[req].phase.Decided?
    ensures RequestOk(cfg, s, s.reqs[req])
    ensures var sid := s.reqs[req].token.sid; sid in s.rows ==> RowOk(cfg, sid, s.rows[sid], s.now)
  {
  }

  lemma {:induction false} DeadRunGrantsNothing(cfg: Config, s: System, steps: seq<Step>, token: Token, q: Uuid)
    requires Inv(cfg, s) && Dead(s, token)
    ensures var t := Exec(cfg, s, steps);
            IsGrant(t, q) && t.reqs[q].token == token ==> IsGrant(s, q) && s.reqs[q].token == token
    decreases |steps|
  {
    if steps != [] {
      var next := Next(cfg, s, steps[0]);
      NextKeepsInv(cfg, s, steps[0]);
      DeadStaysDead(cfg, s, steps[0], token);
      DeadIsRefused(cfg, s, steps[0], token, q);
      DeadRunGrantsNothing(cfg, next, steps[1..], token, q);
    }
  }

  // Once the successor of a token has itself been honoured, the token never is again.
  lemma {:induction false} SupersededTwiceIsDead(cfg: Config, s: System, steps: seq<Step>, first: Uuid, second: Uuid,
                                                 q: Uuid)
    requires Inv(cfg, s)
    requires IsGrant(s, first) && Later(s, first)
    requires IsGrant(s, second) && s.reqs[second].token == PairFor(s, first).refresh
    ensures var t := Exec(cfg, s, steps);
            IsGrant(t, q) && t.reqs[q].token == s.reqs[first].token ==> IsGrant(s, q)
  {
    var token := s.reqs[first].token;
    assert RequestOk(cfg, s, s.reqs[first]);
    assert GrantOk(cfg, s, s.reqs[first]);
    assert GrantOk(cfg, s, s.reqs[second]);
    assert Dead(s, token);
    DeadRunGrantsNothing(cfg, s, steps, token, q);
  }

  // Presenting a token of a revoked session: the statement that follows leaves its
  // owner no active session and touches nobody else's.
  lemma {:induction false} ReuseLocksOutTheOwner(cfg: Config, s: System, req: Uuid)
    requires Inv(cfg, s) && req in s.reqs
    requires s.reqs[req].phase.Decided? && s.reqs[req].phase.action.RevokeOwner?
    ensures var owner := s.reqs[req].token.sub;
            var t := Next(cfg, s, Act(req));
            && (s.reqs[req].token.sid in s.rows ==> s.rows[s.reqs[req].token.sid].userId == owner)
            && t.rows.Keys == s.rows.Keys
            && (forall sid <- t.rows :: t.rows[sid].userId == s.rows[sid].userId)
            && (forall sid <- t.rows :: t.rows[sid].userId == owner ==> t.rows[sid].isRevoked)
            && (forall sid <- t.rows :: t.rows[sid].userId != owner ==> t.rows[sid] == s.rows[sid])
            && !IsGrant(t, req)
  {
    assert RequestOk(cfg, s, s.reqs[req]);
  }

  // ------------------------------------------------- what does not hold, by example

  const CFG := Config(1, 2, 60, 600)
  const OLD := Token(2, 3, [], 7, 0, 600)
  const FRESH := NewSession(CFG, 7, 3, [], 0)
  const SIGNED_IN := System(0, map[7 := FRESH], map[], {7})
  const LOOKED := SIGNED_IN.(reqs := map[1 := Request(OLD, Looked(7, FRESH))])
  const CHECKED := SIGNED_IN.(reqs := map[1 := Request(OLD, Decided(7, TryRotate(3, [])))])

  lemma ExecCons(cfg: Config, s: System, step: Step, steps: seq<Step>)
    requires Inv(cfg, s)
    ensures Inv(cfg, Next(cfg, s, step)) && Exec(cfg, Next(cfg, s, step), []) == Next(cfg, s, step)
    ensures Exec(cfg, s, [step] + steps) == Exec(cfg, Next(cfg, s, step), steps)
  {
    NextKeepsInv(cfg, s, step);
    assert ([step] + steps)[1..] == steps;
  }

  // Signing in at time 0 and one request that looks up and checks in that second.
  lemma CheckedIsReached(steps: seq<Step>)
    ensures Inv(CFG, Init(0)) && Inv(CFG, CHECKED)
    ensures Exec(CFG, Init(0), [SignIn(7, 3, []), Look(1, OLD, 7), Check(1)] + steps) == Exec(CFG, CHECKED, steps)
  {
    var a, b, c := SignIn(7, 3, []), Look(1, OLD, 7), Check(1);
    assert [a, b, c] + steps == [a] + ([b] + ([c] + steps));
    ExecCons(CFG, Init(0), a, [b] + ([c] + steps));
    assert Next(CFG, Init(0), a) == SIGNED_IN;
    LookedIsReached([c] + steps);
    CheckStep(steps);
  }

  lemma LookedIsReached(steps: seq<Step>)
    requires Inv(CFG, SIGNED_IN)
    ensures Inv(CFG, LOOKED) && Exec(CFG, SIGNED_IN, [Look(1, OLD, 7)] + steps) == Exec(CFG, LOOKED, steps)
  {
  }

  lemma CheckStep(steps: seq<Step>)
    requires Inv(CFG, LOOKED)
    ensures Inv(CFG, CHECKED) && Exec(CFG, LOOKED, [Check(1)] + steps) == Exec(CFG, CHECKED, steps)
  {
    ExecCons(CFG, LOOKED, Check(1), steps);
    assert Next(CFG, LOOKED, Check(1)) == CHECKED;
  }

  // The same-second rotation: the stored pair ends in the very token presented.
  const REISSUED_ROW := FRESH.(previousRefreshTokenHash := Some(HashOf(OLD)), rotatedRefreshToken := Some(OLD),
                               rotatedAccessToken := Some(PairOf(CFG, OLD).access), rotatedAt := Some(0))
  const REISSUED := System(6000, map[7 := REISSUED_ROW],
                           map[1 := Request(OLD, Done(Granted(PairOf(CFG, OLD), 0, false)))], {7})

  lemma ReissuedIsReached(steps: seq<Step>)
    requires Inv(CFG, CHECKED)
    ensures Inv(CFG, REISSUED)
    ensures Exec(CFG, CHECKED, [Act(1), Tick(6000)] + steps) == Exec(CFG, REISSUED, steps)
  {
    assert [Act(1), Tick(6000)] + steps == [Act(1)] + ([Tick(6000)] + steps);
    ExecCons(CFG, CHECKED, Act(1), [Tick(6000)] + steps);
    assert Next(CFG, CHECKED, Act(1)) == REISSUED.(now := 0);
    ExecCons(CFG, REISSUED.(now := 0), Tick(6000), steps);
  }

  const SEEN := REISSUED.(reqs := REISSUED.reqs[2 := Request(OLD, Looked(7, REISSUED_ROW))])
  const ADMITTED := REISSUED.(reqs := REISSUED.reqs[2 := Request(OLD, Decided(7, TryRotate(3, [])))])

  lemma AdmittedIsReached(steps: seq<Step>)
    requires Inv(CFG, REISSUED)
    ensures Inv(CFG, ADMITTED)
    ensures Exec(CFG, REISSUED, [Look(2, OLD, 7)] + ([Check(2)] + steps)) == Exec(CFG, ADMITTED, steps)
  {
    ExecCons(CFG, REISSUED, Look(2, OLD, 7), [Check(2)] + steps);
    assert Next(CFG, REISSUED, Look(2, OLD, 7)) == SEEN;
    ExecCons(CFG, SEEN, Check(2), steps);
    assert Next(CFG, SEEN, Check(2)) == ADMITTED;
  }

  lemma SecondRotation()
    requires Inv(CFG, REISSUED)
    ensures var t := Exec(CFG, REISSUED, [Look(2, OLD, 7), Check(2), Act(2)]);
            && t.reqs.Keys == {1, 2} && t.reqs[1] == REISSUED.reqs[1]
            && t.reqs[2] == Request(OLD, Done(Granted(SignPair(CFG, 3, [], 7, 6000), 6000, false)))
  {
    assert [Look(2, OLD, 7), Check(2), Act(2)] == [Look(2, OLD, 7)] + ([Check(2)] + ([Act(2)] + []));
    AdmittedIsReached([Act(2)] + []);
    SecondAct();
  }

  lemma SecondAct()
    requires Inv(CFG, ADMITTED)
    ensures var t := Exec(CFG, ADMITTED, [Act(2)] + []);
            && t.reqs.Keys == {1, 2} && t.reqs[1] == REISSUED.reqs[1]
            && t.reqs[2] == Request(OLD, Done(Granted(SignPair(CFG, 3, [], 7, 6000), 6000, false)))
  {
    ExecCons(CFG, ADMITTED, Act(2), []);
  }

  // A refresh within the second of sign-in re-issues the same token; after the
  // grace period it is then rotated again, so one token obtains two pairs.
  lemma SameSecondRotatesTwice() returns (steps: seq<Step>)
    ensures Inv(CFG, Init(0))
    ensures var t := Exec(CFG, Init(0), steps);
            && IsGrant(t, 1) && IsGrant(t, 2) && !Later(t, 1) && Later(t, 2)
            && t.reqs[1].token == t.reqs[2].token && PairFor(t, 1) != PairFor(t, 2)
            && !t.reqs[1].phase.outcome.replay && !t.reqs[2].phase.outcome.replay
  {
    var again := [Look(2, OLD, 7), Check(2), Act(2)];
    CheckedIsReached([Act(1), Tick(6000)] + again);
    ReissuedIsReached(again);
    SecondRotation();
    steps := [SignIn(7, 3, []), Look(1, OLD, 7), Check(1)] + ([Act(1), Tick(6000)] + again);
  }

  const LEAVING := CHECKED.(reqs := CHECKED.reqs[2 := Request(OLD, Decided(7, LogOut))])
  const LEFT := CHECKED.(reqs := CHECKED.reqs[2 := Request(OLD, Done(LoggedOff))],
                         rows := map[7 := Revoked(FRESH, LoggedOut)])

  lemma LeavingIsReached(steps: seq<Step>)
    requires Inv(CFG, CHECKED)
    ensures Inv(CFG, LEAVING) && Exec(CFG, CHECKED, [LogoutLook(2, OLD, 7)] + steps) == Exec(CFG, LEAVING, steps)
  {
    ExecCons(CFG, CHECKED, LogoutLook(2, OLD, 7), steps);
    assert Next(CFG, CHECKED, LogoutLook(2, OLD, 7)) == LEAVING;
  }

  lemma LeftIsReached(steps: seq<Step>)
    requires Inv(CFG, CHECKED)
    ensures Inv(CFG, LEFT) && Exec(CFG, CHECKED, [LogoutLook(2, OLD, 7), Act(2)] + steps) == Exec(CFG, LEFT, steps)
  {
    assert [LogoutLook(2, OLD, 7), Act(2)] + steps == [LogoutLook(2, OLD, 7)] + ([Act(2)] + steps);
    LeavingIsReached([Act(2)] + steps);
    ExecCons(CFG, LEAVING, Act(2), steps);
    assert Next(CFG, LEAVING, Act(2)) == LEFT;
  }

  lemma GrantedAfterLogout()
    requires Inv(CFG, LEFT)
    ensures var t := Exec(CFG, LEFT, [Act(1)]);
            IsGrant(t, 1) && t.reqs[1].token.sid == 7 && 7 in t.rows && t.rows[7].isRevoked
  {
  }

  // The locked rotation does not look at isRevoked again: a request that passed
  // the checks before a logout is still given tokens after it.
  lemma RotationOutrunsLogout() returns (steps: seq<Step>)
    ensures Inv(CFG, Init(0))
    ensures var t := Exec(CFG, Init(0), steps);
            IsGrant(t, 1) && t.reqs[1].token.sid == 7 && 7 in t.rows && t.rows[7].isRevoked
  {
    CheckedIsReached([LogoutLook(2, OLD, 7), Act(2)] + [Act(1)]);
    LeftIsReached([Act(1)]);
    GrantedAfterLogout();
    steps := [SignIn(7, 3, []), Look(1, OLD, 7), Check(1)] + ([LogoutLook(2, OLD, 7), Act(2)] + [Act(1)]);
  }
}
