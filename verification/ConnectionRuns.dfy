/**
 * The life of every socket: connecting, the awaited cookie handshake, token
 * messages that resolve at any later time, and closing, in any interleaving.
 */
module ConnectionRuns {
  import opened Prelude
  import opened Tables
  import opened Connections

  // Until the handshake is over the socket has no message and no close listener; a
  // handshake that fails never installs them.
  datatype Phase = Handshaking | Listening | Abandoned

  // `phase` knows every connection ever made, `attached` every pair ever attached.
  datatype World = World(
    registry: Registry,
    phase: map<Uuid, Phase>,
    open: set<Uuid>,
    attached: set<(Uuid, Uuid)>,
    offline: seq<Uuid>)

  const START := World(Registry(map[], map[]), map[], {}, {}, [])

  datatype Step =
    | Connect(id: Uuid)
    | AttachByCookie(id: Uuid, user: Uuid)
    | AttachByMessage(id: Uuid, user: Uuid)   // may resolve after the socket has closed
    | HandshakeDone(id: Uuid)
    | HandshakeFailed(id: Uuid)
    | SocketCloses(id: Uuid)

  predicate In(w: World, id: Uuid, phase: Phase) {
    id in w.phase && w.phase[id] == phase
  }

  function AttachIn(w: World, id: Uuid, u: Uuid): World {
    w.(registry := Attach(w.registry, id, u), attached := w.attached + {(id, u)})
  }

  function CloseIn(w: World, id: Uuid): World {
    var who := if id in w.registry.owner then w.registry.owner[id] else None;
    var (registry, gone) := Close(w.registry, id, who);
    w.(registry := registry, offline := w.offline + (if gone.Some? then [gone.value] else []))
  }

  function Apply(w: World, step: Step): World {
    match step
    case Connect(id) =>
      if id in w.phase then w
      else w.(registry := Register(w.registry, id), phase := w.phase[id := Handshaking], open := w.open + {id})
    case AttachByCookie(id, u) => if In(w, id, Handshaking) then AttachIn(w, id, u) else w
    case AttachByMessage(id, u) => if In(w, id, Listening) then AttachIn(w, id, u) else w
    case HandshakeDone(id) => if In(w, id, Handshaking) then w.(phase := w.phase[id := Listening]) else w
    case HandshakeFailed(id) => if In(w, id, Handshaking) then w.(phase := w.phase[id := Abandoned]) else w
    case SocketCloses(id) =>
      if id !in w.open then w else
      var w' := w.(open := w.open - {id});
      if In(w, id, Listening) then CloseIn(w', id) else w'
  }

  function Exec(w: World, steps: seq<Step>): World {
    if steps == [] then w else Apply(Exec(w, steps[..|steps| - 1]), steps[|steps| - 1])
  }

  // ------------------------------------------------------------------- the index

  ghost predicate IndexShape(index: map<Uuid, seq<Uuid>>) {
    forall u <- index :: index[u] != [] && Distinct(index[u], (id: Uuid) => id)
  }

  predicate Indexed(r: Registry, id: Uuid, u: Uuid) {
    u in r.index && id in r.index[u]
  }

  // Nothing is indexed that was not attached, and what was attached stays indexed
  // as long as it is registered.
  ghost predicate IndexOk(w: World) {
    && IndexShape(w.registry.index)
    && (forall id: Uuid, u: Uuid :: Indexed(w.registry, id, u) ==> (id, u) in w.attached)
    && (forall p <- w.attached :: p.0 in w.registry.owner ==>
          Indexed(w.registry, p.0, p.1) && w.registry.owner[p.0].Some?)
    && (forall id <- w.registry.owner :: w.registry.owner[id].Some? ==> (id, w.registry.owner[id].value) in w.attached)
  }

  ghost predicate PhasesOk(w: World) {
    && (forall id <- w.registry.owner :: id in w.phase)
    && (forall id <- w.open :: id in w.registry.owner)
    && (forall p <- w.attached :: p.0 in w.phase)
    && (forall id <- w.phase :: id !in w.registry.owner ==> w.phase[id].Listening?)
  }

  ghost predicate Inv(w: World) {
    IndexOk(w) && PhasesOk(w)
  }

  lemma AddedDistinct(ids: seq<Uuid>, id: Uuid)
    requires Distinct(ids, (x: Uuid) => x)
    ensures Distinct(AddId(ids, id), (x: Uuid) => x) && AddId(ids, id) != []
  {
  }

  lemma AttachKeepsInv(w: World, id: Uuid, u: Uuid)
    requires Inv(w) && id in w.phase
    ensures Inv(AttachIn(w, id, u))
  {
    AddedDistinct(IdsOf(w.registry.index, u), id);
    var w' := AttachIn(w, id, u);
    forall x, v ensures Indexed(w'.registry, x, v) <==> Indexed(w.registry, x, v) || (x == id && v == u) {
    }
  }

  lemma RemovedShape(index: map<Uuid, seq<Uuid>>, u: Uuid, id: Uuid)
    requires IndexShape(index)
    ensures var index' := RemoveId(index, u, id);
            && IndexShape(index')
            && forall x: Uuid, v: Uuid ::
                 (v in index' && x in index'[v]) <==> (v in index && x in index[v] && !(v == u && x == id))
  {
    if u in index {
      KeepDistinct(index[u], (x: Uuid) => x != id, (x: Uuid) => x);
      var left := Keep(index[u], (x: Uuid) => x != id);
      assert left != [] ==> left[0] in left;
      assert left == [] ==> forall x :: x in index[u] ==> x == id by {
        if left == [] {
          forall x | x in index[u] ensures x == id {
            assert x in left || x == id;
          }
        }
      }
    }
  }

  lemma UnregisterKeepsIndex(w: World, id: Uuid)
    requires IndexOk(w)
    ensures IndexOk(w.(registry := Unregister(w.registry, id)))
  {
    var w' := w.(registry := Unregister(w.registry, id));
    if id in w.registry.owner && w.registry.owner[id].Some? {
      var u := w.registry.owner[id].value;
      RemovedShape(w.registry.index, u, id);
      forall x, v ensures Indexed(w'.registry, x, v) <==> Indexed(w.registry, x, v) && !(v == u && x == id) {
      }
    }
  }

  lemma StepKeepsInv(w: World, step: Step)
    requires Inv(w)
    ensures Inv(Apply(w, step))
  {
    match step
    case AttachByCookie(id, u) => if In(w, id, Handshaking) { AttachKeepsInv(w, id, u); }
    case AttachByMessage(id, u) => if In(w, id, Listening) { AttachKeepsInv(w, id, u); }
    case SocketCloses(id) => UnregisterKeepsIndex(w, id);
    case _ =>
  }

  lemma {:induction false} RunFrom(w: World, steps: seq<Step>)
    requires Inv(w)
    ensures Inv(Exec(w, steps))
  {
    if steps != [] {
      RunFrom(w, steps[..|steps| - 1]);
      StepKeepsInv(Exec(w, steps[..|steps| - 1]), steps[|steps| - 1]);
    }
  }

  lemma RunKeepsInv(steps: seq<Step>)
    ensures Inv(Exec(START, steps))
  {
    RunFrom(START, steps);
  }

  // ------------------------------------------------------------------ what is found

  // The connections found for a user are, without repetition, the registered ones
  // that were ever attached to the user.
  lemma {:induction false} FoundExactly(steps: seq<Step>, u: Uuid)
    ensures var w := Exec(START, steps);
            var found := UserConnections(w.registry, u);
            && Distinct(found, (id: Uuid) => id)
            && (forall id :: id in found <==> id in w.registry.owner && (id, u) in w.attached)
  {
    RunKeepsInv(steps);
    FoundInState(Exec(START, steps), u);
  }

  lemma FoundInState(w: World, u: Uuid)
    requires IndexOk(w)
    ensures var found := UserConnections(w.registry, u);
            && Distinct(found, (id: Uuid) => id)
            && (forall id :: id in found <==> id in w.registry.owner && (id, u) in w.attached)
  {
    var ids := IdsOf(w.registry.index, u);
    KeepDistinct(ids, (id: Uuid) => id in w.registry.owner.Keys, (id: Uuid) => id);
    forall id ensures id in UserConnections(w.registry, u) <==> id in w.registry.owner && (id, u) in w.attached {
      assert id in ids <==> Indexed(w.registry, id, u);
    }
  }

  // So no open connection that carries the user's id is missed, and no
  // unregistered one is returned.
  lemma {:induction false} NoneMissedNoneStale(steps: seq<Step>, u: Uuid, id: Uuid)
    ensures var w := Exec(START, steps);
            var found := UserConnections(w.registry, u);
            && (id in found ==> id in w.registry.owner)
            && (id in w.registry.owner && w.registry.owner[id] == Some(u) ==> id in found)
            && (id in w.open ==> id in w.registry.owner)
  {
    RunKeepsInv(steps);
    FoundInState(Exec(START, steps), u);
  }

  ghost predicate FoundIsCarried(w: World) {
    forall u: Uuid, id: Uuid ::
      id in UserConnections(w.registry, u) <==> id in w.registry.owner && w.registry.owner[id] == Some(u)
  }

  ghost predicate AttachedOnce(w: World) {
    forall p, q :: p in w.attached && q in w.attached && p.0 == q.0 && p.0 in w.registry.owner ==> p == q
  }

  // Exactly the registered connections that carry the user's id are found, for all
  // users, unless a registered connection has been attached to two users.
  lemma {:induction false} FoundIffCarried(steps: seq<Step>)
    ensures FoundIsCarried(Exec(START, steps)) <==> AttachedOnce(Exec(START, steps))
  {
    var w := Exec(START, steps);
    RunKeepsInv(steps);
    if AttachedOnce(w) {
      OnceThenCarried(w);
    }
    if FoundIsCarried(w) {
      CarriedThenOnce(w);
    }
  }

  lemma CarriedThenOnce(w: World)
    requires IndexOk(w) && FoundIsCarried(w)
    ensures AttachedOnce(w)
  {
    forall p <- w.attached ensures p.0 in w.registry.owner ==> w.registry.owner[p.0] == Some(p.1) {
      FoundInState(w, p.1);
      assert p == (p.0, p.1);
    }
  }

  lemma OnceThenCarried(w: World)
    requires IndexOk(w) && AttachedOnce(w)
    ensures FoundIsCarried(w)
  {
    forall u: Uuid, id: Uuid
      ensures id in UserConnections(w.registry, u) <==> id in w.registry.owner && w.registry.owner[id] == Some(u)
    {
      FoundInState(w, u);
      if id in w.registry.owner && (id, u) in w.attached {
        assert (id, w.registry.owner[id].value) in w.attached;
      }
    }
  }

  // ----------------------------------------------------------------- going offline

  ghost predicate Reachable(w: World, u: Uuid) {
    UserConnections(w.registry, u) != []
  }

  function Reported(w: World, step: Step): seq<Uuid> {
    Apply(w, step).offline[|w.offline|..]
  }

  // One step reports a user as offline exactly when the step makes the user
  // unreachable and the connection that closed was last attached to that user.
  lemma {:induction false} OfflineExactly(steps: seq<Step>, step: Step, u: Uuid)
    ensures var w := Exec(START, steps);
            && Extends(w, Apply(w, step)) && |Reported(w, step)| <= 1
            && (Reachable(w, u) && !Reachable(Apply(w, step), u) ==> step.SocketCloses?)
            && (u in Reported(w, step) <==>
                  && step.SocketCloses? && Reachable(w, u) && !Reachable(Apply(w, step), u)
                  && step.id in w.registry.owner && w.registry.owner[step.id] == Some(u))
  {
    RunKeepsInv(steps);
    StepReports(Exec(START, steps), step, u);
  }

  ghost predicate Extends(w: World, w': World) {
    |w'.offline| >= |w.offline| && w'.offline[..|w.offline|] == w.offline
  }

  lemma StepReports(w: World, step: Step, u: Uuid)
    requires Inv(w)
    ensures && Extends(w, Apply(w, step)) && |Reported(w, step)| <= 1
            && (Reachable(w, u) && !Reachable(Apply(w, step), u) ==> step.SocketCloses?)
            && (u in Reported(w, step) <==>
                  && step.SocketCloses? && Reachable(w, u) && !Reachable(Apply(w, step), u)
                  && step.id in w.registry.owner && w.registry.owner[step.id] == Some(u))
  {
    if step.SocketCloses? && step.id in w.open && In(w, step.id, Listening) {
      ClosingReports(w, step.id, u);
    } else {
      OthersReachNoLess(w, step, u);
    }
  }

  lemma OthersReachNoLess(w: World, step: Step, u: Uuid)
    requires Inv(w) && !(step.SocketCloses? && step.id in w.open && In(w, step.id, Listening))
    ensures Reachable(w, u) ==> Reachable(Apply(w, step), u)
    ensures Apply(w, step).offline == w.offline
  {
    StepKeepsInv(w, step);
    FoundInState(w, u);
    FoundInState(Apply(w, step), u);
    NoMembers(UserConnections(w.registry, u));
    NoMembers(UserConnections(Apply(w, step).registry, u));
  }

  lemma OnlyOne(ids: seq<Uuid>, id: Uuid)
    requires Distinct(ids, (x: Uuid) => x) && id in ids
    ensures |ids| == 1 <==> forall x :: x in ids ==> x == id
  {
    if |ids| > 1 {
      assert ids[0] in ids && ids[1] in ids;
      assert ids[0] != ids[1];
    }
  }

  lemma NoMembers(ids: seq<Uuid>)
    ensures ids == [] <==> forall x :: x !in ids
  {
    if ids != [] {
      assert ids[0] in ids;
    }
  }

  lemma ClosingReports(w: World, id: Uuid, u: Uuid)
    requires Inv(w) && id in w.open && In(w, id, Listening)
    ensures var w' := Apply(w, SocketCloses(id));
            && Extends(w, w') && |Reported(w, SocketCloses(id))| <= 1
            && (u in Reported(w, SocketCloses(id)) <==>
                  && Reachable(w, u) && !Reachable(w', u) && id in w.registry.owner && w.registry.owner[id] == Some(u))
  {
    var w' := Apply(w, SocketCloses(id));
    StepKeepsInv(w, SocketCloses(id));
    FoundInState(w, u);
    FoundInState(w', u);
    NoMembers(UserConnections(w.registry, u));
    NoMembers(UserConnections(w'.registry, u));
    if w.registry.owner[id] == Some(u) {
      OnlyOne(UserConnections(w.registry, u), id);
    }
  }

  // ---------------------------------------------------- one user for each connection

  // A connection is only attached while it is registered, and always to the same user.
  ghost predicate Single(w: World, step: Step) {
    match step
    case AttachByCookie(id, u) => In(w, id, Handshaking) ==> MayAttach(w, id, u)
    case AttachByMessage(id, u) => In(w, id, Listening) ==> MayAttach(w, id, u)
    case _ => true
  }

  predicate MayAttach(w: World, id: Uuid, u: Uuid) {
    id in w.registry.owner && (w.registry.owner[id].Some? ==> w.registry.owner[id].value == u)
  }

  ghost predicate SingleRun(steps: seq<Step>) {
    steps != [] ==>
      var front := steps[..|steps| - 1];
      SingleRun(front) && Single(Exec(START, front), steps[|steps| - 1])
  }

  // The simple form of the two maps: a set of (connection, user).
  ghost function Pairs(steps: seq<Step>): set<(Uuid, Uuid)> {
    if steps == [] then {} else
    var front := steps[..|steps| - 1];
    var w, pairs := Exec(START, front), Pairs(front);
    match steps[|steps| - 1]
    case AttachByCookie(id, u) => if In(w, id, Handshaking) then pairs + {(id, u)} else pairs
    case AttachByMessage(id, u) => if In(w, id, Listening) then pairs + {(id, u)} else pairs
    case SocketCloses(id) => if id in w.open && In(w, id, Listening) then set p <- pairs | p.0 != id else pairs
    case _ => pairs
  }

  ghost predicate Refines(w: World, pairs: set<(Uuid, Uuid)>) {
    && (forall id: Uuid, u: Uuid :: Indexed(w.registry, id, u) <==> (id, u) in pairs)
    && (forall id: Uuid, u: Uuid :: (id, u) in pairs <==> id in w.registry.owner && w.registry.owner[id] == Some(u))
  }

  // The maps hold exactly the pairs: users without a connection have no entry, and
  // each list has the user's connections once.
  lemma {:induction false} MapsRefinePairs(steps: seq<Step>)
    requires SingleRun(steps)
    ensures Refines(Exec(START, steps), Pairs(steps)) && IndexShape(Exec(START, steps).registry.index)
  {
    RunKeepsInv(steps);
    if steps != [] {
      var front := steps[..|steps| - 1];
      MapsRefinePairs(front);
      RunKeepsInv(front);
      StepRefines(front, steps[|steps| - 1]);
      assert front + [steps[|steps| - 1]] == steps;
    }
  }

  lemma StepRefines(front: seq<Step>, step: Step)
    requires Inv(Exec(START, front)) && Refines(Exec(START, front), Pairs(front)) && Single(Exec(START, front), step)
    ensures Refines(Exec(START, front + [step]), Pairs(front + [step]))
  {
    var w := Exec(START, front);
    assert (front + [step])[..|front + [step]| - 1] == front;
    match step
    case AttachByCookie(id, u) =>
    case AttachByMessage(id, u) =>
    case SocketCloses(id) => ClosingRefines(w, Pairs(front), id);
    case _ =>
  }

  lemma ClosingRefines(w: World, pairs: set<(Uuid, Uuid)>, id: Uuid)
    requires Inv(w) && Refines(w, pairs)
    ensures Refines(w.(registry := Unregister(w.registry, id)), set p <- pairs | p.0 != id)
  {
  }

  // A user is found on exactly the connections paired with the user, and is reported
  // offline by exactly the step that takes the last pair away.
  lemma {:induction false} OfflineWithTheLastPair(front: seq<Step>, step: Step, u: Uuid)
    requires SingleRun(front + [step])
    ensures forall id :: id in UserConnections(Exec(START, front).registry, u) <==> (id, u) in Pairs(front)
    ensures u in Reported(Exec(START, front), step) <==>
              (exists id :: (id, u) in Pairs(front)) && (forall id :: (id, u) !in Pairs(front + [step]))
  {
    var w := Exec(START, front);
    assert (front + [step])[..|front + [step]| - 1] == front;
    PairsAreFound(front, u);
    PairsAreFound(front + [step], u);
    RunKeepsInv(front);
    StepReports(w, step, u);
    if Reachable(w, u) && !Reachable(Apply(w, step), u) {
      var id := UserConnections(w.registry, u)[0];
      assert id in UserConnections(w.registry, u);
      MapsRefinePairs(front);
      assert id == step.id;
    }
  }

  lemma PairsAreFound(steps: seq<Step>, u: Uuid)
    requires SingleRun(steps)
    ensures forall id :: id in UserConnections(Exec(START, steps).registry, u) <==> (id, u) in Pairs(steps)
    ensures Reachable(Exec(START, steps), u) <==> exists id :: (id, u) in Pairs(steps)
  {
    MapsRefinePairs(steps);
    var r := Exec(START, steps).registry;
    forall id ensures id in UserConnections(r, u) <==> (id, u) in Pairs(steps) {
      assert id in IdsOf(r.index, u) <==> Indexed(r, id, u);
    }
    NoMembers(UserConnections(r, u));
  }

  // -------------------------------------------------------- connections that never leave

  // Closing takes a connection off the books exactly when its listeners are installed.
  lemma {:induction false} CloseUnregistersIff(steps: seq<Step>, id: Uuid)
    ensures var w := Exec(START, steps);
            id in w.open ==> (id !in Apply(w, SocketCloses(id)).registry.owner <==> In(w, id, Listening))
  {
    RunKeepsInv(steps);
  }

  // Registered, and nothing will ever unregister it.
  predicate Stuck(w: World, id: Uuid) {
    id in w.registry.owner && id in w.phase && (w.phase[id].Abandoned? || id !in w.open)
  }

  // A socket that failed its handshake, or closed during it, stays registered in
  // every later state; a user attached to it stays reachable and is never reported
  // offline again, whatever happens to the user's other connections.
  lemma {:induction false} StuckForever(w: World, id: Uuid, u: Uuid, steps: seq<Step>)
    requires Inv(w) && Stuck(w, id) && (id, u) in w.attached
    ensures var w' := Exec(w, steps);
            && Stuck(w', id) && (id, u) in w'.attached && Reachable(w', u)
            && Extends(w, w') && u !in w'.offline[|w.offline|..]
  {
    RunFrom(w, steps);
    FoundInState(Exec(w, steps), u);
    if steps != [] {
      var front, step := steps[..|steps| - 1], steps[|steps| - 1];
      StuckForever(w, id, u, front);
      RunFrom(w, front);
      StuckStep(Exec(w, front), id, u, step);
      StepReports(Exec(w, front), step, u);
      LaterReports(w.offline, Exec(w, front).offline, Exec(w, steps).offline, u);
    }
  }

  lemma LaterReports(a: seq<Uuid>, b: seq<Uuid>, c: seq<Uuid>, u: Uuid)
    requires |a| <= |b| <= |c| && b[..|a|] == a && c[..|b|] == b && u !in b[|a|..] && u !in c[|b|..]
    ensures c[..|a|] == a && u !in c[|a|..]
  {
  }

  lemma StuckStep(w: World, id: Uuid, u: Uuid, step: Step)
    requires Inv(w) && Stuck(w, id) && (id, u) in w.attached
    ensures Stuck(Apply(w, step), id) && (id, u) in Apply(w, step).attached && Reachable(Apply(w, step), u)
  {
    StepKeepsInv(w, step);
    FoundInState(Apply(w, step), u);
    NoMembers(UserConnections(Apply(w, step).registry, u));
  }

  // An id indexed for a user but no longer registered is never taken out again.
  lemma {:induction false} StaleIdsStay(w: World, id: Uuid, u: Uuid, steps: seq<Step>)
    requires Inv(w) && Indexed(w.registry, id, u) && id !in w.registry.owner
    ensures var w' := Exec(w, steps);
            Indexed(w'.registry, id, u) && id !in w'.registry.owner && id !in UserConnections(w'.registry, u)
  {
    RunFrom(w, steps);
    FoundInState(Exec(w, steps), u);
    if steps != [] {
      var front, step := steps[..|steps| - 1], steps[|steps| - 1];
      StaleIdsStay(w, id, u, front);
      RunFrom(w, front);
      StaleStep(Exec(w, front), id, u, step);
    }
  }

  lemma StaleStep(w: World, id: Uuid, u: Uuid, step: Step)
    requires Inv(w) && Indexed(w.registry, id, u) && id !in w.registry.owner
    ensures Indexed(Apply(w, step).registry, id, u) && id !in Apply(w, step).registry.owner
  {
  }

  // A connection that authenticates as u and then as v: when it closes, u becomes
  // unreachable without a report, and u's entry in the index is left behind.
  lemma {:induction false} ReauthenticationHidesOffline(steps: seq<Step>, id: Uuid, u: Uuid, v: Uuid)
    requires var w := Exec(START, steps); In(w, id, Listening) && id in w.open && u !in w.registry.index && u != v
    ensures var w := Apply(Apply(Exec(START, steps), AttachByMessage(id, u)), AttachByMessage(id, v));
            var w' := Apply(w, SocketCloses(id));
            && Reachable(w, u) && !Reachable(w', u) && u !in Reported(w, SocketCloses(id))
            && Indexed(w'.registry, id, u) && id !in w'.registry.owner
  {
    var w := Exec(START, steps);
    RunKeepsInv(steps);
    StepKeepsInv(w, AttachByMessage(id, u));
    StepKeepsInv(Apply(w, AttachByMessage(id, u)), AttachByMessage(id, v));
    AttachedTwice(w, id, u, v);
    OnlyConnectionHandedOver(Apply(Apply(w, AttachByMessage(id, u)), AttachByMessage(id, v)), id, u);
  }

  lemma AttachedTwice(w: World, id: Uuid, u: Uuid, v: Uuid)
    requires In(w, id, Listening) && id in w.registry.owner && IdsOf(w.registry.index, u) == [] && u != v
    ensures var w' := Apply(Apply(w, AttachByMessage(id, u)), AttachByMessage(id, v));
            && w'.open == w.open && In(w', id, Listening) && IdsOf(w'.registry.index, u) == [id]
            && id in w'.registry.owner && w'.registry.owner[id] == Some(v)
  {
  }

  lemma OnlyConnectionHandedOver(w: World, id: Uuid, u: Uuid)
    requires Inv(w) && IdsOf(w.registry.index, u) == [id] && id in w.open && In(w, id, Listening)
    requires w.registry.owner[id].Some? && w.registry.owner[id].value != u
    ensures var w' := Apply(w, SocketCloses(id));
            && Reachable(w, u) && !Reachable(w', u) && u !in Reported(w, SocketCloses(id))
            && Indexed(w'.registry, id, u) && id !in w'.registry.owner
  {
  }
}
