/**
  Refresh-token rotation: sessions with one current token hash each, and the history of
  consumed hashes.  What one rotation does, and what every run of rotations keeps.
 */
module RefreshRotation {
  import opened Wrappers

  type Id = nat
  type Hash = nat

  datatype SessionKey = SessionKey(tenant: Id, session: Id)

  datatype Session = Session(user: Id, identity: Option<Id>, hash: Hash, active: bool)
  {
    function Owner(): Id { if identity.Some? then identity.value else user }
  }

  datatype Consumed = Consumed(session: Id, user: Id, replacedBy: Hash)

  /** The history has one row per tenant and token hash. */
  datatype Db = Db(sessions: map<SessionKey, Session>, history: map<(Id, Hash), Consumed>)

  const EMPTY := Db(map[], map[])

  datatype Claims = Claims(subject: Id, key: SessionKey, hash: Hash)

  datatype Outcome = ROTATED | REUSED | INVALID

  function Revoked(db: Db, key: SessionKey): Db
    requires key in db.sessions
  {
    db.(sessions := db.sessions[key := db.sessions[key].(active := false)])
  }

  predicate Replayed(db: Db, c: Claims) {
    (c.key.tenant, c.hash) in db.history && db.history[(c.key.tenant, c.hash)].session == c.key.session
  }

  /**
    One rotation on its own.  `usable` stands for an unexpired session of an active user;
    the replacement hash is whatever the token service makes.
   */
  function Rotate(db: Db, c: Claims, usable: bool, replacement: Hash): (Db, Outcome) {
    if c.key !in db.sessions || db.sessions[c.key].Owner() != c.subject then (db, INVALID)
    else
      var row := db.sessions[c.key];
      if row.hash != c.hash then
        if Replayed(db, c) then (Revoked(db, c.key), REUSED) else (db, INVALID)
      else if !row.active || !usable then (db, INVALID)
      else if (c.key.tenant, c.hash) in db.history then (Revoked(db, c.key), REUSED)
      else
        (Db(db.sessions[c.key := row.(hash := replacement)],
            db.history[(c.key.tenant, c.hash) := Consumed(c.key.session, row.user, replacement)]),
         ROTATED)
  }

  /** Sessions are opened by logins and closed in many places; none opens a closed one again. */
  datatype Call =
    | Open(key: SessionKey, session: Session)
    | Close(key: SessionKey)
    | Refresh(claims: Claims, usable: bool, replacement: Hash)

  function Serve(db: Db, call: Call): Db {
    match call
    case Open(key, session) => if key in db.sessions then db else db.(sessions := db.sessions[key := session])
    case Close(key) => if key in db.sessions then Revoked(db, key) else db
    case Refresh(c, usable, replacement) => Rotate(db, c, usable, replacement).0
  }

  function Run(db: Db, calls: seq<Call>): Db {
    if calls == [] then db else Serve(Run(db, calls[..|calls| - 1]), calls[|calls| - 1])
  }

  /** What call number `i` of a run from empty tables answered. */
  function OutcomeOf(calls: seq<Call>, i: nat): Outcome
    requires i < |calls| && calls[i].Refresh?
  {
    Rotate(Run(EMPTY, calls[..i]), calls[i].claims, calls[i].usable, calls[i].replacement).1
  }

  predicate RotatedAt(calls: seq<Call>, i: nat) {
    i < |calls| && calls[i].Refresh? && OutcomeOf(calls, i) == ROTATED
  }

  predicate ReusedAt(calls: seq<Call>, i: nat) {
    i < |calls| && calls[i].Refresh? && OutcomeOf(calls, i) == REUSED
  }

  // ------------------------------------------------------------ at most once

  lemma RunStep(calls: seq<Call>, i: nat)
    requires i < |calls|
    ensures Run(EMPTY, calls[..i + 1]) == Serve(Run(EMPTY, calls[..i]), calls[i])
  {
    assert calls[..i + 1][..i] == calls[..i];
  }

  /** The history only grows, a session keeps its owner, and an inactive one stays inactive. */
  ghost predicate Grew(a: Db, b: Db) {
    && (forall k :: k in a.history ==> k in b.history && b.history[k] == a.history[k])
    && (forall key :: key in a.sessions ==> key in b.sessions && Later(a.sessions[key], b.sessions[key]))
  }

  predicate Later(a: Session, b: Session) {
    && b.user == a.user && b.identity == a.identity
    && (!a.active ==> !b.active && b.hash == a.hash)
  }

  lemma ServeGrows(db: Db, call: Call)
    ensures Grew(db, Serve(db, call))
  {
  }

  lemma GrewTransitive(a: Db, b: Db, c: Db)
    requires Grew(a, b) && Grew(b, c)
    ensures Grew(a, c)
  {
    forall key | key in a.sessions ensures key in c.sessions && Later(a.sessions[key], c.sessions[key]) {
      assert Later(a.sessions[key], b.sessions[key]) && Later(b.sessions[key], c.sessions[key]);
    }
  }

  lemma {:induction false} RunGrows(calls: seq<Call>, i: nat, j: nat)
    requires i <= j <= |calls|
    ensures Grew(Run(EMPTY, calls[..i]), Run(EMPTY, calls[..j]))
    decreases j
  {
    if i < j {
      RunGrows(calls, i, j - 1);
      RunStep(calls, j - 1);
      ServeGrows(Run(EMPTY, calls[..j - 1]), calls[j - 1]);
      GrewTransitive(Run(EMPTY, calls[..i]), Run(EMPTY, calls[..j - 1]), Run(EMPTY, calls[..j]));
    }
  }

  /** Each hash is rotated at most once in its tenant, also when a replacement repeats an earlier hash. */
  lemma RotatedAtMostOnce(calls: seq<Call>, i: nat, j: nat)
    requires i < j && RotatedAt(calls, i) && RotatedAt(calls, j)
    ensures (calls[i].claims.key.tenant, calls[i].claims.hash) != (calls[j].claims.key.tenant, calls[j].claims.hash)
  {
    RunStep(calls, i);
    RunGrows(calls, i + 1, j);
    assert (calls[i].claims.key.tenant, calls[i].claims.hash) in Run(EMPTY, calls[..j]).history;
  }

  /** A detected reuse is kept: no later rotation of that session succeeds. */
  lemma ReuseEndsSession(calls: seq<Call>, i: nat, j: nat)
    requires i < j && ReusedAt(calls, i) && RotatedAt(calls, j)
    ensures calls[i].claims.key != calls[j].claims.key
  {
    RunStep(calls, i);
    RunGrows(calls, i + 1, j);
    assert !Run(EMPTY, calls[..i + 1]).sessions[calls[i].claims.key].active;
  }

  /** Presenting a consumed token again is detected, or refused when the session's current token repeats it. */
  lemma ConsumedTokenIsDetected(calls: seq<Call>, i: nat, j: nat)
    requires i < j < |calls| && RotatedAt(calls, i) && calls[j].Refresh? && calls[j].claims == calls[i].claims
    ensures calls[i].claims.key in Run(EMPTY, calls[..j]).sessions && OutcomeOf(calls, j) != ROTATED
    ensures Run(EMPTY, calls[..j]).sessions[calls[i].claims.key].hash != calls[i].claims.hash ==>
              var after := Run(EMPTY, calls[..j + 1]).sessions;
              OutcomeOf(calls, j) == REUSED && calls[i].claims.key in after && !after[calls[i].claims.key].active
  {
    RunStep(calls, i);
    RunGrows(calls, i + 1, j);
    RunStep(calls, j);
    assert (calls[i].claims.key.tenant, calls[i].claims.hash) in Run(EMPTY, calls[..i + 1]).history;
  }

  // ---------------------------------------------------------- the hash chain

  /** The hashes a session has had, oldest first, after one more call. */
  function TrailAfter(db: Db, call: Call, key: SessionKey, trail: seq<Hash>): seq<Hash> {
    match call
    case Open(k, session) => if k == key && key !in db.sessions then [session.hash] else trail
    case Close(_) => trail
    case Refresh(c, usable, replacement) =>
      if c.key == key && Rotate(db, c, usable, replacement).1 == ROTATED then trail + [replacement] else trail
  }

  function Trail(calls: seq<Call>, key: SessionKey): seq<Hash> {
    if calls == [] then []
    else
      var n := |calls| - 1;
      TrailAfter(Run(EMPTY, calls[..n]), calls[n], key, Trail(calls[..n], key))
  }

  /** A hash that nothing in the tenant's tables holds. */
  ghost predicate Fresh(db: Db, tenant: Id, hash: Hash) {
    && (forall key :: key in db.sessions && key.tenant == tenant ==> db.sessions[key].hash != hash)
    && (tenant, hash) !in db.history
    && (forall k :: k in db.history && k.0 == tenant ==> db.history[k].replacedBy != hash)
  }

  /** Every hash a call brings in is fresh when it does. */
  ghost predicate FreshRun(calls: seq<Call>) {
    forall i :: 0 <= i < |calls| ==> FreshCall(Run(EMPTY, calls[..i]), calls[i])
  }

  ghost predicate FreshCall(db: Db, call: Call) {
    match call
    case Open(key, session) => Fresh(db, key.tenant, session.hash)
    case Close(_) => true
    case Refresh(c, _, replacement) => Fresh(db, c.key.tenant, replacement)
  }

  /** Follow `replaced_by_hash` for some steps. */
  function Follow(db: Db, tenant: Id, hash: Hash, steps: nat): Option<Hash>
    decreases steps
  {
    if steps == 0 then Some(hash)
    else if (tenant, hash) !in db.history then None
    else Follow(db, tenant, db.history[(tenant, hash)].replacedBy, steps - 1)
  }

  ghost predicate TrailOk(db: Db, key: SessionKey, trail: seq<Hash>) {
    && (key !in db.sessions ==> trail == [])
    && (key in db.sessions ==> trail != [] && trail[|trail| - 1] == db.sessions[key].hash)
    // each consumed hash of the session is on the trail, followed by its replacement
    && (forall n :: 0 <= n < |trail| - 1 ==> LinkAt(db, key, trail, n))
    && (forall h :: (key.tenant, h) in db.history && db.history[(key.tenant, h)].session == key.session ==>
          h in trail[..if trail == [] then 0 else |trail| - 1])
    && (forall m, n :: 0 <= m < n < |trail| ==> trail[m] != trail[n])
    && (trail != [] ==> (key.tenant, trail[|trail| - 1]) !in db.history)
  }

  predicate LinkAt(db: Db, key: SessionKey, trail: seq<Hash>, n: nat)
    requires n + 1 < |trail|
  {
    && (key.tenant, trail[n]) in db.history
    && db.history[(key.tenant, trail[n])].session == key.session
    && db.history[(key.tenant, trail[n])].replacedBy == trail[n + 1]
  }

  /** Sessions of one tenant have different current hashes. */
  ghost predicate DistinctCurrent(db: Db) {
    forall a, b :: a in db.sessions && b in db.sessions && a != b && a.tenant == b.tenant ==>
      db.sessions[a].hash != db.sessions[b].hash
  }

  /** Every hash on a trail is still held somewhere, so a fresh one is on none. */
  lemma FreshIsOnNoTrail(db: Db, key: SessionKey, trail: seq<Hash>, hash: Hash)
    requires TrailOk(db, key, trail) && Fresh(db, key.tenant, hash)
    ensures forall n :: 0 <= n < |trail| ==> trail[n] != hash
  {
    forall n | 0 <= n < |trail| ensures trail[n] != hash {
      if n + 1 < |trail| {
        assert LinkAt(db, key, trail, n);
      }
    }
  }

  /** A successful rotation of this session adds one link. */
  lemma OwnRotationKeepsTrail(db: Db, trail: seq<Hash>, c: Claims, usable: bool, replacement: Hash)
    requires TrailOk(db, c.key, trail) && Fresh(db, c.key.tenant, replacement)
    requires Rotate(db, c, usable, replacement).1 == ROTATED
    ensures TrailOk(Rotate(db, c, usable, replacement).0, c.key, trail + [replacement])
  {
    var db' := Rotate(db, c, usable, replacement).0;
    FreshIsOnNoTrail(db, c.key, trail, replacement);
    var longer := trail + [replacement];
    forall n | 0 <= n < |longer| - 1 ensures LinkAt(db', c.key, longer, n) {
      if n + 1 < |trail| {
        assert LinkAt(db, c.key, trail, n);
      }
    }
    assert longer[..|longer| - 1] == trail;
  }

  /** A rotation of another session consumes that session's hash, so it leaves this trail alone. */
  lemma OtherRotationKeepsTrail(db: Db, key: SessionKey, trail: seq<Hash>, c: Claims, usable: bool, replacement: Hash)
    requires TrailOk(db, key, trail) && DistinctCurrent(db) && c.key != key
    requires Rotate(db, c, usable, replacement).1 == ROTATED
    ensures TrailOk(Rotate(db, c, usable, replacement).0, key, trail)
  {
    var db' := Rotate(db, c, usable, replacement).0;
    forall n | 0 <= n < |trail| - 1 ensures LinkAt(db', key, trail, n) {
      assert LinkAt(db, key, trail, n);
    }
    if key in db.sessions && c.key.tenant == key.tenant {
      assert db.sessions[c.key].hash != db.sessions[key].hash;
    }
    forall h | (key.tenant, h) in db'.history && db'.history[(key.tenant, h)].session == key.session
      ensures h in trail[..if trail == [] then 0 else |trail| - 1]
    {
      assert (key.tenant, h) in db.history;
    }
  }

  /** Changing which sessions are active, or nothing, keeps every trail. */
  lemma SameHashesKeepTrail(db: Db, db': Db, key: SessionKey, trail: seq<Hash>)
    requires TrailOk(db, key, trail) && db'.history == db.history
    requires key in db'.sessions <==> key in db.sessions
    requires key in db.sessions ==> db'.sessions[key].hash == db.sessions[key].hash
    ensures TrailOk(db', key, trail)
  {
    forall n | 0 <= n < |trail| - 1 ensures LinkAt(db', key, trail, n) {
      assert LinkAt(db, key, trail, n);
    }
  }

  lemma OpenKeepsTrail(db: Db, key: SessionKey, session: Session, trail: seq<Hash>)
    requires TrailOk(db, key, trail) && key !in db.sessions && Fresh(db, key.tenant, session.hash)
    ensures TrailOk(Serve(db, Open(key, session)), key, [session.hash])
  {
    assert forall h :: (key.tenant, h) in db.history ==> db.history[(key.tenant, h)].session != key.session;
  }

  lemma ServeKeepsTrail(db: Db, call: Call, key: SessionKey, trail: seq<Hash>)
    requires TrailOk(db, key, trail) && DistinctCurrent(db) && FreshCall(db, call)
    ensures TrailOk(Serve(db, call), key, TrailAfter(db, call, key, trail))
  {
    match call
    case Open(k, session) =>
      if k == key && key !in db.sessions {
        OpenKeepsTrail(db, key, session, trail);
      } else {
        SameHashesKeepTrail(db, Serve(db, call), key, trail);
      }
    case Close(k) => SameHashesKeepTrail(db, Serve(db, call), key, trail);
    case Refresh(c, usable, replacement) =>
      if Rotate(db, c, usable, replacement).1 != ROTATED {
        SameHashesKeepTrail(db, Serve(db, call), key, trail);
      } else if c.key == key {
        OwnRotationKeepsTrail(db, trail, c, usable, replacement);
      } else {
        OtherRotationKeepsTrail(db, key, trail, c, usable, replacement);
      }
  }

  lemma ServeKeepsDistinct(db: Db, call: Call)
    requires DistinctCurrent(db) && FreshCall(db, call)
    ensures DistinctCurrent(Serve(db, call))
  {
  }

  lemma {:induction false} EveryTrailIsOk(calls: seq<Call>, key: SessionKey)
    requires FreshRun(calls)
    ensures TrailOk(Run(EMPTY, calls), key, Trail(calls, key)) && DistinctCurrent(Run(EMPTY, calls))
    decreases |calls|
  {
    if calls != [] {
      var n := |calls| - 1;
      forall i | 0 <= i < n ensures FreshCall(Run(EMPTY, calls[..n][..i]), calls[..n][i]) {
        assert calls[..n][..i] == calls[..i];
        assert FreshCall(Run(EMPTY, calls[..i]), calls[i]);
      }
      EveryTrailIsOk(calls[..n], key);
      assert FreshCall(Run(EMPTY, calls[..n]), calls[n]);
      ServeKeepsTrail(Run(EMPTY, calls[..n]), calls[n], key, Trail(calls[..n], key));
      ServeKeepsDistinct(Run(EMPTY, calls[..n]), calls[n]);
    }
  }

  lemma {:induction false} FollowTrail(db: Db, key: SessionKey, trail: seq<Hash>, from: nat, n: nat)
    requires TrailOk(db, key, trail) && from <= n < |trail|
    ensures Follow(db, key.tenant, trail[from], n - from) == Some(trail[n])
    decreases n - from
  {
    if from < n {
      assert LinkAt(db, key, trail, from);
      FollowTrail(db, key, trail, from + 1, n);
    }
  }

  /** The trail is the chain: each hash on it once, each consumed one of the session before its end. */
  lemma TrailIsChain(db: Db, key: SessionKey, trail: seq<Hash>)
    requires TrailOk(db, key, trail) && trail != []
    ensures forall n :: 0 <= n < |trail| ==> Follow(db, key.tenant, trail[0], n) == Some(trail[n])
    ensures Follow(db, key.tenant, trail[0], |trail|) == None
  {
    forall n | 0 <= n < |trail| ensures Follow(db, key.tenant, trail[0], n) == Some(trail[n]) {
      FollowTrail(db, key, trail, 0, n);
    }
    FollowPastEnd(db, key, trail, 0);
  }

  lemma ConsumedAreOnTrail(db: Db, key: SessionKey, trail: seq<Hash>)
    requires TrailOk(db, key, trail) && trail != []
    ensures forall h :: h in trail[..|trail| - 1] <==>
              (key.tenant, h) in db.history && db.history[(key.tenant, h)].session == key.session
  {
    forall h | h in trail[..|trail| - 1]
      ensures (key.tenant, h) in db.history && db.history[(key.tenant, h)].session == key.session
    {
      var n :| 0 <= n < |trail| - 1 && trail[n] == h;
      assert LinkAt(db, key, trail, n);
    }
  }

  /**
    With fresh hashes, following `replaced_by_hash` from a session's first hash passes each
    hash the session consumed exactly once, in order, and ends at its current hash.
   */
  lemma ChainEndsAtCurrent(calls: seq<Call>, key: SessionKey)
    requires FreshRun(calls) && key in Run(EMPTY, calls).sessions
    ensures var db, trail := Run(EMPTY, calls), Trail(calls, key);
            && trail != [] && trail[|trail| - 1] == db.sessions[key].hash
            && (forall n :: 0 <= n < |trail| ==> Follow(db, key.tenant, trail[0], n) == Some(trail[n]))
            && (forall m, n :: 0 <= m < n < |trail| ==> trail[m] != trail[n])
            && (forall h :: h in trail[..|trail| - 1] <==>
                  (key.tenant, h) in db.history && db.history[(key.tenant, h)].session == key.session)
            && Follow(db, key.tenant, trail[0], |trail|) == None
  {
    EveryTrailIsOk(calls, key);
    TrailIsChain(Run(EMPTY, calls), key, Trail(calls, key));
    ConsumedAreOnTrail(Run(EMPTY, calls), key, Trail(calls, key));
  }

  lemma {:induction false} FollowPastEnd(db: Db, key: SessionKey, trail: seq<Hash>, from: nat)
    requires TrailOk(db, key, trail) && from < |trail|
    ensures Follow(db, key.tenant, trail[from], |trail| - from) == None
    decreases |trail| - from
  {
    if from + 1 < |trail| {
      assert LinkAt(db, key, trail, from);
      FollowPastEnd(db, key, trail, from + 1);
    }
  }

  // ---------------------------------------------------------------- the service

  /** The service on its own tables: statement by statement, all of it in one transaction. */
  class RotationService {
    var sessions: map<SessionKey, Session>
    var history: map<(Id, Hash), Consumed>

    constructor ()
      ensures Tables() == EMPTY
    {
      sessions, history := map[], map[];
    }

    function Tables(): Db
      reads this
    {
      Db(sessions, history)
    }

    /**
      The outcome is returned and not thrown, so what was written is committed also when it
      is REUSED.  `lost` is the throw after an update that matched no row; it never happens.
     */
    method RotateToken(c: Claims, usable: bool, replacement: Hash) returns (outcome: Outcome, lost: bool)
      modifies this
      ensures (Tables(), outcome) == Rotate(old(Tables()), c, usable, replacement)
      ensures !lost
    {
      lost := false;
      if c.key !in sessions || sessions[c.key].Owner() != c.subject {
        return INVALID, false;
      }
      var session := sessions[c.key];
      if session.hash != c.hash {
        if (c.key.tenant, c.hash) in history && history[(c.key.tenant, c.hash)].session == c.key.session {
          sessions := sessions[c.key := session.(active := false)];
          return REUSED, false;
        }
        return INVALID, false;
      }
      if !session.active || !usable {
        return INVALID, false;
      }
      if (c.key.tenant, c.hash) in history {
        sessions := sessions[c.key := session.(active := false)];
        return REUSED, false;
      }
      history := history[(c.key.tenant, c.hash) := Consumed(c.key.session, session.user, replacement)];
      var current := sessions[c.key];
      if current.user != session.user || current.hash != c.hash || !current.active {
        return INVALID, true;
      }
      sessions := sessions[c.key := current.(hash := replacement)];
      return ROTATED, false;
    }
  }
}
