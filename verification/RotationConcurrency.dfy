/**
  Rotations that overlap, statement by statement: each is a transaction that locks its
  session row, reads committed rows, and writes rows no one else sees before its commit.
  Every such run leaves the tables and answers that its commits, one after the other, would.
 */
module RotationConcurrency {
  import opened Wrappers
  import opened RefreshRotation

  type TxId = nat

  datatype Pc =
    | Waiting
    | Locked
    | Revoking
    | Inserting
    | Updating
    | Committing(outcome: Outcome)
    | Lost
    | Failed
    | Finished(outcome: Outcome, place: nat)

  /**
    `row` is the session as read under the lock; the two writes are this transaction's own.
    A finished transaction keeps its place in the order of commits.
   */
  datatype Tx = Tx(
    claims: Claims, pc: Pc, usable: bool, replacement: Hash, row: Option<Session>,
    wroteSession: Option<Session>, wroteHistory: Option<Consumed>)

  /** `served` lists what has been committed, in commit order. */
  datatype System = System(db: Db, locks: map<SessionKey, TxId>, txs: map<TxId, Tx>, served: seq<Call>)

  const START := System(EMPTY, map[], map[], [])

  datatype Event =
    | Begin(t: TxId, claims: Claims)
    | Next(t: TxId, usable: bool, replacement: Hash)
    | Other(call: Call)

  function Owned(c: Claims): (Id, Hash) { (c.key.tenant, c.hash) }

  /** Another transaction has inserted the same tenant and hash and not finished. */
  ghost predicate InsertBlocked(s: System, t: TxId)
    requires t in s.txs
  {
    exists o :: o in s.txs && o != t && s.txs[o].wroteHistory.Some? && Owned(s.txs[o].claims) == Owned(s.txs[t].claims)
  }

  function With(s: System, t: TxId, tx: Tx): System { s.(txs := s.txs[t := tx]) }

  /** The transaction ends without having written. */
  function Settle(s: System, t: TxId, tx: Tx, outcome: Outcome): System {
    With(s.(locks :=
      s.locks - (if tx.claims.key in s.locks && s.locks[tx.claims.key] == t then {tx.claims.key} else {}),
            served := s.served + [Refresh(tx.claims, tx.usable, tx.replacement)]),
         t, tx.(pc := Finished(outcome, |s.served|)))
  }

  /** SELECT ... FOR UPDATE: waits while another transaction holds the row. */
  function LockStep(s: System, t: TxId, tx: Tx): System {
    if tx.claims.key !in s.db.sessions then Settle(s, t, tx, INVALID)
    else if tx.claims.key in s.locks then s
    else
      With(s.(locks := s.locks[tx.claims.key := t]), t, tx.(pc := Locked, row := Some(s.db.sessions[tx.claims.key])))
  }

  /** The checks on the row read, with the lookups they make. */
  function CheckStep(s: System, t: TxId, tx: Tx, usable: bool, replacement: Hash): System
    requires tx.row.Some?
  {
    var tx' := tx.(usable := usable, replacement := replacement);
    var row := tx.row.value;
    if row.Owner() != tx.claims.subject then Settle(s, t, tx', INVALID)
    else if row.hash != tx.claims.hash then
      if Replayed(s.db, tx.claims) then With(s, t, tx'.(pc := Revoking)) else Settle(s, t, tx', INVALID)
    else if !row.active || !usable then Settle(s, t, tx', INVALID)
    else With(s, t, tx'.(pc := Inserting))
  }

  /** The session row as this transaction sees it. */
  function Seen(s: System, tx: Tx): Option<Session> {
    if tx.wroteSession.Some? then tx.wroteSession
    else if tx.claims.key in s.db.sessions then Some(s.db.sessions[tx.claims.key])
    else None
  }

  ghost function InsertStep(s: System, t: TxId, tx: Tx): System
    requires t in s.txs && tx.row.Some?
  {
    if Owned(tx.claims) in s.db.history then With(s, t, tx.(pc := Revoking))
    else if InsertBlocked(s, t) then s
    else
      With(s, t, tx.(pc := Updating,
                     wroteHistory := Some(Consumed(tx.claims.key.session, tx.row.value.user, tx.replacement))))
  }

  /** The guarded update; when it matches no row the callback throws. */
  function UpdateStep(s: System, t: TxId, tx: Tx): System
    requires tx.row.Some?
  {
    var now := Seen(s, tx);
    if now.Some? && now.value.user == tx.row.value.user && now.value.hash == tx.claims.hash && now.value.active
    then With(s, t, tx.(pc := Committing(ROTATED), wroteSession := Some(now.value.(hash := tx.replacement))))
    else With(s, t, tx.(pc := Lost))
  }

  function RevokeStep(s: System, t: TxId, tx: Tx): System {
    var now := Seen(s, tx);
    With(s, t, tx.(pc := Committing(REUSED),
                   wroteSession := if now.Some? then Some(now.value.(active := false)) else None))
  }

  function Written(db: Db, tx: Tx): Db {
    Db(if tx.wroteSession.Some? then db.sessions[tx.claims.key := tx.wroteSession.value] else db.sessions,
       if tx.wroteHistory.Some? then db.history[Owned(tx.claims) := tx.wroteHistory.value] else db.history)
  }

  function CommitStep(s: System, t: TxId, tx: Tx): System
    requires tx.pc.Committing?
  {
    Settle(s.(db := Written(s.db, tx)), t, tx.(wroteSession := None, wroteHistory := None), tx.pc.outcome)
  }

  /** ROLLBACK after the throw. */
  function RollbackStep(s: System, t: TxId, tx: Tx): System {
    With(s.(locks := s.locks - {tx.claims.key}), t, tx.(pc := Failed, wroteSession := None, wroteHistory := None))
  }

  ghost function NextStep(s: System, t: TxId, usable: bool, replacement: Hash): System
    requires t in s.txs
  {
    var tx := s.txs[t];
    match tx.pc
    case Waiting => LockStep(s, t, tx)
    case Locked => if tx.row.Some? then CheckStep(s, t, tx, usable, replacement) else s
    case Revoking => RevokeStep(s, t, tx)
    case Inserting => if tx.row.Some? then InsertStep(s, t, tx) else s
    case Updating => if tx.row.Some? then UpdateStep(s, t, tx) else s
    case Committing(_) => CommitStep(s, t, tx)
    case Lost => RollbackStep(s, t, tx)
    case Failed => s
    case Finished(_, _) => s
  }

  /** A login or a logout is one statement, which waits for the row's lock. */
  function OtherStep(s: System, call: Call): System {
    match call
    case Refresh(_, _, _) => s
    case _ => if call.key in s.locks then s else s.(db := Serve(s.db, call), served := s.served + [call])
  }

  ghost function Happen(s: System, e: Event): System {
    match e
    case Begin(t, claims) =>
      if t in s.txs then s else With(s, t, Tx(claims, Waiting, false, 0, None, None, None))
    case Next(t, usable, replacement) => if t in s.txs then NextStep(s, t, usable, replacement) else s
    case Other(call) => OtherStep(s, call)
  }

  ghost function Exec(s: System, events: seq<Event>): System
    decreases |events|
  {
    if events == [] then s else Exec(Happen(s, events[0]), events[1..])
  }

  // --------------------------------------------------------------- invariant

  ghost predicate HoldsLock(s: System, t: TxId, tx: Tx) {
    && tx.claims.key in s.locks && s.locks[tx.claims.key] == t
    && tx.claims.key in s.db.sessions && tx.row == Some(s.db.sessions[tx.claims.key])
  }

  /** What a transaction knows at each point, seen from the committed tables. */
  ghost predicate Knows(s: System, t: TxId, tx: Tx) {
    match tx.pc
    case Waiting => tx.wroteSession.None? && tx.wroteHistory.None?
    case Locked => HoldsLock(s, t, tx) && tx.wroteSession.None? && tx.wroteHistory.None?
    case Revoking => HoldsLock(s, t, tx) && tx.wroteSession.None? && tx.wroteHistory.None? && MustRevoke(s.db, tx)
    case Inserting => HoldsLock(s, t, tx) && tx.wroteSession.None? && tx.wroteHistory.None? && MayRotate(tx)
    case Updating => HoldsLock(s, t, tx) && tx.wroteSession.None? && MayRotate(tx) && Inserted(s.db, tx)
    case Committing(outcome) =>
      && HoldsLock(s, t, tx)
      && (outcome == REUSED ==> MustRevoke(s.db, tx) && tx.wroteHistory.None?
                                && tx.wroteSession == Some(tx.row.value.(active := false)))
      && (outcome == ROTATED ==> MayRotate(tx) && Inserted(s.db, tx)
                                 && tx.wroteSession == Some(tx.row.value.(hash := tx.replacement)))
      && outcome != INVALID
    case Lost => false
    case Failed => false
    case Finished(outcome, place) =>
      && tx.wroteSession.None? && tx.wroteHistory.None?
      && Answered(s.served, place, tx.claims, outcome)
  }

  /** The serial run of the committed calls gives this call this answer. */
  predicate Answered(served: seq<Call>, place: nat, c: Claims, outcome: Outcome) {
    && place < |served| && served[place].Refresh? && served[place].claims == c
    && OutcomeOf(served, place) == outcome
  }

  ghost predicate Placed(s: System) {
    forall a, b :: a in s.txs && b in s.txs && a != b && s.txs[a].pc.Finished? && s.txs[b].pc.Finished? ==>
      s.txs[a].pc.place != s.txs[b].pc.place
  }

  predicate MayRotate(tx: Tx)
    requires tx.row.Some?
  {
    && tx.row.value.Owner() == tx.claims.subject && tx.row.value.hash == tx.claims.hash
    && tx.row.value.active && tx.usable
  }

  predicate MustRevoke(db: Db, tx: Tx)
    requires tx.row.Some?
  {
    && tx.row.value.Owner() == tx.claims.subject
    && Owned(tx.claims) in db.history
    && (if tx.row.value.hash != tx.claims.hash then Replayed(db, tx.claims) else tx.row.value.active && tx.usable)
  }

  predicate Inserted(db: Db, tx: Tx)
    requires tx.row.Some?
  {
    && Owned(tx.claims) !in db.history
    && tx.wroteHistory == Some(Consumed(tx.claims.key.session, tx.row.value.user, tx.replacement))
  }

  ghost predicate Apart(s: System) {
    forall a, b :: a in s.txs && b in s.txs && a != b && s.txs[a].wroteHistory.Some? && s.txs[b].wroteHistory.Some? ==>
      Owned(s.txs[a].claims) != Owned(s.txs[b].claims)
  }

  ghost predicate Inv(s: System) {
    && s.db == Run(EMPTY, s.served)
    && (forall t :: t in s.txs ==> Knows(s, t, s.txs[t]))
    && Apart(s) && Placed(s)
  }

  lemma RunOneMore(calls: seq<Call>, call: Call)
    ensures Run(EMPTY, calls + [call]) == Serve(Run(EMPTY, calls), call)
  {
    assert (calls + [call])[..|calls|] == calls;
  }

  lemma AnsweredLater(served: seq<Call>, more: seq<Call>, place: nat, c: Claims, outcome: Outcome)
    requires Answered(served, place, c, outcome) && served <= more
    ensures Answered(more, place, c, outcome)
  {
    assert more[..place] == served[..place];
  }

  lemma AnsweredLast(served: seq<Call>, c: Claims, usable: bool, replacement: Hash)
    ensures Answered(served + [Refresh(c, usable, replacement)], |served|, c,
                     Rotate(Run(EMPTY, served), c, usable, replacement).1)
  {
    assert (served + [Refresh(c, usable, replacement)])[..|served|] == served;
  }

  /** What the others know survives when the committed rows they rely on do. */
  lemma OthersKnow(s: System, s': System, t: TxId, o: TxId)
    requires o in s.txs && o != t && Knows(s, o, s.txs[o])
    requires forall k :: k in s.locks && s.locks[k] == o ==> k in s'.locks && s'.locks[k] == o
    requires forall k :: k in s.locks && s.locks[k] == o && k in s.db.sessions ==>
      k in s'.db.sessions && s'.db.sessions[k] == s.db.sessions[k]
    requires forall h :: h in s.db.history ==> h in s'.db.history && s'.db.history[h] == s.db.history[h]
    requires s.txs[o].wroteHistory.Some? && Owned(s.txs[o].claims) !in s.db.history ==>
      Owned(s.txs[o].claims) !in s'.db.history
    requires s.served <= s'.served
    ensures Knows(s', o, s.txs[o])
  {
    if s.txs[o].pc.Finished? {
      AnsweredLater(s.served, s'.served, s.txs[o].pc.place, s.txs[o].claims, s.txs[o].pc.outcome);
    }
  }

  /** Committing is serving the call: the tables and the answer are those of the rotation alone. */
  lemma CommitServes(s: System, t: TxId)
    requires Inv(s) && t in s.txs && s.txs[t].pc.Committing?
    ensures var tx := s.txs[t];
            Rotate(s.db, tx.claims, tx.usable, tx.replacement) == (Written(s.db, tx), tx.pc.outcome)
  {
    var tx := s.txs[t];
    assert Knows(s, t, tx);
  }

  lemma CommitKeeps(s: System, t: TxId)
    requires Inv(s) && t in s.txs && s.txs[t].pc.Committing?
    ensures Inv(CommitStep(s, t, s.txs[t]))
  {
    var tx := s.txs[t];
    var s' := CommitStep(s, t, tx);
    assert Knows(s, t, tx);
    CommitServes(s, t);
    RunOneMore(s.served, Refresh(tx.claims, tx.usable, tx.replacement));
    AnsweredLast(s.served, tx.claims, tx.usable, tx.replacement);
    forall o | o in s'.txs ensures Knows(s', o, s'.txs[o]) {
      if o != t {
        assert Knows(s, o, s.txs[o]);
        OthersKnow(s, s', t, o);
      }
    }
    PlacesStay(s, s', t);
  }

  /** Every place given out so far is before the end of the list. */
  lemma PlacesStay(s: System, s': System, t: TxId)
    requires Inv(s) && t in s'.txs && s'.txs == s.txs[t := s'.txs[t]]
    requires s'.txs[t].pc.Finished? ==> s'.txs[t].pc.place == |s.served|
    ensures Placed(s')
  {
    forall a | a in s.txs && s.txs[a].pc.Finished? ensures s.txs[a].pc.place < |s.served| {
      assert Knows(s, a, s.txs[a]);
    }
  }

  /** A step that ends or moves one transaction without committing writes. */
  lemma QuietKeeps(s: System, s': System, t: TxId)
    requires Inv(s) && t in s'.txs && s'.txs == s.txs[t := s'.txs[t]] && s'.db == s.db
    requires s'.db == Run(EMPTY, s'.served)
    requires forall k :: k in s.locks && s.locks[k] != t ==> k in s'.locks && s'.locks[k] == s.locks[k]
    requires Knows(s', t, s'.txs[t]) && s.served <= s'.served
    requires s'.txs[t].pc.Finished? ==> s'.txs[t].pc.place == |s.served|
    requires s'.txs[t].wroteHistory.Some? ==>
      forall o :: o in s.txs && o != t && s.txs[o].wroteHistory.Some? ==>
        Owned(s.txs[o].claims) != Owned(s'.txs[t].claims)
    ensures Inv(s')
  {
    forall o | o in s'.txs ensures Knows(s', o, s'.txs[o]) {
      if o != t {
        assert Knows(s, o, s.txs[o]);
        OthersKnow(s, s', t, o);
      }
    }
    PlacesStay(s, s', t);
  }

  /** A rotation that answers INVALID changes nothing, so ending it serves its call. */
  lemma SettleServes(s: System, t: TxId, tx: Tx)
    requires Inv(s) && Rotate(s.db, tx.claims, tx.usable, tx.replacement) == (s.db, INVALID)
    ensures s.db == Run(EMPTY, Settle(s, t, tx, INVALID).served)
    ensures Answered(Settle(s, t, tx, INVALID).served, |s.served|, tx.claims, INVALID)
  {
    AnsweredLast(s.served, tx.claims, tx.usable, tx.replacement);
    RunOneMore(s.served, Refresh(tx.claims, tx.usable, tx.replacement));
  }

  lemma LockKeeps(s: System, t: TxId)
    requires Inv(s) && t in s.txs && s.txs[t].pc == Waiting
    ensures Inv(LockStep(s, t, s.txs[t]))
  {
    var tx := s.txs[t];
    assert Knows(s, t, tx);
    if tx.claims.key !in s.db.sessions {
      SettleServes(s, t, tx);
      QuietKeeps(s, LockStep(s, t, tx), t);
    } else if tx.claims.key !in s.locks {
      QuietKeeps(s, LockStep(s, t, tx), t);
    }
  }

  lemma CheckKeeps(s: System, t: TxId, usable: bool, replacement: Hash)
    requires Inv(s) && t in s.txs && s.txs[t].pc == Locked && s.txs[t].row.Some?
    ensures Inv(CheckStep(s, t, s.txs[t], usable, replacement))
  {
    var tx := s.txs[t];
    var tx' := tx.(usable := usable, replacement := replacement);
    assert Knows(s, t, tx);
    var s' := CheckStep(s, t, tx, usable, replacement);
    if s'.txs[t].pc.Finished? {
      SettleServes(s, t, tx');
    }
    QuietKeeps(s, s', t);
  }

  lemma InsertKeeps(s: System, t: TxId)
    requires Inv(s) && t in s.txs && s.txs[t].pc == Inserting && s.txs[t].row.Some?
    ensures Inv(InsertStep(s, t, s.txs[t]))
  {
    assert Knows(s, t, s.txs[t]);
    if Owned(s.txs[t].claims) in s.db.history || !InsertBlocked(s, t) {
      QuietKeeps(s, InsertStep(s, t, s.txs[t]), t);
    }
  }

  lemma UpdateKeeps(s: System, t: TxId)
    requires Inv(s) && t in s.txs && s.txs[t].pc == Updating && s.txs[t].row.Some?
    ensures Inv(UpdateStep(s, t, s.txs[t]))
  {
    assert Knows(s, t, s.txs[t]);
    QuietKeeps(s, UpdateStep(s, t, s.txs[t]), t);
  }

  lemma RevokeKeeps(s: System, t: TxId)
    requires Inv(s) && t in s.txs && s.txs[t].pc == Revoking
    ensures Inv(RevokeStep(s, t, s.txs[t]))
  {
    assert Knows(s, t, s.txs[t]);
    QuietKeeps(s, RevokeStep(s, t, s.txs[t]), t);
  }

  lemma OtherKeeps(s: System, call: Call)
    requires Inv(s)
    ensures Inv(OtherStep(s, call))
  {
    var s' := OtherStep(s, call);
    if s' != s {
      RunOneMore(s.served, call);
      forall o | o in s'.txs ensures Knows(s', o, s'.txs[o]) {
        assert Knows(s, o, s.txs[o]);
        OthersKnow(s, s', o + 1, o);
      }
    }
  }

  lemma HappenKeeps(s: System, e: Event)
    requires Inv(s)
    ensures Inv(Happen(s, e))
  {
    match e
    case Begin(t, claims) =>
      if t !in s.txs {
        QuietKeeps(s, Happen(s, e), t);
      }
    case Other(call) => OtherKeeps(s, call);
    case Next(t, usable, replacement) =>
      if t in s.txs {
        assert Knows(s, t, s.txs[t]);
        match s.txs[t].pc
        case Waiting => LockKeeps(s, t);
        case Locked => CheckKeeps(s, t, usable, replacement);
        case Revoking => RevokeKeeps(s, t);
        case Inserting => InsertKeeps(s, t);
        case Updating => UpdateKeeps(s, t);
        case Committing(_) => CommitKeeps(s, t);
        case Finished(_, _) =>
      }
  }

  lemma {:induction false} ExecKeeps(s: System, events: seq<Event>)
    requires Inv(s)
    ensures Inv(Exec(s, events))
    decreases |events|
  {
    if events != [] {
      HappenKeeps(s, events[0]);
      ExecKeeps(Happen(s, events[0]), events[1..]);
    }
  }

  /**
    Under every interleaving the committed tables are those of serving the committed calls
    one after the other, so whatever every serial run keeps holds of them; and no
    transaction ever loses the row it locked.
   */
  lemma EveryInterleavingIsSerial(events: seq<Event>)
    ensures var s := Exec(START, events);
            && s.db == Run(EMPTY, s.served)
            && (forall t :: t in s.txs ==> s.txs[t].pc != Lost && s.txs[t].pc != Failed)
            && (forall t :: t in s.txs && s.txs[t].pc.Finished? ==>
                  Answered(s.served, s.txs[t].pc.place, s.txs[t].claims, s.txs[t].pc.outcome))
  {
    ExecKeeps(START, events);
    var s := Exec(START, events);
    forall t | t in s.txs
      ensures s.txs[t].pc != Lost && s.txs[t].pc != Failed
      ensures s.txs[t].pc.Finished? ==> Answered(s.served, s.txs[t].pc.place, s.txs[t].claims, s.txs[t].pc.outcome)
    {
      assert Knows(s, t, s.txs[t]);
    }
  }

  /**
    No two transactions rotate one hash of a tenant, and when one detects a reuse every
    successful rotation of that session committed before it.
   */
  lemma NoInterleavingRotatesTwice(events: seq<Event>, a: TxId, b: TxId)
    requires var s := Exec(START, events);
             && a in s.txs && b in s.txs && a != b && s.txs[a].pc.Finished? && s.txs[b].pc.Finished?
             && s.txs[b].pc.outcome == ROTATED
    ensures var s := Exec(START, events);
            && (s.txs[a].pc.outcome == ROTATED ==> Owned(s.txs[a].claims) != Owned(s.txs[b].claims))
            && (s.txs[a].pc.outcome == REUSED && s.txs[a].claims.key == s.txs[b].claims.key ==>
                  s.txs[b].pc.place < s.txs[a].pc.place)
  {
    EveryInterleavingIsSerial(events);
    ExecKeeps(START, events);
    var s := Exec(START, events);
    var i, j := s.txs[a].pc.place, s.txs[b].pc.place;
    assert i != j;
    if s.txs[a].pc.outcome == ROTATED {
      if i < j {
        RotatedAtMostOnce(s.served, i, j);
      } else {
        RotatedAtMostOnce(s.served, j, i);
      }
    }
    if s.txs[a].pc.outcome == REUSED && i < j {
      ReuseEndsSession(s.served, i, j);
    }
  }
}
