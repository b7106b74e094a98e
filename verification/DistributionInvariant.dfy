/** All that every whole call keeps about the database, in one predicate. */
module DistributionInvariant {
  import opened Prelude
  import opened Distribution
  import opened ServiceCalls
  import H = StatusHistory
  import J = JobSafety
  import V = VersionSafety
  import L = IncidentLedger
  import B = StartBounds
  import R = ActionRecords

  /**
   * The log of every SKU replays along the policy to its stored status; versions are numbered 1..n
   * with the newest current; the audit trail is sound and holds the approval of every job; incidents
   * and their events balance; job keys are unique; and no job was started more often than its retries
   * allow.
   */
  ghost predicate Invariant(db: Db) {
    && H.Advances(EMPTY, db)
    && V.Numbered(db)
    && V.ActionsSound(db)
    && R.JobsApproved(db)
    && L.Balanced(db)
    && J.KeysUnique(db.jobs)
    && B.Bounded(db)
  }

  lemma HistoryStep(db: Db, verifyOn: set<string>, t: Timed)
    requires H.Advances(EMPTY, db)
    ensures H.Advances(EMPTY, Perform(db, verifyOn, t))
  {
    var txs := CallTxs(db, verifyOn, t);
    CallIsRun(db, verifyOn, t);
    H.RunAdvances(db, txs);
    H.AdvancesTransitive(EMPTY, db, Perform(db, verifyOn, t));
  }

  lemma InvariantStep(db: Db, verifyOn: set<string>, t: Timed)
    requires Invariant(db)
    ensures Invariant(Perform(db, verifyOn, t))
  {
    HistoryStep(db, verifyOn, t);
    V.NumberedStep(db, verifyOn, t);
    V.ActionsStep(db, verifyOn, t);
    R.ApprovedStep(db, verifyOn, t);
    L.BalancedStep(db, verifyOn, t);
    B.KeysStep(db, verifyOn, t);
    B.BoundedStep(db, verifyOn, t);
  }

  lemma InvariantAtStart()
    ensures Invariant(EMPTY)
  {
    H.AdvancesReflexive(EMPTY);
    V.VersionsAreNumbered({}, []);
    V.AuditTrailIsSound({}, []);
    L.IncidentsBalance({}, []);
    B.RunsBounded({}, []);
  }

  /** The invariant holds in every state reached by whole calls. */
  lemma {:induction false} InvariantHolds(verifyOn: set<string>, run: seq<Timed>)
    ensures Invariant(PerformAll(EMPTY, verifyOn, run))
    decreases |run|
  {
    InvariantAtStart();
    if run != [] {
      var pre := run[..|run| - 1];
      InvariantHolds(verifyOn, pre);
      J.PerformLast(EMPTY, verifyOn, run);
      InvariantStep(PerformAll(EMPTY, verifyOn, pre), verifyOn, Last(run));
    }
  }
}
