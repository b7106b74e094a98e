/** Version numbering and the audit trail over runs of whole calls. */
module VersionSafety {
  import opened Prelude
  import opened Workflow
  import opened Distribution
  import opened ServiceCalls
  import J = JobSafety

  /** The version ids of one SKU, oldest first. */
  function IdsOf(versions: seq<Version>, sku: int): seq<int>
    decreases |versions|
  {
    if versions == [] then []
    else IdsOf(versions[..|versions| - 1], sku) + if Last(versions).sku == sku then [|versions|] else []
  }

  lemma {:induction false} IdsOfBound(versions: seq<Version>, sku: int, i: nat)
    requires i < |IdsOf(versions, sku)|
    ensures var id := IdsOf(versions, sku)[i]; 1 <= id <= |versions| && versions[id - 1].sku == sku
    decreases |versions|
  {
    if i < |IdsOf(versions[..|versions| - 1], sku)| {
      IdsOfBound(versions[..|versions| - 1], sku, i);
    }
  }

  /** Re-marking a version changes no SKU's list. */
  lemma {:induction false} IdsOfMarked(a: seq<Version>, b: seq<Version>, sku: int)
    requires |a| == |b| && forall i :: 0 <= i < |a| ==> a[i].sku == b[i].sku
    ensures IdsOf(a, sku) == IdsOf(b, sku)
    decreases |a|
  {
    if a != [] {
      IdsOfMarked(a[..|a| - 1], b[..|b| - 1], sku);
    }
  }

  /** The versions of a SKU are numbered 1, 2, ..., n and the current one is the newest. */
  ghost predicate NumberedSku(db: Db, k: int) {
    var ids := IdsOf(db.versions, k);
    && (forall i :: 0 <= i < |ids| ==> 1 <= ids[i] <= |db.versions| && db.versions[ids[i] - 1].num == i + 1)
    && (k in db.skus ==> db.skus[k].current == if ids == [] then None else Some(Last(ids)))
    && (k !in db.skus ==> ids == [])
  }

  ghost predicate Numbered(db: Db) {
    forall k :: NumberedSku(db, k)
  }

  /** Nothing that numbering depends on has changed. */
  ghost predicate SameVersions(db: Db, d: Db) {
    && d.versions == db.versions
    && d.skus.Keys == db.skus.Keys
    && forall k :: k in db.skus ==> d.skus[k].current == db.skus[k].current
  }

  lemma SameVersionsNumbered(db: Db, d: Db)
    requires Numbered(db) && SameVersions(db, d)
    ensures Numbered(d)
  {
    forall k ensures NumberedSku(d, k) {
      assert NumberedSku(db, k);
    }
  }

  lemma SyncIds(db: Db, sku: int, hash: string, stable: bool)
    requires sku in db.skus
    ensures var d := SyncTx(db, sku, NextVersionNum(db, sku), hash, stable);
            IdsOf(d.versions, sku) == IdsOf(db.versions, sku) + [|d.versions|]
  {
    var d := SyncTx(db, sku, NextVersionNum(db, sku), hash, stable);
    assert d.versions[..|d.versions| - 1] == db.versions;
  }

  lemma NextNumIs(db: Db, sku: int)
    requires NumberedSku(db, sku) && sku in db.skus
    ensures NextVersionNum(db, sku) == |IdsOf(db.versions, sku)| + 1
  {
    var ids := IdsOf(db.versions, sku);
    if ids != [] {
      IdsOfBound(db.versions, sku, |ids| - 1);
      assert db.versions[ids[|ids| - 1] - 1].num == |ids|;
    }
  }

  lemma SyncNumberedSku(db: Db, sku: int, hash: string, stable: bool)
    requires NumberedSku(db, sku) && sku in db.skus
    ensures NumberedSku(SyncTx(db, sku, NextVersionNum(db, sku), hash, stable), sku)
  {
    SyncIds(db, sku, hash, stable);
    NextNumIs(db, sku);
  }

  lemma SyncNumbered(db: Db, p: SyncParams)
    requires Numbered(db)
    ensures Numbered(Sync(db, p).db)
  {
    var found := ByCode(db, p.code);
    if SyncAccepted(p) && found.Some? {
      var sku, d := found.value, Sync(db, p).db;
      assert NumberedSku(db, sku);
      SyncNumberedSku(db, sku, p.hash, p.stable);
      assert d.versions[..|d.versions| - 1] == db.versions;
      forall k ensures NumberedSku(d, k) {
        assert NumberedSku(db, k);
        if k != sku {
          assert IdsOf(d.versions, k) == IdsOf(db.versions, k);
        }
      }
    }
  }

  lemma CreateNumbered(db: Db, sku: int, code: string, name: string)
    requires Numbered(db)
    ensures Numbered(Create(db, sku, code, name).db)
  {
    forall k ensures NumberedSku(Create(db, sku, code, name).db, k) {
      assert NumberedSku(db, k);
    }
  }

  /** Numbering depends on the versions' SKUs and numbers only. */
  lemma RemarkedNumbered(db: Db, d: Db, k: int)
    requires NumberedSku(db, k) && d.skus == db.skus && |d.versions| == |db.versions|
    requires forall i :: 0 <= i < |db.versions| ==>
               d.versions[i].sku == db.versions[i].sku && d.versions[i].num == db.versions[i].num
    ensures NumberedSku(d, k)
  {
    IdsOfMarked(db.versions, d.versions, k);
    var ids := IdsOf(db.versions, k);
    forall i | 0 <= i < |ids| ensures 1 <= ids[i] <= |d.versions| && d.versions[ids[i] - 1].num == i + 1 {
      assert db.versions[ids[i] - 1].num == i + 1;
    }
  }

  lemma MarkNumbered(db: Db, id: nat, stable: bool, missing: bool)
    requires Numbered(db)
    ensures Numbered(Mark(db, id, stable, missing))
  {
    forall k ensures NumberedSku(Mark(db, id, stable, missing), k) {
      assert NumberedSku(db, k);
      RemarkedNumbered(db, Mark(db, id, stable, missing), k);
    }
  }

  lemma SubmitSameVersions(db: Db, p: SubmitParams, targets: Option<seq<string>>)
    ensures SameVersions(db, Submit(db, p, targets).db)
  {
  }

  /** Neither versions nor audit actions were touched. */
  ghost predicate Spared(db: Db, d: Db) {
    SameVersions(db, d) && d.actions == db.actions
  }

  lemma JobTxSpares(db: Db, j: nat, c: JobChange)
    requires j < |db.jobs|
    ensures Spared(db, JobTx(db, j, c))
  {
  }

  lemma MoveSpares(db: Db, sku: int, from: Status, to: Status)
    ensures Spared(db, OrElse(MoveTx(db, sku, from, to), db))
  {
  }

  lemma PullSpares(db: Db, now: int, agent: string, lease: Option<int>, attempt: string)
    ensures Spared(db, Pull(db, now, agent, lease, attempt).db)
  {
    var j := FirstPending(db.jobs, 0);
    if !Blank(agent) && ValidLease(lease) && j.Some? && attempt !in db.attempts {
      var d := JobTx(db, j.value, Claimed(attempt, now + lease.value));
      JobTxSpares(db, j.value, Claimed(attempt, now + lease.value));
      MoveSpares(d, db.jobs[j.value].sku, Approved, DistributionRunning);
    }
  }

  lemma AckSpares(db: Db, p: AckParams, verifyOn: set<string>)
    ensures Spared(db, Ack(db, p, verifyOn).db)
  {
    var r := CurrentJob(db, p.attempt);
    if r.Ok? {
      var asked := AskVerify(db, r.value, verifyOn);
      JobTxSpares(db, r.value, VerifyAsked);
      JobTxSpares(db, r.value, Flunked(p.attempt));
      JobTxSpares(asked, r.value, Finished(p.attempt));
      MoveSpares(JobTx(asked, r.value, Finished(p.attempt)), db.jobs[r.value].sku, DistributionRunning, Completed);
    }
  }

  lemma VerifySpares(db: Db, j: nat, passed: bool)
    ensures Spared(db, Verify(db, j, passed))
  {
  }

  lemma WorkersSpare(db: Db, now: int, j: nat)
    ensures Spared(db, Reap(db, now, j)) && Spared(db, Retry(db, j)) && Spared(db, Release(db, j))
  {
  }

  lemma TransitionSpares(db: Db, k: int, expected: Status, next: Status)
    ensures Spared(db, Transition(db, k, expected, next).db)
  {
    MoveSpares(db, k, expected, next);
    TransitionIsMove(db, k, expected, next);
  }

  lemma OthersSpare(db: Db, verifyOn: set<string>, t: Timed)
    requires !t.call.SubmitCall? && !t.call.SyncCall? && !t.call.CreateCall? && !t.call.MarkCall?
    ensures Spared(db, Perform(db, verifyOn, t))
  {
    if t.call.PullCall? {
      PullSpares(db, t.now, t.call.agent, t.call.lease, t.call.attempt);
    } else if t.call.AckCall? {
      AckSpares(db, t.call.ack, verifyOn);
    } else if t.call.VerifyPass? {
      VerifySpares(db, t.call.job, t.call.passed);
    } else if t.call.ReapPass? || t.call.RetryPass? || t.call.ReleaseJobs? {
      WorkersSpare(db, t.now, t.call.job);
    } else if t.call.TransitionCall? {
      TransitionSpares(db, t.call.sku, t.call.expected, t.call.next);
    }
  }

  lemma NumberedStep(db: Db, verifyOn: set<string>, t: Timed)
    requires Numbered(db)
    ensures Numbered(Perform(db, verifyOn, t))
  {
    if t.call.SyncCall? {
      SyncNumbered(db, t.call.sync);
    } else if t.call.CreateCall? {
      CreateNumbered(db, t.call.sku, t.call.code, t.call.name);
    } else if t.call.MarkCall? {
      MarkNumbered(db, t.call.version, t.call.stable, t.call.missing);
    } else {
      if t.call.SubmitCall? {
        SubmitSameVersions(db, t.call.submit, t.call.targets);
      } else {
        OthersSpare(db, verifyOn, t);
      }
      SameVersionsNumbered(db, Perform(db, verifyOn, t));
    }
  }

  /** In every state reached by whole calls, each SKU's versions are 1..n and the newest is current. */
  lemma {:induction false} VersionsAreNumbered(verifyOn: set<string>, run: seq<Timed>)
    ensures Numbered(PerformAll(EMPTY, verifyOn, run))
    decreases |run|
  {
    if run != [] {
      var pre := run[..|run| - 1];
      VersionsAreNumbered(verifyOn, pre);
      J.PerformLast(EMPTY, verifyOn, run);
      NumberedStep(PerformAll(EMPTY, verifyOn, pre), verifyOn, Last(run));
    }
  }

  // ---------------------------------------------------------------- audit actions

  ghost predicate StagesUnique(actions: map<string, AuditAction>) {
    forall x, y :: x in actions && y in actions && x != y ==>
      !(actions[x].version == actions[y].version && actions[x].stage == actions[y].stage)
  }

  lemma InsertKeepsStagesUnique(actions: map<string, AuditAction>, id: string, a: AuditAction)
    requires StagesUnique(actions) && InsertAction(actions, id, a).Some?
    ensures StagesUnique(InsertAction(actions, id, a).value)
  {
  }

  /** A Submit that changes the audit table passed validation and inserted exactly its own action. */
  lemma SubmitInserts(db: Db, p: SubmitParams, targets: Option<seq<string>>)
    requires Submit(db, p, targets).db.actions != db.actions
    ensures p.actionId !in db.actions && Validate(db, db, p, targets).Ok?
    ensures InsertAction(db.actions, p.actionId, ActionOf(p)).Some?
    ensures Submit(db, p, targets).db.actions == db.actions[p.actionId := ActionOf(p)]
  {
  }

  /**
   * An audit action is recorded only for the newest version of its SKU, which is stable, not
   * missing and carries the submitted hash; nothing recorded before is altered.
   */
  lemma ActionForNewestVersion(db: Db, p: SubmitParams, targets: Option<seq<string>>)
    requires Numbered(db)
    requires Submit(db, p, targets).db.actions != db.actions
    ensures VersionRow(db, p.versionId).Some?
    ensures var ver := VersionRow(db, p.versionId).value;
            var ids := IdsOf(db.versions, ver.sku);
            && ids != [] && Last(ids) == p.versionId && ver.num == |ids|
            && ver.stable && !ver.missing && ver.hash == p.hash
    ensures p.actionId !in db.actions
    ensures Submit(db, p, targets).db.actions == db.actions[p.actionId := ActionOf(p)]
  {
    SubmitInserts(db, p, targets);
    ValidatedVersion(db, p, targets);
  }

  lemma ValidatedVersion(db: Db, p: SubmitParams, targets: Option<seq<string>>)
    requires Numbered(db) && Validate(db, db, p, targets).Ok?
    ensures VersionRow(db, p.versionId).Some?
    ensures var ver := VersionRow(db, p.versionId).value;
            var ids := IdsOf(db.versions, ver.sku);
            && ids != [] && Last(ids) == p.versionId && ver.num == |ids|
            && ver.stable && !ver.missing && ver.hash == p.hash
  {
    assert NumberedSku(db, VersionRow(db, p.versionId).value.sku);
  }

  /** No stage of a version is decided twice, and every decision names a version by its true hash. */
  ghost predicate ActionsSound(db: Db) {
    && StagesUnique(db.actions)
    && forall x :: x in db.actions ==>
         var row := VersionRow(db, db.actions[x].version);
         row.Some? && row.value.hash == db.actions[x].hash
  }

  /** Version rows are append-only and keep their content hash. */
  ghost predicate HashesKept(db: Db, d: Db) {
    && |db.versions| <= |d.versions|
    && forall i :: 0 <= i < |db.versions| ==> d.versions[i].hash == db.versions[i].hash
  }

  lemma SubmitSound(db: Db, p: SubmitParams, targets: Option<seq<string>>)
    requires Numbered(db) && ActionsSound(db)
    ensures ActionsSound(Submit(db, p, targets).db)
  {
    SubmitSameVersions(db, p, targets);
    if Submit(db, p, targets).db.actions != db.actions {
      ActionForNewestVersion(db, p, targets);
      SubmitInserts(db, p, targets);
      InsertKeepsStagesUnique(db.actions, p.actionId, ActionOf(p));
    }
  }

  lemma SyncKeepsActions(db: Db, p: SyncParams)
    ensures Sync(db, p).db.actions == db.actions && HashesKept(db, Sync(db, p).db)
  {
  }

  lemma CreateKeepsActions(db: Db, sku: int, code: string, name: string)
    ensures Create(db, sku, code, name).db.actions == db.actions && HashesKept(db, Create(db, sku, code, name).db)
  {
  }

  lemma OthersKeepActions(db: Db, verifyOn: set<string>, t: Timed)
    requires !t.call.SubmitCall?
    ensures Perform(db, verifyOn, t).actions == db.actions
    ensures HashesKept(db, Perform(db, verifyOn, t))
  {
    if t.call.SyncCall? {
      SyncKeepsActions(db, t.call.sync);
    } else if t.call.CreateCall? {
      CreateKeepsActions(db, t.call.sku, t.call.code, t.call.name);
    } else if !t.call.MarkCall? {
      OthersSpare(db, verifyOn, t);
    }
  }

  lemma ActionsStep(db: Db, verifyOn: set<string>, t: Timed)
    requires Numbered(db) && ActionsSound(db)
    ensures ActionsSound(Perform(db, verifyOn, t))
  {
    if t.call.SubmitCall? {
      SubmitSound(db, t.call.submit, t.call.targets);
    } else {
      OthersKeepActions(db, verifyOn, t);
    }
  }

  /** In every state reached by whole calls the audit trail is sound. */
  lemma {:induction false} AuditTrailIsSound(verifyOn: set<string>, run: seq<Timed>)
    ensures ActionsSound(PerformAll(EMPTY, verifyOn, run))
    decreases |run|
  {
    if run != [] {
      var pre := run[..|run| - 1];
      var db := PerformAll(EMPTY, verifyOn, pre);
      AuditTrailIsSound(verifyOn, pre);
      VersionsAreNumbered(verifyOn, pre);
      J.PerformLast(EMPTY, verifyOn, run);
      ActionsStep(db, verifyOn, Last(run));
    }
  }
}
