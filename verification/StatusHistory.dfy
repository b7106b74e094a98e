/**
 * What every interleaving of transactions keeps about SKU statuses: the CAS lets a status
 * move only along the policy table, and the event log tells the whole story of each SKU.
 */
module StatusHistory {
  import opened Prelude
  import opened Workflow
  import opened Distribution

  /** The sku.status_changed payloads of one SKU, oldest first. */
  function Trail(events: seq<Entry>, sku: int): seq<Edge>
    decreases |events|
  {
    if events == [] then []
    else
      var e := Last(events);
      Trail(events[..|events| - 1], sku) +
      if e.sku == sku && e.event.StatusChanged? then [e.event.edge] else []
  }

  lemma {:induction false} TrailAppend(a: seq<Entry>, b: seq<Entry>, sku: int)
    ensures Trail(a + b, sku) == Trail(a, sku) + Trail(b, sku)
    decreases |b|
  {
    if b == [] {
      assert a + b == a;
    } else {
      assert (a + b)[..|a + b| - 1] == a + b[..|b| - 1];
      TrailAppend(a, b[..|b| - 1], sku);
    }
  }

  lemma {:induction false} TrailQuiet(events: seq<Entry>, sku: int)
    requires forall i :: 0 <= i < |events| ==> events[i].sku != sku || !events[i].event.StatusChanged?
    ensures Trail(events, sku) == []
    decreases |events|
  {
    if events != [] {
      TrailQuiet(events[..|events| - 1], sku);
    }
  }

  /** The events added since `before`. */
  function Since(before: seq<Entry>, now: seq<Entry>): seq<Entry>
    requires before <= now
  {
    now[|before|..]
  }

  /**
   * The database moved on lawfully: the log only grew, no SKU disappeared, and for every SKU
   * the status changes logged since then walk, along policy edges, from the status stored
   * before (Draft for a new SKU) to the status stored now.
   */
  ghost predicate Advances(db: Db, db': Db) {
    && db.events <= db'.events
    && db.skus.Keys <= db'.skus.Keys
    && forall k :: Advanced(db, db', k)
  }

  ghost predicate Advanced(db: Db, db': Db, k: int)
    requires db.events <= db'.events
  {
    var trail := Trail(Since(db.events, db'.events), k);
    if k in db'.skus then
      Walk(trail, if k in db.skus then db.skus[k].status else Draft, db'.skus[k].status)
    else
      trail == []
  }

  lemma AdvancesReflexive(db: Db)
    ensures Advances(db, db)
  {
    assert Since(db.events, db.events) == [];
  }

  lemma AdvancesTransitive(a: Db, b: Db, c: Db)
    requires Advances(a, b) && Advances(b, c)
    ensures Advances(a, c)
  {
    assert Since(a.events, c.events) == Since(a.events, b.events) + Since(b.events, c.events);
    forall k ensures Advanced(a, c, k) {
      assert Advanced(a, b, k) && Advanced(b, c, k);
      TrailAppend(Since(a.events, b.events), Since(b.events, c.events), k);
      if k in b.skus {
        WalkAppend(Trail(Since(a.events, b.events), k), Trail(Since(b.events, c.events), k),
                   if k in a.skus then a.skus[k].status else Draft, b.skus[k].status, c.skus[k].status);
      } else {
        assert [] + Trail(Since(b.events, c.events), k) == Trail(Since(b.events, c.events), k);
      }
    }
  }

  /** A transaction that writes no status and logs no status change. */
  lemma QuietAdvances(db: Db, db': Db)
    requires db.events <= db'.events
    requires db.skus.Keys == db'.skus.Keys
    requires forall k :: k in db.skus ==> db'.skus[k].status == db.skus[k].status
    requires forall e :: e in Since(db.events, db'.events) ==> !e.event.StatusChanged?
    ensures Advances(db, db')
  {
    forall k ensures Advanced(db, db', k) {
      TrailQuiet(Since(db.events, db'.events), k);
    }
  }

  /**
   * A transaction that moves one SKU from `from` to `to` and logs, for that SKU only, some
   * quiet events and then the walk from `from` to `to`.
   */
  lemma MoveAdvances(db: Db, db': Db, sku: int, quiet: seq<Event>, walk: seq<Edge>)
    requires sku in db.skus
    requires forall i :: 0 <= i < |quiet| ==> !quiet[i].StatusChanged?
    requires db'.events == db.events + Stamp(sku, quiet) + Stamp(sku, Changes(walk))
    requires db'.skus.Keys == db.skus.Keys
    requires forall k :: k in db.skus && k != sku ==> db'.skus[k] == db.skus[k]
    requires Walk(walk, db.skus[sku].status, db'.skus[sku].status)
    ensures Advances(db, db')
  {
    assert Since(db.events, db'.events) == Stamp(sku, quiet) + Stamp(sku, Changes(walk));
    forall k ensures Advanced(db, db', k) {
      MoveTrail(sku, quiet, walk, k);
    }
  }

  lemma MoveTrail(sku: int, quiet: seq<Event>, walk: seq<Edge>, k: int)
    requires forall i :: 0 <= i < |quiet| ==> !quiet[i].StatusChanged?
    ensures Trail(Stamp(sku, quiet) + Stamp(sku, Changes(walk)), k) == if k == sku then walk else []
  {
    TrailAppend(Stamp(sku, quiet), Stamp(sku, Changes(walk)), k);
    TrailQuiet(Stamp(sku, quiet), k);
    if k == sku {
      TrailOfChanges(sku, walk);
    } else {
      TrailQuiet(Stamp(sku, Changes(walk)), k);
    }
  }

  function Changes(walk: seq<Edge>): seq<Event> {
    seq(|walk|, i requires 0 <= i < |walk| => StatusChanged(walk[i]))
  }

  lemma {:induction false} TrailOfChanges(sku: int, walk: seq<Edge>)
    ensures Trail(Stamp(sku, Changes(walk)), sku) == walk
    decreases |walk|
  {
    if walk != [] {
      var n := |walk| - 1;
      TrailOfChanges(sku, walk[..n]);
      assert Stamp(sku, Changes(walk))[..n] == Stamp(sku, Changes(walk[..n]));
      assert walk == walk[..n] + [walk[n]];
    }
  }

  // ---------------------------------------------------------------- each transaction

  lemma MoveTxAdvances(db: Db, sku: int, from: Status, to: Status)
    requires CanTransition(from, to)
    ensures Advances(db, OrElse(MoveTx(db, sku, from, to), db))
  {
    var r := MoveTx(db, sku, from, to);
    if r.Some? {
      assert [Edge(from, to)][1..] == [];
      assert Stamp(sku, Changes([Edge(from, to)])) == Stamp(sku, [StatusChanged(Edge(from, to))]);
      assert db.events + Stamp(sku, []) == db.events;
      MoveAdvances(db, r.value, sku, [], [Edge(from, to)]);
    } else {
      AdvancesReflexive(db);
    }
  }

  lemma ValidatedPlan(p: SubmitParams, plan: Plan)
    requires Validated(p, plan)
    ensures CanTransition(plan.from, plan.next)
    ensures plan.next in {AuditAApproved, AuditARejected, AuditBApproved, AuditBRejected}
  {
  }

  lemma AuditTxAdvances(db: Db, p: SubmitParams, plan: Plan)
    requires CanTransition(plan.from, plan.next)
    ensures var r := AuditTx(db, p, plan); Advances(db, if r.Ok? then r.value else db)
  {
    var r := AuditTx(db, p, plan);
    AdvancesReflexive(db);
    if r.Ok? {
      var first := Edge(plan.from, plan.next);
      if plan.next == AuditBApproved {
        var walk := [first, Edge(AuditBApproved, ApprovedPendingVerify)];
        var quiet := [AuditSubmitted(p.actionId)] + CreatedEvents(plan.jobs);
        assert walk[1..] == [walk[1]] && walk[1..][1..] == [];
        assert Changes(walk) == [StatusChanged(walk[0]), StatusChanged(walk[1])];
        assert Stamp(plan.sku, AuditEvents(p, plan)) == Stamp(plan.sku, quiet) + Stamp(plan.sku, Changes(walk));
        MoveAdvances(db, r.value, plan.sku, quiet, walk);
      } else {
        assert [first][1..] == [];
        assert Stamp(plan.sku, AuditEvents(p, plan)) ==
               Stamp(plan.sku, [AuditSubmitted(p.actionId)]) + Stamp(plan.sku, Changes([first]));
        MoveAdvances(db, r.value, plan.sku, [AuditSubmitted(p.actionId)], [first]);
      }
    }
  }

  lemma PassTxAdvances(db: Db, j: nat)
    requires j < |db.jobs|
    ensures Advances(db, PassTx(db, j))
  {
    var sku := db.jobs[j].sku;
    var d := db.(jobs := db.jobs[j := db.jobs[j].(verify := Verified)]);
    var d' := if SiblingsVerified(d.jobs, sku) then OrElse(MoveTx(d, sku, DistributionRunning, Completed), d) else d;
    QuietAdvances(db, d);
    AdvancesReflexive(d);
    MoveTxAdvances(d, sku, DistributionRunning, Completed);
    AdvancesTransitive(db, d, d');
    QuietAdvances(d', PassTx(db, j));
    AdvancesTransitive(db, d', PassTx(db, j));
  }

  lemma CreateAdvances(db: Db, sku: int, code: string)
    requires sku !in db.skus
    ensures Advances(db, CreateTx(db, sku, code))
  {
    var db' := CreateTx(db, sku, code);
    forall k ensures Advanced(db, db', k) {
      TrailQuiet(Since(db.events, db'.events), k);
    }
  }

  /**
   * However stale the values a caller read, its transaction moves statuses only along policy
   * edges from the status stored at commit, and logs exactly that.
   */
  lemma ExecAdvances(db: Db, tx: Tx)
    requires Enabled(db, tx)
    ensures Advances(db, Exec(db, tx))
  {
    match tx
    case CreateSku(sku, code) => CreateAdvances(db, sku, code);
    case CommitAudit(p, plan) => ValidatedPlan(p, plan); AuditTxAdvances(db, p, plan);
    case CommitTransition(sku, from, to) => MoveTxAdvances(db, sku, from, to);
    case StartDistribution(sku) => MoveTxAdvances(db, sku, Approved, DistributionRunning);
    case CompleteSku(sku) => MoveTxAdvances(db, sku, DistributionRunning, Completed);
    case PassVerify(j) => PassTxAdvances(db, j);
    case _ => QuietAdvances(db, Exec(db, tx));
  }

  /** The same for every interleaving of any number of transactions. */
  lemma {:induction false} RunAdvances(db: Db, txs: seq<Tx>)
    requires EnabledAll(db, txs)
    ensures Advances(db, ExecAll(db, txs))
    decreases |txs|
  {
    if txs == [] {
      AdvancesReflexive(db);
    } else {
      ExecAdvances(db, txs[0]);
      RunAdvances(Exec(db, txs[0]), txs[1..]);
      AdvancesTransitive(db, Exec(db, txs[0]), ExecAll(db, txs));
    }
  }

  // ---------------------------------------------------------------- main results

  /** In every reachable state the log of a SKU replays from Draft to the stored status. */
  lemma LogReplays(txs: seq<Tx>, k: int)
    requires EnabledAll(EMPTY, txs)
    ensures var db := ExecAll(EMPTY, txs);
            if k in db.skus then Walk(Trail(db.events, k), Draft, db.skus[k].status) else Trail(db.events, k) == []
  {
    RunAdvances(EMPTY, txs);
    var db := ExecAll(EMPTY, txs);
    assert Advanced(EMPTY, db, k);
    assert Since([], db.events) == db.events;
  }

  /** A terminal SKU keeps its status, and its log gains no status change, in every continuation. */
  lemma TerminalForever(db: Db, txs: seq<Tx>, k: int)
    requires EnabledAll(db, txs)
    requires k in db.skus && db.skus[k].status in {Completed, Cancelled}
    ensures var db' := ExecAll(db, txs);
            && Advances(db, db')
            && db'.skus[k].status == db.skus[k].status
            && Trail(Since(db.events, db'.events), k) == []
  {
    RunAdvances(db, txs);
    var db' := ExecAll(db, txs);
    assert Advanced(db, db', k);
    TerminalIsFinal(Trail(Since(db.events, db'.events), k), db.skus[k].status, db'.skus[k].status);
  }

  /** A Completed SKU's log ends with one of the four lawful ways to completion. */
  lemma CompletedLogShape(txs: seq<Tx>, k: int)
    requires EnabledAll(EMPTY, txs)
    requires k in ExecAll(EMPTY, txs).skus && ExecAll(EMPTY, txs).skus[k].status == Completed
    ensures exists at, afterBlock, twoStage :: EndsWith(Trail(ExecAll(EMPTY, txs).events, k), at, afterBlock, twoStage)
  {
    LogReplays(txs, k);
    CompletedRunShape(Trail(ExecAll(EMPTY, txs).events, k));
  }
}
