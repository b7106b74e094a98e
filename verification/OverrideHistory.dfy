/**
 * The history of manual cost overrides on a task (service/cost_governance_read_model.go): one
 * summary folded from the override audit events, and a fallback that first works out, from the
 * task's business-info events, which of them applied, updated or released an override.
 */
module OverrideHistory {
  import opened Prelude

  datatype Kind = Applied | Updated | Released | OtherKind(name: string)

  /** What a business-info event says of the override, when its payload parses. */
  datatype Payload = Payload(manual: bool, price: Option<real>, reason: string, actor: string, at: Option<int>)
  datatype TaskEvent = TaskEvent(
    id: string, sequence: int, businessInfo: bool, payload: Option<Payload>, createdAt: int)

  /** An override audit event, as the summaries show it. */
  datatype Snapshot = Snapshot(
    id: string, sequence: int, kind: Kind, price: Option<real>, overrideCost: Option<real>,
    reason: string, actor: string, at: int)

  datatype Summary = Summary(
    overrides: nat, latestAudit: Option<Snapshot>, latestOverride: Option<Snapshot>, latestRelease: Option<Snapshot>)

  datatype ReviewStatus = ReviewNotRequired | ReviewPending | ReviewApproved | ReviewRejected | ReviewUnknown
  datatype FinanceStatus = FinanceNotRequired | FinancePending | ReadyForView | MarkedForView | FinanceUnknown
  datatype Review = Review(required: bool, status: ReviewStatus)
  datatype Finance = Finance(required: bool, status: FinanceStatus)

  datatype Boundary = Boundary(
    event: string, reviewRequired: bool, review: ReviewStatus,
    financeRequired: bool, finance: FinanceStatus, viewReady: bool)

  // ---------------------------------------------------------------- what the summaries mean

  predicate Overrides(s: Snapshot) {
    s.kind == Applied || s.kind == Updated
  }

  predicate Releases(s: Snapshot) {
    s.kind == Released
  }

  function Count(p: Snapshot -> bool, log: seq<Snapshot>): nat {
    if log == [] then 0 else Count(p, log[..|log| - 1]) + if p(Last(log)) then 1 else 0
  }

  /** The last event of a kind. */
  function Latest(p: Snapshot -> bool, log: seq<Snapshot>): Option<Snapshot> {
    if log == [] then None else if p(Last(log)) then Some(Last(log)) else Latest(p, log[..|log| - 1])
  }

  function Summarised(log: seq<Snapshot>): Summary {
    Summary(Count(Overrides, log), if log == [] then None else Some(Last(log)),
            Latest(Overrides, log), Latest(Releases, log))
  }

  // ---------------------------------------------------------------- governance boundary

  function NormalReview(status: ReviewStatus, required: bool): ReviewStatus {
    if !required then ReviewNotRequired
    else if status == ReviewApproved || status == ReviewRejected || status == ReviewPending then status
    else ReviewPending
  }

  function NormalFinance(status: FinanceStatus, required: bool, reviewRequired: bool, review: ReviewStatus)
    : FinanceStatus
  {
    if !required then FinanceNotRequired
    else if status == FinancePending || status == ReadyForView || status == MarkedForView then status
    else if !reviewRequired || review == ReviewApproved then ReadyForView
    else FinancePending
  }

  predicate ViewReady(financeRequired: bool, finance: FinanceStatus, reviewRequired: bool, review: ReviewStatus) {
    && financeRequired
    && (reviewRequired ==> review == ReviewApproved)
    && (finance == ReadyForView || finance == MarkedForView)
  }

  /** The boundary of an audit event with its review and finance records, if any. */
  function BoundaryOf(s: Snapshot, review: Option<Review>, finance: Option<Finance>): Boundary {
    var needsReview := if review.Some? then review.value.required else s.kind != Released;
    var reviewed := NormalReview(if review.Some? then review.value.status else ReviewUnknown, needsReview);
    var needsFinance := if finance.Some? then finance.value.required else s.kind != Released;
    var status := if finance.Some? then finance.value.status else FinanceUnknown;
    var financed := NormalFinance(status, needsFinance, needsReview, reviewed);
    Boundary(s.id, needsReview, reviewed, needsFinance, financed,
             ViewReady(needsFinance, financed, needsReview, reviewed))
  }

  /** The boundary the fallback derives from its latest event alone. */
  function FallbackBoundary(latest: Option<Snapshot>): Option<Boundary> {
    if latest.None? then None
    else
      var needsReview := latest.value.kind != Released;
      var reviewed := NormalReview(ReviewUnknown, needsReview);
      var financed := NormalFinance(FinanceUnknown, needsReview, needsReview, reviewed);
      Some(Boundary(latest.value.id, needsReview, reviewed, needsReview, financed,
                    ViewReady(needsReview, financed, needsReview, reviewed)))
  }

  function Lookup<T>(m: map<string, T>, key: string): Option<T> {
    if key in m then Some(m[key]) else None
  }

  // ---------------------------------------------------------------- the audit-event fold

  /** The boundary of the last event, with the records kept for it. */
  function LastBoundary(log: seq<Snapshot>, reviews: map<string, Review>, finances: map<string, Finance>)
    : Option<Boundary>
  {
    if log == [] then None
    else Some(BoundaryOf(Last(log), Lookup(reviews, Last(log).id), Lookup(finances, Last(log).id)))
  }

  /** The event count it reports is the length of the list, nil entries included. */
  method SummariseAudit(log: seq<Option<Snapshot>>, reviews: map<string, Review>, finances: map<string, Finance>)
    returns (summary: Summary, events: nat, boundary: Option<Boundary>)
    ensures summary == Summarised(Present(log)) && events == |log|
    ensures boundary == LastBoundary(Present(log), reviews, finances)
  {
    summary, boundary := Summary(0, None, None, None), None;
    for k := 0 to |log|
      invariant summary == Summarised(Present(log[..k]))
      invariant boundary == LastBoundary(Present(log[..k]), reviews, finances)
    {
      assert log[..k + 1][..k] == log[..k];
      if log[k].None? {
        continue;
      }
      var s := log[k].value;
      SummariseAppend(Present(log[..k]), s);
      boundary := Some(BoundaryOf(s, Lookup(reviews, s.id), Lookup(finances, s.id)));
      summary := summary.(latestAudit := Some(s));
      match s.kind
      case Applied => summary := summary.(overrides := summary.overrides + 1, latestOverride := Some(s));
      case Updated => summary := summary.(overrides := summary.overrides + 1, latestOverride := Some(s));
      case Released => summary := summary.(latestRelease := Some(s));
      case OtherKind(_) =>
    }
    assert log[..|log|] == log;
    events := |log|;
  }

  lemma SummariseAppend(log: seq<Snapshot>, s: Snapshot)
    ensures var before, after := Summarised(log), Summarised(log + [s]);
            && after.latestAudit == Some(s)
            && after.overrides == before.overrides + (if Overrides(s) then 1 else 0)
            && after.latestOverride == (if Overrides(s) then Some(s) else before.latestOverride)
            && after.latestRelease == (if Releases(s) then Some(s) else before.latestRelease)
  {
    assert (log + [s])[..|log|] == log && Last(log + [s]) == s;
  }

  // ---------------------------------------------------------------- the fallback fold

  /** A business-info event whose payload parses. */
  predicate Telling(e: Option<TaskEvent>) {
    e.Some? && e.value.businessInfo && e.value.payload.Some?
  }

  /** Whether the latest telling event of the log left the override on. */
  predicate Active(events: seq<Option<TaskEvent>>) {
    if events == [] then false
    else if Telling(Last(events)) then Last(events).value.payload.value.manual
    else Active(events[..|events| - 1])
  }

  function Told(e: TaskEvent, kind: Kind): Snapshot
    requires e.payload.Some?
  {
    var p := e.payload.value;
    Snapshot(e.id, e.sequence, kind, p.price, if p.manual then p.price else None, p.reason, p.actor,
             if p.at.Some? then p.at.value else e.createdAt)
  }

  /** What an event did to an override that stood as `active` before it. */
  function Change(active: bool, manual: bool): Option<Kind> {
    if manual then Some(if active then Updated else Applied)
    else if active then Some(Released)
    else None
  }

  /** The override events among the task's events: an edge or a repeat of the manual flag. */
  function Classified(events: seq<Option<TaskEvent>>): seq<Snapshot> {
    if events == [] then []
    else
      var init, e := events[..|events| - 1], Last(events);
      if !Telling(e) then Classified(init)
      else
        var change := Change(Active(init), e.value.payload.value.manual);
        if change.Some? then Classified(init) + [Told(e.value, change.value)] else Classified(init)
  }

  /** What the event at k adds to the classification and makes of the flag. */
  lemma ClassifiedNext(log: seq<Option<TaskEvent>>, k: nat)
    requires k < |log|
    ensures !Telling(log[k]) ==>
              Classified(log[..k + 1]) == Classified(log[..k]) && Active(log[..k + 1]) == Active(log[..k])
    ensures Telling(log[k]) ==>
              var manual := log[k].value.payload.value.manual;
              var change := Change(Active(log[..k]), manual);
              && Active(log[..k + 1]) == manual
              && (change.None? ==> Classified(log[..k + 1]) == Classified(log[..k]))
              && (change.Some? ==>
                    Classified(log[..k + 1]) == Classified(log[..k]) + [Told(log[k].value, change.value)])
  {
    assert log[..k + 1][..k] == log[..k] && Last(log[..k + 1]) == log[k];
  }

  /** The snapshot of a telling event; a release has no override cost. */
  method Describe(event: TaskEvent, kind: Kind) returns (snapshot: Snapshot)
    requires event.payload.Some?
    ensures snapshot == Told(event, kind)
  {
    var payload := event.payload.value;
    var at := event.createdAt;
    if payload.at.Some? {
      at := payload.at.value;
    }
    snapshot := Snapshot(
      event.id, event.sequence, kind, payload.price, payload.price, payload.reason, payload.actor, at);
    if !payload.manual {
      snapshot := snapshot.(overrideCost := None);
    }
  }

  method SummariseFallback(log: seq<Option<TaskEvent>>)
    returns (summary: Summary, events: nat, boundary: Option<Boundary>)
    ensures summary == Summarised(Classified(log)) && events == |Classified(log)|
    ensures boundary == FallbackBoundary(Summarised(Classified(log)).latestAudit)
  {
    summary, events := Summary(0, None, None, None), 0;
    var active := false;
    for k := 0 to |log|
      invariant active == Active(log[..k])
      invariant events == |Classified(log[..k])|
      invariant summary == Summarised(Classified(log[..k]))
    {
      ClassifiedNext(log, k);
      if log[k].None? || !log[k].value.businessInfo {
        continue;
      }
      var event := log[k].value;
      if event.payload.None? {
        continue;
      }
      var payload := event.payload.value;
      var kind := Updated;
      if payload.manual {
        if !active {
          kind := Applied;
        }
      } else {
        if !active {
          continue;
        }
        kind := Released;
      }
      var snapshot := Describe(event, kind);
      events := events + 1;
      SummariseAppend(Classified(log[..k]), snapshot);
      summary := summary.(latestAudit := Some(snapshot));
      if payload.manual {
        summary := summary.(overrides := summary.overrides + 1, latestOverride := Some(snapshot));
        active := true;
        continue;
      }
      summary := summary.(latestRelease := Some(snapshot));
      active := false;
    }
    assert log[..|log|] == log;
    boundary := FallbackBoundary(summary.latestAudit);
  }

  // ---------------------------------------------------------------- the grammar

  function Kinds(log: seq<Snapshot>): seq<Kind> {
    seq(|log|, i requires 0 <= i < |log| => log[i].kind)
  }

  /** (Applied Updated* Released)* when closed; one more Applied Updated* when open. */
  predicate Word(kinds: seq<Kind>, open: bool)
    decreases |kinds|
  {
    if kinds == [] then !open
    else
      var init := kinds[..|kinds| - 1];
      match Last(kinds)
      case Applied => open && Word(init, false)
      case Updated => open && Word(init, true)
      case Released => !open && Word(init, true)
      case OtherKind(_) => false
  }

  lemma KindsAppend(log: seq<Snapshot>, s: Snapshot)
    ensures Kinds(log + [s]) == Kinds(log) + [s.kind]
    ensures forall open :: Word(Kinds(log) + [s.kind], open) <==>
              match s.kind
              case Applied => open && Word(Kinds(log), false)
              case Updated => open && Word(Kinds(log), true)
              case Released => !open && Word(Kinds(log), true)
              case OtherKind(_) => false
  {
    var kinds := Kinds(log) + [s.kind];
    assert kinds[..|kinds| - 1] == Kinds(log) && Last(kinds) == s.kind;
  }

  /** Every log is classified into a word of the grammar, open exactly while the override is on. */
  lemma {:induction false} ClassifiedIsWord(events: seq<Option<TaskEvent>>)
    ensures Word(Kinds(Classified(events)), Active(events))
  {
    if events == [] {
      assert Kinds([]) == [];
    } else {
      var init, e := events[..|events| - 1], Last(events);
      ClassifiedIsWord(init);
      if Telling(e) {
        var change := Change(Active(init), e.value.payload.value.manual);
        if change.Some? {
          KindsAppend(Classified(init), Told(e.value, change.value));
        }
      }
    }
  }

  /** A log that reports the given kinds. */
  function Script(kinds: seq<Kind>): seq<Option<TaskEvent>> {
    seq(|kinds|, i requires 0 <= i < |kinds| =>
      Some(TaskEvent("", i, true, Some(Payload(kinds[i] != Released, None, "", "", None)), 0)))
  }

  /** And every word of the grammar is the classification of some log. */
  lemma {:induction false} WordsAreReached(kinds: seq<Kind>, open: bool)
    requires Word(kinds, open)
    ensures Kinds(Classified(Script(kinds))) == kinds && Active(Script(kinds)) == open
    decreases |kinds|
  {
    if kinds == [] {
      assert Kinds([]) == [];
    } else {
      var init, k := kinds[..|kinds| - 1], Last(kinds);
      var script := Script(kinds);
      assert script[..|script| - 1] == Script(init);
      WordsAreReached(init, k != Applied);
      assert Last(script).value.payload.value.manual == (k != Released);
      KindsAppend(Classified(Script(init)), Told(Last(script).value, k));
      assert init + [k] == kinds;
    }
  }

  function Number(kind: Kind, kinds: seq<Kind>): nat
    decreases |kinds|
  {
    if kinds == [] then 0 else Number(kind, kinds[..|kinds| - 1]) + if Last(kinds) == kind then 1 else 0
  }

  /** Every release closes an application: as many of each, but for the one still open. */
  lemma {:induction false} AppliedAndReleasedBalance(kinds: seq<Kind>, open: bool)
    requires Word(kinds, open)
    ensures Number(Applied, kinds) == Number(Released, kinds) + if open then 1 else 0
    decreases |kinds|
  {
    if kinds != [] {
      AppliedAndReleasedBalance(kinds[..|kinds| - 1], Last(kinds) != Applied);
    }
  }

  // ---------------------------------------------------------------- the two folds agree

  function Wrapped(log: seq<Snapshot>): seq<Option<Snapshot>> {
    seq(|log|, i requires 0 <= i < |log| => Some(log[i]))
  }

  lemma {:induction false} PresentWrapped(log: seq<Snapshot>)
    ensures Present(Wrapped(log)) == log
    decreases |log|
  {
    if log != [] {
      var w := Wrapped(log);
      assert w[..|w| - 1] == Wrapped(log[..|log| - 1]);
      PresentWrapped(log[..|log| - 1]);
      assert log == log[..|log| - 1] + [Last(log)];
    }
  }

  /**
   * Fed the classified events, the audit-event fold reports what the fallback reports: the same
   * counts, the same latest override, release and audit event, and the same boundary when there
   * are no review and finance records.
   */
  lemma FoldsAgree(log: seq<Option<TaskEvent>>)
    ensures var fed := Wrapped(Classified(log));
            && Summarised(Present(fed)) == Summarised(Classified(log))
            && |fed| == |Classified(log)|
            && FallbackBoundary(Summarised(Classified(log)).latestAudit) == LastBoundary(Present(fed), map[], map[])
  {
    PresentWrapped(Classified(log));
  }

  /** Both loops on one log: the fallback over its events, the audit fold over what they classify into. */
  method RunBothFolds(log: seq<Option<TaskEvent>>)
    returns (fallback: Summary, audited: Summary, counts: (nat, nat), boundaries: (Option<Boundary>, Option<Boundary>))
    ensures fallback == audited && fallback == Summarised(Classified(log))
    ensures counts.0 == counts.1 == |Classified(log)|
    ensures boundaries.0 == boundaries.1
  {
    var n, b := 0, None;
    fallback, n, b := SummariseFallback(log);
    var m, c := 0, None;
    audited, m, c := SummariseAudit(Wrapped(Classified(log)), map[], map[]);
    FoldsAgree(log);
    counts, boundaries := (n, m), (b, c);
  }

  // ---------------------------------------------------------------- what is shown of the stored records

  ghost predicate ReviewAsked(s: Snapshot, review: Option<Review>) {
    if review.Some? then review.value.required else s.kind != Released
  }

  ghost predicate FinanceAsked(s: Snapshot, finance: Option<Finance>) {
    if finance.Some? then finance.value.required else s.kind != Released
  }

  /** The review on record, when it is one of the three a review can end or wait in. */
  ghost predicate Stored(review: Option<Review>, status: ReviewStatus) {
    && review.Some? && review.value.status == status
    && (status == ReviewApproved || status == ReviewRejected || status == ReviewPending)
  }

  /** The review shown is the one stored; pending when none is stored, and not required when none is asked for. */
  lemma ShownReview(s: Snapshot, review: Option<Review>, finance: Option<Finance>, status: ReviewStatus)
    ensures var b := BoundaryOf(s, review, finance);
            && b.event == s.id && (b.reviewRequired <==> ReviewAsked(s, review))
            && (!ReviewAsked(s, review) ==> b.review == ReviewNotRequired)
            && (ReviewAsked(s, review) && Stored(review, status) ==> b.review == status)
            && (ReviewAsked(s, review) && !(exists x :: Stored(review, x)) ==> b.review == ReviewPending)
  {
    if review.Some? {
      var x := review.value.status;
      assert Stored(review, x) <==> x == ReviewApproved || x == ReviewRejected || x == ReviewPending;
    }
  }

  /** The boundary reported is that of the last event, with the review and finance records kept under its id. */
  lemma LastBoundaryIs(log: seq<Snapshot>, reviews: map<string, Review>, finances: map<string, Finance>)
    ensures LastBoundary(log, reviews, finances).None? <==> log == []
    ensures log != [] ==>
              var s := log[|log| - 1];
              LastBoundary(log, reviews, finances) ==
              Some(BoundaryOf(s, if s.id in reviews then Some(reviews[s.id]) else None,
                              if s.id in finances then Some(finances[s.id]) else None))
  {
  }

  /** A required review has been approved on record. */
  ghost predicate Cleared(s: Snapshot, review: Option<Review>) {
    ReviewAsked(s, review) ==> review.Some? && review.value.status == ReviewApproved
  }

  /** The finance status shown is the one stored; without one it follows the review. */
  lemma ShownFinance(s: Snapshot, review: Option<Review>, finance: Option<Finance>)
    ensures var b := BoundaryOf(s, review, finance);
            && (b.financeRequired <==> FinanceAsked(s, finance))
            && b.finance ==
                 if !FinanceAsked(s, finance) then FinanceNotRequired
                 else if finance.Some? && finance.value.status == FinancePending then FinancePending
                 else if finance.Some? && finance.value.status == ReadyForView then ReadyForView
                 else if finance.Some? && finance.value.status == MarkedForView then MarkedForView
                 else if Cleared(s, review) then ReadyForView
                 else FinancePending
  {
  }

  /**
   * Cost figures are ready for the finance view if and only if finance is asked for, a required review
   * is approved on record, and the finance record does not hold them back.
   */
  lemma ViewReadyIff(s: Snapshot, review: Option<Review>, finance: Option<Finance>)
    ensures BoundaryOf(s, review, finance).viewReady <==>
              && FinanceAsked(s, finance) && Cleared(s, review)
              && (finance.Some? ==> finance.value.status != FinancePending)
  {
  }

  // ---------------------------------------------------------------- the summary and the classification, by position

  /** The last event of one of these kinds, if there is one. */
  ghost predicate IsLatest(log: seq<Snapshot>, kinds: set<Kind>, x: Option<Snapshot>) {
    if x.None? then forall i :: 0 <= i < |log| ==> log[i].kind !in kinds
    else exists i :: 0 <= i < |log| && IsLastAt(log, kinds, i) && log[i] == x.value
  }

  ghost predicate IsLastAt(log: seq<Snapshot>, kinds: set<Kind>, i: nat)
    requires i < |log|
  {
    log[i].kind in kinds && forall k :: i < k < |log| ==> log[k].kind !in kinds
  }

  lemma {:induction false} LatestIs(p: Snapshot -> bool, kinds: set<Kind>, log: seq<Snapshot>)
    requires forall s :: p(s) <==> s.kind in kinds
    ensures IsLatest(log, kinds, Latest(p, log))
  {
    if log != [] {
      var init, n := log[..|log| - 1], |log| - 1;
      if p(log[n]) {
        assert IsLastAt(log, kinds, n);
      } else {
        LatestIs(p, kinds, init);
        if Latest(p, init).Some? {
          var i :| 0 <= i < n && IsLastAt(init, kinds, i) && init[i] == Latest(p, init).value;
          assert IsLastAt(log, kinds, i);
        } else {
          assert forall i :: 0 <= i < n ==> init[i].kind !in kinds;
        }
      }
    }
  }

  lemma {:induction false} CountIs(log: seq<Snapshot>)
    ensures Count(Overrides, log) == multiset(Kinds(log))[Applied] + multiset(Kinds(log))[Updated]
  {
    if log == [] {
      assert Kinds(log) == [];
    } else {
      var init := log[..|log| - 1];
      CountIs(init);
      assert Kinds(log) == Kinds(init) + [Last(log).kind];
    }
  }

  /** The summary counts applications and updates, and shows the last event, override and release. */
  lemma SummaryMeans(log: seq<Snapshot>)
    ensures var s := Summarised(log);
            && s.overrides == multiset(Kinds(log))[Applied] + multiset(Kinds(log))[Updated]
            && s.latestAudit == (if log == [] then None else Some(log[|log| - 1]))
            && IsLatest(log, {Applied, Updated}, s.latestOverride)
            && IsLatest(log, {Released}, s.latestRelease)
  {
    CountIs(log);
    LatestIs(Overrides, {Applied, Updated}, log);
    LatestIs(Releases, {Released}, log);
  }

  /** The business-info events whose payload parses, in order. */
  function Tellings(events: seq<Option<TaskEvent>>): seq<TaskEvent> {
    if events == [] then []
    else
      var init, e := Tellings(events[..|events| - 1]), Last(events);
      if e.Some? && e.value.businessInfo && e.value.payload.Some? then init + [e.value] else init
  }

  /** Whether event i of the telling ones leaves the override on. */
  ghost predicate On(told: seq<TaskEvent>, i: int) {
    0 <= i < |told| && told[i].payload.Some? && told[i].payload.value.manual
  }

  /** What telling event i did: on after off applies, on after on updates, off after on releases. */
  ghost function Marks(told: seq<TaskEvent>, n: nat): seq<Snapshot>
    requires n <= |told| && forall i :: 0 <= i < |told| ==> told[i].payload.Some?
  {
    if n == 0 then []
    else
      var before, e := Marks(told, n - 1), told[n - 1];
      var p := e.payload.value;
      var at := if p.at.Some? then p.at.value else e.createdAt;
      if On(told, n - 1) then
        before + [Snapshot(e.id, e.sequence, if On(told, n - 2) then Updated else Applied,
                           p.price, p.price, p.reason, p.actor, at)]
      else if On(told, n - 2) then
        before + [Snapshot(e.id, e.sequence, Released, p.price, None, p.reason, p.actor, at)]
      else before
  }

  lemma {:induction false} MarksPrefix(a: seq<TaskEvent>, b: seq<TaskEvent>, n: nat)
    requires a <= b && n <= |a| && forall i :: 0 <= i < |b| ==> b[i].payload.Some?
    ensures Marks(a, n) == Marks(b, n)
  {
    if n > 0 {
      MarksPrefix(a, b, n - 1);
      assert On(a, n - 1) == On(b, n - 1) && On(a, n - 2) == On(b, n - 2);
    }
  }

  /** The classification depends on the telling events alone, each marked by its own flag and the one before it. */
  lemma {:induction false} ClassifiedIs(events: seq<Option<TaskEvent>>)
    ensures forall i :: 0 <= i < |Tellings(events)| ==> Tellings(events)[i].payload.Some?
    ensures Classified(events) == Marks(Tellings(events), |Tellings(events)|)
    ensures Active(events) <==> On(Tellings(events), |Tellings(events)| - 1)
  {
    if events != [] {
      var init := events[..|events| - 1];
      ClassifiedIs(init);
      MarksPrefix(Tellings(init), Tellings(events), |Tellings(init)|);
      assert On(Tellings(init), |Tellings(init)| - 1) == On(Tellings(events), |Tellings(init)| - 1);
    }
  }
}
