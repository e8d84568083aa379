/** What the delivery ledger promises its readers, for every run from every version 3 database. */
module LedgerTheorems {
  import opened Base
  import opened Notes
  import opened Ledger
  import opened LedgerInvariant
  import opened LedgerMigration
  import opened LedgerRuns

  ghost predicate Reachable(run: Run, v3: Tables) {
    exists groups, steps :: Version3(v3) && Enumerates(groups, v3.v1.at) && run == Execute(Start(v3, groups), steps)
  }

  lemma ReachableOk(run: Run, v3: Tables)
    requires Reachable(run, v3)
    ensures RunOk(run, v3)
  {
    var groups, steps :| Version3(v3) && Enumerates(groups, v3.v1.at) && run == Execute(Start(v3, groups), steps);
    StartOk(v3, groups);
    RunsKeep(Start(v3, groups), v3, steps);
  }

  // ---------------------------------------------------------------------------------------------
  // No gap, no premature reading

  /**
   * No gap below the watermark: a delivery that a consumer counts as read, and that it did not already count as read
   * when version 4 first started, was returned by some page that this consumer acknowledged.
   */
  lemma NoGapBelowWatermark(run: Run, v3: Tables, k: Consumer, p: Pair)
    requires Reachable(run, v3)
    requires p in run.t.v2.at && p.recipient == k.principal
    requires Watermark(v3, k) < run.t.v2.at[p] <= Watermark(run.t, k)
    ensures exists c :: c in run.acked && c in run.t.cursors && run.t.cursors[c].consumer == k
                        && Scanned(run.t, run.t.cursors[c], p)
  {
    ReachableOk(run, v3);
    assert NoGapFor(run, v3.watermarks, k);
  }

  lemma AckRaises(run: Run, k: Consumer, token: Token, j: Consumer)
    requires ReadersOk(run)
    ensures var u := Acknowledge(run.t, k, token);
            && Watermark(run.t, j) <= Watermark(u, j) <= u.v1.top
            && (Watermark(run.t, j) < Watermark(u, j) ==>
                  k == j && token in run.t.cursors
                  && run.t.cursors[token].purpose == InboxPage && run.t.cursors[token].consumer == j)
  {
    if token in run.t.cursors {
      assert CursorOk(run.t, run.t.cursors[token]);
    }
  }

  lemma WatermarksRiseStep(run: Run, v3: Tables, step: Step, k: Consumer)
    requires RunOk(run, v3)
    ensures Watermark(run.t, k) <= Watermark(Next(run, step).t, k) <= Next(run, step).t.v1.top
    ensures Watermark(run.t, k) < Watermark(Next(run, step).t, k) ==>
              step.Ack? && step.consumer == k && step.token in run.t.cursors
              && run.t.cursors[step.token].purpose == InboxPage && run.t.cursors[step.token].consumer == k
  {
    match step
    case Evaluate(note, gap) => EvaluateAddsRows(run.t, v3.v1.at.Keys, note, gap);
    case Ack(j, token) => AckRaises(run, j, token, k);
    case Restart(groups) => RestartKeeps(run, v3, groups);
    case _ =>
  }

  /** Watermarks only rise, stay within the numbers handed out, and no unknown-purpose cursor raises one. */
  lemma WatermarksRise(run: Run, v3: Tables, step: Step, k: Consumer)
    requires Reachable(run, v3)
    ensures Watermark(run.t, k) <= Watermark(Next(run, step).t, k) <= Next(run, step).t.v1.top
    ensures Watermark(run.t, k) < Watermark(Next(run, step).t, k) ==>
              step.Ack? && step.consumer == k && step.token in run.t.cursors
              && run.t.cursors[step.token].purpose == InboxPage && run.t.cursors[step.token].consumer == k
  {
    ReachableOk(run, v3);
    WatermarksRiseStep(run, v3, step, k);
  }

  lemma OnlyEvaluationsDeliver(run: Run, v3: Tables, step: Step)
    requires RunOk(run, v3) && !step.Evaluate?
    ensures Next(run, step).t.v1 == run.t.v1 && Next(run, step).t.v2 == run.t.v2
    ensures Next(run, step).t.snapshots == run.t.snapshots
  {
    hide RunOk, Backfill, SelectPage;
    match step
    case Restart(groups) => RestartKeeps(run, v3, groups);
    case _ =>
  }

  lemma NeverBornReadStep(run: Run, v3: Tables, step: Step, p: Pair, k: Consumer)
    requires RunOk(run, v3)
    requires p !in run.t.v2.at && p in Next(run, step).t.v2.at
    ensures Watermark(Next(run, step).t, k) < Next(run, step).t.v2.at[p]
  {
    if step.Evaluate? {
      EvaluateAddsRows(run.t, v3.v1.at.Keys, step.note, step.gap);
    } else {
      OnlyEvaluationsDeliver(run, v3, step);
    }
  }

  /** Never born read: a delivery is new above every watermark of every consumer. */
  lemma NeverBornRead(run: Run, v3: Tables, step: Step, p: Pair, k: Consumer)
    requires Reachable(run, v3)
    requires p !in run.t.v2.at && p in Next(run, step).t.v2.at
    ensures Watermark(Next(run, step).t, k) < Next(run, step).t.v2.at[p]
  {
    ReachableOk(run, v3);
    NeverBornReadStep(run, v3, step, p, k);
  }

  /** A restart changes no table, whatever order the migration visits the groups in. */
  lemma RestartChangesNothing(run: Run, v3: Tables, groups: seq<Pair>)
    requires Reachable(run, v3) && Enumerates(groups, run.t.v1.at)
    ensures Backfill(run.t, groups) == run.t
  {
    ReachableOk(run, v3);
    BackfillChangesNothing(run.t, v3.v1.at.Keys, groups);
  }

  // ---------------------------------------------------------------------------------------------
  // The two delivery models over one watermark

  ghost predicate UnreadV1(t: Tables, p: Pair, watermark: nat) {
    exists r :: r in t.v1.at && r.Logical() == p && watermark < t.v1.at[r]
  }

  ghost predicate UnreadV2(t: Tables, p: Pair, watermark: nat) {
    p in t.v2.at && watermark < t.v2.at[p]
  }

  /** The pair came with the migration and gained a reason afterwards. */
  ghost predicate GainedReason(t: Tables, legacy: set<Route>, p: Pair) {
    HasLegacy(legacy, p) && exists r :: r in t.v1.at && r !in legacy && r.Logical() == p
  }

  /** For every watermark, v2 shows a delivery as unread exactly when v1 still shows one of its reason rows. */
  ghost predicate ModelsAgree(t: Tables, p: Pair) {
    forall watermark: nat :: UnreadV2(t, p, watermark) <==> UnreadV1(t, p, watermark)
  }

  lemma UnreadV2InV1(t: Tables, p: Pair, watermark: nat)
    requires OwnSequence(t.v1.at, t.v2.at) && UnreadV2(t, p, watermark)
    ensures UnreadV1(t, p, watermark)
  {
    assert HasRow(t.v1.at, p, t.v2.at[p]);
  }

  lemma GainedReasonDisagrees(t: Tables, legacy: set<Route>, p: Pair)
    requires BornMax(t.v1.at, t.v2.at, legacy) && p in t.v2.at && GainedReason(t, legacy, p)
    ensures UnreadV1(t, p, t.v2.at[p]) && !UnreadV2(t, p, t.v2.at[p])
  {
    var r :| r in t.v1.at && r !in legacy && r.Logical() == p;
    assert t.v2.at[p] < t.v1.at[r];
  }

  lemma UnreadAgreesUnlessReasonGainedStep(run: Run, v3: Tables, p: Pair)
    requires RunOk(run, v3) && p in run.t.v2.at
    ensures ModelsAgree(run.t, p) <==> !GainedReason(run.t, v3.v1.at.Keys, p)
  {
    var t := run.t;
    if GainedReason(t, v3.v1.at.Keys, p) {
      GainedReasonDisagrees(t, v3.v1.at.Keys, p);
    } else {
      forall watermark: nat ensures UnreadV2(t, p, watermark) <==> UnreadV1(t, p, watermark) {
        if UnreadV2(t, p, watermark) { UnreadV2InV1(t, p, watermark); }
      }
    }
  }

  /** v1 and v2 agree on what is unread, except exactly for migrated deliveries that gained a reason later. */
  lemma UnreadAgreesUnlessReasonGained(run: Run, v3: Tables, p: Pair)
    requires Reachable(run, v3) && p in run.t.v2.at
    ensures ModelsAgree(run.t, p) <==> !GainedReason(run.t, v3.v1.at.Keys, p)
  {
    ReachableOk(run, v3);
    UnreadAgreesUnlessReasonGainedStep(run, v3, p);
  }

  lemma ReasonGainedWhenStep(run: Run, v3: Tables, step: Step, p: Pair)
    requires RunOk(run, v3) && HasLegacy(v3.v1.at.Keys, p) && !GainedReason(run.t, v3.v1.at.Keys, p)
    ensures GainedReason(Next(run, step).t, v3.v1.at.Keys, p) <==>
              step.Evaluate? && step.note.id == p.note && p.note !in run.t.snapshots
              && exists g :: g in DeliveryTargets(step.note) && g.recipient == p.recipient && RouteOf(p, g.reason) !in v3.v1.at
  {
    if step.Evaluate? {
      EvaluationGains(run.t, v3.v1.at.Keys, step.note, step.gap, p);
    } else {
      OnlyEvaluationsDeliver(run, v3, step);
    }
  }

  /**
   * When a migrated delivery gains a reason: at the first evaluation of its note, if that version routes the note to
   * the recipient for a reason the migration did not bring; and never else.
   */
  lemma ReasonGainedWhen(run: Run, v3: Tables, step: Step, p: Pair)
    requires Reachable(run, v3) && HasLegacy(v3.v1.at.Keys, p) && !GainedReason(run.t, v3.v1.at.Keys, p)
    ensures GainedReason(Next(run, step).t, v3.v1.at.Keys, p) <==>
              step.Evaluate? && step.note.id == p.note && p.note !in run.t.snapshots
              && exists g :: g in DeliveryTargets(step.note) && g.recipient == p.recipient && RouteOf(p, g.reason) !in v3.v1.at
  {
    ReachableOk(run, v3);
    ReasonGainedWhenStep(run, v3, step, p);
  }

  lemma EvaluationGains(t: Tables, legacy: set<Route>, note: Note, gap: nat, p: Pair)
    requires DeliveriesOk(t, legacy) && HasLegacy(legacy, p) && !GainedReason(t, legacy, p)
    ensures GainedReason(Generate(t, note, gap), legacy, p) <==>
              note.id == p.note && p.note !in t.snapshots
              && exists g :: g in DeliveryTargets(note) && g.recipient == p.recipient && RouteOf(p, g.reason) !in legacy
  {
    var u := Generate(t, note, gap);
    GenerateFiles(t, legacy, note, gap);
    GenerateKeeps(t, legacy, note, gap);
    SnapshotRoutes(t.snapshots, note.id, DeliveryTargets(note));
    if note.id in t.snapshots {
      RegenerateChangesNothing(t, legacy, note, gap);
    } else if GainedReason(u, legacy, p) {
      var r :| r in u.v1.at && r !in legacy && r.Logical() == p;
      assert Target(r.recipient, r.reason) in DeliveryTargets(note);
      assert RouteOf(p, r.reason) == r;
    } else if g :| g in DeliveryTargets(note) && note.id == p.note && g.recipient == p.recipient && RouteOf(p, g.reason) !in legacy {
      FrozenRouteHasRow(u.v1.at, u.snapshots, legacy, RouteOf(p, g.reason));
    }
  }

  // One migrated row: note 0 was delivered to principal 1 because it is about that principal.
  const MIGRATED := Route(0, 1, AboutReason)
  const OLD_LEDGER := Tables(ReasonRows(map[MIGRATED := 1], 1), Projection(map[], map[], {}), map[], 0, map[], map[], map[])
  // The note as it is now also names the principal in its visibility.
  const EDITED := Note(0, 5, DirectTo(1), Plain, None, [], [1], None, [], 0, 0)

  lemma OldLedgerStarts()
    ensures Version3(OLD_LEDGER) && Enumerates([Pair(0, 1)], OLD_LEDGER.v1.at)
  {
    var groups := [Pair(0, 1)];
    assert MIGRATED.Logical() == groups[0];
    assert Groups(OLD_LEDGER.v1.at) == {Pair(0, 1)};
  }

  lemma StartIsReachable(v3: Tables, groups: seq<Pair>)
    requires Version3(v3) && Enumerates(groups, v3.v1.at)
    ensures Reachable(Start(v3, groups), v3)
    ensures Start(v3, groups).t.v1 == v3.v1 && Start(v3, groups).t.snapshots == v3.snapshots
  {
    hide Version3, Enumerates, BackfillGroups, Maxima;
    assert Start(v3, groups) == Execute(Start(v3, groups), []);
  }

  lemma NextIsReachable(run: Run, v3: Tables, step: Step)
    requires Reachable(run, v3)
    ensures Reachable(Next(run, step), v3)
  {
    hide Version3, Enumerates, Next, Start;
    var groups, steps :| Version3(v3) && Enumerates(groups, v3.v1.at) && run == Execute(Start(v3, groups), steps);
    assert (steps + [step])[..|steps|] == steps;
    assert Next(run, step) == Execute(Start(v3, groups), steps + [step]);
  }

  lemma EditedGains()
    ensures Target(1, DirectReason) in DeliveryTargets(EDITED) && RouteOf(Pair(0, 1), DirectReason) !in OLD_LEDGER.v1.at
    ensures HasLegacy(OLD_LEDGER.v1.at.Keys, Pair(0, 1))
  {
    assert MIGRATED.Logical() == Pair(0, 1);
  }

  /** The exception is real: an edited note evaluated after the migration, and the models disagree about it. */
  lemma ReasonGainedExample() returns (run: Run)
    ensures Reachable(run, OLD_LEDGER) && Pair(0, 1) in run.t.v2.at && !ModelsAgree(run.t, Pair(0, 1))
  {
    OldLedgerStarts();
    hide Reachable, Version3, Enumerates, Execute, Next, Start, ModelsAgree, DeliveryTargets;
    var start := Start(OLD_LEDGER, [Pair(0, 1)]);
    StartIsReachable(OLD_LEDGER, [Pair(0, 1)]);
    run := Next(start, Evaluate(EDITED, 0));
    NextIsReachable(start, OLD_LEDGER, Evaluate(EDITED, 0));
    EditedGains();
    ReasonGainedWhen(start, OLD_LEDGER, Evaluate(EDITED, 0), Pair(0, 1));
    assert MIGRATED.Logical() == Pair(0, 1);
    MigratedStays(run, OLD_LEDGER, MIGRATED);
    UnreadAgreesUnlessReasonGained(run, OLD_LEDGER, Pair(0, 1));
  }

  lemma MigratedStays(run: Run, v3: Tables, r: Route)
    requires Reachable(run, v3) && r in v3.v1.at
    ensures r.Logical() in run.t.v2.at
  {
    ReachableOk(run, v3);
  }

  // ---------------------------------------------------------------------------------------------
  // Receipts

  /** A receipt says: this principal's delivery, at or below this consumer's watermark, shown on a page it acknowledged. */
  lemma ReceiptsAreEarned(run: Run, v3: Tables, k: Consumer, p: Pair)
    requires Reachable(run, v3) && (k, p) in run.t.receipts
    ensures ReceiptOk(run, k, p, run.t.receipts[(k, p)])
  {
    ReachableOk(run, v3);
  }

  /** The deliveries an acknowledgement of this cursor earns a receipt for. */
  ghost predicate Earns(t: Tables, c: Cursor, p: Pair) {
    match c.model
    case V1 => (exists r :: Legacy(r) in c.items && r.Logical() == p) && p in t.v2.at && t.v2.at[p] <= c.sequence
    case V2 => Logical(p) in c.items
  }

  lemma ReceiptTargetsEarned(t: Tables, c: Cursor, p: Pair)
    requires Complete(t.v1.at, t.v2.at) && Mirror(t.v1.at, t.v2) && CursorOk(t, c) && c.purpose == InboxPage
    ensures p in ReceiptTargets(t, c) <==> Earns(t, c, p)
  {
    if p in ReceiptTargets(t, c) {
      ReceiptTargetIs(t, c, p);
    }
    if Earns(t, c, p) {
      match c.model
      case V1 =>
        var r :| Legacy(r) in c.items && r.Logical() == p;
        assert InPage(t, c.model, c.consumer.principal, c.from, c.sequence, Legacy(r));
        assert Legacy(r).route in t.v2.aliases;
      case V2 =>
        assert InPage(t, c.model, c.consumer.principal, c.from, c.sequence, Logical(p));
        assert Logical(p).pair == p;
    }
  }

  lemma AddReceiptsAdds(t: Tables, k: Consumer, pairs: set<Pair>, token: Token, j: Consumer, p: Pair)
    ensures var receipts := AddReceipts(t, k, pairs, token);
            && ((j, p) in receipts <==> (j, p) in t.receipts || (j == k && p in pairs && p in t.v2.at))
            && ((j, p) in t.receipts ==> receipts[(j, p)] == t.receipts[(j, p)])
  {
  }

  lemma AcknowledgeReceiptsStep(t: Tables, k: Consumer, token: Token, j: Consumer, p: Pair)
    requires Complete(t.v1.at, t.v2.at) && Mirror(t.v1.at, t.v2)
    requires token in t.cursors ==> CursorOk(t, t.cursors[token])
    ensures var u := Acknowledge(t, k, token);
            ((j, p) in u.receipts && (j, p) !in t.receipts) <==>
              (j, p) !in t.receipts && j == k && AckOutcome(t, k, token) == Acked(true) && Earns(t, t.cursors[token], p)
    ensures (j, p) in t.receipts ==>
              (j, p) in Acknowledge(t, k, token).receipts && Acknowledge(t, k, token).receipts[(j, p)] == t.receipts[(j, p)]
  {
    if AckOutcome(t, k, token) == Acked(true) {
      var c := t.cursors[token];
      ReceiptTargetsEarned(t, c, p);
      AddReceiptsAdds(t, k, ReceiptTargets(t, c), token, j, p);
      if p in ReceiptTargets(t, c) { ReceiptTargetIs(t, c, p); }
    }
  }

  /**
   * Receipts are exact. An acknowledgement that advances adds a receipt for each visible item of its page, in v1 only
   * once the delivery's own sequence is reached; a stale, repeated or refused one adds none; and none is ever changed.
   */
  lemma AcknowledgeReceipts(run: Run, v3: Tables, k: Consumer, token: Token, j: Consumer, p: Pair)
    requires Reachable(run, v3)
    ensures var u := Acknowledge(run.t, k, token);
            ((j, p) in u.receipts && (j, p) !in run.t.receipts) <==>
              (j, p) !in run.t.receipts && j == k && AckOutcome(run.t, k, token) == Acked(true)
              && Earns(run.t, run.t.cursors[token], p)
    ensures (j, p) in run.t.receipts ==>
              (j, p) in Acknowledge(run.t, k, token).receipts
              && Acknowledge(run.t, k, token).receipts[(j, p)] == run.t.receipts[(j, p)]
  {
    ReachableOk(run, v3);
    AcknowledgeReceiptsStep(run.t, k, token, j, p);
  }

  // ---------------------------------------------------------------------------------------------
  // Frozen routes

  /** The deliveries of a note are those of these targets: rows, logical deliveries and reasons. */
  ghost predicate DeliveredAs(t: Tables, note: NoteId, targets: set<Target>) {
    && (forall r: Route :: r.note == note ==> (r in t.v1.at <==> Target(r.recipient, r.reason) in targets))
    && (forall r: Route :: r.note == note ==> (r in t.v2.reasons <==> Target(r.recipient, r.reason) in targets))
    && (forall p: Pair :: p.note == note ==> (p in t.v2.at <==> exists g :: g in targets && g.recipient == p.recipient))
  }

  ghost predicate NoteLegacy(legacy: set<Route>, note: NoteId) {
    exists r :: r in legacy && r.note == note
  }

  lemma SnapshotDelivers(t: Tables, legacy: set<Route>, note: NoteId)
    requires DeliveriesOk(t, legacy) && note in t.snapshots && !NoteLegacy(legacy, note)
    ensures DeliveredAs(t, note, t.snapshots[note].routes)
  {
    var targets := t.snapshots[note].routes;
    forall r: Route | r.note == note ensures r in t.v1.at <==> Target(r.recipient, r.reason) in targets {
      if Target(r.recipient, r.reason) in targets {
        FrozenRouteHasRow(t.v1.at, t.snapshots, legacy, r);
      }
    }
    forall p: Pair | p.note == note ensures p in t.v2.at <==> exists g :: g in targets && g.recipient == p.recipient {
      if p in t.v2.at {
        assert HasRow(t.v1.at, p, t.v2.at[p]);
        var r :| r in t.v1.at && r.Logical() == p;
        assert Target(r.recipient, r.reason) in targets && Target(r.recipient, r.reason).recipient == p.recipient;
      }
      if g :| g in targets && g.recipient == p.recipient {
        FrozenRouteHasRow(t.v1.at, t.snapshots, legacy, RouteOf(p, g.reason));
        assert RouteOf(p, g.reason).Logical() == p;
      }
    }
  }

  lemma SnapshotStays(run: Run, v3: Tables, step: Step, note: NoteId)
    requires RunOk(run, v3) && note in run.t.snapshots
    ensures note in Next(run, step).t.snapshots
    ensures Next(run, step).t.snapshots[note].routes == run.t.snapshots[note].routes
  {
    if step.Evaluate? {
      GenerateFiles(run.t, v3.v1.at.Keys, step.note, step.gap);
      SnapshotRoutes(run.t.snapshots, step.note.id, DeliveryTargets(step.note));
    } else {
      OnlyEvaluationsDeliver(run, v3, step);
    }
  }

  lemma {:induction false} SnapshotStaysForever(run: Run, v3: Tables, steps: seq<Step>, note: NoteId)
    requires RunOk(run, v3) && note in run.t.snapshots
    ensures note in Execute(run, steps).t.snapshots
    ensures Execute(run, steps).t.snapshots[note].routes == run.t.snapshots[note].routes
  {
    if steps != [] {
      var before := steps[..|steps| - 1];
      SnapshotStaysForever(run, v3, before, note);
      RunsKeep(run, v3, before);
      SnapshotStays(Execute(run, before), v3, steps[|steps| - 1], note);
    }
  }

  lemma FrozenRoutesFrom(run: Run, v3: Tables, first: Note, gap: nat, steps: seq<Step>)
    requires RunOk(run, v3) && first.id !in run.t.snapshots && !NoteLegacy(v3.v1.at.Keys, first.id)
    ensures DeliveredAs(Execute(Next(run, Evaluate(first, gap)), steps).t, first.id, DeliveryTargets(first))
  {
    var start := Next(run, Evaluate(first, gap));
    StepKeeps(run, v3, Evaluate(first, gap));
    GenerateFiles(run.t, v3.v1.at.Keys, first, gap);
    SnapshotRoutes(run.t.snapshots, first.id, DeliveryTargets(first));
    SnapshotStaysForever(start, v3, steps, first.id);
    RunsKeep(start, v3, steps);
    SnapshotDelivers(Execute(start, steps).t, v3.v1.at.Keys, first.id);
  }

  /**
   * Routes are frozen by the first evaluation: whatever versions of the note are evaluated later, among whatever else
   * happens, its deliveries and reasons stay the targets of the first version, also when it had none.
   */
  lemma FrozenRoutes(run: Run, v3: Tables, first: Note, gap: nat, steps: seq<Step>)
    requires Reachable(run, v3) && first.id !in run.t.snapshots && !NoteLegacy(v3.v1.at.Keys, first.id)
    ensures DeliveredAs(Execute(Next(run, Evaluate(first, gap)), steps).t, first.id, DeliveryTargets(first))
  {
    ReachableOk(run, v3);
    FrozenRoutesFrom(run, v3, first, gap, steps);
  }

  /**
   * Who is told of a note, and why, for ever after its first evaluation: never its author; another principal because the
   * first version is about it, is directed to it, or is a handoff directed to it; nobody else.
   */
  lemma ToldForEver(run: Run, v3: Tables, first: Note, gap: nat, steps: seq<Step>, c: Name, reason: Reason)
    requires Reachable(run, v3) && first.id !in run.t.snapshots && !NoteLegacy(v3.v1.at.Keys, first.id)
    ensures var t := Execute(Next(run, Evaluate(first, gap)), steps).t;
            var told := c != first.author &&
                        match reason
                        case AboutReason => c in first.about
                        case DirectReason => first.visibility == DirectTo(c)
                        case HandoffReason => first.visibility == DirectTo(c) && first.kind == Handoff;
            && (Route(first.id, c, reason) in t.v1.at <==> told)
            && (Route(first.id, c, reason) in t.v2.reasons <==> told)
  {
    FrozenRoutes(run, v3, first, gap, steps);
    TargetsAre(first, c, reason);
    hide Execute, Next, DeliveryTargets;
    assert Route(first.id, c, reason).note == first.id;
  }

  lemma RecipientsAreTold(note: Note, c: Name)
    ensures (exists g :: g in DeliveryTargets(note) && g.recipient == c) <==>
              c != note.author && (c in note.about || note.visibility == DirectTo(c))
  {
    TargetsAre(note, c, AboutReason);
    TargetsAre(note, c, DirectReason);
    hide DeliveryTargets;
    if g :| g in DeliveryTargets(note) && g.recipient == c {
      TargetsAre(note, c, g.reason);
      assert g == Target(c, g.reason);
    }
    if c != note.author && c in note.about { assert Target(c, AboutReason).recipient == c; }
    if c != note.author && note.visibility == DirectTo(c) { assert Target(c, DirectReason).recipient == c; }
  }

  /** Its logical deliveries go to the same principals, so that no note is delivered to its author. */
  lemma DeliveredToForEver(run: Run, v3: Tables, first: Note, gap: nat, steps: seq<Step>, c: Name)
    requires Reachable(run, v3) && first.id !in run.t.snapshots && !NoteLegacy(v3.v1.at.Keys, first.id)
    ensures Pair(first.id, c) in Execute(Next(run, Evaluate(first, gap)), steps).t.v2.at <==>
              c != first.author && (c in first.about || first.visibility == DirectTo(c))
  {
    hide Execute, Next, DeliveryTargets, Reachable, NoteLegacy;
    FrozenRoutes(run, v3, first, gap, steps);
    RecipientsAreTold(first, c);
    assert Pair(first.id, c).note == first.id;
  }

  lemma EvaluationSnapshots(t: Tables, legacy: set<Route>, note: Note, gap: nat)
    requires DeliveriesOk(t, legacy)
    ensures Generate(t, note, gap).snapshots == TakeSnapshot(t.snapshots, note.id, DeliveryTargets(note))
  {
    hide DeliveriesOk, Generate, Filed, Grown, DeliveryTargets, Recipients;
    GenerateFiles(t, legacy, note, gap);
  }

  /** The routes of `n` are the first that were proposed, its conflict the first proposal that differed from them. */
  ghost predicate RecordedOnce(before: map<NoteId, Snapshot>, after: map<NoteId, Snapshot>, n: NoteId, proposed: set<Target>) {
    && n in after && after.Keys == before.Keys + {n}
    && (forall other :: other in before && other != n ==> after[other] == before[other])
    && (n !in before ==> after[n] == Snapshot(proposed, None))
    && (n in before ==>
          && after[n].routes == before[n].routes
          && (before[n].conflict.Some? ==> after[n].conflict == before[n].conflict)
          && (before[n].conflict.None? ==>
                after[n].conflict == if before[n].routes == proposed then None else Some(proposed)))
  }

  lemma SnapshotRecordsOnce(before: map<NoteId, Snapshot>, n: NoteId, proposed: set<Target>)
    ensures RecordedOnce(before, TakeSnapshot(before, n, proposed), n, proposed)
  {
  }

  /** A later version that proposes other routes leaves them as they are and is recorded once, as the first conflict. */
  lemma ConflictIsRecordedOnce(run: Run, v3: Tables, note: Note, gap: nat)
    requires Reachable(run, v3)
    ensures RecordedOnce(run.t.snapshots, Next(run, Evaluate(note, gap)).t.snapshots, note.id, DeliveryTargets(note))
  {
    assert DeliveriesOk(run.t, v3.v1.at.Keys) by { ReachableOk(run, v3); }
    hide DeliveryTargets, Reachable, DeliveriesOk, Generate, RecordedOnce, TakeSnapshot;
    EvaluationSnapshots(run.t, v3.v1.at.Keys, note, gap);
    SnapshotRecordsOnce(run.t.snapshots, note.id, DeliveryTargets(note));
  }
}
