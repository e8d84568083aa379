/** What every transaction on the ledger keeps, and what the migration does to a version 3 database. */
module LedgerInvariant {
  import opened Base
  import opened Notes
  import opened Ledger

  // ---------------------------------------------------------------------------------------------
  // The invariant, table by table. `legacy` are the v1 rows that were there when version 4 first ran.

  /** AUTOINCREMENT: sequences are distinct, positive and used up. */
  ghost predicate RowsOk(v1: ReasonRows) {
    && (forall r :: r in v1.at ==> 1 <= v1.at[r] <= v1.top)
    && (forall r, q :: r in v1.at && q in v1.at && v1.at[r] == v1.at[q] ==> r == q)
  }

  ghost predicate HasRow(at: map<Route, nat>, p: Pair, sequence: nat) {
    exists r :: r in at && r.Logical() == p && at[r] == sequence
  }

  /** Every v1 row has its logical delivery. */
  ghost predicate Complete(at: map<Route, nat>, logical: map<Pair, nat>) {
    forall r :: r in at ==> r.Logical() in logical
  }

  /** The sequence of a logical delivery is that of one of its own v1 rows. */
  ghost predicate OwnSequence(at: map<Route, nat>, logical: map<Pair, nat>) {
    forall p :: p in logical ==> HasRow(at, p, logical[p])
  }

  /** Aliases and reasons mirror the v1 rows, one each. */
  ghost predicate Mirror(at: map<Route, nat>, v2: Projection) {
    && v2.aliases.Keys == at.Keys
    && v2.reasons == at.Keys
    && (forall r :: r in at && r in v2.aliases ==> v2.aliases[r] == Alias(r.Logical(), at[r], r.reason))
  }

  ghost predicate HasLegacy(legacy: set<Route>, p: Pair) {
    exists r :: r in legacy && r.Logical() == p
  }

  /** A logical sequence is the largest among the rows its delivery was born with; later rows lie above it. */
  ghost predicate BornMax(at: map<Route, nat>, logical: map<Pair, nat>, legacy: set<Route>) {
    forall r :: r in at && r.Logical() in logical ==>
      (at[r] <= logical[r.Logical()] <==> (r in legacy || !HasLegacy(legacy, r.Logical())))
  }

  /** Rows come from the migration or from the routes frozen for their note, and those routes all have rows. */
  ghost predicate Routed(at: map<Route, nat>, snapshots: map<NoteId, Snapshot>, legacy: set<Route>) {
    && legacy <= at.Keys
    && (forall r :: r in at && r !in legacy ==> r.note in snapshots && Target(r.recipient, r.reason) in snapshots[r.note].routes)
    && (forall n, g :: n in snapshots && g in snapshots[n].routes ==> Route(n, g.recipient, g.reason) in at)
  }

  ghost predicate Bounded(t: Tables, bound: nat) {
    && (forall r :: r in t.v1.at ==> t.v1.at[r] <= bound)
    && (forall p :: p in t.v2.at ==> t.v2.at[p] <= bound)
    && (forall c :: c in t.cursors ==> t.cursors[c].sequence <= bound)
    && (forall k :: k in t.watermarks ==> t.watermarks[k] <= bound)
  }

  ghost predicate DeliveriesOk(t: Tables, legacy: set<Route>) {
    && RowsOk(t.v1)
    && Complete(t.v1.at, t.v2.at)
    && OwnSequence(t.v1.at, t.v2.at)
    && Mirror(t.v1.at, t.v2)
    && BornMax(t.v1.at, t.v2.at, legacy)
    && Routed(t.v1.at, t.snapshots, legacy)
    && Bounded(t, t.highWater)
  }

  // ---------------------------------------------------------------------------------------------
  // Inserting rows

  /** A route of the pair for one of the listed reasons. */
  predicate Listed(r: Route, p: Pair, reasons: seq<Reason>) {
    r.Logical() == p && r.reason in reasons
  }

  lemma ListedSnoc(p: Pair, reasons: seq<Reason>)
    requires reasons != []
    ensures var last := |reasons| - 1;
            forall r :: Listed(r, p, reasons) <==> Listed(r, p, reasons[..last]) || r == RouteOf(p, reasons[last])
  {
    assert reasons == reasons[..|reasons| - 1] + [reasons[|reasons| - 1]];
  }

  /** What inserting reason rows of one pair may change. */
  ghost predicate Extended(a: ReasonRows, b: ReasonRows, p: Pair, reasons: seq<Reason>) {
    && a.top <= b.top
    && (forall r :: r in a.at ==> r in b.at && b.at[r] == a.at[r])
    && (forall r :: r in b.at && r !in a.at ==> Listed(r, p, reasons) && a.top < b.at[r])
    && (forall r :: Listed(r, p, reasons) ==> r in b.at)
  }

  lemma InsertRowOk(v1: ReasonRows, r: Route, gap: nat)
    requires RowsOk(v1)
    ensures RowsOk(InsertRow(v1, r, gap))
  {
  }

  lemma {:induction false} InsertRowsExtends(v1: ReasonRows, p: Pair, reasons: seq<Reason>, gap: nat)
    requires RowsOk(v1)
    ensures RowsOk(InsertRows(v1, p, reasons, gap))
    ensures Extended(v1, InsertRows(v1, p, reasons, gap), p, reasons)
  {
    if reasons != [] {
      var last := |reasons| - 1;
      InsertRowsExtends(v1, p, reasons[..last], gap);
      InsertRowOk(InsertRows(v1, p, reasons[..last], gap), RouteOf(p, reasons[last]), gap);
      ListedSnoc(p, reasons);
    }
  }

  lemma {:induction false} MaxSequenceIsMax(at: map<Route, nat>, p: Pair, reasons: seq<Reason>)
    ensures forall r :: r in at && Listed(r, p, reasons) ==> at[r] <= MaxSequence(at, p, reasons)
    ensures MaxSequence(at, p, reasons) == 0 ||
            exists r :: r in at && Listed(r, p, reasons) && at[r] == MaxSequence(at, p, reasons)
  {
    if reasons != [] {
      var last := |reasons| - 1;
      MaxSequenceIsMax(at, p, reasons[..last]);
      ListedSnoc(p, reasons);
    }
  }

  lemma {:induction false} InsertAliasesEffect(v2: Projection, at: map<Route, nat>, p: Pair, reasons: seq<Reason>)
    ensures var u := InsertAliases(v2, at, p, reasons);
            && u.at == v2.at
            && (forall r :: r in u.aliases <==> r in v2.aliases || (r in at && Listed(r, p, reasons)))
            && (forall r :: r in u.reasons <==> r in v2.reasons || (r in at && Listed(r, p, reasons)))
            && (forall r :: r in u.aliases ==>
                  u.aliases[r] == if r in v2.aliases then v2.aliases[r] else Alias(p, at[r], r.reason))
  {
    if reasons != [] {
      var last := |reasons| - 1;
      InsertAliasesEffect(v2, at, p, reasons[..last]);
      ListedSnoc(p, reasons);
    }
  }

  // ---------------------------------------------------------------------------------------------
  // One recipient's share

  /** Some listed row carries the maximum. */
  lemma MaxIsOwn(at: map<Route, nat>, p: Pair, reasons: seq<Reason>) returns (r: Route)
    requires exists x :: x in at && Listed(x, p, reasons) && 1 <= at[x]
    ensures r in at && Listed(r, p, reasons) && at[r] == MaxSequence(at, p, reasons)
    ensures HasRow(at, p, MaxSequence(at, p, reasons))
  {
    MaxSequenceIsMax(at, p, reasons);
    r :| r in at && Listed(r, p, reasons) && at[r] == MaxSequence(at, p, reasons);
  }

  lemma LogicalBelowTop(v1: ReasonRows, logical: map<Pair, nat>)
    requires RowsOk(v1) && OwnSequence(v1.at, logical)
    ensures forall q :: q in logical ==> 1 <= logical[q] <= v1.top
  {
    forall q | q in logical ensures 1 <= logical[q] <= v1.top {
      assert HasRow(v1.at, q, logical[q]);
    }
  }

  lemma GroupMax(v1: ReasonRows, p: Pair, reasons: seq<Reason>, gap: nat)
    requires RowsOk(v1) && reasons != []
    ensures var v1' := InsertRows(v1, p, reasons, gap);
            var s := MaxSequence(v1'.at, p, reasons);
            && HasRow(v1'.at, p, s)
            && ((forall r :: r in v1.at ==> r.Logical() != p) ==> v1.top < s)
  {
    InsertRowsExtends(v1, p, reasons, gap);
    assert Listed(RouteOf(p, reasons[0]), p, reasons);
    var r := MaxIsOwn(InsertRows(v1, p, reasons, gap).at, p, reasons);
  }

  lemma InsertLogicalAbove(logical: map<Pair, nat>, p: Pair, s: nat)
    requires p !in logical ==> forall q :: q in logical ==> logical[q] < s
    ensures InsertLogical(logical, p, s) == if p in logical then logical else logical[p := s]
  {
  }

  /** The logical row a group files: kept when the pair has one, otherwise new and above every older sequence. */
  lemma GroupLogical(v1: ReasonRows, logical: map<Pair, nat>, p: Pair, reasons: seq<Reason>, gap: nat)
    requires RowsOk(v1) && Complete(v1.at, logical) && OwnSequence(v1.at, logical) && reasons != []
    ensures var v1' := InsertRows(v1, p, reasons, gap);
            var s := MaxSequence(v1'.at, p, reasons);
            && (p !in logical ==> v1.top < s)
            && InsertLogical(logical, p, s) == if p in logical then logical else logical[p := s]
  {
    LogicalBelowTop(v1, logical);
    GroupMax(v1, p, reasons, gap);
    InsertLogicalAbove(logical, p, MaxSequence(InsertRows(v1, p, reasons, gap).at, p, reasons));
  }

  lemma HasRowExtended(a: ReasonRows, b: ReasonRows, p: Pair, reasons: seq<Reason>, q: Pair, s: nat)
    requires Extended(a, b, p, reasons) && HasRow(a.at, q, s)
    ensures HasRow(b.at, q, s)
  {
    var r :| r in a.at && r.Logical() == q && a.at[r] == s;
    assert r in b.at && b.at[r] == s;
  }

  lemma CompleteExtends(a: ReasonRows, b: ReasonRows, logical: map<Pair, nat>, p: Pair, reasons: seq<Reason>, s: nat)
    requires Complete(a.at, logical) && Extended(a, b, p, reasons)
    ensures Complete(b.at, if p in logical then logical else logical[p := s])
  {
  }

  lemma OwnExtends(a: ReasonRows, b: ReasonRows, logical: map<Pair, nat>, p: Pair, reasons: seq<Reason>, s: nat)
    requires OwnSequence(a.at, logical) && Extended(a, b, p, reasons) && HasRow(b.at, p, s)
    ensures OwnSequence(b.at, if p in logical then logical else logical[p := s])
  {
    forall q | q in logical ensures HasRow(b.at, q, logical[q]) {
      HasRowExtended(a, b, p, reasons, q, logical[q]);
    }
  }

  lemma GroupComplete(v1: ReasonRows, logical: map<Pair, nat>, p: Pair, reasons: seq<Reason>, gap: nat)
    requires RowsOk(v1) && Complete(v1.at, logical) && OwnSequence(v1.at, logical) && reasons != []
    ensures var v1' := InsertRows(v1, p, reasons, gap);
            var logical' := InsertLogical(logical, p, MaxSequence(v1'.at, p, reasons));
            Complete(v1'.at, logical') && OwnSequence(v1'.at, logical')
  {
    var v1' := InsertRows(v1, p, reasons, gap);
    InsertRowsExtends(v1, p, reasons, gap);
    GroupLogical(v1, logical, p, reasons, gap);
    CompleteExtends(v1, v1', logical, p, reasons, MaxSequence(v1'.at, p, reasons));
    GroupMax(v1, p, reasons, gap);
    OwnExtends(v1, v1', logical, p, reasons, MaxSequence(v1'.at, p, reasons));
  }

  /** A pair that has a logical row either was migrated or already has every listed row. */
  ghost predicate Settled(v1: ReasonRows, logical: map<Pair, nat>, legacy: set<Route>, p: Pair, reasons: seq<Reason>) {
    p in logical && !HasLegacy(legacy, p) ==> forall r :: Listed(r, p, reasons) ==> r in v1.at
  }

  lemma BornMaxExtends(a: ReasonRows, b: ReasonRows, logical: map<Pair, nat>, legacy: set<Route>, p: Pair, reasons: seq<Reason>, s: nat)
    requires Complete(a.at, logical) && legacy <= a.at.Keys && BornMax(a.at, logical, legacy)
    requires Extended(a, b, p, reasons)
    requires forall q :: q in logical ==> logical[q] <= a.top
    requires p !in logical ==> forall r :: r in b.at && Listed(r, p, reasons) ==> b.at[r] <= s
    requires p in logical && !HasLegacy(legacy, p) ==> forall r :: Listed(r, p, reasons) ==> r in a.at
    ensures BornMax(b.at, if p in logical then logical else logical[p := s], legacy)
  {
  }

  lemma GroupBornMax(v1: ReasonRows, logical: map<Pair, nat>, legacy: set<Route>, p: Pair, reasons: seq<Reason>, gap: nat)
    requires RowsOk(v1) && Complete(v1.at, logical) && OwnSequence(v1.at, logical) && reasons != []
    requires legacy <= v1.at.Keys && BornMax(v1.at, logical, legacy)
    requires Settled(v1, logical, legacy, p, reasons)
    ensures var v1' := InsertRows(v1, p, reasons, gap);
            BornMax(v1'.at, InsertLogical(logical, p, MaxSequence(v1'.at, p, reasons)), legacy)
  {
    var v1' := InsertRows(v1, p, reasons, gap);
    LogicalBelowTop(v1, logical);
    GroupLogical(v1, logical, p, reasons, gap);
    InsertRowsExtends(v1, p, reasons, gap);
    MaxSequenceIsMax(v1'.at, p, reasons);
    BornMaxExtends(v1, v1', logical, legacy, p, reasons, MaxSequence(v1'.at, p, reasons));
  }

  lemma MirrorExtends(at: map<Route, nat>, at': map<Route, nat>, v2: Projection, p: Pair, reasons: seq<Reason>)
    requires Mirror(at, v2)
    requires forall r :: r in at ==> r in at' && at'[r] == at[r]
    requires forall r :: r in at' && r !in at ==> Listed(r, p, reasons)
    ensures Mirror(at', InsertAliases(v2, at', p, reasons))
  {
    InsertAliasesEffect(v2, at', p, reasons);
    var u := InsertAliases(v2, at', p, reasons);
    assert forall r :: r in u.aliases <==> r in at';
    assert forall r :: r in u.reasons <==> r in at';
  }

  lemma FileAt(v2: Projection, at: map<Route, nat>, p: Pair, reasons: seq<Reason>)
    ensures File(v2, at, p, reasons).at == InsertLogical(v2.at, p, MaxSequence(at, p, reasons))
  {
    InsertAliasesEffect(v2.(at := InsertLogical(v2.at, p, MaxSequence(at, p, reasons))), at, p, reasons);
  }

  lemma GroupMirror(v1: ReasonRows, v2: Projection, p: Pair, reasons: seq<Reason>, gap: nat)
    requires RowsOk(v1) && Mirror(v1.at, v2)
    ensures var v1' := InsertRows(v1, p, reasons, gap);
            Mirror(v1'.at, File(v2, v1'.at, p, reasons))
  {
    var v1' := InsertRows(v1, p, reasons, gap);
    InsertRowsExtends(v1, p, reasons, gap);
    var w := v2.(at := InsertLogical(v2.at, p, MaxSequence(v1'.at, p, reasons)));
    MirrorExtends(v1.at, v1'.at, w, p, reasons);
  }

  // ---------------------------------------------------------------------------------------------
  // A whole generation

  /** The invariant without the part that ties rows to route snapshots, which holds only between generations. */
  ghost predicate Filed(t: Tables, legacy: set<Route>) {
    && RowsOk(t.v1)
    && Complete(t.v1.at, t.v2.at)
    && OwnSequence(t.v1.at, t.v2.at)
    && Mirror(t.v1.at, t.v2)
    && legacy <= t.v1.at.Keys
    && BornMax(t.v1.at, t.v2.at, legacy)
    && Bounded(t, t.highWater)
  }

  /** New v1 rows are routes of the note to the listed recipients, all of them, numbered above everything before. */
  ghost predicate RowsGrown(a: ReasonRows, b: ReasonRows, note: NoteId, targets: set<Target>, recipients: seq<Name>) {
    && a.top <= b.top
    && (forall r :: r in a.at ==> r in b.at && b.at[r] == a.at[r])
    && (forall r :: r in b.at && r !in a.at ==>
          r.note == note && r.recipient in recipients && Target(r.recipient, r.reason) in targets && a.top < b.at[r])
    && (forall g :: g in targets && g.recipient in recipients ==> Route(note, g.recipient, g.reason) in b.at)
  }

  /** Logical rows never change; new ones belong to the listed recipients and lie above `top`. */
  ghost predicate LogicalGrown(a: map<Pair, nat>, b: map<Pair, nat>, top: nat, note: NoteId, recipients: seq<Name>) {
    && (forall p :: p in a ==> p in b && b[p] == a[p])
    && (forall p :: p in b && p !in a ==> p.note == note && p.recipient in recipients && top < b[p])
  }

  ghost predicate Grown(t: Tables, u: Tables, note: NoteId, targets: set<Target>, recipients: seq<Name>) {
    && u == t.(v1 := u.v1, v2 := u.v2, highWater := u.highWater)
    && t.highWater <= u.highWater
    && RowsGrown(t.v1, u.v1, note, targets, recipients)
    && LogicalGrown(t.v2.at, u.v2.at, t.v1.top, note, recipients)
  }

  lemma ReasonsOfTargets(targets: set<Target>, recipient: Name)
    ensures forall reason :: reason in ReasonsOf(targets, recipient) <==> Target(recipient, reason) in targets
  {
    forall reason ensures reason in ReasonsOf(targets, recipient) <==> Target(recipient, reason) in targets {
      match reason case AboutReason => case DirectReason => case HandoffReason =>
    }
  }

  lemma GroupRowsBounded(v1: ReasonRows, p: Pair, reasons: seq<Reason>, gap: nat, bound: nat, s: nat)
    requires RowsOk(v1)
    requires forall r :: r in v1.at ==> v1.at[r] <= bound
    requires s == MaxSequence(InsertRows(v1, p, reasons, gap).at, p, reasons)
    ensures var v1' := InsertRows(v1, p, reasons, gap);
            forall r :: r in v1'.at ==> v1'.at[r] <= s || v1'.at[r] <= bound
  {
    var v1' := InsertRows(v1, p, reasons, gap);
    InsertRowsExtends(v1, p, reasons, gap);
    MaxSequenceIsMax(v1'.at, p, reasons);
  }

  lemma GroupBounded(t: Tables, p: Pair, reasons: seq<Reason>, gap: nat)
    requires RowsOk(t.v1) && Bounded(t, t.highWater)
    ensures var u := GenerateGroup(t, p, reasons, gap); Bounded(u, u.highWater)
  {
    var u := GenerateGroup(t, p, reasons, gap);
    var v1' := InsertRows(t.v1, p, reasons, gap);
    var s := MaxSequence(v1'.at, p, reasons);
    GroupRowsBounded(t.v1, p, reasons, gap, t.highWater, s);
    FileAt(t.v2, v1'.at, p, reasons);
    assert u.highWater == Max(t.highWater, s);
  }

  lemma GroupFiled(t: Tables, legacy: set<Route>, p: Pair, reasons: seq<Reason>, gap: nat)
    requires Filed(t, legacy) && reasons != [] && Settled(t.v1, t.v2.at, legacy, p, reasons)
    ensures Filed(GenerateGroup(t, p, reasons, gap), legacy)
  {
    InsertRowsExtends(t.v1, p, reasons, gap);
    GroupMirror(t.v1, t.v2, p, reasons, gap);
    FileAt(t.v2, InsertRows(t.v1, p, reasons, gap).at, p, reasons);
    GroupComplete(t.v1, t.v2.at, p, reasons, gap);
    GroupBornMax(t.v1, t.v2.at, legacy, p, reasons, gap);
    GroupBounded(t, p, reasons, gap);
  }

  lemma GroupRowsGrown(v1: ReasonRows, note: NoteId, targets: set<Target>, recipient: Name, gap: nat)
    requires RowsOk(v1)
    ensures RowsGrown(v1, InsertRows(v1, Pair(note, recipient), ReasonsOf(targets, recipient), gap), note, targets, [recipient])
  {
    var p := Pair(note, recipient);
    ReasonsOfTargets(targets, recipient);
    InsertRowsExtends(v1, p, ReasonsOf(targets, recipient), gap);
    var b := InsertRows(v1, p, ReasonsOf(targets, recipient), gap);
    forall g | g in targets && g.recipient in [recipient] ensures Route(note, g.recipient, g.reason) in b.at {
      assert g == Target(recipient, g.reason);
      assert Listed(Route(note, g.recipient, g.reason), p, ReasonsOf(targets, recipient));
    }
  }

  lemma GroupGrown(t: Tables, note: NoteId, targets: set<Target>, recipient: Name, gap: nat)
    requires RowsOk(t.v1) && Complete(t.v1.at, t.v2.at) && OwnSequence(t.v1.at, t.v2.at)
    requires ReasonsOf(targets, recipient) != []
    ensures Grown(t, GenerateGroup(t, Pair(note, recipient), ReasonsOf(targets, recipient), gap), note, targets, [recipient])
  {
    var p := Pair(note, recipient);
    var reasons := ReasonsOf(targets, recipient);
    GroupRowsGrown(t.v1, note, targets, recipient, gap);
    GroupLogical(t.v1, t.v2.at, p, reasons, gap);
    FileAt(t.v2, InsertRows(t.v1, p, reasons, gap).at, p, reasons);
  }

  lemma GrownTrans(t: Tables, u: Tables, w: Tables, note: NoteId, targets: set<Target>, before: seq<Name>, last: Name)
    requires Grown(t, u, note, targets, before) && Grown(u, w, note, targets, [last])
    ensures Grown(t, w, note, targets, before + [last])
  {
    assert forall x :: x in before + [last] <==> x in before || x in [last];
  }

  lemma {:induction false} GroupsKeep(t: Tables, legacy: set<Route>, note: NoteId, targets: set<Target>, recipients: seq<Name>, gap: nat)
    requires Filed(t, legacy) && Ascending(recipients)
    requires forall c :: c in recipients ==> ReasonsOf(targets, c) != []
    requires forall c :: c in recipients ==> Settled(t.v1, t.v2.at, legacy, Pair(note, c), ReasonsOf(targets, c))
    ensures var u := GenerateGroups(t, note, targets, recipients, gap);
            Filed(u, legacy) && Grown(t, u, note, targets, recipients)
  {
    if recipients != [] {
      var n := |recipients| - 1;
      var before, last := recipients[..n], recipients[n];
      assert recipients == before + [last];
      assert forall c :: c in before ==> c in recipients;
      GroupsKeep(t, legacy, note, targets, before, gap);
      var u := GenerateGroups(t, note, targets, before, gap);
      assert last !in before;
      assert last in recipients;
      assert Settled(u.v1, u.v2.at, legacy, Pair(note, last), ReasonsOf(targets, last));
      GroupFiled(u, legacy, Pair(note, last), ReasonsOf(targets, last), gap);
      GroupGrown(u, note, targets, last, gap);
      GrownTrans(t, u, GenerateGroups(t, note, targets, recipients, gap), note, targets, before, last);
    }
  }

  lemma RecipientsAreTargets(targets: set<Target>, c: Name)
    requires c in Recipients(targets)
    ensures ReasonsOf(targets, c) != []
  {
    var g :| g in targets && g.recipient == c;
    ReasonsOfTargets(targets, c);
    assert g == Target(c, g.reason);
    assert g.reason in ReasonsOf(targets, c);
  }

  lemma SnapshotRoutes(snapshots: map<NoteId, Snapshot>, note: NoteId, proposed: set<Target>)
    ensures var after := TakeSnapshot(snapshots, note, proposed);
            && note in after
            && after[note].routes == (if note in snapshots then snapshots[note].routes else proposed)
            && (forall n :: n in after <==> n in snapshots || n == note)
            && (forall n :: n in snapshots ==> after[n].routes == snapshots[n].routes)
  {
  }

  lemma RecipientSettled(t: Tables, legacy: set<Route>, note: NoteId, routes: set<Target>, c: Name)
    requires OwnSequence(t.v1.at, t.v2.at) && Routed(t.v1.at, t.snapshots, legacy)
    requires note in t.snapshots ==> t.snapshots[note].routes == routes
    ensures Settled(t.v1, t.v2.at, legacy, Pair(note, c), ReasonsOf(routes, c))
  {
    var p := Pair(note, c);
    ReasonsOfTargets(routes, c);
    if p in t.v2.at && !HasLegacy(legacy, p) {
      assert HasRow(t.v1.at, p, t.v2.at[p]);
      forall r | Listed(r, p, ReasonsOf(routes, c)) ensures r in t.v1.at {
        assert Target(c, r.reason) in t.snapshots[note].routes;
        assert r == Route(note, Target(c, r.reason).recipient, Target(c, r.reason).reason);
      }
    }
  }

  /** Tables after a generation, as far as the evaluated note's frozen routes are concerned. */
  ghost predicate Evaluated(t: Tables, u: Tables, note: Note) {
    var snapshots := TakeSnapshot(t.snapshots, note.id, DeliveryTargets(note));
    var routes := snapshots[note.id].routes;
    && u.snapshots == snapshots
    && Grown(t.(snapshots := snapshots), u, note.id, routes, Recipients(routes))
  }

  lemma GenerateFiles(t: Tables, legacy: set<Route>, note: Note, gap: nat)
    requires DeliveriesOk(t, legacy)
    ensures Filed(Generate(t, note, gap), legacy) && Evaluated(t, Generate(t, note, gap), note)
  {
    var taken := t.(snapshots := TakeSnapshot(t.snapshots, note.id, DeliveryTargets(note)));
    SnapshotRoutes(t.snapshots, note.id, DeliveryTargets(note));
    var routes := taken.snapshots[note.id].routes;
    forall c | c in Recipients(routes)
      ensures ReasonsOf(routes, c) != [] && Settled(taken.v1, taken.v2.at, legacy, Pair(note.id, c), ReasonsOf(routes, c))
    {
      RecipientsAreTargets(routes, c);
      RecipientSettled(t, legacy, note.id, routes, c);
    }
    GroupsKeep(taken, legacy, note.id, routes, Recipients(routes), gap);
  }

  lemma RoutedGrows(t: Tables, u: Tables, legacy: set<Route>, note: Note)
    requires Routed(t.v1.at, t.snapshots, legacy) && Evaluated(t, u, note)
    ensures Routed(u.v1.at, u.snapshots, legacy)
  {
    SnapshotRoutes(t.snapshots, note.id, DeliveryTargets(note));
    var routes := u.snapshots[note.id].routes;
    forall n, g | n in u.snapshots && g in u.snapshots[n].routes ensures Route(n, g.recipient, g.reason) in u.v1.at {
      if n == note.id {
        assert g in routes && g.recipient in Recipients(routes);
      }
    }
  }

  /** Generating deliveries keeps the invariant. */
  lemma GenerateKeeps(t: Tables, legacy: set<Route>, note: Note, gap: nat)
    requires DeliveriesOk(t, legacy)
    ensures DeliveriesOk(Generate(t, note, gap), legacy)
  {
    GenerateFiles(t, legacy, note, gap);
    RoutedGrows(t, Generate(t, note, gap), legacy, note);
  }

  lemma FrozenRouteHasRow(at: map<Route, nat>, snapshots: map<NoteId, Snapshot>, legacy: set<Route>, r: Route)
    requires Routed(at, snapshots, legacy)
    requires r.note in snapshots && Target(r.recipient, r.reason) in snapshots[r.note].routes
    ensures r in at
  {
    var g := Target(r.recipient, r.reason);
    assert r == Route(r.note, g.recipient, g.reason);
  }

  lemma NothingGrown(t: Tables, u: Tables, legacy: set<Route>, note: Note)
    requires Routed(t.v1.at, t.snapshots, legacy) && Evaluated(t, u, note) && note.id in t.snapshots
    ensures u.v1.at == t.v1.at
  {
    SnapshotRoutes(t.snapshots, note.id, DeliveryTargets(note));
    hide DeliveryTargets, Recipients, TakeSnapshot, LogicalGrown;
    forall r: Route | r.note == note.id && Target(r.recipient, r.reason) in t.snapshots[note.id].routes
      ensures r in t.v1.at
    {
      FrozenRouteHasRow(t.v1.at, t.snapshots, legacy, r);
    }
  }

  lemma SameLogical(at: map<Route, nat>, a: map<Pair, nat>, b: map<Pair, nat>)
    requires Complete(at, a) && OwnSequence(at, b)
    requires forall p :: p in a ==> p in b && b[p] == a[p]
    ensures a == b
  {
    forall p | p in b ensures p in a {
      assert HasRow(at, p, b[p]);
    }
  }

  lemma SameMirror(at: map<Route, nat>, a: Projection, b: Projection)
    requires Mirror(at, a) && Mirror(at, b) && a.at == b.at
    ensures a == b
  {
    assert a.aliases == b.aliases;
  }

  /** Once its routes are frozen, evaluating any version of a note adds and changes no delivery. */
  lemma RegenerateChangesNothing(t: Tables, legacy: set<Route>, note: Note, gap: nat)
    requires DeliveriesOk(t, legacy) && note.id in t.snapshots
    ensures var u := Generate(t, note, gap);
            && u.v1.at == t.v1.at && u.v2 == t.v2
            && note.id in u.snapshots && u.snapshots[note.id].routes == t.snapshots[note.id].routes
  {
    var u := Generate(t, note, gap);
    GenerateFiles(t, legacy, note, gap);
    NothingGrown(t, u, legacy, note);
    SameLogical(t.v1.at, t.v2.at, u.v2.at);
    SameMirror(t.v1.at, t.v2, u.v2);
    SnapshotRoutes(t.snapshots, note.id, DeliveryTargets(note));
  }
}
