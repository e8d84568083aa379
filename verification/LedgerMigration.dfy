/**
 * The migration from version 3, which knew only v1 reason rows, and its repetition on every later start.
 * The order in which SQLite returns the groups is left open: every order gives the same tables.
 */
module LedgerMigration {
  import opened Notes
  import opened Ledger
  import opened LedgerInvariant

  /** A version 3 database just after `CREATE TABLE IF NOT EXISTS` and the defaults for new columns. */
  ghost predicate Version3(t: Tables) {
    && RowsOk(t.v1)
    && t.v2 == Projection(map[], map[], {})
    && t.snapshots == map[] && t.receipts == map[] && t.highWater == 0
    && (forall k :: k in t.watermarks ==> t.watermarks[k] <= t.v1.top)
    && (forall c :: c in t.cursors ==> t.cursors[c].purpose == UnknownPurpose)
  }

  /** The rows of `GROUP BY`: every group once, in some order. */
  ghost predicate Enumerates(groups: seq<Pair>, at: map<Route, nat>) {
    && (forall i, j :: 0 <= i < j < |groups| ==> groups[i] != groups[j])
    && (forall p :: p in groups <==> p in Groups(at))
  }

  /** `s` is `MAX(sequence)` of the pair's v1 rows. */
  ghost predicate GroupMaximum(at: map<Route, nat>, p: Pair, s: nat) {
    && HasRow(at, p, s)
    && (forall r :: r in at && r.Logical() == p ==> at[r] <= s)
  }

  lemma EveryReasonListed(r: Route)
    ensures Listed(r, r.Logical(), REASONS)
  {
    match r.reason case AboutReason => case DirectReason => case HandoffReason =>
  }

  lemma GroupMaximumIsMax(at: map<Route, nat>, p: Pair)
    requires p in Groups(at) && forall r :: r in at ==> 1 <= at[r]
    ensures GroupMaximum(at, p, MaxSequence(at, p, REASONS))
  {
    var r :| r in at && r.Logical() == p;
    EveryReasonListed(r);
    var own := MaxIsOwn(at, p, REASONS);
    MaxSequenceIsMax(at, p, REASONS);
    forall q | q in at && q.Logical() == p ensures at[q] <= MaxSequence(at, p, REASONS) {
      EveryReasonListed(q);
    }
  }

  /** The logical rows when exactly the pairs in `done` have been visited. */
  ghost predicate VisitedPairs(at: map<Route, nat>, logical: map<Pair, nat>, done: seq<Pair>) {
    && (forall p :: p in logical <==> p in done)
    && (forall p :: p in logical ==> GroupMaximum(at, p, logical[p]))
  }

  /** The aliases and reasons when exactly the pairs in `done` have been visited. */
  ghost predicate VisitedRoutes(at: map<Route, nat>, v2: Projection, done: seq<Pair>) {
    && (forall r :: r in v2.aliases <==> r in at && r.Logical() in done)
    && (forall r :: r in v2.reasons <==> r in at && r.Logical() in done)
    && (forall r :: r in v2.aliases ==> v2.aliases[r] == Alias(r.Logical(), at[r], r.reason))
  }

  lemma MaximaDistinct(v1: ReasonRows, p: Pair, s: nat, q: Pair, m: nat)
    requires RowsOk(v1) && GroupMaximum(v1.at, p, s) && GroupMaximum(v1.at, q, m) && p != q
    ensures s != m
  {
    var r :| r in v1.at && r.Logical() == p && v1.at[r] == s;
    var x :| x in v1.at && x.Logical() == q && v1.at[x] == m;
  }

  lemma InsertLogicalFree(logical: map<Pair, nat>, p: Pair, s: nat)
    requires p !in logical && forall q :: q in logical ==> logical[q] != s
    ensures InsertLogical(logical, p, s) == logical[p := s]
  {
  }

  /** No `INSERT OR IGNORE` drops the logical row of a new pair: no other pair has its sequence. */
  lemma NoClash(v1: ReasonRows, logical: map<Pair, nat>, done: seq<Pair>, p: Pair)
    requires RowsOk(v1) && VisitedPairs(v1.at, logical, done) && p !in done && p in Groups(v1.at)
    ensures var s := MaxSequence(v1.at, p, REASONS);
            GroupMaximum(v1.at, p, s) && InsertLogical(logical, p, s) == logical[p := s]
  {
    var s := MaxSequence(v1.at, p, REASONS);
    GroupMaximumIsMax(v1.at, p);
    forall q | q in logical ensures logical[q] != s {
      MaximaDistinct(v1, p, s, q, logical[q]);
    }
    InsertLogicalFree(logical, p, s);
  }

  lemma VisitPair(v1: ReasonRows, logical: map<Pair, nat>, done: seq<Pair>, p: Pair)
    requires RowsOk(v1) && VisitedPairs(v1.at, logical, done) && p !in done && p in Groups(v1.at)
    ensures VisitedPairs(v1.at, InsertLogical(logical, p, MaxSequence(v1.at, p, REASONS)), done + [p])
  {
    NoClash(v1, logical, done, p);
    assert forall q :: q in done + [p] <==> q in done || q == p;
  }

  lemma VisitRoutes(at: map<Route, nat>, v2: Projection, done: seq<Pair>, p: Pair)
    requires VisitedRoutes(at, v2, done)
    ensures VisitedRoutes(at, InsertAliases(v2, at, p, REASONS), done + [p])
  {
    InsertAliasesEffect(v2, at, p, REASONS);
    assert forall q :: q in done + [p] <==> q in done || q == p;
    forall r: Route ensures Listed(r, p, REASONS) <==> r.Logical() == p {
      EveryReasonListed(r);
    }
  }

  lemma {:induction false} VisitAll(v1: ReasonRows, v2: Projection, groups: seq<Pair>)
    requires RowsOk(v1) && VisitedPairs(v1.at, v2.at, []) && VisitedRoutes(v1.at, v2, [])
    requires forall i, j :: 0 <= i < j < |groups| ==> groups[i] != groups[j]
    requires forall p :: p in groups ==> p in Groups(v1.at)
    ensures VisitedPairs(v1.at, BackfillGroups(v2, v1.at, groups).at, groups)
    ensures VisitedRoutes(v1.at, BackfillGroups(v2, v1.at, groups), groups)
  {
    if groups != [] {
      var n := |groups| - 1;
      assert groups == groups[..n] + [groups[n]];
      assert forall p :: p in groups[..n] ==> p in groups;
      VisitAll(v1, v2, groups[..n]);
      var before := BackfillGroups(v2, v1.at, groups[..n]);
      VisitPair(v1, before.at, groups[..n], groups[n]);
      VisitRoutes(v1.at, before.(at := InsertLogical(before.at, groups[n], MaxSequence(v1.at, groups[n], REASONS))), groups[..n], groups[n]);
      FileAt(before, v1.at, groups[n], REASONS);
    }
  }

  lemma MaximaBound(t: Tables)
    ensures Bounded(t, Maxima(t))
  {
    forall r | r in t.v1.at ensures t.v1.at[r] <= Maxima(t) { assert t.v1.at[r] in t.v1.at.Values; }
    forall p | p in t.v2.at ensures t.v2.at[p] <= Maxima(t) { assert t.v2.at[p] in t.v2.at.Values; }
    var sequences := set c | c in t.cursors :: t.cursors[c].sequence;
    forall c | c in t.cursors ensures t.cursors[c].sequence <= Maxima(t) { assert t.cursors[c].sequence in sequences; }
    forall k | k in t.watermarks ensures t.watermarks[k] <= Maxima(t) { assert t.watermarks[k] in t.watermarks.Values; }
  }

  lemma RaisedBound(t: Tables, bound: nat, highWater: nat)
    requires Bounded(t, bound) && bound <= highWater
    ensures Bounded(t.(highWater := highWater), highWater)
  {
  }

  lemma MaximaWithin(t: Tables, bound: nat)
    requires Bounded(t, bound)
    ensures Maxima(t) <= bound
  {
  }

  lemma AllVisited(at: map<Route, nat>, v2: Projection, groups: seq<Pair>)
    requires VisitedPairs(at, v2.at, groups) && VisitedRoutes(at, v2, groups) && Enumerates(groups, at)
    ensures v2.at.Keys == Groups(at) && Mirror(at, v2)
  {
    assert forall r :: r in at ==> r.Logical() in Groups(at);
    assert v2.aliases.Keys == at.Keys;
    assert v2.reasons == at.Keys;
  }

  lemma AllVisitedOk(at: map<Route, nat>, logical: map<Pair, nat>)
    requires logical.Keys == Groups(at) && forall p :: p in logical ==> GroupMaximum(at, p, logical[p])
    ensures Complete(at, logical) && OwnSequence(at, logical) && BornMax(at, logical, at.Keys) && Routed(at, map[], at.Keys)
  {
  }

  /**
   * The migration is total and lossless: whatever the order of the groups, each (note, recipient) gets exactly one
   * logical row, at the maximum of its v1 rows; each v1 row one alias and its reason; and no v1 row changes.
   */
  lemma MigrationIsLossless(t: Tables, groups: seq<Pair>)
    requires Version3(t) && Enumerates(groups, t.v1.at)
    ensures var u := Backfill(t, groups);
            && u.v1 == t.v1
            && u.v2.at.Keys == Groups(t.v1.at)
            && (forall p :: p in u.v2.at ==> GroupMaximum(t.v1.at, p, u.v2.at[p]))
            && Mirror(t.v1.at, u.v2)
  {
    VisitAll(t.v1, t.v2, groups);
    AllVisited(t.v1.at, Backfill(t, groups).v2, groups);
  }

  lemma MigrationEstablishes(t: Tables, groups: seq<Pair>)
    requires Version3(t) && Enumerates(groups, t.v1.at)
    ensures DeliveriesOk(Backfill(t, groups), t.v1.at.Keys)
  {
    MigrationIsLossless(t, groups);
    AllVisitedOk(t.v1.at, Backfill(t, groups).v2.at);
    var u := t.(v2 := BackfillGroups(t.v2, t.v1.at, groups));
    MaximaBound(u);
    RaisedBound(u, Maxima(u), Backfill(t, groups).highWater);
  }

  lemma {:induction false} RevisitChangesNothing(at: map<Route, nat>, v2: Projection, groups: seq<Pair>)
    requires Complete(at, v2.at) && Mirror(at, v2)
    requires forall p :: p in groups ==> p in Groups(at)
    ensures BackfillGroups(v2, at, groups) == v2
  {
    if groups != [] {
      var p := groups[|groups| - 1];
      RevisitChangesNothing(at, v2, groups[..|groups| - 1]);
      assert p in groups;
      InsertAliasesEffect(v2, at, p, REASONS);
      var u := InsertAliases(v2, at, p, REASONS);
      assert u.aliases == v2.aliases;
      assert u.reasons == v2.reasons;
    }
  }

  /** Repeating the migration on tables that keep the invariant changes nothing at all. */
  lemma BackfillChangesNothing(t: Tables, legacy: set<Route>, groups: seq<Pair>)
    requires DeliveriesOk(t, legacy) && Enumerates(groups, t.v1.at)
    ensures Backfill(t, groups) == t
  {
    RevisitChangesNothing(t.v1.at, t.v2, groups);
    MaximaWithin(t, t.highWater);
  }
}
