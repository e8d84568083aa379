/** The delivery gate of retention, and what passing it means in terms of pages actually read. */
module RetentionGate {
  import opened Notes
  import opened Ledger
  import opened LedgerRuns
  import opened LedgerTheorems

  /** Every delivery of the note has a consumer, and every consumer of its recipient counts it as read. */
  ghost predicate AllAcknowledged(t: Tables, note: NoteId) {
    forall p :: p in t.v2.at && p.note == note ==>
      && (exists k :: k in t.watermarks && k.principal == p.recipient)
      && (forall k :: k in t.watermarks && k.principal == p.recipient ==> t.v2.at[p] <= t.watermarks[k])
  }

  /** `_assert_deliveries_acknowledged`, as two loops over the tables. */
  method AssertDeliveriesAcknowledged(t: Tables, note: NoteId) returns (ok: bool)
    ensures ok <==> AllAcknowledged(t, note)
  {
    var deliveries := set p | p in t.v2.at && p.note == note;
    while deliveries != {}
      invariant forall p :: p in deliveries ==> p in t.v2.at && p.note == note
      invariant forall p :: p in t.v2.at && p.note == note && p !in deliveries ==>
                  && (exists k :: k in t.watermarks && k.principal == p.recipient)
                  && (forall k :: k in t.watermarks && k.principal == p.recipient ==> t.v2.at[p] <= t.watermarks[k])
    {
      var p :| p in deliveries;
      var consumers := set k | k in t.watermarks && k.principal == p.recipient;
      if consumers == {} {
        assert forall k :: k in t.watermarks && k.principal == p.recipient ==> k in consumers;
        return false;
      }
      ghost var someone :| someone in consumers;
      while consumers != {}
        invariant forall k :: k in consumers ==> k in t.watermarks && k.principal == p.recipient
        invariant forall k :: k in t.watermarks && k.principal == p.recipient && k !in consumers ==> t.v2.at[p] <= t.watermarks[k]
      {
        var k :| k in consumers;
        if t.watermarks[k] < t.v2.at[p] {
          return false;
        }
        consumers := consumers - {k};
      }
      deliveries := deliveries - {p};
    }
    return true;
  }

  /**
   * A note that passes the gate was seen: each of its deliveries is below the starting watermark of every consumer of
   * its recipient, or was returned by a page that consumer acknowledged.
   */
  lemma GatePassedMeansSeen(run: Run, v3: Tables, note: NoteId, p: Pair, k: Consumer)
    requires Reachable(run, v3) && AllAcknowledged(run.t, note)
    requires p in run.t.v2.at && p.note == note && k in run.t.watermarks && k.principal == p.recipient
    ensures run.t.v2.at[p] <= Watermark(v3, k) || Covered(run, k, p)
  {
    if Watermark(v3, k) < run.t.v2.at[p] {
      NoGapBelowWatermark(run, v3, k, p);
    }
  }
}
