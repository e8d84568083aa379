/**
 * The ledger as the service runs it: one object holding the tables, changed in place by one method per transaction.
 * Each method is proved to take the tables where the transaction's function takes them.
 */
module LedgerStore {
  import opened Base
  import opened Notes
  import opened Ledger
  import opened LedgerInvariant
  import opened LedgerMigration
  import opened LedgerRuns

  class DeliveryStore {
    var deliveries: ReasonRows
    var projection: Projection
    var snapshots: map<NoteId, Snapshot>
    var highWater: nat
    var watermarks: map<Consumer, nat>
    var cursors: map<Token, Cursor>
    var receipts: map<(Consumer, Pair), Receipt>
    ghost var legacy: set<Route>

    function Contents(): Tables
      reads this
    {
      Tables(deliveries, projection, snapshots, highWater, watermarks, cursors, receipts)
    }

    ghost predicate Valid()
      reads this
    {
      DeliveriesOk(Contents(), legacy)
    }

    constructor ()
      ensures Valid() && legacy == {}
      ensures Contents() == Tables(ReasonRows(map[], 0), Projection(map[], map[], {}), map[], 0, map[], map[], map[])
    {
      deliveries := ReasonRows(map[], 0);
      projection := Projection(map[], map[], {});
      snapshots, highWater, watermarks, cursors, receipts := map[], 0, map[], map[], map[];
      legacy := {};
    }

    method InsertReasonRows(p: Pair, reasons: seq<Reason>, gap: nat)
      modifies this`deliveries
      ensures deliveries == InsertRows(old(deliveries), p, reasons, gap)
    {
      for i := 0 to |reasons|
        invariant deliveries == InsertRows(old(deliveries), p, reasons[..i], gap)
      {
        var r := RouteOf(p, reasons[i]);
        assert reasons[..i + 1][..i] == reasons[..i];
        if r in deliveries.at {
          deliveries := deliveries.(top := deliveries.top + gap);
        } else {
          deliveries := ReasonRows(deliveries.at[r := deliveries.top + 1], deliveries.top + 1);
        }
      }
      assert reasons[..|reasons|] == reasons;
    }

    method LargestSequence(p: Pair, reasons: seq<Reason>) returns (largest: nat)
      ensures largest == MaxSequence(deliveries.at, p, reasons)
    {
      largest := 0;
      for i := 0 to |reasons|
        invariant largest == MaxSequence(deliveries.at, p, reasons[..i])
      {
        var r := RouteOf(p, reasons[i]);
        assert reasons[..i + 1][..i] == reasons[..i];
        if r in deliveries.at && deliveries.at[r] > largest {
          largest := deliveries.at[r];
        }
      }
      assert reasons[..|reasons|] == reasons;
    }

    method FileDelivery(p: Pair, reasons: seq<Reason>) returns (largest: nat)
      modifies this`projection
      ensures projection == File(old(projection), deliveries.at, p, reasons)
      ensures largest == MaxSequence(deliveries.at, p, reasons)
    {
      largest := LargestSequence(p, reasons);
      if p !in projection.at && largest !in projection.at.Values {
        projection := projection.(at := projection.at[p := largest]);
      }
      ghost var filed := projection;
      for i := 0 to |reasons|
        invariant projection == InsertAliases(filed, deliveries.at, p, reasons[..i])
      {
        var r := RouteOf(p, reasons[i]);
        assert reasons[..i + 1][..i] == reasons[..i];
        if r in deliveries.at {
          if r !in projection.aliases {
            projection := projection.(aliases := projection.aliases[r := Alias(p, deliveries.at[r], r.reason)]);
          }
          projection := projection.(reasons := projection.reasons + {r});
        }
      }
      assert reasons[..|reasons|] == reasons;
    }

    method RecordRoutes(note: NoteId, proposed: set<Target>) returns (routes: set<Target>)
      modifies this`snapshots
      ensures snapshots == TakeSnapshot(old(snapshots), note, proposed)
      ensures note in snapshots && routes == snapshots[note].routes
    {
      if note !in snapshots {
        snapshots := snapshots[note := Snapshot(proposed, None)];
      } else if snapshots[note].routes != proposed && snapshots[note].conflict.None? {
        snapshots := snapshots[note := snapshots[note].(conflict := Some(proposed))];
      }
      routes := snapshots[note].routes;
    }

    method DeliverTo(p: Pair, reasons: seq<Reason>, gap: nat)
      modifies this`deliveries, this`projection, this`highWater
      ensures Contents() == GenerateGroup(old(Contents()), p, reasons, gap)
    {
      hide InsertRows, File, MaxSequence;
      InsertReasonRows(p, reasons, gap);
      var largest := FileDelivery(p, reasons);
      highWater := Max(highWater, largest);
    }

    method DeliverToAll(note: NoteId, routes: set<Target>, gap: nat)
      modifies this`deliveries, this`projection, this`highWater
      ensures Contents() == GenerateGroups(old(Contents()), note, routes, Recipients(routes), gap)
    {
      hide Recipients, ReasonsOf, GenerateGroup;
      var recipients := Recipients(routes);
      ghost var before := Contents();
      for i := 0 to |recipients|
        invariant Contents() == GenerateGroups(before, note, routes, recipients[..i], gap)
      {
        assert recipients[..i + 1][..i] == recipients[..i];
        DeliverTo(Pair(note, recipients[i]), ReasonsOf(routes, recipients[i]), gap);
      }
      assert recipients[..|recipients|] == recipients;
    }

    method Deliver(note: Note, gap: nat)
      modifies this`deliveries, this`projection, this`snapshots, this`highWater
      ensures Contents() == Generate(old(Contents()), note, gap)
    {
      ghost var before := Contents();
      var routes := RecordRoutes(note.id, DeliveryTargets(note));
      assert Contents() == before.(snapshots := TakeSnapshot(before.snapshots, note.id, DeliveryTargets(note)));
      DeliverToAll(note.id, routes, gap);
    }

    /** `_generate_deliveries_for_note`, one transaction. */
    method GenerateDeliveries(note: Note, gap: nat)
      requires Valid()
      modifies this`deliveries, this`projection, this`snapshots, this`highWater
      ensures Contents() == Generate(old(Contents()), note, gap)
      ensures Valid()
    {
      hide DeliveriesOk, Generate;
      ghost var before, after := Contents(), Generate(Contents(), note, gap);
      Deliver(note, gap);
      assert Contents() == after;
      assert DeliveriesOk(after, legacy) by {
        GenerateKeeps(before, legacy, note, gap);
      }
    }

    method FileGroups(groups: seq<Pair>)
      modifies this`projection
      ensures projection == BackfillGroups(old(projection), deliveries.at, groups)
    {
      for i := 0 to |groups|
        invariant projection == BackfillGroups(old(projection), deliveries.at, groups[..i])
      {
        assert groups[..i + 1][..i] == groups[..i];
        var _ := FileDelivery(groups[i], REASONS);
      }
      assert groups[..|groups|] == groups;
    }

    method RaiseHighWater()
      modifies this`highWater
      ensures Contents() == old(Contents()).(highWater := Max(old(highWater), Maxima(old(Contents()))))
    {
      var maxima := Max(Max(MaxOf(deliveries.at.Values), MaxOf(projection.at.Values)),
                        Max(MaxOf(set c | c in cursors :: cursors[c].sequence), MaxOf(watermarks.Values)));
      highWater := Max(highWater, maxima);
    }

    /** The migration: the groups as SQLite lists them, then the high-water mark. On valid tables it changes nothing. */
    method BackfillLogicalDeliveries(groups: seq<Pair>)
      requires Enumerates(groups, deliveries.at)
      modifies this`projection, this`highWater
      ensures Contents() == Backfill(old(Contents()), groups)
      ensures old(Valid()) ==> Contents() == old(Contents())
      ensures Version3(old(Contents())) && legacy == deliveries.at.Keys ==> Valid()
    {
      hide DeliveriesOk, Version3, BackfillGroups, Maxima;
      ghost var before := Contents();
      FileGroups(groups);
      RaiseHighWater();
      assert Contents() == Backfill(before, groups);
      if DeliveriesOk(before, legacy) {
        BackfillChangesNothing(before, legacy, groups);
      } else if Version3(before) {
        MigrationEstablishes(before, groups);
      }
    }

    /** The loop over the selected rows: hidden notes are skipped but scanned. */
    method ScanRows(rows: set<Delivery>, selected: seq<nat>, visible: set<NoteId>, acknowledged: nat)
      returns (items: seq<Delivery>, scanned: nat)
      requires Ascending(selected)
      requires forall s :: s in selected ==> exists d :: d in rows && SequenceOf(Contents(), d) == s
      requires OneRowEach(Contents(), rows)
      ensures forall d :: d in items <==> d in rows && SequenceOf(Contents(), d) in selected && NoteOf(d) in visible
      ensures InOrder(Contents(), items)
      ensures scanned == if selected == [] then acknowledged else Max(acknowledged, selected[|selected| - 1])
    {
      var t := Contents();
      items := [];
      scanned := acknowledged;
      for i := 0 to |selected|
        invariant forall d :: d in items <==> d in rows && SequenceOf(t, d) in selected[..i] && NoteOf(d) in visible
        invariant scanned == if i == 0 then acknowledged else Max(acknowledged, selected[i - 1])
        invariant InOrder(t, items)
      {
        assert selected[i] in selected;
        var row :| row in rows && SequenceOf(t, row) == selected[i];
        assert selected[..i + 1] == selected[..i] + [selected[i]];
        scanned := Max(scanned, selected[i]);
        if NoteOf(row) in visible {
          AppendInOrder(t, items, row);
          items := items + [row];
        }
      }
      assert selected[..|selected|] == selected;
    }

    method ReadPage(k: Consumer, model: Model, limit: int, visible: set<NoteId>)
      returns (items: seq<Delivery>, hasMore: bool, page: Page)
      requires OneRowEach(Contents(), Unread(Contents(), model, k.principal, Watermark(Contents(), k)))
      ensures page == SelectPage(Contents(), k, model, limit) && page.consumer == k && page.model == model
      ensures forall d :: d in items <==> d in page.rows && NoteOf(d) in visible
      ensures InOrder(Contents(), items)
      ensures hasMore <==>
                exists d :: d in Unread(Contents(), model, k.principal, Watermark(Contents(), k)) && d !in page.rows
    {
      hide Unread, SequenceOf, OneRowEach, InOrder, Sequences, Chosen, SelectPage;
      var t := Contents();
      var acknowledged := Watermark(t, k);
      var unread := Unread(t, model, k.principal, acknowledged);
      var order := Sorted(Sequences(t, unread));
      var selected := order[..Min(PageLimit(limit), |order|)];
      hasMore := |order| > |selected|;
      MoreBeyond(t, k, model, limit);
      SelectedRows(t, unread, |selected|);
      var scanned;
      items, scanned := ScanRows(unread, selected, visible, acknowledged);
      page := Page(k, model, acknowledged, scanned, Chosen(t, unread, selected));
      PageIs(t, k, model, limit);
      ChosenAre(t, unread, selected);
    }

    /**
     * `fetch_inbox` with no other transaction between its SELECT and the cursor: the page's visible items in order, under
     * v2 whether more is unread, and a new cursor for exactly the items it returns and the position of its page.
     */
    method FetchInbox(k: Consumer, model: Model, limit: int, visible: set<NoteId>, token: Token)
      returns (items: seq<Delivery>, hasMore: Option<bool>)
      requires Valid()
      modifies this`cursors
      ensures Contents() == IssueCursor(old(Contents()), SelectPage(old(Contents()), k, model, limit), visible, token)
      ensures forall d :: d in items <==>
                d in SelectPage(old(Contents()), k, model, limit).rows && NoteOf(d) in visible
      ensures token in old(cursors) ==> cursors == old(cursors)
      ensures token !in old(cursors) ==> BoundTo(old(cursors), cursors, token, k, model, items)
      ensures token in cursors && token !in old(cursors) ==>
                cursors[token].sequence == SelectPage(old(Contents()), k, model, limit).sequence
      ensures InOrder(old(Contents()), items)
      ensures hasMore.Some? <==> model == V2
      ensures hasMore.Some? ==>
                (hasMore.value <==> exists d :: d in Unread(old(Contents()), V2, k.principal, Watermark(old(Contents()), k))
                                                && d !in SelectPage(old(Contents()), k, V2, limit).rows)
      ensures Valid()
    {
      hide DeliveriesOk, IssueCursor, SelectPage, Unread, OneRowEach;
      FetchDeliveries(Contents(), legacy, k, model, limit, visible, token);
      OneRowPerSequence(Contents(), legacy, model, k.principal, Watermark(Contents(), k));
      var more, page;
      items, more, page := ReadPage(k, model, limit, visible);
      hasMore := if model == V2 then Some(more) else None;
      Record(page, items, visible, token);
    }

    method Record(page: Page, items: seq<Delivery>, visible: set<NoteId>, token: Token)
      requires forall d :: d in items <==> d in page.rows && NoteOf(d) in visible
      modifies this`cursors
      ensures Contents() == IssueCursor(old(Contents()), page, visible, token)
      ensures token in old(cursors) ==> cursors == old(cursors)
      ensures token !in old(cursors) ==>
                && BoundTo(old(cursors), cursors, token, page.consumer, page.model, items)
                && cursors[token].sequence == page.sequence
    {
      if token !in cursors {
        var issued := set d | d in items;
        assert issued == set d | d in page.rows && NoteOf(d) in visible;
        cursors := cursors[token := Cursor(page.consumer, page.sequence, page.model, InboxPage, issued, page.from, page.rows)];
      }
    }

    /** The receipt loop's first half: which logical deliveries the issued items stand for. */
    method ResolveItems(c: Cursor) returns (targets: set<Pair>)
      ensures targets == ReceiptTargets(Contents(), c)
    {
      var t := Contents();
      targets := {};
      var todo := c.items;
      assert c.items - todo == {};
      while todo != {}
        invariant todo <= c.items
        invariant targets == ReceiptTargets(t, c.(items := c.items - todo))
      {
        var item :| item in todo;
        ghost var before := c.items - todo;
        todo := todo - {item};
        assert c.items - todo == before + {item};
        match item {
          case Legacy(r) =>
            if c.model == V1 && r in projection.aliases && projection.aliases[r].logical in projection.at
               && c.sequence >= projection.at[projection.aliases[r].logical] {
              targets := targets + {projection.aliases[r].logical};
            }
          case Logical(p) =>
            if c.model == V2 && p in projection.at {
              targets := targets + {p};
            }
        }
        OneMoreItem(t, c, before, item);
      }
      assert c.items - todo == c.items;
      assert c.(items := c.items) == c;
    }

    /** `acknowledge_inbox`: receipts and watermark in one transaction, or a refusal. */
    method AcknowledgeInbox(k: Consumer, token: Token) returns (result: AckResult)
      modifies this`receipts, this`watermarks
      ensures result == AckOutcome(old(Contents()), k, token)
      ensures Contents() == Acknowledge(old(Contents()), k, token)
      ensures result == Refused(NotIssued) <==> token !in cursors || cursors[token].consumer != k
      ensures result == Refused(RefreshRequired) <==>
                token in cursors && cursors[token].consumer == k && cursors[token].purpose == UnknownPurpose
                && cursors[token].sequence > Watermark(old(Contents()), k)
      ensures result.Refused? ==> Contents() == old(Contents())
      ensures result.Acked? ==>
                && (result.advanced <==> cursors[token].sequence > Watermark(old(Contents()), k))
                && (result.advanced <==> Watermark(Contents(), k) > Watermark(old(Contents()), k))
                && watermarks == old(watermarks)[k := if result.advanced then cursors[token].sequence
                                                      else Watermark(old(Contents()), k)]
                && (!result.advanced ==> receipts == old(receipts))
      ensures old(Valid()) ==> Valid()
    {
      AckEffect(Contents(), k, token);
      hide DeliveriesOk, Acknowledge, AckOutcome;
      if DeliveriesOk(Contents(), legacy) {
        AcknowledgeDeliveries(Contents(), legacy, k, token);
      }
      result := RecordAcknowledgement(k, token);
    }

    method RecordAcknowledgement(k: Consumer, token: Token) returns (result: AckResult)
      modifies this`receipts, this`watermarks
      ensures result == AckOutcome(old(Contents()), k, token)
      ensures Contents() == Acknowledge(old(Contents()), k, token)
    {
      var t := Contents();
      if token !in cursors || cursors[token].consumer != k {
        return Refused(NotIssued);
      }
      var c := cursors[token];
      var current := if k in watermarks then watermarks[k] else 0;
      if c.purpose == UnknownPurpose && c.sequence > current {
        return Refused(RefreshRequired);
      }
      if c.sequence > current {
        var targets := ResolveItems(c);
        receipts := AddReceipts(t, k, targets, token);
      }
      watermarks := watermarks[k := Max(current, c.sequence)];
      return Acked(c.sequence > current);
    }
  }

  lemma AckEffect(t: Tables, k: Consumer, token: Token)
    ensures var u, c, result := Acknowledge(t, k, token), t.cursors, AckOutcome(t, k, token);
            && (result == Refused(NotIssued) <==> token !in c || c[token].consumer != k)
            && (result == Refused(RefreshRequired) <==>
                  token in c && c[token].consumer == k && c[token].purpose == UnknownPurpose && c[token].sequence > Watermark(t, k))
            && (result.Refused? ==> u == t)
            && (result.Acked? ==>
                  && (result.advanced <==> c[token].sequence > Watermark(t, k))
                  && (result.advanced <==> Watermark(u, k) > Watermark(t, k))
                  && u.watermarks == t.watermarks[k := if result.advanced then c[token].sequence else Watermark(t, k)]
                  && (!result.advanced ==> u.receipts == t.receipts))
  {
    hide ReceiptTargets, AddReceipts;
  }

  lemma OneMoreItem(t: Tables, c: Cursor, before: set<Delivery>, item: Delivery)
    ensures ReceiptTargets(t, c.(items := before + {item})) ==
              ReceiptTargets(t, c.(items := before)) + ReceiptTargets(t, c.(items := {item}))
    ensures ReceiptTargets(t, c.(items := {item})) ==
              match item
              case Legacy(r) =>
                if c.model == V1 && r in t.v2.aliases && t.v2.aliases[r].logical in t.v2.at
                   && c.sequence >= t.v2.at[t.v2.aliases[r].logical] then {t.v2.aliases[r].logical} else {}
              case Logical(p) => if c.model == V2 && p in t.v2.at then {p} else {}
  {
  }

  /** One new inbox cursor of this consumer, for exactly the items that were returned to it. */
  ghost predicate BoundTo(before: map<Token, Cursor>, after: map<Token, Cursor>, token: Token, k: Consumer, model: Model,
                          items: seq<Delivery>) {
    && token in after && after == before[token := after[token]]
    && after[token].consumer == k && after[token].model == model && after[token].purpose == InboxPage
    && forall d :: d in after[token].items <==> d in items
  }

  /** Within these rows a sequence belongs to one row. */
  ghost predicate OneRowEach(t: Tables, rows: set<Delivery>) {
    forall d, e :: d in rows && e in rows && SequenceOf(t, d) == SequenceOf(t, e) ==> d == e
  }

  ghost predicate InOrder(t: Tables, items: seq<Delivery>) {
    forall i, j :: 0 <= i < j < |items| ==> SequenceOf(t, items[i]) < SequenceOf(t, items[j])
  }

  lemma AppendInOrder(t: Tables, items: seq<Delivery>, row: Delivery)
    requires InOrder(t, items) && forall d :: d in items ==> SequenceOf(t, d) < SequenceOf(t, row)
    ensures InOrder(t, items + [row])
  {
  }

  lemma OneRowPerSequence(t: Tables, legacy: set<Route>, model: Model, principal: Name, above: nat)
    requires DeliveriesOk(t, legacy)
    ensures OneRowEach(t, Unread(t, model, principal, above))
  {
    forall p, q | p in t.v2.at && q in t.v2.at && t.v2.at[p] == t.v2.at[q] ensures p == q {
      assert HasRow(t.v1.at, p, t.v2.at[p]) && HasRow(t.v1.at, q, t.v2.at[q]);
    }
  }

  function Sequences(t: Tables, rows: set<Delivery>): set<nat> {
    set d | d in rows :: SequenceOf(t, d)
  }

  /** The rows whose sequence is in `chosen`. */
  function Chosen(t: Tables, rows: set<Delivery>, chosen: seq<nat>): set<Delivery> {
    set d | d in rows && SequenceOf(t, d) in chosen
  }

  lemma ChosenAre(t: Tables, rows: set<Delivery>, chosen: seq<nat>)
    ensures forall d :: d in Chosen(t, rows, chosen) <==> d in rows && SequenceOf(t, d) in chosen
  {
  }

  lemma PageIs(t: Tables, k: Consumer, model: Model, limit: int)
    ensures var unread := Unread(t, model, k.principal, Watermark(t, k));
            var order := Sorted(Sequences(t, unread));
            var selected := order[..Min(PageLimit(limit), |order|)];
            SelectPage(t, k, model, limit) ==
            Page(k, model, Watermark(t, k),
                 if selected == [] then Watermark(t, k) else Max(Watermark(t, k), selected[|selected| - 1]),
                 Chosen(t, unread, selected))
  {
    hide Unread, SequenceOf;
  }

  lemma SelectedRows(t: Tables, rows: set<Delivery>, size: nat)
    requires size <= |Sorted(Sequences(t, rows))|
    ensures var selected := Sorted(Sequences(t, rows))[..size];
            Ascending(selected) && forall s :: s in selected ==> exists d :: d in rows && SequenceOf(t, d) == s
  {
    hide SequenceOf;
    var order := Sorted(Sequences(t, rows));
    forall s | s in order[..size] ensures exists d :: d in rows && SequenceOf(t, d) == s {
      assert s in order;
    }
  }

  lemma MoreBeyond(t: Tables, k: Consumer, model: Model, limit: int)
    ensures var unread := Unread(t, model, k.principal, Watermark(t, k));
            var order := Sorted(Sequences(t, unread));
            |order| > Min(PageLimit(limit), |order|) <==> exists d :: d in unread && d !in SelectPage(t, k, model, limit).rows
  {
    var unread := Unread(t, model, k.principal, Watermark(t, k));
    var order := Sorted(Sequences(t, unread));
    var size := Min(PageLimit(limit), |order|);
    hide Unread, SequenceOf;
    PageIs(t, k, model, limit);
    if |order| > size {
      assert order[size] in order;
      var d :| d in unread && SequenceOf(t, d) == order[size];
      assert order[size] !in order[..size];
    } else {
      assert order[..size] == order;
    }
  }
}
