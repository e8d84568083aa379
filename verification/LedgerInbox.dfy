/** Draining an inbox: pages are full, and acknowledging one removes exactly its rows from what is unread. */
module LedgerInbox {
  import opened Base
  import opened Notes
  import opened Ledger
  import opened LedgerInvariant
  import opened LedgerRuns
  import opened LedgerStore

  lemma {:induction false} ImageSize(t: Tables, rows: set<Delivery>)
    requires OneRowEach(t, rows)
    ensures |Sequences(t, rows)| == |rows|
    decreases rows
  {
    if rows != {} {
      var d :| d in rows;
      ImageSize(t, rows - {d});
      assert Sequences(t, rows) == Sequences(t, rows - {d}) + {SequenceOf(t, d)};
    }
  }

  function Elements(q: seq<nat>): set<nat> {
    set s | s in q
  }

  lemma {:induction false} PrefixSize(order: seq<nat>, n: nat)
    requires Ascending(order) && n <= |order|
    ensures |Elements(order[..n])| == n
  {
    if n > 0 {
      PrefixSize(order, n - 1);
      assert order[..n] == order[..n - 1] + [order[n - 1]];
      assert Elements(order[..n]) == Elements(order[..n - 1]) + {order[n - 1]};
    }
  }

  lemma ChosenSequences(t: Tables, rows: set<Delivery>, chosen: seq<nat>)
    requires forall s :: s in chosen ==> s in Sequences(t, rows)
    ensures Sequences(t, Chosen(t, rows, chosen)) == Elements(chosen)
  {
    hide SequenceOf;
    forall s | s in chosen
      ensures s in Sequences(t, Chosen(t, rows, chosen))
    {
      var d :| d in rows && SequenceOf(t, d) == s;
      assert d in Chosen(t, rows, chosen);
    }
  }

  lemma PrefixRows(t: Tables, rows: set<Delivery>, size: nat)
    requires OneRowEach(t, rows) && size <= |Sorted(Sequences(t, rows))|
    ensures var order := Sorted(Sequences(t, rows));
            |order| == |rows| && |Chosen(t, rows, order[..size])| == size
  {
    var order := Sorted(Sequences(t, rows));
    assert OneRowEach(t, Chosen(t, rows, order[..size]));
    hide OneRowEach, SequenceOf, Sequences, Chosen;
    ImageSize(t, rows);
    ImageSize(t, Chosen(t, rows, order[..size]));
    PrefixSize(order, size);
    forall s | s in order[..size]
      ensures s in Sequences(t, rows)
    {
      assert s in order;
    }
    ChosenSequences(t, rows, order[..size]);
  }

  /** A page holds as many unread rows as its limit, at least 1 and at most 100, allows. */
  lemma PageIsFull(t: Tables, legacy: set<Route>, k: Consumer, model: Model, limit: int)
    requires DeliveriesOk(t, legacy)
    ensures |SelectPage(t, k, model, limit).rows| ==
            Min(PageLimit(limit), |Unread(t, model, k.principal, Watermark(t, k))|)
    ensures PageLimit(limit) == if limit < 1 then 1 else if limit > 100 then 100 else limit
  {
    hide DeliveriesOk, Unread, SequenceOf, OneRowEach;
    var unread := Unread(t, model, k.principal, Watermark(t, k));
    OneRowPerSequence(t, legacy, model, k.principal, Watermark(t, k));
    PrefixRows(t, unread, Min(PageLimit(limit), |Sorted(Sequences(t, unread))|));
  }

  /** Fetching and acknowledging leaves unread exactly what the page did not return, hidden notes included. */
  lemma AckConsumesThePage(t: Tables, k: Consumer, model: Model, limit: int, visible: set<NoteId>, token: Token)
    requires token !in t.cursors
    ensures var page := SelectPage(t, k, model, limit);
            var after := Acknowledge(IssueCursor(t, page, visible, token), k, token);
            Unread(after, model, k.principal, Watermark(after, k)) ==
            Unread(t, model, k.principal, Watermark(t, k)) - page.rows
  {
    var page := SelectPage(t, k, model, limit);
    PageIsExact(t, k, model, limit);
    var after := Acknowledge(IssueCursor(t, page, visible, token), k, token);
    assert after.v1 == t.v1 && after.v2 == t.v2 && Watermark(after, k) == page.sequence by {
      hide SelectPage, Unread;
    }
    hide SelectPage, Acknowledge, IssueCursor;
    forall d
      ensures d in Unread(after, model, k.principal, page.sequence) <==>
              d in Unread(t, model, k.principal, page.from) && d !in page.rows
    {
      UnreadBeyond(t, model, k.principal, page.from, page.sequence, d);
    }
  }

  lemma UnreadBeyond(t: Tables, model: Model, principal: Name, from: nat, upto: nat, d: Delivery)
    requires from <= upto
    ensures d in Unread(t, model, principal, upto) <==>
              d in Unread(t, model, principal, from) && !InPage(t, model, principal, from, upto, d)
  {
    match d case Legacy(r) => case Logical(p) =>
  }

  // ---------------------------------------------------------------------------------------------
  // The receipts of one fetch and its acknowledgement

  /** A readable delivery of the principal whose sequence the watermark moved over. */
  ghost predicate ReadNow(t: Tables, from: nat, upto: nat, principal: Name, visible: set<NoteId>, p: Pair) {
    p in t.v2.at && p.recipient == principal && p.note in visible && from < t.v2.at[p] <= upto
  }

  /** The same through v1: one of its readable reason rows was moved over, and its own sequence is reached. */
  ghost predicate ReadNowV1(t: Tables, from: nat, upto: nat, principal: Name, visible: set<NoteId>, p: Pair) {
    && p in t.v2.at && p.recipient == principal && p.note in visible && t.v2.at[p] <= upto
    && exists r :: r in t.v1.at && r.Logical() == p && from < t.v1.at[r] <= upto
  }

  /** The cursor that a fetch issues for what it showed. */
  ghost predicate ShowsPage(t: Tables, c: Cursor, k: Consumer, model: Model, visible: set<NoteId>) {
    && c.consumer == k && c.model == model && c.purpose == InboxPage && Watermark(t, k) <= c.sequence
    && forall d :: d in c.items <==> InPage(t, model, k.principal, Watermark(t, k), c.sequence, d) && NoteOf(d) in visible
  }

  lemma FetchShowsPage(t: Tables, k: Consumer, model: Model, limit: int, visible: set<NoteId>, token: Token)
    requires token !in t.cursors
    ensures var u := IssueCursor(t, SelectPage(t, k, model, limit), visible, token);
            && u == t.(cursors := u.cursors) && token in u.cursors && ShowsPage(t, u.cursors[token], k, model, visible)
  {
    PageIsExact(t, k, model, limit);
    hide SelectPage, InPage;
  }

  lemma SamePage(t: Tables, u: Tables, c: Cursor, k: Consumer, model: Model, visible: set<NoteId>)
    requires ShowsPage(t, c, k, model, visible) && u == t.(cursors := u.cursors)
    ensures ShowsPage(u, c, k, model, visible)
  {
    forall d
      ensures InPage(u, model, k.principal, Watermark(t, k), c.sequence, d)
              <==> InPage(t, model, k.principal, Watermark(t, k), c.sequence, d)
    {
    }
  }

  lemma ShownAreTargets(t: Tables, c: Cursor, k: Consumer, model: Model, visible: set<NoteId>, p: Pair)
    requires Complete(t.v1.at, t.v2.at) && Mirror(t.v1.at, t.v2) && ShowsPage(t, c, k, model, visible)
    ensures p in ReceiptTargets(t, c) && p in t.v2.at <==>
              match model
              case V1 => ReadNowV1(t, Watermark(t, k), c.sequence, k.principal, visible, p)
              case V2 => ReadNow(t, Watermark(t, k), c.sequence, k.principal, visible, p)
  {
    match model
    case V1 =>
      if ReadNowV1(t, Watermark(t, k), c.sequence, k.principal, visible, p) {
        var r :| r in t.v1.at && r.Logical() == p && Watermark(t, k) < t.v1.at[r] <= c.sequence;
        assert Legacy(r) in c.items && Legacy(r).route in t.v2.aliases;
      }
    case V2 =>
      if ReadNow(t, Watermark(t, k), c.sequence, k.principal, visible, p) {
        assert Logical(p) in c.items && Logical(p).pair == p;
      }
  }

  lemma AckAdds(t: Tables, k: Consumer, token: Token, j: Consumer, p: Pair)
    requires token in t.cursors && t.cursors[token].consumer == k && t.cursors[token].purpose == InboxPage
    ensures var c, u := t.cursors[token], Acknowledge(t, k, token);
            && Watermark(u, k) == Max(Watermark(t, k), c.sequence) && u.v1 == t.v1 && u.v2 == t.v2
            && ((j, p) in t.receipts ==> (j, p) in u.receipts && u.receipts[(j, p)] == t.receipts[(j, p)])
            && ((j, p) !in t.receipts ==>
                  ((j, p) in u.receipts <==>
                     j == k && c.sequence > Watermark(t, k) && p in ReceiptTargets(t, c) && p in t.v2.at)
                  && ((j, p) in u.receipts ==> u.receipts[(j, p)] == Receipt(t.v2.at[p], token)))
  {
    hide ReceiptTargets;
  }

  /**
   * Fetching a page and acknowledging it writes the receipts of exactly what was read: under v2 of each readable delivery
   * that was unread and that the watermark now covers, under v1 of each with a readable reason row of that kind whose own
   * sequence is covered. Receipts that were there stay as they were.
   */
  lemma ReadingWritesReceipts(t: Tables, legacy: set<Route>, k: Consumer, model: Model, limit: int, visit: Visit,
                              j: Consumer, p: Pair)
    requires DeliveriesOk(t, legacy) && visit.token !in t.cursors
    ensures var u := Round(t, k, model, limit, visit);
            && ((j, p) in t.receipts ==> (j, p) in u.receipts && u.receipts[(j, p)] == t.receipts[(j, p)])
            && ((j, p) !in t.receipts ==>
                  ((j, p) in u.receipts <==>
                     j == k &&
                     match model
                     case V1 => ReadNowV1(t, Watermark(t, k), Watermark(u, k), k.principal, visit.visible, p)
                     case V2 => ReadNow(t, Watermark(t, k), Watermark(u, k), k.principal, visit.visible, p))
                  && ((j, p) in u.receipts ==> u.receipts[(j, p)] == Receipt(t.v2.at[p], visit.token)))
  {
    var issued := IssueCursor(t, SelectPage(t, k, model, limit), visit.visible, visit.token);
    FetchShowsPage(t, k, model, limit, visit.visible, visit.token);
    assert Complete(t.v1.at, t.v2.at) && Mirror(t.v1.at, t.v2);
    hide SelectPage, IssueCursor, DeliveriesOk, Complete, Mirror, Acknowledge, ReadNow, ReadNowV1;
    AckWritesReceipts(t, issued, k, model, visit, j, p);
  }

  lemma AckWritesReceipts(t: Tables, issued: Tables, k: Consumer, model: Model, visit: Visit, j: Consumer, p: Pair)
    requires Complete(t.v1.at, t.v2.at) && Mirror(t.v1.at, t.v2)
    requires issued == t.(cursors := issued.cursors) && visit.token in issued.cursors
    requires ShowsPage(t, issued.cursors[visit.token], k, model, visit.visible)
    ensures var u := Acknowledge(issued, k, visit.token);
            && ((j, p) in t.receipts ==> (j, p) in u.receipts && u.receipts[(j, p)] == t.receipts[(j, p)])
            && ((j, p) !in t.receipts ==>
                  ((j, p) in u.receipts <==>
                     j == k &&
                     match model
                     case V1 => ReadNowV1(t, Watermark(t, k), Watermark(u, k), k.principal, visit.visible, p)
                     case V2 => ReadNow(t, Watermark(t, k), Watermark(u, k), k.principal, visit.visible, p))
                  && ((j, p) in u.receipts ==> u.receipts[(j, p)] == Receipt(t.v2.at[p], visit.token)))
  {
    var c := issued.cursors[visit.token];
    SamePage(t, issued, c, k, model, visit.visible);
    ShownAreTargets(issued, c, k, model, visit.visible, p);
    AckAdds(issued, k, visit.token, j, p);
    hide Acknowledge, ReceiptTargets, Complete, Mirror, InPage;
  }

  // ---------------------------------------------------------------------------------------------
  // Fetching and acknowledging again and again

  // What varies from one round to the next: the notes the reader can see, and the new cursor.
  datatype Visit = Visit(visible: set<NoteId>, token: Token)

  function Round(t: Tables, k: Consumer, model: Model, limit: int, visit: Visit): Tables {
    Acknowledge(IssueCursor(t, SelectPage(t, k, model, limit), visit.visible, visit.token), k, visit.token)
  }

  function Rounds(t: Tables, k: Consumer, model: Model, limit: int, visits: seq<Visit>): Tables {
    if visits == [] then t
    else Round(Rounds(t, k, model, limit, visits[..|visits| - 1]), k, model, limit, visits[|visits| - 1])
  }

  function UnreadOf(t: Tables, k: Consumer, model: Model): set<Delivery> {
    Unread(t, model, k.principal, Watermark(t, k))
  }

  /** Every round uses a token that was not issued before. */
  ghost predicate NewTokens(t: Tables, visits: seq<Visit>) {
    && (forall i :: 0 <= i < |visits| ==> visits[i].token !in t.cursors)
    && (forall i, j :: 0 <= i < j < |visits| ==> visits[i].token != visits[j].token)
  }

  lemma RoundKeeps(t: Tables, legacy: set<Route>, k: Consumer, model: Model, limit: int, visit: Visit)
    requires DeliveriesOk(t, legacy)
    ensures DeliveriesOk(Round(t, k, model, limit, visit), legacy)
    ensures Round(t, k, model, limit, visit).cursors.Keys <= t.cursors.Keys + {visit.token}
  {
    hide DeliveriesOk, SelectPage, ReceiptTargets, AddReceipts;
    FetchDeliveries(t, legacy, k, model, limit, visit.visible, visit.token);
    AcknowledgeDeliveries(IssueCursor(t, SelectPage(t, k, model, limit), visit.visible, visit.token), legacy, k, visit.token);
  }

  lemma PageIsUnread(t: Tables, k: Consumer, model: Model, limit: int)
    ensures SelectPage(t, k, model, limit).rows <= UnreadOf(t, k, model)
  {
    hide Unread, SequenceOf;
  }

  /** One round removes as many unread rows as its limit allows. */
  lemma RoundRemoves(t: Tables, legacy: set<Route>, k: Consumer, model: Model, limit: int, visit: Visit)
    requires DeliveriesOk(t, legacy) && visit.token !in t.cursors
    ensures UnreadOf(Round(t, k, model, limit, visit), k, model) <= UnreadOf(t, k, model)
    ensures |UnreadOf(Round(t, k, model, limit, visit), k, model)| == Max(0, |UnreadOf(t, k, model)| - PageLimit(limit))
  {
    var rows := SelectPage(t, k, model, limit).rows;
    PageIsUnread(t, k, model, limit);
    hide DeliveriesOk, SelectPage, Unread, Acknowledge, IssueCursor, Watermark, PageLimit;
    PageIsFull(t, legacy, k, model, limit);
    AckConsumesThePage(t, k, model, limit, visit.visible, visit.token);
    assert |UnreadOf(t, k, model) - rows| == |UnreadOf(t, k, model)| - |rows|;
  }

  lemma {:induction false} RoundsKeep(t: Tables, legacy: set<Route>, k: Consumer, model: Model, limit: int, visits: seq<Visit>)
    requires DeliveriesOk(t, legacy)
    ensures DeliveriesOk(Rounds(t, k, model, limit, visits), legacy)
    ensures forall token :: token in Rounds(t, k, model, limit, visits).cursors ==>
              token in t.cursors || exists i :: 0 <= i < |visits| && visits[i].token == token
  {
    hide DeliveriesOk, Round;
    if visits != [] {
      var n := |visits| - 1;
      var before := Rounds(t, k, model, limit, visits[..n]);
      RoundsKeep(t, legacy, k, model, limit, visits[..n]);
      RoundKeeps(before, legacy, k, model, limit, visits[n]);
      forall token | token in Rounds(t, k, model, limit, visits).cursors
        ensures token in t.cursors || exists i :: 0 <= i < |visits| && visits[i].token == token
      {
        if token in before.cursors && token !in t.cursors {
          var i :| 0 <= i < n && visits[..n][i].token == token;
          assert visits[i].token == token;
        } else if token !in before.cursors {
          assert visits[n].token == token;
        }
      }
    }
  }

  lemma {:induction false} RoundsRemove(t: Tables, legacy: set<Route>, k: Consumer, model: Model, limit: int, visits: seq<Visit>)
    requires DeliveriesOk(t, legacy) && NewTokens(t, visits)
    ensures UnreadOf(Rounds(t, k, model, limit, visits), k, model) <= UnreadOf(t, k, model)
    ensures |UnreadOf(Rounds(t, k, model, limit, visits), k, model)| ==
            Max(0, |UnreadOf(t, k, model)| - |visits| * PageLimit(limit))
  {
    hide DeliveriesOk, Round, UnreadOf, PageLimit;
    if visits != [] {
      var n := |visits| - 1;
      var before := Rounds(t, k, model, limit, visits[..n]);
      RoundsRemove(t, legacy, k, model, limit, visits[..n]);
      RoundsKeep(t, legacy, k, model, limit, visits[..n]);
      assert visits[n].token !in before.cursors;
      RoundRemoves(before, legacy, k, model, limit, visits[n]);
      assert PageLimit(limit) >= 1 by { PageLimitPositive(limit); }
      assert |visits| * PageLimit(limit) == n * PageLimit(limit) + PageLimit(limit);
    }
  }

  lemma PageLimitPositive(limit: int)
    ensures 1 <= PageLimit(limit) <= 100
  {
  }

  /**
   * Repeated fetches drain an inbox, whatever each of them may see: every round removes a full page of what was unread,
   * so that enough rounds leave nothing, and one row a round is the least.
   */
  lemma InboxDrains(t: Tables, legacy: set<Route>, k: Consumer, model: Model, limit: int, visits: seq<Visit>)
    requires DeliveriesOk(t, legacy) && NewTokens(t, visits)
    ensures UnreadOf(Rounds(t, k, model, limit, visits), k, model) == {} <==>
              |UnreadOf(t, k, model)| <= |visits| * PageLimit(limit)
    ensures |UnreadOf(t, k, model)| <= |visits| ==> UnreadOf(Rounds(t, k, model, limit, visits), k, model) == {}
  {
    hide DeliveriesOk, Rounds, UnreadOf, PageLimit;
    RoundsRemove(t, legacy, k, model, limit, visits);
    PageLimitPositive(limit);
    assert |visits| <= |visits| * PageLimit(limit);
  }
}
