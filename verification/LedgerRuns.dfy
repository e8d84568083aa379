/**
 * Runs of the ledger: any number of readers and writers, with restarts anywhere. A page read and the cursor issued
 * for it are two steps, so that generations, acknowledgements and other pages may come between them.
 */
module LedgerRuns {
  import opened Base
  import opened Notes
  import opened Ledger
  import opened LedgerInvariant
  import opened LedgerMigration

  // `pages` are read but perhaps not yet issued; `acked` is history: the cursors acknowledged so far.
  datatype Run = Run(t: Tables, pages: set<Page>, acked: set<Token>)

  datatype Step =
    | Evaluate(note: Note, gap: nat)
    | Read(consumer: Consumer, model: Model, limit: int)
    | Issue(page: Page, visible: set<NoteId>, token: Token)
    | Ack(consumer: Consumer, token: Token)
    | Restart(groups: seq<Pair>)

  ghost function Next(run: Run, step: Step): Run {
    match step
    case Evaluate(note, gap) => run.(t := Generate(run.t, note, gap))
    case Read(k, model, limit) => run.(pages := run.pages + {SelectPage(run.t, k, model, limit)})
    case Issue(page, visible, token) =>
      if page in run.pages then run.(t := IssueCursor(run.t, page, visible, token)) else run
    case Ack(k, token) =>
      run.(t := Acknowledge(run.t, k, token),
           acked := if AckOutcome(run.t, k, token).Acked? then run.acked + {token} else run.acked)
    case Restart(groups) =>
      if Enumerates(groups, run.t.v1.at) then Run(Backfill(run.t, groups), {}, run.acked) else run
  }

  ghost function Execute(run: Run, steps: seq<Step>): Run {
    if steps == [] then run else Next(Execute(run, steps[..|steps| - 1]), steps[|steps| - 1])
  }

  /** The first start of version 4 on a version 3 database, which may be empty. */
  ghost function Start(v3: Tables, groups: seq<Pair>): Run {
    Run(Backfill(v3, groups), {}, {})
  }

  // ---------------------------------------------------------------------------------------------
  // The invariant of runs

  /** A row of the model's table for this principal with its sequence in (from, upto]. */
  ghost predicate InPage(t: Tables, model: Model, principal: Name, from: nat, upto: nat, d: Delivery) {
    match d
    case Legacy(r) => model == V1 && r in t.v1.at && r.recipient == principal && from < t.v1.at[r] <= upto
    case Logical(p) => model == V2 && p in t.v2.at && p.recipient == principal && from < t.v2.at[p] <= upto
  }

  /** These rows are all the rows in (from, upto], now and at the time they were read. */
  ghost predicate Exact(t: Tables, model: Model, principal: Name, from: nat, upto: nat, rows: set<Delivery>) {
    forall d :: d in rows <==> InPage(t, model, principal, from, upto, d)
  }

  ghost predicate PageOk(t: Tables, page: Page) {
    && page.from <= Watermark(t, page.consumer)
    && page.sequence <= t.v1.top && page.sequence <= t.highWater
    && Exact(t, page.model, page.consumer.principal, page.from, page.sequence, page.rows)
  }

  ghost predicate CursorOk(t: Tables, c: Cursor) {
    c.purpose == InboxPage ==>
      && c.from <= Watermark(t, c.consumer)
      && c.sequence <= t.v1.top
      && c.items <= c.scanned
      && Exact(t, c.model, c.consumer.principal, c.from, c.sequence, c.scanned)
  }

  /** The page behind the cursor returned the logical delivery, as itself or as the v1 row that carries its sequence. */
  ghost predicate Scanned(t: Tables, c: Cursor, p: Pair) {
    match c.model
    case V1 => exists r :: r in t.v1.at && Legacy(r) in c.scanned && r.Logical() == p && p in t.v2.at && t.v1.at[r] == t.v2.at[p]
    case V2 => Logical(p) in c.scanned
  }

  /** The page behind the cursor showed the logical delivery, as itself or as one of its v1 rows. */
  ghost predicate Shown(c: Cursor, p: Pair) {
    match c.model
    case V1 => exists r :: Legacy(r) in c.items && r.Logical() == p
    case V2 => Logical(p) in c.items
  }

  /** Some page this consumer acknowledged returned the delivery. */
  ghost predicate Covered(run: Run, k: Consumer, p: Pair) {
    exists c :: c in run.acked && c in run.t.cursors && run.t.cursors[c].consumer == k && Scanned(run.t, run.t.cursors[c], p)
  }

  ghost predicate NoGapFor(run: Run, base: map<Consumer, nat>, k: Consumer) {
    forall p :: p in run.t.v2.at && p.recipient == k.principal && run.t.v2.at[p] <= Watermark(run.t, k) ==>
      (k in base && run.t.v2.at[p] <= base[k]) || Covered(run, k, p)
  }

  /** A receipt belongs to a delivery of that principal, read, and shown on a page this consumer acknowledged. */
  ghost predicate ReceiptOk(run: Run, k: Consumer, p: Pair, receipt: Receipt) {
    && p in run.t.v2.at && p.recipient == k.principal
    && receipt.sequence == run.t.v2.at[p] <= Watermark(run.t, k)
    && receipt.token in run.acked && receipt.token in run.t.cursors
    && run.t.cursors[receipt.token].consumer == k && Shown(run.t.cursors[receipt.token], p)
  }

  ghost predicate ReceiptsOk(run: Run) {
    forall k, p :: (k, p) in run.t.receipts ==> ReceiptOk(run, k, p, run.t.receipts[(k, p)])
  }

  ghost predicate ReadersOk(run: Run) {
    && (forall k :: k in run.t.watermarks ==> run.t.watermarks[k] <= run.t.v1.top)
    && (forall page :: page in run.pages ==> PageOk(run.t, page))
    && (forall c :: c in run.t.cursors ==> CursorOk(run.t, run.t.cursors[c]))
  }

  ghost predicate RunOk(run: Run, v3: Tables) {
    && DeliveriesOk(run.t, v3.v1.at.Keys)
    && ReadersOk(run)
    && (forall k :: NoGapFor(run, v3.watermarks, k))
    && ReceiptsOk(run)
  }

  // ---------------------------------------------------------------------------------------------
  // Reading a page

  /** The prefix of an ascending list up to a bound on its length is everything up to its last member. */
  lemma PrefixUpTo(q: seq<nat>, n: nat, x: nat)
    requires Ascending(q) && 0 < n <= |q|
    ensures x in q[..n] <==> x in q && x <= q[n - 1]
  {
    if x in q && x <= q[n - 1] {
      var i :| 0 <= i < |q| && q[i] == x;
      assert i < n;
      assert q[..n][i] == x;
    }
  }

  lemma UnreadIs(t: Tables, model: Model, principal: Name, above: nat, upto: nat, d: Delivery)
    ensures (d in Unread(t, model, principal, above) && SequenceOf(t, d) <= upto) <==>
              InPage(t, model, principal, above, upto, d)
    ensures d in Unread(t, model, principal, above) ==> above < SequenceOf(t, d)
  {
    match d case Legacy(r) => case Logical(p) =>
  }

  /** A page returns every unread row of the principal up to the position it reports: a LIMIT leaves no hole. */
  lemma PageIsExact(t: Tables, k: Consumer, model: Model, limit: int)
    ensures var page := SelectPage(t, k, model, limit);
            && page.consumer == k && page.model == model
            && page.from == Watermark(t, k) <= page.sequence
            && Exact(t, model, k.principal, page.from, page.sequence, page.rows)
  {
    var page := SelectPage(t, k, model, limit);
    var unread := Unread(t, model, k.principal, page.from);
    var order := Sorted(set d | d in unread :: SequenceOf(t, d));
    var size := Min(PageLimit(limit), |order|);
    hide Unread, SequenceOf, InPage;
    forall d ensures d in page.rows <==> InPage(t, model, k.principal, page.from, page.sequence, d) {
      UnreadIs(t, model, k.principal, page.from, page.sequence, d);
      if d in unread {
        assert SequenceOf(t, d) in order;
        if size > 0 { PrefixUpTo(order, size, SequenceOf(t, d)); }
      }
    }
  }

  lemma PageSequence(t: Tables, k: Consumer, model: Model, limit: int)
    ensures var page := SelectPage(t, k, model, limit);
            page.sequence == Watermark(t, k) ||
            exists d :: d in Unread(t, model, k.principal, Watermark(t, k)) && SequenceOf(t, d) == page.sequence
  {
    var unread := Unread(t, model, k.principal, Watermark(t, k));
    var order := Sorted(set d | d in unread :: SequenceOf(t, d));
    var selected := order[..Min(PageLimit(limit), |order|)];
    if selected != [] {
      assert selected[|selected| - 1] in order;
    }
  }

  lemma SequenceWithin(t: Tables, d: Delivery)
    requires RowsOk(t.v1) && OwnSequence(t.v1.at, t.v2.at) && Bounded(t, t.highWater)
    ensures SequenceOf(t, d) <= t.v1.top && SequenceOf(t, d) <= t.highWater
  {
    LogicalBelowTop(t.v1, t.v2.at);
    match d case Legacy(r) => case Logical(p) =>
  }

  lemma PageWithin(t: Tables, k: Consumer, model: Model, limit: int)
    requires RowsOk(t.v1) && OwnSequence(t.v1.at, t.v2.at) && Bounded(t, t.highWater)
    requires k in t.watermarks ==> t.watermarks[k] <= t.v1.top
    ensures SelectPage(t, k, model, limit).sequence <= t.v1.top
    ensures SelectPage(t, k, model, limit).sequence <= t.highWater
  {
    var page := SelectPage(t, k, model, limit);
    PageSequence(t, k, model, limit);
    if d :| d in Unread(t, model, k.principal, Watermark(t, k)) && SequenceOf(t, d) == page.sequence {
      SequenceWithin(t, d);
    }
  }

  // ---------------------------------------------------------------------------------------------
  // Steps that add rows

  /** Tables after rows were added above `top` and nothing else was touched but routes and high water. */
  ghost predicate RowsAdded(t: Tables, u: Tables) {
    && u.watermarks == t.watermarks && u.cursors == t.cursors && u.receipts == t.receipts
    && t.v1.top <= u.v1.top && t.highWater <= u.highWater
    && (forall r :: r in t.v1.at ==> r in u.v1.at && u.v1.at[r] == t.v1.at[r])
    && (forall r :: r in u.v1.at && r !in t.v1.at ==> t.v1.top < u.v1.at[r])
    && (forall p :: p in t.v2.at ==> p in u.v2.at && u.v2.at[p] == t.v2.at[p])
    && (forall p :: p in u.v2.at && p !in t.v2.at ==> t.v1.top < u.v2.at[p])
  }

  /** No row is later born inside an interval that a page has covered. */
  lemma ExactStays(t: Tables, u: Tables, model: Model, principal: Name, from: nat, upto: nat, rows: set<Delivery>)
    requires RowsAdded(t, u) && upto <= t.v1.top && Exact(t, model, principal, from, upto, rows)
    ensures Exact(u, model, principal, from, upto, rows)
  {
    forall d ensures InPage(u, model, principal, from, upto, d) <==> InPage(t, model, principal, from, upto, d) {
      match d case Legacy(r) => case Logical(p) =>
    }
  }

  lemma ReadersStay(run: Run, u: Tables)
    requires ReadersOk(run) && RowsAdded(run.t, u)
    ensures ReadersOk(run.(t := u))
  {
    var t := run.t;
    forall page | page in run.pages ensures PageOk(u, page) {
      ExactStays(t, u, page.model, page.consumer.principal, page.from, page.sequence, page.rows);
    }
    forall c | c in u.cursors ensures CursorOk(u, u.cursors[c]) {
      var x := u.cursors[c];
      assert CursorOk(t, x);
      if x.purpose == InboxPage {
        ExactStays(t, u, x.model, x.consumer.principal, x.from, x.sequence, x.scanned);
      }
    }
  }

  lemma CoveredStays(run: Run, u: Tables, k: Consumer, p: Pair)
    requires RowsAdded(run.t, u) && p in run.t.v2.at && Covered(run, k, p)
    ensures Covered(run.(t := u), k, p)
  {
    var c :| c in run.acked && c in run.t.cursors && run.t.cursors[c].consumer == k && Scanned(run.t, run.t.cursors[c], p);
    assert Scanned(u, u.cursors[c], p);
  }

  lemma NoGapStays(run: Run, u: Tables, base: map<Consumer, nat>, k: Consumer)
    requires ReadersOk(run) && RowsAdded(run.t, u) && NoGapFor(run, base, k)
    ensures NoGapFor(run.(t := u), base, k)
  {
    forall p | p in u.v2.at && p.recipient == k.principal && u.v2.at[p] <= Watermark(u, k) && !(k in base && u.v2.at[p] <= base[k])
      ensures Covered(run.(t := u), k, p)
    {
      assert p in run.t.v2.at;
      CoveredStays(run, u, k, p);
    }
  }

  lemma ReceiptsStay(run: Run, u: Tables)
    requires RowsAdded(run.t, u) && ReceiptsOk(run)
    ensures ReceiptsOk(run.(t := u))
  {
    forall k, p | (k, p) in u.receipts ensures ReceiptOk(run.(t := u), k, p, u.receipts[(k, p)]) {
      assert ReceiptOk(run, k, p, run.t.receipts[(k, p)]);
    }
  }

  lemma EvaluateAddsRows(t: Tables, legacy: set<Route>, note: Note, gap: nat)
    requires DeliveriesOk(t, legacy)
    ensures RowsAdded(t, Generate(t, note, gap))
  {
    GenerateFiles(t, legacy, note, gap);
  }

  lemma EvaluateKeeps(run: Run, v3: Tables, note: Note, gap: nat)
    requires RunOk(run, v3)
    ensures RunOk(Next(run, Evaluate(note, gap)), v3)
  {
    var u := Generate(run.t, note, gap);
    GenerateKeeps(run.t, v3.v1.at.Keys, note, gap);
    EvaluateAddsRows(run.t, v3.v1.at.Keys, note, gap);
    ReadersStay(run, u);
    forall k ensures NoGapFor(run.(t := u), v3.watermarks, k) {
      NoGapStays(run, u, v3.watermarks, k);
    }
    ReceiptsStay(run, u);
  }

  // ---------------------------------------------------------------------------------------------
  // Reading, issuing, restarting

  /** Nothing that deliveries, watermarks and receipts say has changed, and no cursor is forgotten. */
  ghost predicate SameView(run: Run, next: Run) {
    && next.t.v1 == run.t.v1 && next.t.v2 == run.t.v2
    && next.t.watermarks == run.t.watermarks && next.t.receipts == run.t.receipts && next.acked == run.acked
    && (forall c :: c in run.t.cursors ==> c in next.t.cursors && next.t.cursors[c] == run.t.cursors[c])
  }

  lemma SameCovered(run: Run, next: Run, k: Consumer, p: Pair)
    requires SameView(run, next) && Covered(run, k, p)
    ensures Covered(next, k, p)
  {
    var c :| c in run.acked && c in run.t.cursors && run.t.cursors[c].consumer == k && Scanned(run.t, run.t.cursors[c], p);
    assert Scanned(next.t, next.t.cursors[c], p);
  }

  lemma SameNoGap(run: Run, next: Run, base: map<Consumer, nat>)
    requires SameView(run, next) && forall k :: NoGapFor(run, base, k)
    ensures forall k :: NoGapFor(next, base, k)
  {
    forall k ensures NoGapFor(next, base, k) {
      assert NoGapFor(run, base, k);
      forall p | Covered(run, k, p) ensures Covered(next, k, p) {
        SameCovered(run, next, k, p);
      }
    }
  }

  lemma SameReceipts(run: Run, next: Run)
    requires SameView(run, next) && ReceiptsOk(run)
    ensures ReceiptsOk(next)
  {
    forall k, p | (k, p) in next.t.receipts ensures ReceiptOk(next, k, p, next.t.receipts[(k, p)]) {
      assert ReceiptOk(run, k, p, run.t.receipts[(k, p)]);
    }
  }

  lemma ReadKeeps(run: Run, v3: Tables, k: Consumer, model: Model, limit: int)
    requires RunOk(run, v3)
    ensures RunOk(Next(run, Read(k, model, limit)), v3)
  {
    PageIsExact(run.t, k, model, limit);
    PageWithin(run.t, k, model, limit);
    SameNoGap(run, Next(run, Read(k, model, limit)), v3.watermarks);
    SameReceipts(run, Next(run, Read(k, model, limit)));
  }

  lemma IssueReaders(run: Run, page: Page, visible: set<NoteId>, token: Token)
    requires ReadersOk(run) && page in run.pages
    ensures ReadersOk(run.(t := IssueCursor(run.t, page, visible, token)))
  {
    var u := IssueCursor(run.t, page, visible, token);
    assert PageOk(run.t, page);
    forall model, principal, from: nat, upto: nat, rows | Exact(run.t, model, principal, from, upto, rows)
      ensures Exact(u, model, principal, from, upto, rows)
    {
      assert forall d :: InPage(u, model, principal, from, upto, d) <==> InPage(run.t, model, principal, from, upto, d);
    }
    forall other | other in run.pages ensures PageOk(u, other) {
      assert PageOk(run.t, other);
    }
    forall c | c in u.cursors ensures CursorOk(u, u.cursors[c]) {
      if c in run.t.cursors { assert CursorOk(run.t, run.t.cursors[c]); }
    }
  }

  /** A cursor is bound to what its page showed: the readable deliveries between the page's two positions, and no others. */
  lemma IssuedIsShown(run: Run, v3: Tables, page: Page, visible: set<NoteId>, token: Token, d: Delivery)
    requires RunOk(run, v3) && page in run.pages && token !in run.t.cursors
    ensures var cursors := Next(run, Issue(page, visible, token)).t.cursors;
            && token in cursors && cursors == run.t.cursors[token := cursors[token]]
            && cursors[token].consumer == page.consumer && cursors[token].sequence == page.sequence
            && cursors[token].model == page.model && cursors[token].purpose == InboxPage
            && (d in cursors[token].items <==>
                  InPage(run.t, page.model, page.consumer.principal, page.from, page.sequence, d) && NoteOf(d) in visible)
  {
    assert PageOk(run.t, page);
  }

  lemma IssueDeliveries(t: Tables, legacy: set<Route>, page: Page, visible: set<NoteId>, token: Token)
    requires DeliveriesOk(t, legacy) && page.sequence <= t.highWater
    ensures DeliveriesOk(IssueCursor(t, page, visible, token), legacy)
  {
    hide RowsOk, Complete, OwnSequence, Mirror, BornMax, Routed;
  }

  /** Issuing the cursor of the page just selected keeps the tables consistent. */
  lemma FetchDeliveries(t: Tables, legacy: set<Route>, k: Consumer, model: Model, limit: int, visible: set<NoteId>, token: Token)
    requires DeliveriesOk(t, legacy)
    ensures DeliveriesOk(IssueCursor(t, SelectPage(t, k, model, limit), visible, token), legacy)
  {
    var page := SelectPage(t, k, model, limit);
    PageSequence(t, k, model, limit);
    hide SelectPage, Unread, SequenceOf, IssueCursor, Complete, Mirror, BornMax, Routed;
    if d :| d in Unread(t, model, k.principal, Watermark(t, k)) && SequenceOf(t, d) == page.sequence {
      SequenceWithin(t, d);
    }
    IssueDeliveries(t, legacy, page, visible, token);
  }

  lemma AcknowledgeDeliveries(t: Tables, legacy: set<Route>, k: Consumer, token: Token)
    requires DeliveriesOk(t, legacy)
    ensures DeliveriesOk(Acknowledge(t, k, token), legacy)
  {
    hide RowsOk, Complete, OwnSequence, Mirror, BornMax, Routed, ReceiptTargets, AddReceipts;
  }

  lemma IssueView(run: Run, page: Page, visible: set<NoteId>, token: Token)
    ensures SameView(run, run.(t := IssueCursor(run.t, page, visible, token)))
  {
  }

  lemma IssueKeeps(run: Run, v3: Tables, page: Page, visible: set<NoteId>, token: Token)
    requires RunOk(run, v3)
    ensures RunOk(Next(run, Issue(page, visible, token)), v3)
  {
    if page in run.pages {
      var next := run.(t := IssueCursor(run.t, page, visible, token));
      assert next == Next(run, Issue(page, visible, token));
      assert PageOk(run.t, page);
      IssueReaders(run, page, visible, token);
      IssueDeliveries(run.t, v3.v1.at.Keys, page, visible, token);
      IssueView(run, page, visible, token);
      SameNoGap(run, next, v3.watermarks);
      SameReceipts(run, next);
    }
  }

  lemma RestartKeeps(run: Run, v3: Tables, groups: seq<Pair>)
    requires RunOk(run, v3)
    ensures Next(run, Restart(groups)).t == run.t
    ensures RunOk(Next(run, Restart(groups)), v3)
  {
    if Enumerates(groups, run.t.v1.at) {
      BackfillChangesNothing(run.t, v3.v1.at.Keys, groups);
      SameNoGap(run, Next(run, Restart(groups)), v3.watermarks);
      SameReceipts(run, Next(run, Restart(groups)));
    }
  }

  // ---------------------------------------------------------------------------------------------
  // Acknowledging

  /** An advancing acknowledgement covers exactly the gap it closes. */
  lemma AckScans(t: Tables, k: Consumer, c: Cursor, p: Pair)
    requires OwnSequence(t.v1.at, t.v2.at) && CursorOk(t, c) && c.purpose == InboxPage && c.consumer == k
    requires p in t.v2.at && p.recipient == k.principal && Watermark(t, k) < t.v2.at[p] <= c.sequence
    ensures Scanned(t, c, p)
  {
    match c.model
    case V1 =>
      assert HasRow(t.v1.at, p, t.v2.at[p]);
      var r :| r in t.v1.at && r.Logical() == p && t.v1.at[r] == t.v2.at[p];
      assert InPage(t, c.model, k.principal, c.from, c.sequence, Legacy(r));
    case V2 =>
      assert InPage(t, c.model, k.principal, c.from, c.sequence, Logical(p));
  }

  lemma AckNoGap(run: Run, v3: Tables, k: Consumer, token: Token, j: Consumer)
    requires OwnSequence(run.t.v1.at, run.t.v2.at) && ReadersOk(run) && NoGapFor(run, v3.watermarks, j)
    requires AckOutcome(run.t, k, token).Acked?
    ensures NoGapFor(Next(run, Ack(k, token)), v3.watermarks, j)
  {
    var t, next := run.t, Next(run, Ack(k, token));
    var c := t.cursors[token];
    forall p | p in t.v2.at && p.recipient == j.principal && t.v2.at[p] <= Watermark(next.t, j)
               && !(j in v3.watermarks && t.v2.at[p] <= v3.watermarks[j])
      ensures Covered(next, j, p)
    {
      if t.v2.at[p] <= Watermark(t, j) {
        var x :| x in run.acked && x in t.cursors && t.cursors[x].consumer == j && Scanned(t, t.cursors[x], p);
        assert x in next.acked && Scanned(next.t, next.t.cursors[x], p);
      } else {
        assert j == k;
        AckScans(t, k, c, p);
        assert token in next.acked && Scanned(next.t, next.t.cursors[token], p);
      }
    }
  }

  lemma AckReaders(run: Run, k: Consumer, token: Token)
    requires ReadersOk(run) && AckOutcome(run.t, k, token).Acked?
    ensures ReadersOk(Next(run, Ack(k, token)))
  {
    var t, u := run.t, Acknowledge(run.t, k, token);
    assert CursorOk(t, t.cursors[token]);
    assert forall j :: Watermark(t, j) <= Watermark(u, j);
    forall model, principal, from: nat, upto: nat, rows | Exact(t, model, principal, from, upto, rows)
      ensures Exact(u, model, principal, from, upto, rows)
    {
      assert forall d :: InPage(u, model, principal, from, upto, d) <==> InPage(t, model, principal, from, upto, d);
    }
    forall page | page in run.pages ensures PageOk(u, page) {
      assert PageOk(t, page);
    }
    forall c | c in u.cursors ensures CursorOk(u, u.cursors[c]) {
      assert CursorOk(t, t.cursors[c]);
    }
  }

  /** What a new receipt is for: a delivery of this principal, within the cursor, shown on its page. */
  lemma ReceiptTargetIs(t: Tables, c: Cursor, p: Pair)
    requires Mirror(t.v1.at, t.v2) && CursorOk(t, c) && c.purpose == InboxPage && p in ReceiptTargets(t, c)
    ensures p in t.v2.at && p.recipient == c.consumer.principal && t.v2.at[p] <= c.sequence && Shown(c, p)
  {
    match c.model
    case V1 =>
      var d :| d in c.items && d.Legacy? && d.route in t.v2.aliases && t.v2.aliases[d.route].logical == p;
      assert InPage(t, c.model, c.consumer.principal, c.from, c.sequence, d);
      assert d == Legacy(d.route) && d.route.Logical() == p;
    case V2 =>
      var d :| d in c.items && d.Logical? && d.pair == p;
      assert d == Logical(p);
      assert InPage(t, c.model, c.consumer.principal, c.from, c.sequence, d);
  }

  lemma AckReceipts(run: Run, k: Consumer, token: Token)
    requires Mirror(run.t.v1.at, run.t.v2) && ReadersOk(run) && ReceiptsOk(run) && AckOutcome(run.t, k, token).Acked?
    ensures ReceiptsOk(Next(run, Ack(k, token)))
  {
    var t, next := run.t, Next(run, Ack(k, token));
    assert forall j :: Watermark(t, j) <= Watermark(next.t, j);
    forall j, p | (j, p) in next.t.receipts ensures ReceiptOk(next, j, p, next.t.receipts[(j, p)]) {
      if (j, p) in t.receipts {
        assert ReceiptOk(run, j, p, t.receipts[(j, p)]);
      } else {
        assert CursorOk(t, t.cursors[token]);
        ReceiptTargetIs(t, t.cursors[token], p);
      }
    }
  }

  lemma AckKeeps(run: Run, v3: Tables, k: Consumer, token: Token)
    requires RunOk(run, v3)
    ensures RunOk(Next(run, Ack(k, token)), v3)
  {
    if AckOutcome(run.t, k, token).Acked? {
      forall j ensures NoGapFor(Next(run, Ack(k, token)), v3.watermarks, j) {
        AckNoGap(run, v3, k, token, j);
      }
      AckReaders(run, k, token);
      AckReceipts(run, k, token);
    }
  }

  // ---------------------------------------------------------------------------------------------
  // Whole runs

  lemma StartNoGap(v3: Tables, groups: seq<Pair>, k: Consumer)
    requires Version3(v3) && Enumerates(groups, v3.v1.at)
    ensures NoGapFor(Start(v3, groups), v3.watermarks, k)
  {
    MigrationIsLossless(v3, groups);
    var t := Backfill(v3, groups);
    forall p | p in t.v2.at ensures 1 <= t.v2.at[p] {
      assert HasRow(v3.v1.at, p, t.v2.at[p]);
    }
  }

  lemma StartReaders(v3: Tables, groups: seq<Pair>)
    requires Version3(v3)
    ensures ReadersOk(Start(v3, groups)) && ReceiptsOk(Start(v3, groups))
  {
  }

  lemma StartOk(v3: Tables, groups: seq<Pair>)
    requires Version3(v3) && Enumerates(groups, v3.v1.at)
    ensures RunOk(Start(v3, groups), v3)
  {
    MigrationEstablishes(v3, groups);
    StartReaders(v3, groups);
    forall k ensures NoGapFor(Start(v3, groups), v3.watermarks, k) {
      StartNoGap(v3, groups, k);
    }
  }

  lemma StepKeeps(run: Run, v3: Tables, step: Step)
    requires RunOk(run, v3)
    ensures RunOk(Next(run, step), v3)
  {
    match step
    case Evaluate(note, gap) => EvaluateKeeps(run, v3, note, gap);
    case Read(k, model, limit) => ReadKeeps(run, v3, k, model, limit);
    case Issue(page, visible, token) => IssueKeeps(run, v3, page, visible, token);
    case Ack(k, token) => AckKeeps(run, v3, k, token);
    case Restart(groups) => RestartKeeps(run, v3, groups);
  }

  lemma {:induction false} RunsKeep(run: Run, v3: Tables, steps: seq<Step>)
    requires RunOk(run, v3)
    ensures RunOk(Execute(run, steps), v3)
  {
    if steps != [] {
      RunsKeep(run, v3, steps[..|steps| - 1]);
      StepKeeps(Execute(run, steps[..|steps| - 1]), v3, steps[|steps| - 1]);
    }
  }
}
