/**
 * The delivery ledger of the memory service: the tables of `ops.sqlite` that deliveries, cursors and
 * acknowledgements live in, and each SQL transaction on them as one function.
 *
 * Hashed identifiers are the values they hash: a v1 delivery id is its (note, recipient, reason), a v2
 * delivery id its (note, recipient).
 */
module Ledger {
  import opened Base
  import opened Notes

  datatype Pair = Pair(note: NoteId, recipient: Name)

  datatype Route = Route(note: NoteId, recipient: Name, reason: Reason) {
    function Logical(): Pair { Pair(note, recipient) }
  }

  datatype Alias = Alias(logical: Pair, sequence: nat, reason: Reason)

  datatype Snapshot = Snapshot(routes: set<Target>, conflict: Option<set<Target>>)

  datatype Consumer = Consumer(principal: Name, id: Name)

  type Token = nat

  datatype Model = V1 | V2

  datatype Purpose = InboxPage | UnknownPurpose

  datatype Delivery = Legacy(route: Route) | Logical(pair: Pair)

  // `from` and `scanned` are history: the watermark the page was read above, and every row its SELECT returned,
  // those of hidden notes included. No step of the service reads them.
  datatype Cursor = Cursor(
    consumer: Consumer,
    sequence: nat,
    model: Model,
    purpose: Purpose,
    items: set<Delivery>,
    from: nat,
    scanned: set<Delivery>)

  datatype Receipt = Receipt(sequence: nat, token: Token)

  // deliveries: v1 reason rows with their sequences, and the last number AUTOINCREMENT used up.
  datatype ReasonRows = ReasonRows(at: map<Route, nat>, top: nat)

  // logical_deliveries with their sequences, delivery_aliases and logical_delivery_reasons.
  datatype Projection = Projection(at: map<Pair, nat>, aliases: map<Route, Alias>, reasons: set<Route>)

  datatype Tables = Tables(
    v1: ReasonRows,
    v2: Projection,
    snapshots: map<NoteId, Snapshot>,             // delivery_route_snapshots
    highWater: nat,                               // delivery_sequence_state
    watermarks: map<Consumer, nat>,               // consumer_cursors
    cursors: map<Token, Cursor>,                  // issued_cursors and issued_cursor_items
    receipts: map<(Consumer, Pair), Receipt>)     // logical_ack_receipts

  function Watermark(t: Tables, k: Consumer): nat {
    if k in t.watermarks then t.watermarks[k] else 0
  }

  // ---------------------------------------------------------------------------------------------
  // Generating deliveries for one note

  function RouteOf(p: Pair, reason: Reason): Route {
    Route(p.note, p.recipient, reason)
  }

  /** `INSERT OR IGNORE INTO deliveries`; an ignored insert may still use up `gap` numbers. */
  function InsertRow(v1: ReasonRows, r: Route, gap: nat): ReasonRows {
    if r in v1.at then v1.(top := v1.top + gap)
    else ReasonRows(v1.at[r := v1.top + 1], v1.top + 1)
  }

  function InsertRows(v1: ReasonRows, p: Pair, reasons: seq<Reason>, gap: nat): ReasonRows {
    if reasons == [] then v1
    else
      var last := |reasons| - 1;
      InsertRow(InsertRows(v1, p, reasons[..last], gap), RouteOf(p, reasons[last]), gap)
  }

  /** The largest sequence among the listed reason rows of a pair; a row that is not there counts as 0. */
  function MaxSequence(at: map<Route, nat>, p: Pair, reasons: seq<Reason>): nat {
    if reasons == [] then 0
    else
      var last := |reasons| - 1;
      var r := RouteOf(p, reasons[last]);
      Max(MaxSequence(at, p, reasons[..last]), if r in at then at[r] else 0)
  }

  /** `INSERT OR IGNORE INTO logical_deliveries`: ignored when the pair or the sequence is taken. */
  function InsertLogical(at: map<Pair, nat>, p: Pair, sequence: nat): map<Pair, nat> {
    if p in at || sequence in at.Values then at else at[p := sequence]
  }

  /** The alias and the reason of one v1 row, each ignored when already there. */
  function InsertAlias(v2: Projection, at: map<Route, nat>, r: Route): Projection {
    if r !in at then v2
    else
      var aliases := if r in v2.aliases then v2.aliases else v2.aliases[r := Alias(r.Logical(), at[r], r.reason)];
      v2.(aliases := aliases, reasons := v2.reasons + {r})
  }

  function InsertAliases(v2: Projection, at: map<Route, nat>, p: Pair, reasons: seq<Reason>): Projection {
    if reasons == [] then v2
    else
      var last := |reasons| - 1;
      InsertAlias(InsertAliases(v2, at, p, reasons[..last]), at, RouteOf(p, reasons[last]))
  }

  /** The logical delivery of a pair with the aliases and reasons of the listed rows. */
  function File(v2: Projection, at: map<Route, nat>, p: Pair, reasons: seq<Reason>): Projection {
    InsertAliases(v2.(at := InsertLogical(v2.at, p, MaxSequence(at, p, reasons))), at, p, reasons)
  }

  function ReasonsOf(targets: set<Target>, recipient: Name): seq<Reason> {
    (if Target(recipient, AboutReason) in targets then [AboutReason] else []) +
    (if Target(recipient, DirectReason) in targets then [DirectReason] else []) +
    (if Target(recipient, HandoffReason) in targets then [HandoffReason] else [])
  }

  function Recipients(targets: set<Target>): seq<Name> {
    Sorted(set t | t in targets :: t.recipient)
  }

  /** One recipient's share of a generation. */
  function GenerateGroup(t: Tables, p: Pair, reasons: seq<Reason>, gap: nat): Tables {
    var v1 := InsertRows(t.v1, p, reasons, gap);
    t.(v1 := v1,
       v2 := File(t.v2, v1.at, p, reasons),
       highWater := Max(t.highWater, MaxSequence(v1.at, p, reasons)))
  }

  function GenerateGroups(t: Tables, note: NoteId, targets: set<Target>, recipients: seq<Name>, gap: nat): Tables {
    if recipients == [] then t
    else
      var last := |recipients| - 1;
      GenerateGroup(GenerateGroups(t, note, targets, recipients[..last], gap),
                    Pair(note, recipients[last]), ReasonsOf(targets, recipients[last]), gap)
  }

  /** The first evaluation records the routes; a later one that differs only leaves its first conflict. */
  function TakeSnapshot(snapshots: map<NoteId, Snapshot>, note: NoteId, proposed: set<Target>): map<NoteId, Snapshot> {
    if note !in snapshots then snapshots[note := Snapshot(proposed, None)]
    else if snapshots[note].routes == proposed || snapshots[note].conflict.Some? then snapshots
    else snapshots[note := snapshots[note].(conflict := Some(proposed))]
  }

  function Generate(t: Tables, note: Note, gap: nat): Tables {
    var taken := t.(snapshots := TakeSnapshot(t.snapshots, note.id, DeliveryTargets(note)));
    var routes := taken.snapshots[note.id].routes;
    GenerateGroups(taken, note.id, routes, Recipients(routes), gap)
  }

  // ---------------------------------------------------------------------------------------------
  // The migration that runs on every start

  function BackfillGroups(v2: Projection, at: map<Route, nat>, groups: seq<Pair>): Projection {
    if groups == [] then v2
    else File(BackfillGroups(v2, at, groups[..|groups| - 1]), at, groups[|groups| - 1], REASONS)
  }

  /** `GROUP BY note_id, recipient` over the v1 rows. */
  function Groups(at: map<Route, nat>): set<Pair> {
    set r | r in at :: r.Logical()
  }

  /** The largest value of a column; 0 for an empty table. */
  function MaxOf(values: set<nat>): (m: nat)
    ensures forall v :: v in values ==> v <= m
    ensures m == 0 || m in values
  {
    var q := Sorted(values);
    if q == [] then
      assert forall v :: v in values ==> v in q;
      0
    else
      assert q[|q| - 1] in q;
      assert forall v :: v in values ==> v <= q[|q| - 1] by {
        forall v | v in values ensures v <= q[|q| - 1] {
          assert v in q;
          var i :| 0 <= i < |q| && q[i] == v;
        }
      }
      q[|q| - 1]
  }

  function Maxima(t: Tables): nat {
    Max(Max(MaxOf(t.v1.at.Values), MaxOf(t.v2.at.Values)),
        Max(MaxOf(set c | c in t.cursors :: t.cursors[c].sequence), MaxOf(t.watermarks.Values)))
  }

  /** `_backfill_logical_deliveries`, visiting the groups in the order `groups`. */
  function Backfill(t: Tables, groups: seq<Pair>): Tables {
    var u := t.(v2 := BackfillGroups(t.v2, t.v1.at, groups));
    u.(highWater := Max(u.highWater, Maxima(u)))
  }

  // ---------------------------------------------------------------------------------------------
  // Pages, cursors and acknowledgement

  /** A page a reader has selected and not yet turned into a cursor; `from` is the watermark it read. */
  datatype Page = Page(consumer: Consumer, model: Model, from: nat, sequence: nat, rows: set<Delivery>)

  function SequenceOf(t: Tables, d: Delivery): nat {
    match d
    case Legacy(r) => if r in t.v1.at then t.v1.at[r] else 0
    case Logical(p) => if p in t.v2.at then t.v2.at[p] else 0
  }

  /** The rows of a principal in one delivery model above a watermark. */
  function Unread(t: Tables, model: Model, principal: Name, above: nat): set<Delivery> {
    match model
    case V1 => set r | r in t.v1.at && r.recipient == principal && t.v1.at[r] > above :: Legacy(r)
    case V2 => set p | p in t.v2.at && p.recipient == principal && t.v2.at[p] > above :: Logical(p)
  }

  function PageLimit(limit: int): nat {
    Max(1, Min(limit, 100))
  }

  /** `ORDER BY sequence LIMIT n` over the unread rows, and the position the page scanned up to. */
  function SelectPage(t: Tables, k: Consumer, model: Model, limit: int): Page {
    var from := Watermark(t, k);
    var unread := Unread(t, model, k.principal, from);
    var order := Sorted(set d | d in unread :: SequenceOf(t, d));
    var selected := order[..Min(PageLimit(limit), |order|)];
    var sequence := if selected == [] then from else Max(from, selected[|selected| - 1]);
    var rows := set d | d in unread && SequenceOf(t, d) in selected;
    Page(k, model, from, sequence, rows)
  }

  function NoteOf(d: Delivery): NoteId {
    match d case Legacy(r) => r.note case Logical(p) => p.note
  }

  function IssueCursor(t: Tables, page: Page, visible: set<NoteId>, token: Token): Tables {
    if token in t.cursors then t
    else
      var items := set d | d in page.rows && NoteOf(d) in visible;
      t.(cursors := t.cursors[token := Cursor(page.consumer, page.sequence, page.model, InboxPage, items, page.from, page.rows)])
  }

  datatype AckError = NotIssued | RefreshRequired

  datatype AckResult = Acked(advanced: bool) | Refused(error: AckError)

  /** The logical deliveries an advancing acknowledgement writes receipts for. */
  function ReceiptTargets(t: Tables, c: Cursor): set<Pair> {
    match c.model
    case V1 =>
      set d | d in c.items && d.Legacy? && d.route in t.v2.aliases && t.v2.aliases[d.route].logical in t.v2.at
              && c.sequence >= t.v2.at[t.v2.aliases[d.route].logical] :: t.v2.aliases[d.route].logical
    case V2 =>
      set d | d in c.items && d.Logical? && d.pair in t.v2.at :: d.pair
  }

  function AddReceipts(t: Tables, k: Consumer, pairs: set<Pair>, token: Token): map<(Consumer, Pair), Receipt> {
    (map p | p in pairs && p in t.v2.at :: (k, p) := Receipt(t.v2.at[p], token)) + t.receipts
  }

  function AckOutcome(t: Tables, k: Consumer, token: Token): AckResult {
    if token !in t.cursors || t.cursors[token].consumer != k then Refused(NotIssued)
    else if t.cursors[token].purpose == UnknownPurpose && t.cursors[token].sequence > Watermark(t, k) then
      Refused(RefreshRequired)
    else Acked(t.cursors[token].sequence > Watermark(t, k))
  }

  function Acknowledge(t: Tables, k: Consumer, token: Token): Tables {
    match AckOutcome(t, k, token)
    case Refused(_) => t
    case Acked(advanced) =>
      var c := t.cursors[token];
      t.(receipts := if advanced then AddReceipts(t, k, ReceiptTargets(t, c), token) else t.receipts,
         watermarks := t.watermarks[k := Max(Watermark(t, k), c.sequence)])
  }
}
