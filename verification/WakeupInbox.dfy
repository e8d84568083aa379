/** The inbox page of a wakeup: when it leaves rows behind, and what the envelope then says about them. */
module WakeupInbox {
  import opened Notes
  import opened Ledger
  import opened LedgerInvariant
  import opened LedgerInbox
  import Wakeup

  // `wakeup` fetches with the default limit.
  const PAGE := 100

  ghost predicate PageMore(t: Tables, k: Consumer, model: Model) {
    exists d :: d in UnreadOf(t, k, model) && d !in SelectPage(t, k, model, PAGE).rows
  }

  /** The rows of the page that become inbox candidates. */
  function Shown(t: Tables, k: Consumer, model: Model, visible: set<NoteId>): set<Delivery> {
    set d | d in SelectPage(t, k, model, PAGE).rows && NoteOf(d) in visible
  }

  lemma SubsetSize<T>(a: set<T>, b: set<T>)
    requires a <= b
    ensures |b - a| == |b| - |a|
  {
  }

  /** A page leaves rows behind exactly when more than a hundred are unread. */
  lemma PageMoreIff(t: Tables, legacy: set<Route>, k: Consumer, model: Model)
    requires DeliveriesOk(t, legacy)
    ensures PageMore(t, k, model) <==> |UnreadOf(t, k, model)| > PAGE
  {
    PageIsFull(t, legacy, k, model, PAGE);
    PageIsUnread(t, k, model, PAGE);
    var unread, rows := UnreadOf(t, k, model), SelectPage(t, k, model, PAGE).rows;
    hide DeliveriesOk, UnreadOf, Unread, SelectPage;
    SubsetSize(rows, unread);
    if |unread| > PAGE {
      assert |unread - rows| > 0;
      assert exists d :: d in unread - rows;
    } else {
      assert unread - rows == {};
    }
  }

  /**
   * The two models disagree about an overfull inbox whose first page is hidden: with nothing to show and more than a
   * hundred unread rows, a v1 envelope is not marked truncated, and a v2 envelope with as many is.
   */
  lemma HiddenPageUnderEachModel(t: Tables, legacy: set<Route>, k: Consumer, model: Model, visible: set<NoteId>, consumer: string)
    requires DeliveriesOk(t, legacy) && |UnreadOf(t, k, model)| > PAGE && |consumer| <= 128
    requires forall d :: d in SelectPage(t, k, model, PAGE).rows ==> NoteOf(d) !in visible
    ensures Shown(t, k, model, visible) == {} && PageMore(t, k, model)
    ensures var r := Wakeup.Request(consumer, [[], [], [], []], model, PageMore(t, k, model));
            Wakeup.EnvelopeOf(r, 0).truncation.truncated <==> model == V2
  {
    PageMoreIff(t, legacy, k, model);
    hide DeliveriesOk, SelectPage, UnreadOf, PageMore;
    var r := Wakeup.Request(consumer, [[], [], [], []], model, true);
    Wakeup.NothingShown(r);
    Wakeup.PackedIsAPrefix(r, 0, 0, 1);
  }
}
