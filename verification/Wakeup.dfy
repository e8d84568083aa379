/** The wakeup envelope: candidates of four sections packed greedily into a byte budget. */
module Wakeup {
  import opened Base
  import Ledger

  // UTF-8 bytes; every fixed part of the envelope and every consumer id is ASCII.
  type Bytes = string

  const KINDS: seq<string> := ["profile", "inbox", "recent", "activeTasks"]

  const MIN_BUDGET := 1024

  const MAX_BUDGET := 65536

  // One encoded candidate list per kind; `pageMore` says that the inbox page, read in `model`, left rows behind it.
  datatype Request = Request(consumer: string, candidates: seq<seq<Bytes>>, model: Ledger.Model, pageMore: bool)

  /** What the packer hears of the rows left behind: only a v2 result has `hasMore`. */
  predicate InboxMore(r: Request) {
    r.model == Ledger.V2 && r.pageMore
  }

  ghost predicate WellFormed(r: Request) {
    |r.candidates| == 4 && |r.consumer| <= 128
  }

  datatype Truncation = Truncation(hasMore: seq<bool>, truncated: bool, byteOmission: bool, itemLimit: bool)

  datatype Envelope = Envelope(sections: seq<seq<Bytes>>, items: seq<Bytes>, truncation: Truncation)

  // ---------------------------------------------------------------------------------------------
  // The encoded envelope, keys in alphabetical order

  function Join(parts: seq<Bytes>): Bytes {
    if parts == [] then ""
    else if |parts| == 1 then parts[0]
    else Join(parts[..|parts| - 1]) + "," + parts[|parts| - 1]
  }

  function Decimal(n: nat): string
    decreases n
  {
    if n < 10 then ["0123456789"[n]] else Decimal(n / 10) + ["0123456789"[n % 10]]
  }

  function Flag(b: bool): string {
    if b then "true" else "false"
  }

  function Action(truncated: bool): string {
    if truncated then "\"read-inbox\"" else "null"
  }

  function Reasons(t: Truncation): string {
    if t.byteOmission && t.itemLimit then "\"byte-budget\",\"item-limit\""
    else if t.byteOmission then "\"byte-budget\""
    else if t.itemLimit then "\"item-limit\""
    else ""
  }

  function SectionText(kind: string, items: seq<Bytes>, hasMore: bool): Bytes {
    "{\"hasMore\":" + Flag(hasMore) + ",\"items\":[" + Join(items) + "],\"kind\":\"" + kind + "\"}"
  }

  function StatusText(kind: string, items: seq<Bytes>, hasMore: bool): Bytes {
    "\"" + kind + "\":{\"hasMore\":" + Flag(hasMore) + ",\"included\":" + Decimal(|items|) + "}"
  }

  predicate FourSections(e: Envelope) {
    |e.sections| == 4 && |e.truncation.hasMore| == 4
  }

  function SectionsText(e: Envelope): Bytes
    requires FourSections(e)
  {
    var more := e.truncation.hasMore;
    SectionText(KINDS[0], e.sections[0], more[0]) + "," + SectionText(KINDS[1], e.sections[1], more[1]) + ","
    + SectionText(KINDS[2], e.sections[2], more[2]) + "," + SectionText(KINDS[3], e.sections[3], more[3])
  }

  function StatusesText(e: Envelope): Bytes
    requires FourSections(e)
  {
    var more := e.truncation.hasMore;
    StatusText(KINDS[3], e.sections[3], more[3]) + "," + StatusText(KINDS[1], e.sections[1], more[1]) + ","
    + StatusText(KINDS[0], e.sections[0], more[0]) + "," + StatusText(KINDS[2], e.sections[2], more[2])
  }

  function TruncationText(e: Envelope): Bytes
    requires FourSections(e)
  {
    "{\"nextAction\":" + Action(e.truncation.truncated) + ",\"reasons\":[" + Reasons(e.truncation) + "],\"sections\":{"
    + StatusesText(e) + "}}"
  }

  function Render(consumer: string, e: Envelope): Bytes
    requires FourSections(e)
  {
    "{\"consumerId\":\"" + consumer + "\",\"items\":[" + Join(e.items) + "],\"nextAction\":" + Action(e.truncation.truncated)
    + ",\"role\":\"data\",\"sections\":[" + SectionsText(e) + "],\"truncated\":" + Flag(e.truncation.truncated)
    + ",\"truncation\":" + TruncationText(e) + ",\"trust\":\"untrusted-memory\"}"
  }

  // ---------------------------------------------------------------------------------------------
  // Truncation marks

  predicate Omits(r: Request, sections: seq<seq<Bytes>>, k: nat)
    requires k < |sections| == |r.candidates|
  {
    |sections[k]| < |r.candidates[k]|
  }

  predicate External(r: Request, k: nat) {
    k == 1 && InboxMore(r)
  }

  /** What `refresh_truncation` writes: `truncated` iff something was left out or a v2 inbox has more. */
  function TruncationOf(r: Request, sections: seq<seq<Bytes>>): Truncation
    requires |sections| == |r.candidates| == 4
  {
    var omits := exists k :: 0 <= k < 4 && Omits(r, sections, k);
    Truncation(seq(4, k requires 0 <= k < 4 => Omits(r, sections, k) || External(r, k)), omits || InboxMore(r), omits, InboxMore(r))
  }

  method RefreshTruncation(r: Request, sections: seq<seq<Bytes>>) returns (t: Truncation)
    requires |sections| == |r.candidates| == 4
    ensures t == TruncationOf(r, sections)
  {
    var more: seq<bool>, omission, byteOmission, itemLimit := [], false, false, false;
    for k := 0 to 4
      invariant |more| == k
      invariant forall i :: 0 <= i < k ==> (more[i] <==> Omits(r, sections, i) || External(r, i))
      invariant byteOmission <==> exists i :: 0 <= i < k && Omits(r, sections, i)
      invariant itemLimit <==> k > 1 && InboxMore(r)
      invariant omission <==> byteOmission || itemLimit
    {
      var omitted := |sections[k]| < |r.candidates[k]|;
      assert omitted == Omits(r, sections, k);
      var hasMore := omitted || External(r, k);
      more := more + [hasMore];
      omission := omission || hasMore;
      byteOmission := byteOmission || omitted;
      itemLimit := itemLimit || External(r, k);
    }
    t := Truncation(more, omission, byteOmission, itemLimit);
  }

  // ---------------------------------------------------------------------------------------------
  // Showing the first `n` candidates, section after section

  function Before(r: Request, k: nat): nat
    requires k <= |r.candidates|
  {
    if k == 0 then 0 else Before(r, k - 1) + |r.candidates[k - 1]|
  }

  lemma {:induction false} BeforeGrows(r: Request, i: nat, k: nat)
    requires i <= k <= |r.candidates|
    ensures Before(r, i) <= Before(r, k)
    ensures i < k ==> Before(r, i) + |r.candidates[i]| <= Before(r, k)
  {
    if i < k {
      BeforeGrows(r, i, k - 1);
    }
  }

  function Total(r: Request): nat {
    Before(r, |r.candidates|)
  }

  function ShownIn(r: Request, k: nat, n: nat): (count: nat)
    requires k < |r.candidates|
    ensures count <= |r.candidates[k]|
  {
    Min(Max(n - Before(r, k), 0), |r.candidates[k]|)
  }

  function Sections(r: Request, n: nat): (sections: seq<seq<Bytes>>)
    ensures |sections| == |r.candidates|
    ensures forall k {:trigger sections[k]} :: 0 <= k < |sections| ==> sections[k] == r.candidates[k][..ShownIn(r, k, n)]
  {
    seq(|r.candidates|, k requires 0 <= k < |r.candidates| => r.candidates[k][..ShownIn(r, k, n)])
  }

  /** The envelope that shows exactly the first `n` candidates, with its marks. */
  function EnvelopeOf(r: Request, n: nat): (e: Envelope)
    requires |r.candidates| == 4
    ensures FourSections(e) && e.sections == Sections(r, n)
  {
    Envelope(Sections(r, n), Sections(r, n)[1], TruncationOf(r, Sections(r, n)))
  }

  lemma NextCounts(r: Request, i: nat, j: nat, k: nat)
    requires i < |r.candidates| && j < |r.candidates[i]| && k < |r.candidates|
    ensures var n := Before(r, i) + j;
            ShownIn(r, i, n) == j && ShownIn(r, k, n + 1) == if k == i then j + 1 else ShownIn(r, k, n)
  {
    if k < i { BeforeGrows(r, k, i); } else { BeforeGrows(r, i, k); }
  }

  lemma NextSection(r: Request, i: nat, j: nat, k: nat)
    requires i < |r.candidates| && j < |r.candidates[i]| && k < |r.candidates|
    ensures var n := Before(r, i) + j;
            Sections(r, n + 1)[k] == if k == i then Sections(r, n)[i] + [r.candidates[i][j]] else Sections(r, n)[k]
  {
    NextCounts(r, i, j, k);
    assert r.candidates[i][..j + 1] == r.candidates[i][..j] + [r.candidates[i][j]];
  }

  lemma Updated(now: seq<seq<Bytes>>, next: seq<seq<Bytes>>, i: nat, items: seq<Bytes>)
    requires i < |now| == |next|
    requires forall k :: 0 <= k < |now| ==> next[k] == if k == i then items else now[k]
    ensures next == now[i := items]
  {
  }

  /** One more candidate is appended to its own section and no other. */
  lemma NextShown(r: Request, i: nat, j: nat)
    requires i < |r.candidates| && j < |r.candidates[i]|
    ensures var n := Before(r, i) + j;
            Sections(r, n + 1) == Sections(r, n)[i := Sections(r, n)[i] + [r.candidates[i][j]]]
  {
    var n := Before(r, i) + j;
    var now, next := Sections(r, n), Sections(r, n + 1);
    forall k | 0 <= k < |now|
      ensures next[k] == if k == i then now[i] + [r.candidates[i][j]] else now[k]
    {
      NextSection(r, i, j, k);
    }
    Updated(now, next, i, now[i] + [r.candidates[i][j]]);
  }

  /** Each section shows a prefix of its candidates, and an incomplete section leaves all later ones empty. */
  lemma SectionsAreAPrefix(r: Request, n: nat, i: nat, k: nat)
    requires i < |r.candidates| && k < |r.candidates|
    ensures Sections(r, n)[k] <= r.candidates[k]
    ensures |Sections(r, n)[i]| < |r.candidates[i]| && i < k ==> Sections(r, n)[k] == []
  {
    if i < k {
      BeforeGrows(r, i, k);
    }
  }

  lemma MoreShowsMore(r: Request, m: nat, n: nat, k: nat)
    requires m <= n && k < |r.candidates|
    ensures Sections(r, m)[k] <= Sections(r, n)[k]
  {
  }

  // ---------------------------------------------------------------------------------------------
  // Sizes

  predicate Fits(r: Request, n: nat, budget: int)
    requires |r.candidates| == 4
  {
    |Render(r.consumer, EnvelopeOf(r, n))| <= budget
  }

  ghost function SectionSize(items: seq<Bytes>, hasMore: bool): int {
    |Join(items)| + 2 * |Flag(hasMore)| + |Decimal(|items|)|
  }

  /** What of an envelope's size depends on what it shows. */
  ghost function VariableSize(e: Envelope): int
    requires FourSections(e)
  {
    var more := e.truncation.hasMore;
    |Join(e.items)| + 2 * |Action(e.truncation.truncated)| + |Flag(e.truncation.truncated)| + |Reasons(e.truncation)|
    + SectionSize(e.sections[0], more[0]) + SectionSize(e.sections[1], more[1])
    + SectionSize(e.sections[2], more[2]) + SectionSize(e.sections[3], more[3])
  }

  const FIXED_SIZE := 470

  lemma SectionsTextSize(e: Envelope)
    requires FourSections(e)
    ensures |SectionsText(e)| + |StatusesText(e)| == 304
            + SectionSize(e.sections[0], e.truncation.hasMore[0]) + SectionSize(e.sections[1], e.truncation.hasMore[1])
            + SectionSize(e.sections[2], e.truncation.hasMore[2]) + SectionSize(e.sections[3], e.truncation.hasMore[3])
  {
  }

  lemma RenderSize(consumer: string, e: Envelope)
    requires FourSections(e)
    ensures |Render(consumer, e)| == FIXED_SIZE + |consumer| + VariableSize(e)
  {
    SectionsTextSize(e);
  }

  lemma EmptySize(consumer: string, e: Envelope)
    requires FourSections(e) && |consumer| <= 128
    requires e.items == [] && e.sections == [[], [], [], []]
    ensures |Render(consumer, e)| <= MIN_BUDGET
  {
    hide Render;
    RenderSize(consumer, e);
  }

  lemma NothingShown(r: Request)
    requires |r.candidates| == 4
    ensures Sections(r, 0) == [[], [], [], []]
  {
    forall k | 0 <= k < 4
      ensures Sections(r, 0)[k] == []
    {
    }
  }

  /** Nothing shown yet: the envelope fits the smallest budget, whatever its marks say. */
  lemma EmptyFits(r: Request)
    requires WellFormed(r)
    ensures Fits(r, 0, MIN_BUDGET)
  {
    NothingShown(r);
    EmptySize(r.consumer, EnvelopeOf(r, 0));
  }

  // ---------------------------------------------------------------------------------------------
  // Packing

  /** `n` is where packing stops: everything up to it fits, and the next candidate, if any, does not. */
  ghost predicate StopsAt(r: Request, budget: int, n: nat)
    requires |r.candidates| == 4
  {
    && n <= Total(r)
    && FitsUpTo(r, n, budget)
    && (n < Total(r) ==> !Fits(r, n + 1, budget))
  }

  datatype Outcome = Packed(envelope: Envelope) | Fallback | Refused

  /** The envelope with one more candidate of section `i`, and whether it is within the budget. */
  method Propose(r: Request, envelope: Envelope, i: nat, j: nat, budget: int) returns (proposed: Envelope, fits: bool)
    requires WellFormed(r) && i < 4 && j < |r.candidates[i]| && envelope == EnvelopeOf(r, Before(r, i) + j)
    ensures proposed == EnvelopeOf(r, Before(r, i) + j + 1)
    ensures fits == Fits(r, Before(r, i) + j + 1, budget)
  {
    hide Render;
    NextShown(r, i, j);
    var sections := envelope.sections[i := envelope.sections[i] + [r.candidates[i][j]]];
    var items := if i == 1 then envelope.items + [r.candidates[i][j]] else envelope.items;
    var truncation := RefreshTruncation(r, sections);
    proposed := Envelope(sections, items, truncation);
    fits := |Render(r.consumer, proposed)| <= budget;
  }

  ghost predicate FitsUpTo(r: Request, n: nat, budget: int)
    requires |r.candidates| == 4
  {
    forall m: nat :: m <= n ==> Fits(r, m, budget)
  }

  method Start(r: Request) returns (envelope: Envelope)
    requires WellFormed(r)
    ensures envelope == EnvelopeOf(r, 0)
  {
    NothingShown(r);
    var truncation := RefreshTruncation(r, [[], [], [], []]);
    envelope := Envelope([[], [], [], []], [], truncation);
  }

  /** The candidates of one section, until one does not fit. */
  method PackSection(r: Request, first: Envelope, i: nat, budget: int) returns (envelope: Envelope, exhausted: bool, ghost j: nat)
    requires WellFormed(r) && i < 4 && first == EnvelopeOf(r, Before(r, i)) && FitsUpTo(r, Before(r, i), budget)
    ensures j <= |r.candidates[i]| && envelope == EnvelopeOf(r, Before(r, i) + j) && FitsUpTo(r, Before(r, i) + j, budget)
    ensures if exhausted then j < |r.candidates[i]| && !Fits(r, Before(r, i) + j + 1, budget) else j == |r.candidates[i]|
  {
    hide Render, EnvelopeOf;
    envelope, exhausted, j := first, false, 0;
    for at := 0 to |r.candidates[i]|
      invariant j == at && envelope == EnvelopeOf(r, Before(r, i) + j) && FitsUpTo(r, Before(r, i) + j, budget)
    {
      var proposed, fits := Propose(r, envelope, i, at, budget);
      if !fits {
        exhausted := true;
        return;
      }
      envelope, j := proposed, j + 1;
    }
  }

  /** The packing part of `wakeup`: section by section, candidate by candidate, until one does not fit. */
  method Pack(r: Request, budget: int) returns (outcome: Outcome, ghost shown: nat)
    requires WellFormed(r)
    ensures outcome == Refused <==> !(MIN_BUDGET <= budget <= MAX_BUDGET)
    ensures outcome != Refused ==> outcome == Packed(EnvelopeOf(r, shown)) && StopsAt(r, budget, shown)
    ensures outcome.Packed? ==> |Render(r.consumer, outcome.envelope)| <= budget
  {
    hide Render, EnvelopeOf;
    shown := 0;
    if budget < MIN_BUDGET || budget > MAX_BUDGET {
      return Refused, shown;
    }
    EmptyFits(r);
    var envelope := Start(r);
    for i := 0 to 4
      invariant shown == Before(r, i) && envelope == EnvelopeOf(r, shown) && FitsUpTo(r, shown, budget)
    {
      var exhausted;
      ghost var j;
      envelope, exhausted, j := PackSection(r, envelope, i, budget);
      shown := shown + j;
      if exhausted {
        BeforeGrows(r, i, 4);
        break;
      }
    }
    assert Fits(r, shown, budget);
    if |Render(r.consumer, envelope)| > budget {
      return Fallback, shown;
    }
    return Packed(envelope), shown;
  }

  // ---------------------------------------------------------------------------------------------
  // What packing guarantees

  /**
   * Wherever packing stops, each section holds a prefix of its candidates and the flat list mirrors the inbox, an
   * incomplete section leaves the later ones empty, and `truncated` says that a candidate is missing or that a v2 inbox
   * had more, each section and each of the two reasons for itself.
   */
  lemma PackedIsAPrefix(r: Request, n: nat, i: nat, k: nat)
    requires WellFormed(r) && i < k < 4
    ensures var e := EnvelopeOf(r, n);
            && e.sections[i] <= r.candidates[i] && e.sections[k] <= r.candidates[k] && e.items == e.sections[1]
            && (|e.sections[i]| < |r.candidates[i]| ==> e.sections[k] == [])
            && var more := r.model == Ledger.V2 && r.pageMore;
               && (e.truncation.truncated <==> more || e.sections != r.candidates)
               && |e.truncation.hasMore| == 4
               && (e.truncation.hasMore[i] <==> e.sections[i] != r.candidates[i] || (i == 1 && more))
               && (e.truncation.hasMore[k] <==> e.sections[k] != r.candidates[k] || (k == 1 && more))
               && (e.truncation.byteOmission <==> e.sections != r.candidates) && e.truncation.itemLimit == more
  {
    hide Render, Before;
    var e := EnvelopeOf(r, n);
    SectionsAreAPrefix(r, n, i, k);
    assert |e.sections[i]| == |r.candidates[i]| ==> e.sections[i] == r.candidates[i];
    assert |e.sections[k]| == |r.candidates[k]| ==> e.sections[k] == r.candidates[k];
    assert (exists q :: 0 <= q < 4 && Omits(r, e.sections, q)) <==> e.sections != r.candidates by {
      AllOrSome(r, n);
    }
  }

  /**
   * When `truncated` tells the truth about what the envelope leaves out, rows behind the inbox page included: always under
   * v2; under v1 exactly when the page left nothing behind or a candidate is missing anyway.
   */
  lemma TruncatedIsExactIff(r: Request, n: nat)
    requires WellFormed(r)
    ensures var e := EnvelopeOf(r, n);
            var leavesOut := e.sections != r.candidates || r.pageMore;
            (e.truncation.truncated <==> leavesOut) <==> r.model == Ledger.V2 || !r.pageMore || e.sections != r.candidates
  {
    hide Render, Before;
    PackedIsAPrefix(r, n, 0, 1);
  }

  /** A v1 wakeup with nothing to show and rows behind its page says that nothing is missing, whatever the budget. */
  lemma V1HidesTheRest(consumer: string, budget: int, n: nat)
    requires |consumer| <= 128
    ensures var r := Request(consumer, [[], [], [], []], Ledger.V1, true);
            StopsAt(r, budget, n) ==>
              n == 0 && !EnvelopeOf(r, n).truncation.truncated && Action(EnvelopeOf(r, n).truncation.truncated) == "null"
  {
    hide Render;
    var r := Request(consumer, [[], [], [], []], Ledger.V1, true);
    NothingShown(r);
    PackedIsAPrefix(r, 0, 0, 1);
  }

  lemma AllOrSome(r: Request, n: nat)
    requires |r.candidates| == 4
    ensures (exists q :: 0 <= q < 4 && Omits(r, Sections(r, n), q)) <==> Sections(r, n) != r.candidates
  {
    hide Before;
    var shown := Sections(r, n);
    if forall q :: 0 <= q < 4 ==> !Omits(r, shown, q) {
      forall q | 0 <= q < 4
        ensures shown[q] == r.candidates[q]
      {
        assert !Omits(r, shown, q);
      }
      assert shown == r.candidates;
    } else {
      var q :| 0 <= q < 4 && Omits(r, shown, q);
      assert shown[q] != r.candidates[q];
    }
  }

  /** A larger budget never shows less in any section. */
  lemma LargerBudgetShowsNoLess(r: Request, budget: int, larger: int, n: nat, m: nat, k: nat)
    requires WellFormed(r) && budget <= larger && StopsAt(r, budget, n) && StopsAt(r, larger, m) && k < 4
    ensures n <= m && Sections(r, n)[k] <= Sections(r, m)[k]
  {
    hide Render, Before;
    assert m < n ==> Fits(r, m + 1, budget);
    MoreShowsMore(r, n, m, k);
  }

  lemma {:induction false} DecimalGrows(m: nat, n: nat)
    requires m <= n
    ensures |Decimal(m)| <= |Decimal(n)|
    decreases n
  {
    if n >= 10 && m >= 10 {
      DecimalGrows(m / 10, n / 10);
    }
  }

  lemma JoinGrows(parts: seq<Bytes>, part: Bytes)
    ensures |Join(parts + [part])| >= |Join(parts)| + |part|
  {
    var more := parts + [part];
    assert more[..|more| - 1] == parts;
  }

  lemma SectionSizeGrows(items: seq<Bytes>, item: Bytes, hasMore: bool)
    ensures SectionSize(items + [item], hasMore) >= SectionSize(items, true) + |item|
  {
    JoinGrows(items, item);
    DecimalGrows(|items|, |items| + 1);
  }

  lemma ReasonsShrinkLittle(t: Truncation, u: Truncation)
    requires t.truncated && t.itemLimit == u.itemLimit && (u.byteOmission ==> t.byteOmission)
    ensures 2 * |Action(u.truncated)| + |Flag(u.truncated)| + |Reasons(u)| + 30 >= 2 * |Action(true)| + |Flag(true)| + |Reasons(t)|
  {
  }

  lemma SectionsGrow(e: Envelope, f: Envelope, i: nat, item: Bytes)
    requires FourSections(e) && FourSections(f) && i < 4
    requires f.sections == e.sections[i := e.sections[i] + [item]]
    requires e.truncation.hasMore[i] && forall k :: 0 <= k < 4 && k != i ==> f.truncation.hasMore[k] == e.truncation.hasMore[k]
    requires |Join(f.items)| >= |Join(e.items)| && e.truncation.truncated && e.truncation.itemLimit == f.truncation.itemLimit
    requires f.truncation.byteOmission ==> e.truncation.byteOmission
    ensures VariableSize(f) + 30 >= VariableSize(e) + |item|
  {
    hide SectionSize, Join, Action, Flag, Reasons;
    SectionSizeGrows(e.sections[i], item, f.truncation.hasMore[i]);
    ReasonsShrinkLittle(e.truncation, f.truncation);
  }

  lemma NextGrows(r: Request, i: nat, j: nat)
    requires WellFormed(r) && i < 4 && j < |r.candidates[i]|
    ensures var n := Before(r, i) + j;
            |Render(r.consumer, EnvelopeOf(r, n + 1))| + 30 >= |Render(r.consumer, EnvelopeOf(r, n))| + |r.candidates[i][j]|
  {
    hide Render, VariableSize, Before;
    var n := Before(r, i) + j;
    var e, f := EnvelopeOf(r, n), EnvelopeOf(r, n + 1);
    NextShown(r, i, j);
    NextCounts(r, i, j, i);
    assert Omits(r, e.sections, i);
    JoinGrows(e.items, r.candidates[i][j]);
    forall k | 0 <= k < 4 && k != i
      ensures Omits(r, f.sections, k) == Omits(r, e.sections, k)
    {
    }
    SectionsGrow(e, f, i, r.candidates[i][j]);
    RenderSize(r.consumer, e);
    RenderSize(r.consumer, f);
  }

  lemma {:induction false} Position(r: Request, n: nat, k: nat) returns (i: nat, j: nat)
    requires k <= |r.candidates| && n < Before(r, k)
    ensures i < k && j < |r.candidates[i]| && n == Before(r, i) + j
  {
    if n < Before(r, k - 1) {
      i, j := Position(r, n, k - 1);
    } else {
      i, j := k - 1, n - Before(r, k - 1);
    }
  }

  /** Every encoded item is longer than 30 bytes: its two delimiters alone are. */
  ghost predicate ItemsCarryDelimiters(r: Request) {
    forall i, j :: 0 <= i < |r.candidates| && 0 <= j < |r.candidates[i]| ==> |r.candidates[i][j]| > 30
  }

  lemma {:induction false} SizesRise(r: Request, m: nat, n: nat)
    requires WellFormed(r) && ItemsCarryDelimiters(r) && m <= n <= Total(r)
    ensures |Render(r.consumer, EnvelopeOf(r, m))| + (n - m) <= |Render(r.consumer, EnvelopeOf(r, n))|
  {
    hide Render, EnvelopeOf;
    if m < n {
      SizesRise(r, m, n - 1);
      var i, j := Position(r, n - 1, 4);
      NextGrows(r, i, j);
    }
  }

  /** Greedy packing is optimal: no longer prefix of the candidates fits the budget. */
  lemma PackIsTheLongestPrefix(r: Request, budget: int, n: nat, m: nat)
    requires WellFormed(r) && ItemsCarryDelimiters(r) && StopsAt(r, budget, n) && m <= Total(r)
    ensures Fits(r, m, budget) <==> m <= n
  {
    hide Render, EnvelopeOf;
    if n < m {
      SizesRise(r, n + 1, m);
    }
  }
}
