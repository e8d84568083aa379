/** What a caller may read, and the timeline of the readable notes. */
module Views {
  import opened Base
  import opened Notes

  type Corpus = map<NoteId, Note>

  // `unreadableSources` are the derived notes one of whose source artifacts the caller may not read.
  datatype Reader = Reader(name: Name, admin: bool, unreadableSources: set<NoteId>)

  // The author that supersedes any note.
  const LOCAL_OPERATOR: Name := 0

  predicate CanRead(reader: Reader, note: Note) {
    && (reader.admin || note.author == reader.name || note.visibility == Shared || note.visibility == DirectTo(reader.name))
    && note.id !in reader.unreadableSources
  }

  /** `read_note`: a hidden note is as good as missing. */
  function ReadNote(corpus: Corpus, reader: Reader, id: NoteId): Option<Note> {
    if id in corpus && CanRead(reader, corpus[id]) then Some(corpus[id]) else None
  }

  /** Who reads a note: its author, an administrator, everybody if it is shared, and the principal it is directed to. */
  lemma ReadIff(corpus: Corpus, reader: Reader, id: NoteId)
    ensures ReadNote(corpus, reader, id).Some? <==>
              id in corpus && corpus[id].id !in reader.unreadableSources
              && (reader.admin || corpus[id].author == reader.name
                  || match corpus[id].visibility
                     case Shared => true
                     case DirectTo(recipient) => recipient == reader.name
                     case Private => false)
    ensures ReadNote(corpus, reader, id).Some? ==> ReadNote(corpus, reader, id).value == corpus[id]
  {
  }

  /** The corpus of only the notes the caller can read. */
  function Readable(corpus: Corpus, reader: Reader): Corpus {
    map id | id in corpus && CanRead(reader, corpus[id]) :: corpus[id]
  }

  ghost predicate IdsMatch(corpus: Corpus) {
    forall id :: id in corpus ==> corpus[id].id == id
  }

  lemma ReadingIsLocal(corpus: Corpus, reader: Reader, id: NoteId)
    ensures ReadNote(Readable(corpus, reader), reader, id) == ReadNote(corpus, reader, id)
  {
  }

  // ---------------------------------------------------------------------------------------------
  // Supersession

  predicate Supersedes(corpus: Corpus, reader: Reader, successor: NoteId, id: NoteId) {
    && successor in corpus && corpus[successor].supersedes == Some(id)
    && ReadNote(corpus, reader, successor).Some? && ReadNote(corpus, reader, id).Some?
    && (corpus[successor].author == corpus[id].author || corpus[successor].author == LOCAL_OPERATOR)
  }

  /** Ids superseded by a readable note of the same author or of the local operator. */
  function SupersededIds(corpus: Corpus, reader: Reader): set<NoteId> {
    set s, id | s in corpus && id in corpus && Supersedes(corpus, reader, s, id) :: id
  }

  /** `_superseded_ids`: one pass over the successors. */
  method FindSuperseded(corpus: Corpus, reader: Reader) returns (superseded: set<NoteId>)
    ensures superseded == SupersededIds(corpus, reader)
  {
    superseded := {};
    var todo := corpus.Keys;
    while todo != {}
      invariant todo <= corpus.Keys
      invariant forall id :: id in superseded <==> exists s :: s in corpus && s !in todo && Supersedes(corpus, reader, s, id)
    {
      var s :| s in todo;
      ghost var before := superseded;
      if corpus[s].supersedes.Some? {
        var target := corpus[s].supersedes.value;
        var successor, previous := ReadNote(corpus, reader, s), ReadNote(corpus, reader, target);
        if successor.Some? && previous.Some? {
          if successor.value.author == previous.value.author || successor.value.author == LOCAL_OPERATOR {
            assert Supersedes(corpus, reader, s, target);
            superseded := superseded + {target};
          }
        }
      }
      ghost var rest := todo - {s};
      assert forall id :: id in superseded <==> id in before || Supersedes(corpus, reader, s, id);
      forall id
        ensures id in superseded <==> exists t :: t in corpus && t !in rest && Supersedes(corpus, reader, t, id)
      {
        if id in before {
          var t :| t in corpus && t !in todo && Supersedes(corpus, reader, t, id);
          assert t !in rest;
        }
      }
      todo := todo - {s};
    }
  }

  /** A note is superseded for a reader who can read it and a successor of the same author or of the local operator. */
  lemma SupersededIff(corpus: Corpus, reader: Reader, id: NoteId)
    ensures id in SupersededIds(corpus, reader) <==>
              && ReadNote(corpus, reader, id).Some?
              && exists s :: && s in corpus && ReadNote(corpus, reader, s).Some? && corpus[s].supersedes == Some(id)
                             && (corpus[s].author == corpus[id].author || corpus[s].author == LOCAL_OPERATOR)
  {
    hide CanRead;
    if id in SupersededIds(corpus, reader) {
      var s :| s in corpus && Supersedes(corpus, reader, s, id);
    }
    if ReadNote(corpus, reader, id).Some? {
      if s :| s in corpus && ReadNote(corpus, reader, s).Some? && corpus[s].supersedes == Some(id)
              && (corpus[s].author == corpus[id].author || corpus[s].author == LOCAL_OPERATOR) {
        assert Supersedes(corpus, reader, s, id);
      }
    }
  }

  lemma SupersessionIsLocal(corpus: Corpus, reader: Reader)
    ensures SupersededIds(Readable(corpus, reader), reader) == SupersededIds(corpus, reader)
  {
    var early, late := SupersededIds(Readable(corpus, reader), reader), SupersededIds(corpus, reader);
    forall id | id in late
      ensures id in early
    {
      var s :| s in corpus && Supersedes(corpus, reader, s, id);
      assert Supersedes(Readable(corpus, reader), reader, s, id);
    }
    forall id | id in early
      ensures id in late
    {
      var s :| s in Readable(corpus, reader) && Supersedes(Readable(corpus, reader), reader, s, id);
      assert Supersedes(corpus, reader, s, id);
    }
  }

  // ---------------------------------------------------------------------------------------------
  // Timeline

  datatype Query = Query(project: Option<nat>, pair: Option<(Name, Name)>, about: Option<Name>, includeSuperseded: bool)

  datatype Item = Item(note: Note, superseded: bool)

  function Actors(note: Note): set<Name> {
    {note.author} + (set a | a in note.participants) + (set a | a in note.about)
    + (match note.visibility case DirectTo(r) => {r} case _ => {})
  }

  predicate Matches(note: Note, query: Query, superseded: set<NoteId>) {
    && (query.includeSuperseded || note.id !in superseded)
    && (query.project.Some? ==> note.project == query.project)
    && (query.about.Some? ==> query.about.value in note.about)
    && (query.pair.Some? ==> query.pair.value.0 in Actors(note) && query.pair.value.1 in Actors(note))
  }

  /** Somebody who takes part in the note: its author, a participant, one it is about, or the one it is directed to. */
  ghost predicate TakesPart(note: Note, name: Name) {
    note.author == name || name in note.participants || name in note.about || note.visibility == DirectTo(name)
  }

  /** What each filter of a query asks of a note. */
  lemma MatchesIff(note: Note, query: Query, superseded: set<NoteId>)
    ensures Matches(note, query, superseded) <==>
              && (note.id in superseded ==> query.includeSuperseded)
              && (query.project == None || note.project == query.project)
              && (query.about == None || exists i :: 0 <= i < |note.about| && query.about == Some(note.about[i]))
              && (query.pair == None ||
                  (TakesPart(note, query.pair.value.0) && TakesPart(note, query.pair.value.1)))
  {
  }

  /** Whether the note of a row is shown. */
  predicate Selects(corpus: Corpus, reader: Reader, query: Query, superseded: set<NoteId>, id: NoteId) {
    ReadNote(corpus, reader, id).Some? && Matches(corpus[id], query, superseded)
  }

  /** All items of the rows, newest first, limit aside. */
  function AllItems(corpus: Corpus, reader: Reader, query: Query, superseded: set<NoteId>, rows: seq<NoteId>): seq<Item> {
    if rows == [] then []
    else
      var id := rows[|rows| - 1];
      var earlier := AllItems(corpus, reader, query, superseded, rows[..|rows| - 1]);
      if Selects(corpus, reader, query, superseded, id) then earlier + [Item(corpus[id], id in superseded)] else earlier
  }

  function Clamp(limit: int): nat {
    Max(1, Min(limit, 100))
  }

  function Take<T>(s: seq<T>, n: nat): seq<T> {
    if |s| <= n then s else s[..n]
  }

  function Timeline(corpus: Corpus, reader: Reader, query: Query, limit: int, rows: seq<NoteId>): seq<Item> {
    Take(AllItems(corpus, reader, query, SupersededIds(corpus, reader), rows), Clamp(limit))
  }

  lemma {:induction false} ItemsExtend(corpus: Corpus, reader: Reader, query: Query, superseded: set<NoteId>, rows: seq<NoteId>, n: nat)
    requires n <= |rows|
    ensures AllItems(corpus, reader, query, superseded, rows[..n]) <= AllItems(corpus, reader, query, superseded, rows)
    decreases |rows| - n
  {
    if n < |rows| {
      assert rows[..n + 1][..n] == rows[..n];
      ItemsExtend(corpus, reader, query, superseded, rows, n + 1);
    } else {
      assert rows[..n] == rows;
    }
  }

  /** `timeline`: the loop stops as soon as the limit is reached. */
  method BuildTimeline(corpus: Corpus, reader: Reader, query: Query, limit: int, rows: seq<NoteId>) returns (items: seq<Item>)
    requires IdsMatch(corpus)
    ensures items == Timeline(corpus, reader, query, limit, rows)
  {
    var superseded := FindSuperseded(corpus, reader);
    items := [];
    for i := 0 to |rows|
      invariant items == AllItems(corpus, reader, query, superseded, rows[..i]) && |items| < Clamp(limit)
    {
      assert rows[..i + 1][..i] == rows[..i];
      var note := ReadNote(corpus, reader, rows[i]);
      if note.Some? && Matches(note.value, query, superseded) {
        items := items + [Item(note.value, note.value.id in superseded)];
        if |items| >= Max(1, Min(limit, 100)) {
          ItemsExtend(corpus, reader, query, superseded, rows, i + 1);
          return;
        }
      }
    }
    assert rows[..|rows|] == rows;
  }

  lemma {:induction false} AllItemsAre(corpus: Corpus, reader: Reader, query: Query, superseded: set<NoteId>, rows: seq<NoteId>, item: Item)
    requires IdsMatch(corpus)
    ensures item in AllItems(corpus, reader, query, superseded, rows) <==>
              item.note.id in rows && Selects(corpus, reader, query, superseded, item.note.id)
              && item == Item(corpus[item.note.id], item.note.id in superseded)
  {
    hide Matches, CanRead;
    if rows != [] {
      var before, last := rows[..|rows| - 1], rows[|rows| - 1];
      AllItemsAre(corpus, reader, query, superseded, before, item);
      assert rows == before + [last];
    }
  }

  // ---------------------------------------------------------------------------------------------
  // Late filtering equals early filtering

  /** `ORDER BY recorded_at DESC, note_id DESC`. */
  predicate Newer(a: Note, b: Note) {
    a.recordedAt > b.recordedAt || (a.recordedAt == b.recordedAt && a.id > b.id)
  }

  ghost predicate NewestFirst(corpus: Corpus, rows: seq<NoteId>) {
    && (forall id :: id in rows <==> id in corpus)
    && (forall i, j :: 0 <= i < j < |rows| ==> Newer(corpus[rows[i]], corpus[rows[j]]))
  }

  function Kept(rows: seq<NoteId>, ids: set<NoteId>): (kept: seq<NoteId>)
    ensures forall id :: id in kept <==> id in rows && id in ids
  {
    if rows == [] then []
    else
      var earlier := Kept(rows[..|rows| - 1], ids);
      if rows[|rows| - 1] in ids then earlier + [rows[|rows| - 1]] else earlier
  }

  ghost predicate ItemsNewestFirst(items: seq<Item>) {
    forall i, j :: 0 <= i < j < |items| ==> Newer(items[i].note, items[j].note)
  }

  lemma {:induction false} ItemsStayOrdered(corpus: Corpus, reader: Reader, query: Query, superseded: set<NoteId>, rows: seq<NoteId>)
    requires IdsMatch(corpus) && forall id :: id in rows ==> id in corpus
    requires forall i, j :: 0 <= i < j < |rows| ==> Newer(corpus[rows[i]], corpus[rows[j]])
    ensures ItemsNewestFirst(AllItems(corpus, reader, query, superseded, rows))
  {
    hide Selects, Newer;
    if rows != [] {
      var before, last := rows[..|rows| - 1], rows[|rows| - 1];
      ItemsStayOrdered(corpus, reader, query, superseded, before);
      forall item | item in AllItems(corpus, reader, query, superseded, before)
        ensures Newer(item.note, corpus[last])
      {
        AllItemsAre(corpus, reader, query, superseded, before, item);
      }
    }
  }

  /**
   * The timeline lists newest first; it shows a note, with its true mark, only if the note is readable and matches; and
   * it shows every such note unless it is full of newer ones.
   */
  lemma TimelineIsExact(corpus: Corpus, reader: Reader, query: Query, limit: int, rows: seq<NoteId>, id: NoteId)
    requires IdsMatch(corpus) && NewestFirst(corpus, rows) && id in corpus
    ensures var superseded := SupersededIds(corpus, reader);
            var items := Timeline(corpus, reader, query, limit, rows);
            var item := Item(corpus[id], id in superseded);
            && ItemsNewestFirst(items) && |items| <= Clamp(limit)
            && (forall i, j :: 0 <= i < j < |items| ==>
                  && items[i].note.recordedAt >= items[j].note.recordedAt
                  && (items[i].note.recordedAt == items[j].note.recordedAt ==> items[i].note.id > items[j].note.id))
            && Clamp(limit) == (if limit < 1 then 1 else if limit > 100 then 100 else limit)
            && (forall other :: other in items && other.note.id == id ==> other == item)
            && (item in items ==> Selects(corpus, reader, query, superseded, id))
            && (Selects(corpus, reader, query, superseded, id) ==>
                  item in items || (|items| == Clamp(limit) && forall i :: 0 <= i < |items| ==> Newer(items[i].note, corpus[id])))
  {
    var superseded := SupersededIds(corpus, reader);
    var all := AllItems(corpus, reader, query, superseded, rows);
    hide Selects, SupersededIds;
    ItemsStayOrdered(corpus, reader, query, superseded, rows);
    forall item: Item | item.note.id == id
      ensures item in all <==> Selects(corpus, reader, query, superseded, id) && item == Item(corpus[id], id in superseded)
    {
      AllItemsAre(corpus, reader, query, superseded, rows, item);
    }
    var n := Clamp(limit);
    if |all| > n && Item(corpus[id], id in superseded) in all[n..] {
      var j :| n <= j < |all| && all[j] == Item(corpus[id], id in superseded);
    } else if |all| > n {
      assert all == all[..n] + all[n..];
    }
  }

  lemma {:induction false} KeptStaysOrdered(corpus: Corpus, rows: seq<NoteId>, ids: set<NoteId>)
    requires forall id :: id in rows ==> id in corpus
    requires forall i, j :: 0 <= i < j < |rows| ==> Newer(corpus[rows[i]], corpus[rows[j]])
    ensures forall i, j :: 0 <= i < j < |Kept(rows, ids)| ==> Newer(corpus[Kept(rows, ids)[i]], corpus[Kept(rows, ids)[j]])
  {
    if rows != [] {
      var before, last := rows[..|rows| - 1], rows[|rows| - 1];
      KeptStaysOrdered(corpus, before, ids);
      forall id | id in Kept(before, ids)
        ensures Newer(corpus[id], corpus[last])
      {
      }
    }
  }

  /** The order is total: a set of notes has one newest-first listing. */
  lemma {:induction false} OneListing(corpus: Corpus, a: seq<NoteId>, b: seq<NoteId>)
    requires IdsMatch(corpus) && (forall id :: id in a ==> id in corpus) && (forall id :: id in a <==> id in b)
    requires forall i, j :: 0 <= i < j < |a| ==> Newer(corpus[a[i]], corpus[a[j]])
    requires forall i, j :: 0 <= i < j < |b| ==> Newer(corpus[b[i]], corpus[b[j]])
    ensures a == b
  {
    assert a != [] ==> a[|a| - 1] in a;
    assert b != [] ==> b[|b| - 1] in b;
    if a != [] {
      var m, n := |a| - 1, |b| - 1;
      assert a[m] in b && a[m] in a;
      assert b[n] in b;
      var j :| 0 <= j < |b| && b[j] == a[m];
      var i :| 0 <= i < |a| && a[i] == b[n];
      assert a[m] == b[n];
      forall id
        ensures id in a[..m] <==> id in b[..n]
      {
        assert id in a[..m] <==> id in a && id != a[m];
        assert id in b[..n] <==> id in b && id != b[n];
      }
      OneListing(corpus, a[..m], b[..n]);
      assert a == a[..m] + [a[m]] && b == b[..n] + [b[n]];
    }
  }

  lemma SelectionIsLocal(corpus: Corpus, reader: Reader, query: Query, superseded: set<NoteId>, id: NoteId)
    ensures var readable := Readable(corpus, reader);
            && (Selects(corpus, reader, query, superseded, id) ==> id in readable && readable[id] == corpus[id])
            && (id in readable ==>
                  Selects(readable, reader, query, superseded, id) == Selects(corpus, reader, query, superseded, id))
  {
    hide Matches;
  }

  lemma ItemsSnoc(corpus: Corpus, reader: Reader, query: Query, superseded: set<NoteId>, rows: seq<NoteId>, id: NoteId)
    ensures var earlier := AllItems(corpus, reader, query, superseded, rows);
            AllItems(corpus, reader, query, superseded, rows + [id]) ==
            if Selects(corpus, reader, query, superseded, id) then earlier + [Item(corpus[id], id in superseded)] else earlier
  {
    hide Selects;
    assert (rows + [id])[..|rows|] == rows;
  }

  lemma {:induction false} HiddenRowsShowNothing(corpus: Corpus, reader: Reader, query: Query, superseded: set<NoteId>, rows: seq<NoteId>)
    ensures AllItems(corpus, reader, query, superseded, rows) ==
            AllItems(Readable(corpus, reader), reader, query, superseded, Kept(rows, Readable(corpus, reader).Keys))
  {
    if rows != [] {
      var before, last := rows[..|rows| - 1], rows[|rows| - 1];
      HiddenRowsShowNothing(corpus, reader, query, superseded, before);
      SelectionIsLocal(corpus, reader, query, superseded, last);
      hide Readable, Selects, AllItems, ReadNote;
      assert rows == before + [last];
      ItemsSnoc(corpus, reader, query, superseded, before, last);
      ItemsSnoc(Readable(corpus, reader), reader, query, superseded, Kept(before, Readable(corpus, reader).Keys), last);
    }
  }

  /** The timeline over the whole corpus is the timeline over only the notes the caller can read: items, marks and limit. */
  lemma TimelineIsLocal(corpus: Corpus, reader: Reader, query: Query, limit: int, rows: seq<NoteId>, own: seq<NoteId>)
    requires IdsMatch(corpus) && NewestFirst(corpus, rows) && NewestFirst(Readable(corpus, reader), own)
    ensures Timeline(corpus, reader, query, limit, rows) == Timeline(Readable(corpus, reader), reader, query, limit, own)
  {
    var readable := Readable(corpus, reader);
    SupersessionIsLocal(corpus, reader);
    HiddenRowsShowNothing(corpus, reader, query, SupersededIds(corpus, reader), rows);
    var kept := Kept(rows, readable.Keys);
    KeptStaysOrdered(corpus, rows, readable.Keys);
    assert kept == own by {
      hide Newer, CanRead;
      assert forall id :: id in own ==> readable[id] == corpus[id];
      OneListing(corpus, kept, own);
    }
  }
}
