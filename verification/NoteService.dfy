/** Creating and synchronising as the service does: reservations, note files, job table, index and ledger changed in place. */
module NoteService {
  import opened Base
  import opened Notes
  import opened NoteIndex
  import IndexStore
  import LedgerStore
  import Ledger
  import LedgerInvariant
  import opened NoteCreation
  import opened CreationRuns

  class Service {
    var files: Files
    var keys: map<Key, Reservation>
    const index: IndexStore.Store
    const ledger: LedgerStore.DeliveryStore

    function Contents(): World
      reads this, index, ledger
    {
      World(files, index.Contents(), ledger.Contents(), keys)
    }

    ghost predicate Valid()
      reads this, index, ledger
    {
      ledger.Valid() && WorldOk(Contents(), ledger.legacy)
    }

    constructor (files: Files)
      ensures fresh(index) && fresh(ledger) && this.files == files
      ensures Initial(Contents(), ledger.legacy) && Valid()
    {
      this.files, keys := files, map[];
      var i := new IndexStore.Store();
      var l := new LedgerStore.DeliveryStore();
      index, ledger := i, l;
      new;
      InitialOk(Contents(), ledger.legacy);
    }

    /** The part that a new note and a repeated request share. */
    method ReconcileCreate(note: Note, a: NoteCreation.Attempt)
      requires ledger.Valid() && a.stages >= ALL_STAGES
      requires Orders(a.order, index.jobs) && JobOf(note) in a.order
      modifies index, ledger`deliveries, ledger`projection, ledger`snapshots, ledger`highWater
      ensures ledger.Valid() && Contents() == Reconcile(old(Contents()), note, a)
    {
      hide LedgerInvariant.DeliveriesOk, ProcessJobs, Ledger.Generate, Reconcile;
      ghost var before := Contents();
      if JobOf(note) !in index.jobs {
        index.jobs := index.jobs[JobOf(note) := Pending];
      }
      assert index.Contents() == Enqueued(before.s, note);
      var _ := index.ProcessPendingJobs(files, a.order);
      ledger.GenerateDeliveries(note, a.gap);
      ReconcileIs(before, note, a);
    }

    /** The reservation, unless the key has one, and the note file. */
    method WriteNote(a: NoteCreation.Attempt) returns (note: Note)
      requires a.stages >= ALL_STAGES
      modifies this
      ensures note == NoteFor(a.request, a.key.principal, IdOf(old(Contents()), a), a.now)
      ensures Contents() == Write(old(Contents()), a)
    {
      var id := if a.key in keys then keys[a.key].id else a.id;
      note := NoteFor(a.request, a.key.principal, id, a.now);
      if a.key !in keys {
        keys := keys[a.key := Reservation(a.request, id)];
      }
      files := files[Canonical(id) := note];
    }

    /** The whole of an attempt that nothing interrupts. */
    method Attempt(a: NoteCreation.Attempt) returns (outcome: Outcome)
      requires ledger.Valid() && Owns(files, IdOf(Contents(), a)) && a.stages >= ALL_STAGES
      requires Orders(a.order, index.jobs) && JobOf(NoteOf(Contents(), a)) in a.order
      requires a.key !in keys ==> Canonical(a.id) !in files
      modifies this, index, ledger`deliveries, ledger`projection, ledger`snapshots, ledger`highWater
      ensures ledger.Valid()
      ensures outcome == OutcomeOf(old(Contents()), a)
      ensures Contents() == Create(old(Contents()), a)
    {
      ghost var before := Contents();
      hide Reconcile, MaySupersede, Orders;
      if a.key in keys && keys[a.key].request != a.request {
        return Conflict;
      }
      var id := if a.key in keys then keys[a.key].id else a.id;
      WrittenIsFound(files, id);
      assert Find(files, id).None? ==> Canonical(id) !in files;
      hide Find, Owns;
      var found := Find(files, id);
      if a.key in keys && found.Some? {
        CreateReconciles(before, files[found.value], a);
        outcome := Returned(id, false);
        hide Create, OutcomeOf;
        ReconcileCreate(files[found.value], a);
      } else if !MaySupersede(files, a) {
        outcome := Rejected;
      } else {
        outcome := Returned(id, true);
        CreateWrites(before, a);
        hide Create, Write, OutcomeOf;
        var note := WriteNote(a);
        ReconcileCreate(note, a);
      }
    }

    /** `_create_note_owned_locked` when nothing crashes. */
    method CreateNote(a: NoteCreation.Attempt) returns (outcome: Outcome)
      requires Valid() && MayTry(Contents(), ledger.legacy, a) && a.stages >= ALL_STAGES
      modifies this, index, ledger`deliveries, ledger`projection, ledger`snapshots, ledger`highWater
      ensures Valid()
      ensures outcome == OutcomeOf(old(Contents()), a)
      ensures Contents() == Create(old(Contents()), a)
    {
      hide WorldOk, MayTry, Orders, Owns, Create, OutcomeOf, NoteOf, LedgerInvariant.DeliveriesOk;
      CreateAllowed(Contents(), ledger.legacy, a);
      outcome := Attempt(a);
    }

    /** The evaluations that end a synchronisation. */
    method DeliverChanged(manifest: map<NoteId, Row>, ids: seq<NoteId>, gap: nat)
      requires forall i :: 0 <= i < |ids| ==> ids[i] in NoteIndex.Valid(files)
      requires ledger.Valid()
      modifies ledger`deliveries, ledger`projection, ledger`snapshots, ledger`highWater
      ensures ledger.Contents() == EvaluateChanged(old(ledger.Contents()), files, manifest, ids, gap)
      ensures ledger.Valid()
    {
      hide LedgerInvariant.DeliveriesOk, Ledger.Generate;
      for i := 0 to |ids|
        invariant ledger.Valid()
        invariant ledger.Contents() == EvaluateChanged(old(ledger.Contents()), files, manifest, ids[..i], gap)
      {
        assert ids[..i + 1][..i] == ids[..i];
        var op := JobFor(files, ids[i]);
        if !(op.id in manifest && manifest[op.id].path == op.path && manifest[op.id].note == op.note) {
          ledger.GenerateDeliveries(op.note, gap);
        }
      }
      assert ids[..|ids|] == ids;
    }

    /** `_sync_filesystem_locked`: the index, then the deliveries of every note that differed from the manifest. */
    method SyncFilesystem(ids: seq<NoteId>, order: seq<Op>, gap: nat)
      requires Valid() && Lists(ids, files) && Orders(order, Recovered(files, index.Contents(), ids).jobs)
      modifies index, ledger`deliveries, ledger`projection, ledger`snapshots, ledger`highWater
      ensures Valid()
      ensures index.Contents() == Sync(files, old(index.Contents()), ids, order)
      ensures ledger.Contents() == EvaluateChanged(old(ledger.Contents()), files, old(index.rows), ids, gap)
    {
      ghost var w := Contents();
      hide WorldOk, LedgerInvariant.DeliveriesOk, Sync, Orders, Recovered;
      SyncKeeps(w, ledger.legacy, ids, order, gap);
      var manifest := index.rows;
      var _ := index.SyncFilesystem(files, ids, order);
      DeliverChanged(manifest, ids, gap);
    }
  }

  lemma SyncKeeps(w: World, legacy: set<Ledger.Route>, ids: seq<NoteId>, order: seq<Op>, gap: nat)
    requires WorldOk(w, legacy) && Lists(ids, w.files)
    ensures TableOk(w.s.table)
    ensures WorldOk(World(w.files, Sync(w.files, w.s, ids, order),
                          EvaluateChanged(w.tables, w.files, w.s.table.rows, ids, gap), w.keys), legacy)
  {
    assert IndexOk(w.files, w.s, Bound(w.keys));
    assert TableOk(w.s.table);
    hide WorldOk, IndexOk, Sync;
    SyncFits(w.files, w.s, ids, order, Bound(w.keys));
    IndexOnly(w, legacy, Sync(w.files, w.s, ids, order));
    EvaluateChangedKeeps(w.(s := Sync(w.files, w.s, ids, order)), legacy, w.s.table.rows, ids, gap);
  }

  lemma CreateAllowed(w: World, legacy: set<Ledger.Route>, a: NoteCreation.Attempt)
    requires WorldOk(w, legacy) && MayTry(w, legacy, a)
    ensures Owns(w.files, IdOf(w, a)) && Orders(a.order, w.s.jobs) && JobOf(NoteOf(w, a)) in a.order
    ensures a.key !in w.keys ==> Canonical(a.id) !in w.files
    ensures WorldOk(Create(w, a), legacy)
  {
    CreateKeeps(w, legacy, a);
    AttemptOwns(w, legacy, a);
    hide Create, Owns;
  }
}
