/**
 * Whole runs of resumable uploads: any order of chunks, duplicates, refusals, crashes and repeated commits, and manifests
 * that retention moves to the trash and back.
 */
module UploadRuns {
  import opened Base
  import opened Upload

  // A crash shows as fewer `writes`, an unlanded chunk or a partly `swept` directory; the next start keeps the disk.
  datatype Step =
    | Begin(u: UploadId, size: int, chunkSize: int, sha: Digest, owner: Name, media: nat)
    | Put(u: UploadId, index: int, data: Bytes, expected: Option<Digest>, landed: bool)
    | Finish(u: UploadId, writes: nat, swept: set<nat>)
    | Abandon(u: UploadId, writes: nat, swept: set<nat>)
    | Stream(data: Bytes, owner: Name, media: nat, expected: Option<Digest>, writes: nat)
    | Trash(id: ArtifactId)
    | Restore(id: ArtifactId)

  // `first` remembers the first bytes that were accepted at each index; `trash` holds the trashed manifests.
  datatype World = World(store: Store, first: map<Key, Bytes>, trash: map<ArtifactId, Manifest>)

  predicate Takes(st: Store, step: Step)
    requires SessionsOk(st.sessions)
  {
    step.Put? && step.landed && PutOutcomeOf(st, step.u, step.index, step.data, step.expected) == Accepted
  }

  function NextStore(c: Config, st: Store, step: Step): (after: Store)
    requires SessionsOk(st.sessions)
    ensures SessionsOk(after.sessions)
  {
    match step
    // A new upload id is random and unused.
    case Begin(u, size, chunkSize, sha, owner, media) =>
      if u in st.sessions then st else Initiate(c, st, u, size, chunkSize, sha, owner, media)
    case Put(u, index, data, expected, landed) => if landed then PutChunk(st, u, index, data, expected) else st
    case Finish(u, writes, swept) => Commit(c, st, u, writes, swept)
    case Abandon(u, writes, swept) => Cancel(st, u, writes, swept)
    case Stream(data, owner, media, expected, writes) => PutStream(c, st, data, owner, media, expected, writes)
    case Trash(_) => st
    case Restore(_) => st
  }

  /** Only the manifest moves, and only to a vacant place; the blob is retained. */
  function TrashManifest(w: World, id: ArtifactId): World {
    if id !in w.store.manifests || id in w.trash then w
    else w.(store := w.store.(manifests := w.store.manifests - {id}), trash := w.trash[id := w.store.manifests[id]])
  }

  function RestoreManifest(w: World, id: ArtifactId): World {
    if id !in w.trash || id in w.store.manifests then w
    else w.(store := w.store.(manifests := w.store.manifests[id := w.trash[id]]), trash := w.trash - {id})
  }

  function NextFirsts(w: World, step: Step): map<Key, Bytes>
    requires SessionsOk(w.store.sessions)
  {
    if Takes(w.store, step) && (step.u, step.index) !in w.first then w.first[(step.u, step.index) := step.data] else w.first
  }

  function Next(c: Config, w: World, step: Step): (after: World)
    requires SessionsOk(w.store.sessions)
    ensures SessionsOk(after.store.sessions)
  {
    if step.Trash? then TrashManifest(w, step.id)
    else if step.Restore? then RestoreManifest(w, step.id)
    else World(NextStore(c, w.store, step), NextFirsts(w, step), w.trash)
  }

  function Execute(c: Config, w: World, steps: seq<Step>): (after: World)
    requires SessionsOk(w.store.sessions)
    ensures SessionsOk(after.store.sessions)
  {
    if steps == [] then w else Next(c, Execute(c, w, steps[..|steps| - 1]), steps[|steps| - 1])
  }

  const START := World(EMPTY, map[], map[])

  ghost predicate Reachable(c: Config, w: World) {
    exists steps :: w == Execute(c, START, steps)
  }

  // ---------------------------------------------------------------------------------------------
  // Every reachable state

  function Count(s: Session): nat
    requires s.chunkSize > 0
  {
    ChunkCount(s.size, s.chunkSize)
  }

  ghost predicate AllRemembered(first: map<Key, Bytes>, u: UploadId, n: nat) {
    forall i: nat :: i < n ==> (u, i) in first
  }

  /** A completed session's declared digest is that of the first bytes accepted at each index, in index order. */
  ghost predicate FirstsDeclared(first: map<Key, Bytes>, u: UploadId, s: Session)
    requires s.chunkSize > 0
  {
    s.status.Completed? ==> AllRemembered(first, u, Count(s)) && s.sha == Sha(Concat(Parts(first, u, Count(s))))
  }

  type Sessions = map<UploadId, Session>

  ghost predicate FirstsOfSessions(first: map<Key, Bytes>, sessions: Sessions) {
    forall k :: k in first ==> k.0 in sessions
  }

  /** A chunk file always holds the bytes first accepted there. */
  ghost predicate ChunksAreFirsts(first: map<Key, Bytes>, chunks: map<Key, Bytes>) {
    forall k :: k in chunks ==> k in first && first[k] == chunks[k]
  }

  /** Until an upload is completed or canceled its accepted chunks are all on disk. */
  ghost predicate PendingKeepsFirsts(first: map<Key, Bytes>, sessions: Sessions, chunks: map<Key, Bytes>) {
    forall k :: k in first && k.0 in sessions && sessions[k.0].status == Pending ==> k in chunks
  }

  ghost predicate CompletedFromFirsts(first: map<Key, Bytes>, sessions: Sessions)
    requires SessionsOk(sessions)
  {
    forall u :: u in sessions ==> FirstsDeclared(first, u, sessions[u])
  }

  ghost predicate FirstsOk(first: map<Key, Bytes>, sessions: Sessions, chunks: map<Key, Bytes>)
    requires SessionsOk(sessions)
  {
    && FirstsOfSessions(first, sessions)
    && ChunksAreFirsts(first, chunks)
    && PendingKeepsFirsts(first, sessions, chunks)
    && CompletedFromFirsts(first, sessions)
  }

  /** A trashed manifest still has its blob. */
  ghost predicate TrashOk(c: Config, blobs: map<Digest, Bytes>, trash: map<ArtifactId, Manifest>) {
    forall id :: id in trash ==> ManifestOk(c, blobs, id, trash[id])
  }

  ghost predicate UploadsOk(c: Config, w: World) {
    StoreOk(c, w.store) && FirstsOk(w.first, w.store.sessions, w.store.chunks)
  }

  ghost predicate WorldOk(c: Config, w: World) {
    UploadsOk(c, w) && TrashOk(c, w.store.blobs, w.trash)
  }

  lemma {:induction false} PartsAgree(a: map<Key, Bytes>, b: map<Key, Bytes>, u: UploadId, n: nat)
    requires forall i: nat :: i < n ==> (u, i) in a && (u, i) in b && a[(u, i)] == b[(u, i)]
    ensures Parts(a, u, n) == Parts(b, u, n)
  {
    if n > 0 { PartsAgree(a, b, u, n - 1); }
  }

  lemma TakenKeepsFirsts(first: map<Key, Bytes>, sessions: Sessions, chunks: map<Key, Bytes>, k: Key, data: Bytes)
    requires SessionsOk(sessions) && FirstsOk(first, sessions, chunks)
    requires k.0 in sessions && k !in first
    ensures FirstsOk(first[k := data], sessions, chunks[k := data])
  {
    forall u | u in sessions
      ensures FirstsDeclared(first[k := data], u, sessions[u])
    {
      assert FirstsDeclared(first, u, sessions[u]);
      if sessions[u].status.Completed? {
        PartsAgree(first, first[k := data], u, Count(sessions[u]));
      }
    }
  }

  lemma NewSessionKeepsFirsts(first: map<Key, Bytes>, sessions: Sessions, chunks: map<Key, Bytes>, u: UploadId, s: Session)
    requires SessionsOk(sessions) && FirstsOk(first, sessions, chunks) && u !in sessions
    requires s.chunkSize > 0 && s.status == Pending
    ensures FirstsOk(first, sessions[u := s], chunks)
  {
    var more := sessions[u := s];
    forall v | v in more
      ensures FirstsDeclared(first, v, more[v])
    {
      assert v != u ==> FirstsDeclared(first, v, sessions[v]);
    }
  }

  lemma EndingKeepsFirsts(first: map<Key, Bytes>, sessions: Sessions, chunks: map<Key, Bytes>, u: UploadId, status: Status,
                          fewer: map<Key, Bytes>)
    requires SessionsOk(sessions) && FirstsOk(first, sessions, chunks) && u in sessions
    requires status != Pending && FirstsDeclared(first, u, sessions[u].(status := status))
    requires forall k :: k in fewer ==> k in chunks && fewer[k] == chunks[k]
    requires forall k :: k in chunks && k.0 != u ==> k in fewer
    ensures FirstsOk(first, sessions[u := sessions[u].(status := status)], fewer)
  {
    var ended := sessions[u := sessions[u].(status := status)];
    assert PendingKeepsFirsts(first, ended, fewer) by {
      forall k | k in first && k.0 in ended && ended[k.0].status == Pending
        ensures k in fewer
      {
        assert k.0 != u && sessions[k.0].status == Pending;
        assert k in chunks;
      }
    }
    forall v | v in ended
      ensures FirstsDeclared(first, v, ended[v])
    {
      assert FirstsDeclared(first, v, sessions[v]);
    }
  }

  lemma PutStays(c: Config, w: World, step: Step)
    requires UploadsOk(c, w) && step.Put?
    ensures UploadsOk(c, Next(c, w, step))
  {
    if Takes(w.store, step) {
      PutKeeps(c, w.store, step.u, step.index, step.data, step.expected);
      TakenKeepsFirsts(w.first, w.store.sessions, w.store.chunks, (step.u, step.index), step.data);
    }
  }

  lemma BeginStays(c: Config, w: World, step: Step)
    requires UploadsOk(c, w) && step.Begin?
    ensures UploadsOk(c, Next(c, w, step))
  {
    if step.u !in w.store.sessions && InitiateRefusal(c, step.size, step.chunkSize).None? {
      InitiateKeeps(c, w.store, step.u, step.size, step.chunkSize, step.sha, step.owner, step.media);
      NewSessionKeepsFirsts(w.first, w.store.sessions, w.store.chunks, step.u,
                            Session(Pending, step.size, step.chunkSize, step.sha, step.owner, step.media));
    }
  }

  lemma CommitDeclares(c: Config, first: map<Key, Bytes>, st: Store, u: UploadId)
    requires SessionsOk(st.sessions) && ChunksAreFirsts(first, st.chunks) && CommitOutcomeOf(c, st, u).Committed?
    ensures FirstsDeclared(first, u, st.sessions[u].(status := Completed(c.idOf(Sha(Assembled(st, u))))))
  {
    PartsAgree(st.chunks, first, u, Count(st.sessions[u]));
  }

  lemma FinishStays(c: Config, w: World, step: Step)
    requires UploadsOk(c, w) && step.Finish?
    ensures UploadsOk(c, Next(c, w, step))
  {
    var st, u := w.store, step.u;
    CommitKeeps(c, st, u, step.writes, step.swept);
    hide Assembled, AllPresent, StreamRefusal;
    if CommitOutcomeOf(c, st, u).Committed? && step.writes > 2 {
      CommitDeclares(c, w.first, st, u);
      EndingKeepsFirsts(w.first, st.sessions, st.chunks, u, Completed(c.idOf(Sha(Assembled(st, u)))),
                        Commit(c, st, u, step.writes, step.swept).chunks);
    }
  }

  lemma AbandonStays(c: Config, w: World, step: Step)
    requires UploadsOk(c, w) && step.Abandon?
    ensures UploadsOk(c, Next(c, w, step))
  {
    var st, u := w.store, step.u;
    CancelKeeps(c, st, u, step.writes, step.swept);
    if CancelRefusal(st, u).None? && step.writes > 0 {
      EndingKeepsFirsts(w.first, st.sessions, st.chunks, u, Canceled, Cancel(st, u, step.writes, step.swept).chunks);
    }
  }

  lemma StreamStays(c: Config, w: World, step: Step)
    requires UploadsOk(c, w) && step.Stream?
    ensures UploadsOk(c, Next(c, w, step))
  {
    StreamKeeps(c, w.store, step.data, step.owner, step.media, step.writes);
  }

  lemma TrashStays(c: Config, w: World, id: ArtifactId)
    requires WorldOk(c, w)
    ensures WorldOk(c, TrashManifest(w, id))
  {
    if id in w.store.manifests {
      assert ManifestOk(c, w.store.blobs, id, w.store.manifests[id]);
    }
  }

  lemma RestoreStays(c: Config, w: World, id: ArtifactId)
    requires WorldOk(c, w)
    ensures WorldOk(c, RestoreManifest(w, id))
  {
    if id in w.trash {
      assert ManifestOk(c, w.store.blobs, id, w.trash[id]);
    }
  }

  lemma TrashKeepsBlobs(c: Config, before: World, after: World)
    requires TrashOk(c, before.store.blobs, before.trash) && after.trash == before.trash
    requires Grows(before.store.blobs, after.store.blobs)
    ensures TrashOk(c, after.store.blobs, after.trash)
  {
    forall id | id in after.trash
      ensures ManifestOk(c, after.store.blobs, id, after.trash[id])
    {
      assert ManifestOk(c, before.store.blobs, id, before.trash[id]);
    }
  }

  lemma StepStays(c: Config, w: World, step: Step)
    requires WorldOk(c, w)
    ensures WorldOk(c, Next(c, w, step))
  {
    StepPreserves(c, w, step);
    hide StoreOk, FirstsOk, TrashOk, NextStore, TrashManifest, RestoreManifest, Takes;
    match step {
      case Begin(_, _, _, _, _, _) => BeginStays(c, w, step);
      case Put(_, _, _, _, _) => PutStays(c, w, step);
      case Finish(_, _, _) => FinishStays(c, w, step);
      case Abandon(_, _, _) => AbandonStays(c, w, step);
      case Stream(_, _, _, _, _) => StreamStays(c, w, step);
      case Trash(id) => TrashStays(c, w, id);
      case Restore(id) => RestoreStays(c, w, id);
    }
    if !step.Trash? && !step.Restore? { TrashKeepsBlobs(c, w, Next(c, w, step)); }
  }

  /** Every state of every run, crashes included, keeps the whole invariant. */
  lemma {:induction false} RunsStay(c: Config, w: World, steps: seq<Step>)
    requires WorldOk(c, w)
    ensures WorldOk(c, Execute(c, w, steps))
  {
    if steps != [] {
      RunsStay(c, w, steps[..|steps| - 1]);
      StepStays(c, Execute(c, w, steps[..|steps| - 1]), steps[|steps| - 1]);
    }
  }

  lemma ReachableOk(c: Config, w: World)
    requires Reachable(c, w)
    ensures WorldOk(c, w)
  {
    var steps :| w == Execute(c, START, steps);
    RunsStay(c, START, steps);
  }

  // ---------------------------------------------------------------------------------------------
  // Theorems

  /** In every crash state a manifest implies its blob, of the recorded size and with the recorded digest. */
  lemma ManifestHasItsBlob(c: Config, w: World, id: ArtifactId)
    requires Reachable(c, w) && id in w.store.manifests
    ensures var m := w.store.manifests[id];
            && m.sha in w.store.blobs && Sha(w.store.blobs[m.sha]) == m.sha && |w.store.blobs[m.sha]| == m.size
            && GetBytes(w.store, id) == Some(Some(w.store.blobs[m.sha]))
  {
    ReachableOk(c, w);
    assert ManifestOk(c, w.store.blobs, id, w.store.manifests[id]);
  }

  /**
   * A completed upload's content is the first accepted bytes per index in index order, as long as declared and with the
   * declared digest. Its blob is there, and its artifact serves it if and only if a manifest of that digest is in place.
   */
  lemma CompletedYieldsFirstBytes(c: Config, w: World, u: UploadId)
    requires Reachable(c, w) && u in w.store.sessions && w.store.sessions[u].status.Completed?
    ensures SessionsOk(w.store.sessions)
    ensures var s := w.store.sessions[u];
            && AllRemembered(w.first, u, Count(s))
            && var content := Concat(Parts(w.first, u, Count(s)));
               && |content| == s.size && Sha(content) == s.sha && s.status.artifact == c.idOf(s.sha)
               && s.sha in w.store.blobs && w.store.blobs[s.sha] == content
               && (GetBytes(w.store, s.status.artifact) == Some(Some(content)) <==> InPlace(w.store, s))
  {
    ReachableOk(c, w);
    var s := w.store.sessions[u];
    assert FirstsDeclared(w.first, u, s) && CompletedOk(c, w.store.blobs, s);
    if s.status.artifact in w.store.manifests {
      assert ManifestOk(c, w.store.blobs, s.status.artifact, w.store.manifests[s.status.artifact]);
    }
  }

  /** The artifact of a completed session has a manifest, and it is of the session's digest. */
  predicate InPlace(st: Store, s: Session)
    requires s.status.Completed?
  {
    s.status.artifact in st.manifests && st.manifests[s.status.artifact].sha == s.sha
  }

  ghost predicate Grows<K, V>(before: map<K, V>, after: map<K, V>) {
    forall k :: k in before ==> k in after && after[k] == before[k]
  }

  /** A session keeps its declaration, and its status once that is final. */
  ghost predicate SessionMoves(s: Session, u: UploadId, sessions: Sessions) {
    && u in sessions
    && sessions[u] == s.(status := sessions[u].status)
    && (s.status != Pending ==> sessions[u] == s)
  }

  ghost predicate SessionsMove(before: Sessions, after: Sessions) {
    forall u :: u in before ==> SessionMoves(before[u], u, after)
  }

  /** The manifest is in place or in the trash. */
  ghost predicate Kept(w: World, id: ArtifactId, m: Manifest) {
    (id in w.store.manifests && w.store.manifests[id] == m) || (id in w.trash && w.trash[id] == m)
  }

  /** No manifest is lost or overwritten. */
  ghost predicate ManifestsKept(before: World, after: World) {
    forall id, m :: Kept(before, id, m) ==> Kept(after, id, m)
  }

  ghost predicate Preserved(before: World, after: World) {
    && Grows(before.first, after.first)
    && Grows(before.store.blobs, after.store.blobs)
    && ManifestsKept(before, after)
    && SessionsMove(before.store.sessions, after.store.sessions)
  }

  lemma WritesPreserve(c: Config, st: Store, data: Bytes, owner: Name, media: nat, writes: nat)
    ensures Grows(st.blobs, AfterStream(c, st, data, owner, media, writes).blobs)
    ensures Grows(st.manifests, AfterStream(c, st, data, owner, media, writes).manifests)
  {
  }

  lemma StreamPreserves(c: Config, st: Store, data: Bytes, owner: Name, media: nat, expected: Option<Digest>, writes: nat)
    ensures Grows(st.blobs, PutStream(c, st, data, owner, media, expected, writes).blobs)
    ensures Grows(st.manifests, PutStream(c, st, data, owner, media, expected, writes).manifests)
  {
    hide AfterStream;
    WritesPreserve(c, st, data, owner, media, writes);
  }

  lemma CommitPreserves(c: Config, st: Store, u: UploadId, writes: nat, swept: set<nat>)
    requires SessionsOk(st.sessions)
    ensures Grows(st.blobs, Commit(c, st, u, writes, swept).blobs)
    ensures Grows(st.manifests, Commit(c, st, u, writes, swept).manifests)
    ensures SessionsMove(st.sessions, Commit(c, st, u, writes, swept).sessions)
  {
    hide Assembled, AfterStream, Swept;
    if CommitOutcomeOf(c, st, u).Committed? {
      WritesPreserve(c, st, Assembled(st, u), st.sessions[u].owner, st.sessions[u].media, writes);
    }
  }

  lemma BeginPreserves(c: Config, w: World, step: Step)
    requires SessionsOk(w.store.sessions) && step.Begin?
    ensures Preserved(w, Next(c, w, step))
  {
  }

  lemma UploadPreserves(c: Config, w: World, step: Step)
    requires SessionsOk(w.store.sessions) && (step.Put? || step.Abandon?)
    ensures Preserved(w, Next(c, w, step)) && Grows(w.store.manifests, Next(c, w, step).store.manifests)
  {
  }

  lemma MovePreserves(w: World, id: ArtifactId)
    ensures Preserved(w, TrashManifest(w, id)) && Preserved(w, RestoreManifest(w, id))
    ensures Grows(w.store.manifests, RestoreManifest(w, id).store.manifests)
  {
  }

  lemma StepPreserves(c: Config, w: World, step: Step)
    requires SessionsOk(w.store.sessions)
    ensures Preserved(w, Next(c, w, step))
    ensures step.Trash? || Grows(w.store.manifests, Next(c, w, step).store.manifests)
  {
    hide Commit, PutStream, PutChunk, Cancel, TrashManifest, RestoreManifest, CommitOutcomeOf;
    match step {
      case Begin(_, _, _, _, _, _) => BeginPreserves(c, w, step);
      case Put(_, _, _, _, _) => UploadPreserves(c, w, step);
      case Finish(u, writes, swept) => CommitPreserves(c, w.store, u, writes, swept);
      case Abandon(_, _, _) => UploadPreserves(c, w, step);
      case Stream(data, owner, media, expected, writes) => StreamPreserves(c, w.store, data, owner, media, expected, writes);
      case Trash(id) => MovePreserves(w, id);
      case Restore(id) => MovePreserves(w, id);
    }
  }

  lemma SessionsMoveOn(a: Sessions, b: Sessions, c: Sessions)
    requires SessionsMove(a, b) && SessionsMove(b, c)
    ensures SessionsMove(a, c)
  {
    forall u | u in a
      ensures SessionMoves(a[u], u, c)
    {
      assert SessionMoves(a[u], u, b) && SessionMoves(b[u], u, c);
    }
  }

  /** First bytes, blobs, manifests, in place or trashed, and finished sessions outlive every continuation of a run. */
  lemma {:induction false} RunsPreserve(c: Config, w: World, steps: seq<Step>)
    requires SessionsOk(w.store.sessions)
    ensures Preserved(w, Execute(c, w, steps))
  {
    if steps != [] {
      var before := Execute(c, w, steps[..|steps| - 1]);
      var after := Execute(c, w, steps);
      RunsPreserve(c, w, steps[..|steps| - 1]);
      StepPreserves(c, before, steps[|steps| - 1]);
      SessionsMoveOn(w.store.sessions, before.store.sessions, after.store.sessions);
    }
  }

  ghost predicate Spared(steps: seq<Step>, id: ArtifactId) {
    forall i :: 0 <= i < |steps| ==> steps[i] != Trash(id)
  }

  lemma StepKeepsInPlace(c: Config, w: World, step: Step, id: ArtifactId)
    requires SessionsOk(w.store.sessions) && id in w.store.manifests && step != Trash(id)
    ensures id in Next(c, w, step).store.manifests && Next(c, w, step).store.manifests[id] == w.store.manifests[id]
  {
    StepPreserves(c, w, step);
    hide NextStore, Takes;
  }

  /** A manifest stays in place until it is trashed. */
  lemma {:induction false} SparedStaysInPlace(c: Config, w: World, steps: seq<Step>, id: ArtifactId)
    requires SessionsOk(w.store.sessions) && id in w.store.manifests && Spared(steps, id)
    ensures var after := Execute(c, w, steps).store;
            id in after.manifests && after.manifests[id] == w.store.manifests[id]
  {
    if steps != [] {
      SparedStaysInPlace(c, w, steps[..|steps| - 1], id);
      hide Next;
      StepKeepsInPlace(c, Execute(c, w, steps[..|steps| - 1]), steps[|steps| - 1], id);
    }
  }

  lemma {:induction false} ExecuteOn(c: Config, w: World, before: seq<Step>, steps: seq<Step>)
    requires SessionsOk(w.store.sessions)
    ensures Execute(c, Execute(c, w, before), steps) == Execute(c, w, before + steps)
  {
    hide Next;
    if steps == [] {
      assert before + steps == before;
    } else {
      ExecuteOn(c, w, before, steps[..|steps| - 1]);
      assert (before + steps)[..|before + steps| - 1] == before + steps[..|steps| - 1];
    }
  }

  lemma StaysReachable(c: Config, w: World, steps: seq<Step>)
    requires Reachable(c, w)
    ensures SessionsOk(w.store.sessions) && Reachable(c, Execute(c, w, steps))
  {
    var before :| w == Execute(c, START, before);
    ExecuteOn(c, START, before, steps);
  }

  /**
   * Whatever happens later, a completed upload stays completed and its blob stays. Its artifact serves the content if and
   * only if a manifest of its digest is in place, which it is as long as it is not trashed; a repeated commit replays the
   * manifest in place and finds the artifact missing without one.
   */
  lemma CompletedServesForever(c: Config, w: World, u: UploadId, steps: seq<Step>)
    requires Reachable(c, w) && u in w.store.sessions && w.store.sessions[u].status.Completed?
    ensures SessionsOk(w.store.sessions) && AllRemembered(w.first, u, Count(w.store.sessions[u]))
    ensures var s := w.store.sessions[u];
            var id, content := s.status.artifact, Concat(Parts(w.first, u, Count(s)));
            var after := Execute(c, w, steps).store;
            && u in after.sessions && after.sessions[u] == s
            && s.sha in after.blobs && after.blobs[s.sha] == content
            && (GetBytes(after, id) == Some(Some(content)) <==> InPlace(after, s))
            && (InPlace(w.store, s) && Spared(steps, id) ==> InPlace(after, s))
            && CommitOutcomeOf(c, after, u) ==
               (if id in after.manifests then Replayed(after.manifests[id]) else Rejected(ArtifactMissing))
  {
    CompletedYieldsFirstBytes(c, w, u);
    var s := w.store.sessions[u];
    var after := Execute(c, w, steps);
    assert Preserved(w, after) by { RunsPreserve(c, w, steps); }
    assert SessionMoves(s, u, after.store.sessions);
    StaysReachable(c, w, steps);
    CompletedYieldsFirstBytes(c, after, u);
    PartsAgree(w.first, after.first, u, Count(s));
    if InPlace(w.store, s) && Spared(steps, s.status.artifact) { SparedStaysInPlace(c, w, steps, s.status.artifact); }
  }

  ghost predicate NotRestored(steps: seq<Step>, id: ArtifactId) {
    forall i :: 0 <= i < |steps| ==> steps[i] != Restore(id)
  }

  lemma {:induction false} TrashedStays(c: Config, w: World, steps: seq<Step>, id: ArtifactId)
    requires SessionsOk(w.store.sessions) && id in w.trash && NotRestored(steps, id)
    ensures id in Execute(c, w, steps).trash && Execute(c, w, steps).trash[id] == w.trash[id]
  {
    if steps != [] {
      TrashedStays(c, w, steps[..|steps| - 1], id);
      hide NextStore, Takes;
    }
  }

  /**
   * Trashing takes an artifact away and leaves its blob. Whatever happens until it is restored, restoring puts back the
   * same manifest if and only if no stream has filed another one in its place, and otherwise changes nothing.
   */
  lemma RestoreUndoesTrash(c: Config, w: World, id: ArtifactId, steps: seq<Step>)
    requires WorldOk(c, w) && id in w.store.manifests && id !in w.trash && NotRestored(steps, id)
    ensures var trashed := Next(c, w, Trash(id));
            var later := Execute(c, trashed, steps);
            var after := Next(c, later, Restore(id));
            && GetBytes(trashed.store, id) == Some(None)
            && if id in later.store.manifests then after == later
               else
                 && id in after.store.manifests && after.store.manifests[id] == w.store.manifests[id]
                 && GetBytes(after.store, id) == GetBytes(w.store, id)
  {
    var m := w.store.manifests[id];
    assert ManifestOk(c, w.store.blobs, id, m);
    var trashed := Next(c, w, Trash(id));
    TrashedStays(c, trashed, steps, id);
    RunsPreserve(c, trashed, steps);
    hide Execute, NextStore, Takes;
  }

  /** A commit that stopped before its session was marked, tried again, does all that one commit does. */
  lemma CommitResumes(c: Config, st: Store, u: UploadId, writes: nat, swept: set<nat>)
    requires StoreOk(c, st) && CommitOutcomeOf(c, st, u).Committed? && writes <= 2
    ensures var crashed := Commit(c, st, u, writes, swept);
            && CommitOutcomeOf(c, crashed, u) == CommitOutcomeOf(c, st, u)
            && Commit(c, crashed, u, 4, swept) == Commit(c, st, u, 4, swept)
  {
    var s := st.sessions[u];
    var data := Assembled(st, u);
    var crashed := AfterStream(c, st, data, s.owner, s.media, writes);
    assert crashed.sessions == st.sessions && crashed.chunks == st.chunks;
    assert Assembled(crashed, u) == data;
    StreamResumes(c, st, data, s.owner, s.media, Some(s.sha), writes);
  }

  lemma StreamResumes(c: Config, st: Store, data: Bytes, owner: Name, media: nat, expected: Option<Digest>, writes: nat)
    requires StreamRefusal(c, st, data, owner, expected).None? && writes <= 2
    ensures var crashed := AfterStream(c, st, data, owner, media, writes);
            && StreamRefusal(c, crashed, data, owner, expected).None?
            && forall more :: 2 <= more ==> AfterStream(c, crashed, data, owner, media, more) == AfterStream(c, st, data, owner, media, 2)
  {
  }

  // ---------------------------------------------------------------------------------------------
  // Any order of chunks

  /** The bytes of `content` that belong at one index. */
  function Slice(content: Bytes, chunkSize: nat, index: nat): (slice: Bytes)
    requires chunkSize > 0 && index < ChunkCount(|content|, chunkSize)
    ensures |slice| == ExpectedSize(|content|, chunkSize, index)
  {
    SliceFits(|content|, chunkSize, index);
    content[index * chunkSize..index * chunkSize + ExpectedSize(|content|, chunkSize, index)]
  }

  lemma SliceFits(size: nat, chunkSize: nat, index: nat)
    requires chunkSize > 0 && index < ChunkCount(size, chunkSize)
    ensures 0 <= index * chunkSize
    ensures 0 <= ExpectedSize(size, chunkSize, index)
    ensures index * chunkSize + ExpectedSize(size, chunkSize, index) <= size
  {
    LayoutIsExact(size, chunkSize);
    var n := ChunkCount(size, chunkSize);
    if index < n - 1 {
      RowsBefore(index + 1, n - 1, chunkSize);
      assert (index + 1) * chunkSize == index * chunkSize + chunkSize;
    }
  }

  lemma RowsBefore(a: nat, b: nat, width: nat)
    requires a <= b
    ensures a * width <= b * width
  {
  }

  lemma SliceFollows(content: Bytes, chunkSize: nat, index: nat)
    requires chunkSize > 0 && index < ChunkCount(|content|, chunkSize)
    ensures TotalExpected(|content|, chunkSize, index) == index * chunkSize <= |content|
    ensures var upto := TotalExpected(|content|, chunkSize, index + 1);
            && index * chunkSize <= upto <= |content|
            && content[..index * chunkSize] + Slice(content, chunkSize, index) == content[..upto]
  {
    SliceFits(|content|, chunkSize, index);
    FullChunks(|content|, chunkSize, index);
    hide ChunkCount, ExpectedSize;
  }

  lemma {:induction false} SlicesMakeContent(chunks: map<Key, Bytes>, u: UploadId, content: Bytes, chunkSize: nat, n: nat)
    requires chunkSize > 0 && n <= ChunkCount(|content|, chunkSize)
    requires forall i: nat :: i < n ==> (u, i) in chunks && chunks[(u, i)] == Slice(content, chunkSize, i)
    ensures 0 <= TotalExpected(|content|, chunkSize, n) <= |content|
    ensures Concat(Parts(chunks, u, n)) == content[..TotalExpected(|content|, chunkSize, n)]
  {
    hide Slice, ChunkCount, ExpectedSize;
    if n > 0 {
      SlicesMakeContent(chunks, u, content, chunkSize, n - 1);
      SliceFollows(content, chunkSize, n - 1);
      PartsSnoc(chunks, u, n);
      hide TotalExpected, Concat, Parts;
    }
  }

  lemma PartsSnoc(chunks: map<Key, Bytes>, u: UploadId, n: nat)
    requires n > 0 && forall i: nat :: i < n ==> (u, i) in chunks
    ensures Concat(Parts(chunks, u, n)) == Concat(Parts(chunks, u, n - 1)) + chunks[(u, n - 1)]
  {
    var parts := Parts(chunks, u, n);
    assert parts[..n - 1] == Parts(chunks, u, n - 1);
  }

  // A put of the right bytes for an index, with or without their digest.
  datatype RightPut = RightPut(index: nat, withDigest: bool)

  function DigestSent(put: RightPut, data: Bytes): Option<Digest> {
    if put.withDigest then Some(Sha(data)) else None
  }

  /** Puts of the right bytes, in the given order. */
  function PutAll(st: Store, u: UploadId, content: Bytes, order: seq<RightPut>): (after: Store)
    requires SessionsOk(st.sessions) && u in st.sessions && st.sessions[u].size == |content|
    requires forall i :: 0 <= i < |order| ==> order[i].index < Count(st.sessions[u])
    ensures after.sessions == st.sessions && after.blobs == st.blobs && after.manifests == st.manifests
  {
    if order == [] then st
    else
      var put := order[|order| - 1];
      assert order[|order| - 1].index < Count(st.sessions[u]);
      assert put.index < ChunkCount(|content|, st.sessions[u].chunkSize);
      var before := PutAll(st, u, content, order[..|order| - 1]);
      var data := Slice(content, st.sessions[u].chunkSize, put.index);
      PutChunk(before, u, put.index, data, DigestSent(put, data))
  }

  /** Every chunk on disk is the one of `content`. */
  ghost predicate Agrees(st: Store, u: UploadId, content: Bytes)
    requires SessionsOk(st.sessions) && u in st.sessions && st.sessions[u].size == |content|
  {
    forall i: nat :: i < Count(st.sessions[u]) && (u, i) in st.chunks ==>
      st.chunks[(u, i)] == Slice(content, st.sessions[u].chunkSize, i)
  }

  lemma {:induction false} PutAllLands(st: Store, u: UploadId, content: Bytes, order: seq<RightPut>)
    requires SessionsOk(st.sessions) && u in st.sessions && st.sessions[u].size == |content|
    requires st.sessions[u].status == Pending && Agrees(st, u, content)
    requires forall i :: 0 <= i < |order| ==> order[i].index < Count(st.sessions[u])
    ensures Agrees(PutAll(st, u, content, order), u, content)
    ensures forall put :: put in order ==> (u, put.index) in PutAll(st, u, content, order).chunks
  {
    if order != [] {
      var last := order[|order| - 1];
      var before := PutAll(st, u, content, order[..|order| - 1]);
      PutAllLands(st, u, content, order[..|order| - 1]);
      assert order == order[..|order| - 1] + [last];
      var data := Slice(content, st.sessions[u].chunkSize, last.index);
      RightChunkIsTaken(before, u, content, last);
      TakenIff(before, u, last.index, data, DigestSent(last, data));
      hide Slice, PutOutcomeOf, PutChunk;
    }
  }

  /** No right chunk is refused, sent with its digest or without: it is new or a duplicate. */
  lemma RightChunkIsTaken(st: Store, u: UploadId, content: Bytes, put: RightPut)
    requires SessionsOk(st.sessions) && u in st.sessions && st.sessions[u].size == |content|
    requires st.sessions[u].status == Pending && Agrees(st, u, content) && put.index < Count(st.sessions[u])
    ensures var data := Slice(content, st.sessions[u].chunkSize, put.index);
            PutOutcomeOf(st, u, put.index, data, if put.withDigest then Some(Sha(data)) else None) ==
            if (u, put.index) in st.chunks then Duplicate else Accepted
  {
  }

  predicate Sent(order: seq<RightPut>, index: nat) {
    exists put :: put in order && put.index == index
  }

  lemma SentChunksAssemble(st: Store, u: UploadId, content: Bytes, order: seq<RightPut>)
    requires SessionsOk(st.sessions) && u in st.sessions && st.sessions[u].size == |content|
    requires st.sessions[u].status == Pending && Agrees(st, u, content)
    requires forall i :: 0 <= i < |order| ==> order[i].index < Count(st.sessions[u])
    requires forall i: nat :: i < Count(st.sessions[u]) ==> Sent(order, i)
    ensures var after := PutAll(st, u, content, order);
            AllPresent(after, u) && Assembled(after, u) == content
  {
    var after := PutAll(st, u, content, order);
    var s := st.sessions[u];
    PutAllLands(st, u, content, order);
    hide PutAll, Slice, ChunkCount;
    forall i: nat | i < Count(s)
      ensures (u, i) in after.chunks
    {
      assert Sent(order, i);
      var put :| put in order && put.index == i;
    }
    SlicesMakeContent(after.chunks, u, content, s.chunkSize, Count(s));
    LayoutIsExact(s.size, s.chunkSize);
    assert content[..|content|] == content;
  }

  /**
   * The right chunks in any order, with any repetitions, each sent with its digest or without, from any pending state whose
   * chunks are right, commit to exactly the declared content unless its artifact id is taken by other content or another
   * owner.
   */
  lemma AnyOrderCommits(c: Config, st: Store, u: UploadId, content: Bytes, order: seq<RightPut>)
    requires StoreOk(c, st) && u in st.sessions && st.sessions[u].size == |content| && st.sessions[u].sha == Sha(content)
    requires st.sessions[u].status == Pending && Agrees(st, u, content) && |content| <= c.maxBytes
    requires forall i :: 0 <= i < |order| ==> order[i].index < Count(st.sessions[u])
    requires forall i: nat :: i < Count(st.sessions[u]) ==> Sent(order, i)
    ensures var after := PutAll(st, u, content, order);
            var id, owner := c.idOf(Sha(content)), st.sessions[u].owner;
            && AllPresent(after, u) && Assembled(after, u) == content
            && CommitOutcomeOf(c, after, u) ==
               if id !in st.manifests then Committed(Manifest(Sha(content), |content|, owner, st.sessions[u].media))
               else if st.manifests[id].sha != Sha(content) then Rejected(Collision)
               else if st.manifests[id].owner != owner then Rejected(OwnedByAnother)
               else Committed(st.manifests[id])
  {
    SentChunksAssemble(st, u, content, order);
    var after := PutAll(st, u, content, order);
    hide PutAll, StoreOk, Agrees, AllPresent, Assembled, CommitOutcomeOf;
    AssembledCommits(c, st, after, u, content);
  }

  lemma AssembledCommits(c: Config, st: Store, after: Store, u: UploadId, content: Bytes)
    requires SessionsOk(st.sessions) && u in st.sessions && after.sessions == st.sessions && |content| <= c.maxBytes
    requires after.manifests == st.manifests && st.sessions[u].status == Pending
    requires AllPresent(after, u) && Assembled(after, u) == content && st.sessions[u].sha == Sha(content)
    ensures var id, owner := c.idOf(Sha(content)), st.sessions[u].owner;
            CommitOutcomeOf(c, after, u) ==
            if id !in st.manifests then Committed(Manifest(Sha(content), |content|, owner, st.sessions[u].media))
            else if st.manifests[id].sha != Sha(content) then Rejected(Collision)
            else if st.manifests[id].owner != owner then Rejected(OwnedByAnother)
            else Committed(st.manifests[id])
  {
  }
}
