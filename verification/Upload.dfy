/**
 * Resumable upload into the content-addressed store: upload sessions, chunk files, blobs and manifests. Every
 * replacement of a file is one step, and a crash may fall after any of them.
 */
module Upload {
  import opened Base

  type Bytes = seq<nat>

  type UploadId = nat

  type Name = nat

  // An artifact id keeps only half of a digest's characters.
  type ArtifactId = nat

  // A SHA-256 stands for the bytes it was taken of; a declared one may be of no known bytes at all.
  datatype Digest = Sha(of: Bytes) | Unmatched(text: nat)

  datatype Config = Config(maxBytes: nat, idOf: Digest -> ArtifactId)

  datatype Status = Pending | Completed(artifact: ArtifactId) | Canceled

  datatype Session = Session(status: Status, size: nat, chunkSize: nat, sha: Digest, owner: Name, media: nat)

  datatype Manifest = Manifest(sha: Digest, size: nat, owner: Name, media: nat)

  type Key = (UploadId, nat)

  datatype Store = Store(
    sessions: map<UploadId, Session>,
    chunks: map<Key, Bytes>,
    blobs: map<Digest, Bytes>,
    manifests: map<ArtifactId, Manifest>)

  const EMPTY := Store(map[], map[], map[], map[])

  datatype Refusal =
    | UnknownUpload | NotPending | OutOfRange | WrongSize | ChecksumMismatch | DifferentBytes | MissingChunks
    | TooLarge | Collision | OwnedByAnother | ArtifactMissing | AlreadyCompleted

  // ---------------------------------------------------------------------------------------------
  // Layout

  /** `ceil(size / chunkSize)`. */
  function ChunkCount(size: nat, chunkSize: nat): (n: nat)
    requires chunkSize > 0
    ensures size == 0 ==> n == 0
    ensures size > 0 ==> n > 0 && (n - 1) * chunkSize < size <= n * chunkSize
  {
    if size % chunkSize == 0 then size / chunkSize else size / chunkSize + 1
  }

  /** The bytes expected at one index. */
  function ExpectedSize(size: nat, chunkSize: nat, index: nat): int
    requires chunkSize > 0
  {
    if index == ChunkCount(size, chunkSize) - 1 then size - index * chunkSize else chunkSize
  }

  ghost function TotalExpected(size: nat, chunkSize: nat, n: nat): int
    requires chunkSize > 0
  {
    if n == 0 then 0 else TotalExpected(size, chunkSize, n - 1) + ExpectedSize(size, chunkSize, n - 1)
  }

  lemma {:induction false} FullChunks(size: nat, chunkSize: nat, n: nat)
    requires chunkSize > 0 && n < ChunkCount(size, chunkSize)
    ensures TotalExpected(size, chunkSize, n) == n * chunkSize
  {
    if n > 0 {
      FullChunks(size, chunkSize, n - 1);
      assert n * chunkSize == (n - 1) * chunkSize + chunkSize;
    }
  }

  /** Every expected size is positive and no larger than a chunk, and together they make up the declared size. */
  lemma LayoutIsExact(size: nat, chunkSize: nat)
    requires chunkSize > 0
    ensures forall i: nat :: i < ChunkCount(size, chunkSize) ==> 0 < ExpectedSize(size, chunkSize, i) <= chunkSize
    ensures TotalExpected(size, chunkSize, ChunkCount(size, chunkSize)) == size
  {
    var n := ChunkCount(size, chunkSize);
    if n > 0 {
      FullChunks(size, chunkSize, n - 1);
      assert n * chunkSize == (n - 1) * chunkSize + chunkSize;
    }
  }

  // ---------------------------------------------------------------------------------------------
  // The content-addressed store

  function Concat(parts: seq<Bytes>): Bytes {
    if parts == [] then [] else Concat(parts[..|parts| - 1]) + parts[|parts| - 1]
  }

  /** Why `put_stream` refuses `data`, if it does. */
  function StreamRefusal(c: Config, st: Store, data: Bytes, owner: Name, expected: Option<Digest>): Option<Refusal> {
    var id := c.idOf(Sha(data));
    if |data| > c.maxBytes then Some(TooLarge)
    else if expected.Some? && expected.value != Sha(data) then Some(ChecksumMismatch)
    else if id in st.manifests && st.manifests[id].sha != Sha(data) then Some(Collision)
    else if id in st.manifests && st.manifests[id].owner != owner then Some(OwnedByAnother)
    else None
  }

  function WithBlob(st: Store, data: Bytes): Store {
    if Sha(data) in st.blobs then st else st.(blobs := st.blobs[Sha(data) := data])
  }

  function WithManifest(c: Config, st: Store, data: Bytes, owner: Name, media: nat): Store {
    var id := c.idOf(Sha(data));
    if id in st.manifests then st
    else st.(manifests := st.manifests[id := Manifest(Sha(data), |data|, owner, media)])
  }

  /** The disk after the first `writes` replacements of an accepted stream. */
  function AfterStream(c: Config, st: Store, data: Bytes, owner: Name, media: nat, writes: nat): (after: Store)
    ensures after.sessions == st.sessions && after.chunks == st.chunks
  {
    if writes == 0 then st
    else if writes == 1 then WithBlob(st, data)
    else WithManifest(c, WithBlob(st, data), data, owner, media)
  }

  function PutStream(c: Config, st: Store, data: Bytes, owner: Name, media: nat, expected: Option<Digest>, writes: nat): (after: Store)
    ensures after.sessions == st.sessions && after.chunks == st.chunks
  {
    if StreamRefusal(c, st, data, owner, expected).Some? then st else AfterStream(c, st, data, owner, media, writes)
  }

  /** `get_bytes`: nothing without a manifest and its blob, an error when the blob is not what its name says. */
  function GetBytes(st: Store, id: ArtifactId): Option<Option<Bytes>> {
    if id !in st.manifests || st.manifests[id].sha !in st.blobs then Some(None)
    else
      var data := st.blobs[st.manifests[id].sha];
      if Sha(data) != st.manifests[id].sha then None else Some(Some(data))
  }

  // ---------------------------------------------------------------------------------------------
  // Upload sessions

  function InitiateRefusal(c: Config, size: int, chunkSize: int): Option<Refusal> {
    if size < 0 || size > c.maxBytes then Some(TooLarge)
    else if chunkSize < 1 || chunkSize > c.maxBytes then Some(OutOfRange)
    else None
  }

  function Initiate(c: Config, st: Store, u: UploadId, size: int, chunkSize: int, sha: Digest, owner: Name, media: nat): (after: Store)
    ensures SessionsOk(st.sessions) ==> SessionsOk(after.sessions)
  {
    if InitiateRefusal(c, size, chunkSize).Some? then st
    else st.(sessions := st.sessions[u := Session(Pending, size, chunkSize, sha, owner, media)])
  }

  datatype PutOutcome = Accepted | Duplicate | Refused(why: Refusal)

  function PutOutcomeOf(st: Store, u: UploadId, index: int, data: Bytes, expected: Option<Digest>): PutOutcome
    requires SessionsOk(st.sessions)
  {
    if u !in st.sessions then Refused(UnknownUpload)
    else
      var s := st.sessions[u];
      if s.status != Pending then Refused(NotPending)
      else if index < 0 || index >= ChunkCount(s.size, s.chunkSize) then Refused(OutOfRange)
      else if |data| != ExpectedSize(s.size, s.chunkSize, index) then Refused(WrongSize)
      else if expected.Some? && expected.value != Sha(data) then Refused(ChecksumMismatch)
      else if (u, index) !in st.chunks then Accepted
      else if Sha(st.chunks[(u, index)]) == Sha(data) then Duplicate
      else Refused(DifferentBytes)
  }

  function PutChunk(st: Store, u: UploadId, index: int, data: Bytes, expected: Option<Digest>): (after: Store)
    requires SessionsOk(st.sessions)
    ensures after.sessions == st.sessions && after.blobs == st.blobs && after.manifests == st.manifests
  {
    if PutOutcomeOf(st, u, index, data, expected) == Accepted then st.(chunks := st.chunks[(u, index) := data]) else st
  }

  /** What a chunk must be: of the expected size at an index of a pending upload, and its own digest if one is sent. */
  predicate RightSize(st: Store, u: UploadId, index: int, data: Bytes)
    requires SessionsOk(st.sessions)
  {
    && u in st.sessions && st.sessions[u].status == Pending
    && 0 <= index < ChunkCount(st.sessions[u].size, st.sessions[u].chunkSize)
    && |data| == ExpectedSize(st.sessions[u].size, st.sessions[u].chunkSize, index)
  }

  /** A chunk is taken iff it fits, its digest is its own when one is sent, and the index holds nothing or the same bytes. */
  lemma TakenIff(st: Store, u: UploadId, index: int, data: Bytes, expected: Option<Digest>)
    requires SessionsOk(st.sessions)
    ensures var taken := RightSize(st, u, index, data) && (expected == None || expected == Some(Sha(data)))
                         && (0 <= index && (u, index) in st.chunks ==> st.chunks[(u, index)] == data);
            var outcome, after := PutOutcomeOf(st, u, index, data, expected), PutChunk(st, u, index, data, expected);
            && (outcome == Accepted || outcome == Duplicate <==> taken)
            && (taken ==> (outcome == Accepted <==> (u, index) !in st.chunks)
                          && after == st.(chunks := st.chunks[(u, index) := data]))
            && (!taken ==> after == st)
  {
  }

  /** A chunk that fits is refused for its checksum exactly when the digest sent with it is not its own. */
  lemma ForeignDigestIsRefused(st: Store, u: UploadId, index: int, data: Bytes, expected: Option<Digest>)
    requires SessionsOk(st.sessions) && RightSize(st, u, index, data)
    ensures PutOutcomeOf(st, u, index, data, expected) == Refused(ChecksumMismatch) <==>
              expected.Some? && expected.value != Sha(data)
    ensures expected.Some? && expected.value != Sha(data) ==> PutChunk(st, u, index, data, expected) == st
  {
  }

  /** The chunk files of an upload, in index order. */
  function Parts(chunks: map<Key, Bytes>, u: UploadId, n: nat): (parts: seq<Bytes>)
    requires forall i: nat :: i < n ==> (u, i) in chunks
    ensures |parts| == n && forall i :: 0 <= i < n ==> parts[i] == chunks[(u, i)]
  {
    if n == 0 then [] else Parts(chunks, u, n - 1) + [chunks[(u, n - 1)]]
  }

  predicate AllPresent(st: Store, u: UploadId)
    requires SessionsOk(st.sessions) && u in st.sessions
  {
    forall i: nat :: i < ChunkCount(st.sessions[u].size, st.sessions[u].chunkSize) ==> (u, i) in st.chunks
  }

  function Assembled(st: Store, u: UploadId): Bytes
    requires SessionsOk(st.sessions) && u in st.sessions && AllPresent(st, u)
  {
    Concat(Parts(st.chunks, u, ChunkCount(st.sessions[u].size, st.sessions[u].chunkSize)))
  }

  datatype CommitOutcome = Committed(manifest: Manifest) | Replayed(manifest: Manifest) | Rejected(why: Refusal)

  function CommitOutcomeOf(c: Config, st: Store, u: UploadId): CommitOutcome
    requires SessionsOk(st.sessions)
  {
    if u !in st.sessions then Rejected(UnknownUpload)
    else
      var s := st.sessions[u];
      if s.status.Completed? then
        if s.status.artifact in st.manifests then Replayed(st.manifests[s.status.artifact]) else Rejected(ArtifactMissing)
      else if s.status != Pending then Rejected(NotPending)
      else if !AllPresent(st, u) then Rejected(MissingChunks)
      else
        var data := Assembled(st, u);
        match StreamRefusal(c, st, data, s.owner, Some(s.sha))
        case Some(why) => Rejected(why)
        case None => Committed(AfterStream(c, st, data, s.owner, s.media, 2).manifests[c.idOf(Sha(data))])
  }

  function WithStatus(st: Store, u: UploadId, status: Status): Store
    requires u in st.sessions
  {
    st.(sessions := st.sessions[u := st.sessions[u].(status := status)])
  }

  /** `rmtree` of an upload's directory that removed the indexes in `swept`. */
  function Swept(st: Store, u: UploadId, swept: set<nat>): (after: Store)
    ensures after.sessions == st.sessions && after.blobs == st.blobs && after.manifests == st.manifests
  {
    st.(chunks := map k | k in st.chunks && !(k.0 == u && k.1 in swept) :: st.chunks[k])
  }

  /** The disk after the first `writes` replacements of a commit: blob, manifest, session, then the chunk directory. */
  function Commit(c: Config, st: Store, u: UploadId, writes: nat, swept: set<nat>): (after: Store)
    requires SessionsOk(st.sessions)
    ensures SessionsOk(after.sessions)
  {
    if !CommitOutcomeOf(c, st, u).Committed? then st
    else
      var s := st.sessions[u];
      var data := Assembled(st, u);
      var filed := AfterStream(c, st, data, s.owner, s.media, writes);
      if writes <= 2 then filed
      else Swept(WithStatus(filed, u, Completed(c.idOf(Sha(data)))), u, if writes == 3 then {} else swept)
  }

  function CancelRefusal(st: Store, u: UploadId): Option<Refusal> {
    if u !in st.sessions then Some(UnknownUpload)
    else if st.sessions[u].status.Completed? then Some(AlreadyCompleted)
    else None
  }

  function Cancel(st: Store, u: UploadId, writes: nat, swept: set<nat>): (after: Store)
    ensures SessionsOk(st.sessions) ==> SessionsOk(after.sessions)
  {
    if CancelRefusal(st, u).Some? || writes == 0 then st
    else Swept(WithStatus(st, u, Canceled), u, if writes == 1 then {} else swept)
  }

  // ---------------------------------------------------------------------------------------------
  // What every crash state keeps

  predicate SessionsOk(sessions: map<UploadId, Session>) {
    forall u :: u in sessions ==> sessions[u].chunkSize > 0
  }

  /** Chunk files have the size the layout asks for. */
  ghost predicate ChunkFits(sessions: map<UploadId, Session>, k: Key, data: Bytes)
    requires SessionsOk(sessions)
  {
    && k.0 in sessions
    && k.1 < ChunkCount(sessions[k.0].size, sessions[k.0].chunkSize)
    && |data| == ExpectedSize(sessions[k.0].size, sessions[k.0].chunkSize, k.1)
  }

  ghost predicate ChunksOk(st: Store)
    requires SessionsOk(st.sessions)
  {
    forall k :: k in st.chunks ==> ChunkFits(st.sessions, k, st.chunks[k])
  }

  ghost predicate BlobsOk(blobs: map<Digest, Bytes>) {
    forall d :: d in blobs ==> d == Sha(blobs[d])
  }

  /** A manifest names a blob that exists, has the recorded size and hashes to the recorded digest. */
  ghost predicate ManifestOk(c: Config, blobs: map<Digest, Bytes>, id: ArtifactId, m: Manifest) {
    id == c.idOf(m.sha) && m.sha in blobs && m.sha == Sha(blobs[m.sha]) && m.size == |blobs[m.sha]|
  }

  ghost predicate ManifestsOk(c: Config, st: Store) {
    forall id :: id in st.manifests ==> ManifestOk(c, st.blobs, id, st.manifests[id])
  }

  /** A completed session names the artifact of its declared digest, whose blob is there with the declared size. */
  ghost predicate CompletedOk(c: Config, blobs: map<Digest, Bytes>, s: Session) {
    s.status.Completed? ==> s.status.artifact == c.idOf(s.sha) && s.sha in blobs && |blobs[s.sha]| == s.size
  }

  ghost predicate AllCompletedOk(c: Config, st: Store) {
    forall u :: u in st.sessions ==> CompletedOk(c, st.blobs, st.sessions[u])
  }

  ghost predicate StoreOk(c: Config, st: Store) {
    SessionsOk(st.sessions) && ChunksOk(st) && BlobsOk(st.blobs) && ManifestsOk(c, st) && AllCompletedOk(c, st)
  }

  lemma {:induction false} PartsFit(st: Store, u: UploadId, n: nat)
    requires SessionsOk(st.sessions) && ChunksOk(st) && u in st.sessions
    requires n <= ChunkCount(st.sessions[u].size, st.sessions[u].chunkSize)
    requires forall i: nat :: i < n ==> (u, i) in st.chunks
    ensures |Concat(Parts(st.chunks, u, n))| == TotalExpected(st.sessions[u].size, st.sessions[u].chunkSize, n)
  {
    if n > 0 {
      PartsFit(st, u, n - 1);
      var parts := Parts(st.chunks, u, n);
      assert parts[..n - 1] == Parts(st.chunks, u, n - 1);
      assert ChunkFits(st.sessions, (u, n - 1), st.chunks[(u, n - 1)]);
    }
  }

  /** The assembled bytes always have the declared length. */
  lemma AssembledHasDeclaredSize(st: Store, u: UploadId)
    requires SessionsOk(st.sessions) && ChunksOk(st) && u in st.sessions && AllPresent(st, u)
    ensures |Assembled(st, u)| == st.sessions[u].size
  {
    var s := st.sessions[u];
    PartsFit(st, u, ChunkCount(s.size, s.chunkSize));
    LayoutIsExact(s.size, s.chunkSize);
  }

  lemma BlobKeeps(c: Config, st: Store, data: Bytes)
    requires StoreOk(c, st)
    ensures StoreOk(c, WithBlob(st, data))
  {
    var after := WithBlob(st, data);
    forall id | id in after.manifests
      ensures ManifestOk(c, after.blobs, id, after.manifests[id])
    {
      assert ManifestOk(c, st.blobs, id, st.manifests[id]);
    }
    forall u | u in after.sessions
      ensures CompletedOk(c, after.blobs, after.sessions[u])
    {
      assert CompletedOk(c, st.blobs, st.sessions[u]);
    }
  }

  lemma ManifestKeeps(c: Config, st: Store, data: Bytes, owner: Name, media: nat)
    requires StoreOk(c, st) && Sha(data) in st.blobs
    ensures StoreOk(c, WithManifest(c, st, data, owner, media))
  {
  }

  lemma StreamKeeps(c: Config, st: Store, data: Bytes, owner: Name, media: nat, writes: nat)
    requires StoreOk(c, st)
    ensures StoreOk(c, AfterStream(c, st, data, owner, media, writes))
  {
    BlobKeeps(c, st, data);
    ManifestKeeps(c, WithBlob(st, data), data, owner, media);
  }

  /** What an accepted stream makes sure of: its blob. */
  lemma StreamFiles(c: Config, st: Store, data: Bytes, owner: Name, media: nat)
    requires StoreOk(c, st)
    ensures var after := AfterStream(c, st, data, owner, media, 2);
            Sha(data) in after.blobs && after.blobs[Sha(data)] == data
  {
  }

  lemma SweepKeeps(c: Config, st: Store, u: UploadId, swept: set<nat>)
    requires StoreOk(c, st)
    ensures StoreOk(c, Swept(st, u, swept))
  {
  }

  lemma StatusKeeps(c: Config, st: Store, u: UploadId, status: Status)
    requires StoreOk(c, st) && u in st.sessions
    requires CompletedOk(c, st.blobs, st.sessions[u].(status := status))
    ensures StoreOk(c, WithStatus(st, u, status))
  {
    var after := WithStatus(st, u, status);
    forall k | k in after.chunks
      ensures ChunkFits(after.sessions, k, after.chunks[k])
    {
      assert ChunkFits(st.sessions, k, st.chunks[k]);
    }
  }

  lemma CommitKeeps(c: Config, st: Store, u: UploadId, writes: nat, swept: set<nat>)
    requires StoreOk(c, st)
    ensures StoreOk(c, Commit(c, st, u, writes, swept))
  {
    if CommitOutcomeOf(c, st, u).Committed? {
      var s := st.sessions[u];
      var data := Assembled(st, u);
      var filed := AfterStream(c, st, data, s.owner, s.media, writes);
      StreamKeeps(c, st, data, s.owner, s.media, writes);
      if writes > 2 {
        StreamFiles(c, st, data, s.owner, s.media);
        AssembledHasDeclaredSize(st, u);
        StatusKeeps(c, filed, u, Completed(c.idOf(Sha(data))));
        SweepKeeps(c, WithStatus(filed, u, Completed(c.idOf(Sha(data)))), u, if writes == 3 then {} else swept);
      }
    }
  }

  lemma PutKeeps(c: Config, st: Store, u: UploadId, index: int, data: Bytes, expected: Option<Digest>)
    requires StoreOk(c, st)
    ensures StoreOk(c, PutChunk(st, u, index, data, expected))
  {
  }

  lemma CancelKeeps(c: Config, st: Store, u: UploadId, writes: nat, swept: set<nat>)
    requires StoreOk(c, st)
    ensures StoreOk(c, Cancel(st, u, writes, swept))
  {
    if CancelRefusal(st, u).None? && writes > 0 {
      StatusKeeps(c, st, u, Canceled);
      SweepKeeps(c, WithStatus(st, u, Canceled), u, if writes == 1 then {} else swept);
    }
  }

  lemma InitiateKeeps(c: Config, st: Store, u: UploadId, size: int, chunkSize: int, sha: Digest, owner: Name, media: nat)
    requires StoreOk(c, st) && u !in st.sessions
    ensures StoreOk(c, Initiate(c, st, u, size, chunkSize, sha, owner, media))
  {
    var after := Initiate(c, st, u, size, chunkSize, sha, owner, media);
    assert ChunksOk(after) by {
      forall k | k in after.chunks
        ensures ChunkFits(after.sessions, k, after.chunks[k])
      {
        assert ChunkFits(st.sessions, k, st.chunks[k]);
        assert k.0 != u && after.sessions[k.0] == st.sessions[k.0];
      }
    }
    assert AllCompletedOk(c, after) by {
      forall v | v in after.sessions
        ensures CompletedOk(c, after.blobs, after.sessions[v])
      {
        assert v != u ==> CompletedOk(c, st.blobs, st.sessions[v]);
      }
    }
  }
}
