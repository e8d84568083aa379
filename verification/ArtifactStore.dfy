/** The artifact store: session records, chunk files, blobs and manifests changed in place. */
module ArtifactStore {
  import opened Base
  import opened Upload

  datatype StreamOutcome = Stored(manifest: Manifest) | StreamRefused(why: Refusal)

  /** The indexes of an upload's chunk files. */
  ghost function Indexes(chunks: map<Key, Bytes>, u: UploadId): set<nat> {
    set k | k in chunks && k.0 == u :: k.1
  }

  class Artifacts {
    const config: Config
    var sessions: map<UploadId, Session>
    var chunks: map<Key, Bytes>
    var blobs: map<Digest, Bytes>
    var manifests: map<ArtifactId, Manifest>

    function Contents(): Store
      reads this
    {
      Store(sessions, chunks, blobs, manifests)
    }

    ghost predicate Valid()
      reads this
    {
      StoreOk(config, Contents())
    }

    constructor (config: Config)
      ensures this.config == config && Contents() == EMPTY && Valid()
    {
      this.config := config;
      sessions, chunks, blobs, manifests := map[], map[], map[], map[];
    }

    /** The bytes a stream spools into its temporary file, or nothing once they exceed the limit. */
    method Spool(source: seq<Bytes>) returns (spooled: Option<Bytes>)
      ensures spooled == if |Concat(source)| > config.maxBytes then None else Some(Concat(source))
    {
      var data, size := [], 0;
      for i := 0 to |source|
        invariant data == Concat(source[..i]) && size == |data| <= config.maxBytes
      {
        size := size + |source[i]|;
        assert source[..i + 1][..i] == source[..i];
        if size > config.maxBytes {
          PrefixNoLonger(source, i + 1);
          return None;
        }
        data := data + source[i];
      }
      assert source[..|source|] == source;
      return Some(data);
    }

    method PutStream(source: seq<Bytes>, owner: Name, media: nat, expected: Option<Digest>) returns (outcome: StreamOutcome)
      requires Valid()
      modifies this`blobs, this`manifests
      ensures Valid()
      ensures var refusal := StreamRefusal(config, old(Contents()), Concat(source), owner, expected);
              if refusal.Some? then outcome == StreamRefused(refusal.value) && Contents() == old(Contents())
              else && Contents() == AfterStream(config, old(Contents()), Concat(source), owner, media, 2)
                   && config.idOf(Sha(Concat(source))) in manifests
                   && outcome == Stored(manifests[config.idOf(Sha(Concat(source)))])
      ensures var data := Concat(source);
              var id := config.idOf(Sha(data));
              if |data| > config.maxBytes then outcome == StreamRefused(TooLarge)
              else if expected.Some? && expected.value != Sha(data) then outcome == StreamRefused(ChecksumMismatch)
              else if id !in old(manifests) then outcome == Stored(Manifest(Sha(data), |data|, owner, media))
              else if old(manifests)[id].sha != Sha(data) then outcome == StreamRefused(Collision)
              else if old(manifests)[id].owner != owner then outcome == StreamRefused(OwnedByAnother)
              else outcome == Stored(old(manifests)[id])
      ensures outcome.Stored? ==>
                && blobs == old(blobs)[Sha(Concat(source)) := Concat(source)]
                && manifests == old(manifests)[config.idOf(Sha(Concat(source))) := outcome.manifest]
    {
      var spooled := Spool(source);
      if spooled == None {
        return StreamRefused(TooLarge);
      }
      var data := spooled.value;
      var digest := Sha(data);
      if expected.Some? && digest != expected.value {
        return StreamRefused(ChecksumMismatch);
      }
      var id := config.idOf(digest);
      if id in manifests && manifests[id].sha != digest {
        return StreamRefused(Collision);
      }
      if id in manifests && manifests[id].owner != owner {
        return StreamRefused(OwnedByAnother);
      }
      StreamKeeps(config, Contents(), data, owner, media, 2);
      if digest !in blobs {
        blobs := blobs[digest := data];
      }
      if id !in manifests {
        manifests := manifests[id := Manifest(digest, |data|, owner, media)];
      }
      return Stored(manifests[id]);
    }

    method InitiateUpload(u: UploadId, size: int, chunkSize: int, sha: Digest, owner: Name, media: nat)
      returns (refusal: Option<Refusal>)
      requires Valid() && u !in sessions
      modifies this`sessions
      ensures Valid()
      ensures refusal == InitiateRefusal(config, size, chunkSize)
      ensures Contents() == Initiate(config, old(Contents()), u, size, chunkSize, sha, owner, media)
      ensures refusal == Some(TooLarge) <==> size < 0 || size > config.maxBytes
      ensures refusal == Some(OutOfRange) <==> 0 <= size <= config.maxBytes && (chunkSize < 1 || chunkSize > config.maxBytes)
      ensures refusal.Some? ==> sessions == old(sessions)
      ensures refusal == None ==>
                && u in sessions && sessions == old(sessions)[u := sessions[u]]
                && sessions[u].status == Pending && sessions[u].size == size && sessions[u].chunkSize == chunkSize
                && sessions[u].sha == sha && sessions[u].owner == owner && sessions[u].media == media
    {
      InitiateKeeps(config, Contents(), u, size, chunkSize, sha, owner, media);
      if size < 0 || size > config.maxBytes {
        return Some(TooLarge);
      }
      if chunkSize < 1 || chunkSize > config.maxBytes {
        return Some(OutOfRange);
      }
      sessions := sessions[u := Session(Pending, size, chunkSize, sha, owner, media)];
      return None;
    }

    method PutChunk(u: UploadId, index: int, data: Bytes, expected: Option<Digest>) returns (outcome: PutOutcome)
      requires Valid()
      modifies this`chunks
      ensures Valid()
      ensures outcome == PutOutcomeOf(old(Contents()), u, index, data, expected)
      ensures Contents() == Upload.PutChunk(old(Contents()), u, index, data, expected)
      ensures outcome == Accepted || outcome == Duplicate <==>
                && RightSize(old(Contents()), u, index, data) && (expected == None || expected == Some(Sha(data)))
                && ((u, index) in old(chunks) ==> old(chunks)[(u, index)] == data)
      ensures outcome == Accepted ==> (u, index) !in old(chunks) && chunks == old(chunks)[(u, index) := data]
      ensures outcome != Accepted ==> chunks == old(chunks)
      ensures outcome == Refused(ChecksumMismatch) <==>
                RightSize(old(Contents()), u, index, data) && expected.Some? && expected.value != Sha(data)
    {
      PutKeeps(config, Contents(), u, index, data, expected);
      if u !in sessions {
        return Refused(UnknownUpload);
      }
      var s := sessions[u];
      if s.status != Pending {
        return Refused(NotPending);
      }
      if index < 0 || index >= ChunkCount(s.size, s.chunkSize) {
        return Refused(OutOfRange);
      }
      var expectedSize := if index == ChunkCount(s.size, s.chunkSize) - 1 then s.size - index * s.chunkSize else s.chunkSize;
      if |data| != expectedSize {
        return Refused(WrongSize);
      }
      if expected.Some? && Sha(data) != expected.value {
        return Refused(ChecksumMismatch);
      }
      if (u, index) in chunks {
        return if Sha(chunks[(u, index)]) == Sha(data) then Duplicate else Refused(DifferentBytes);
      }
      chunks := chunks[(u, index) := data];
      return Accepted;
    }

    /** The chunk files of an upload in index order, or nothing when some index is missing. */
    method ReadChunks(u: UploadId, n: nat) returns (parts: Option<seq<Bytes>>)
      ensures parts.Some? <==> forall i: nat :: i < n ==> (u, i) in chunks
      ensures parts.Some? ==> parts.value == Parts(chunks, u, n)
    {
      var read := [];
      for i := 0 to n
        invariant forall j: nat :: j < i ==> (u, j) in chunks
        invariant read == Parts(chunks, u, i)
      {
        if (u, i) !in chunks {
          return None;
        }
        read := read + [chunks[(u, i)]];
      }
      return Some(read);
    }

    /** The last two steps of a commit or cancel: the session's new status, then its chunk directory. */
    method EndSession(u: UploadId, status: Status)
      requires u in sessions
      modifies this`sessions, this`chunks
      ensures Contents() == Swept(WithStatus(old(Contents()), u, status), u, Indexes(old(chunks), u))
      ensures sessions == old(sessions)[u := old(sessions)[u].(status := status)]
      ensures chunks == map k | k in old(chunks) && k.0 != u :: old(chunks)[k]
    {
      sessions := sessions[u := sessions[u].(status := status)];
      chunks := map k | k in chunks && k.0 != u :: chunks[k];
    }

    method CommitUpload(u: UploadId) returns (outcome: CommitOutcome)
      requires Valid()
      modifies this
      ensures Valid()
      ensures outcome == CommitOutcomeOf(config, old(Contents()), u)
      ensures Contents() == Commit(config, old(Contents()), u, 4, Indexes(old(chunks), u))
      ensures CommitsAs(config, old(Contents()), Contents(), u, outcome)
    {
      CommitKeeps(config, Contents(), u, 4, Indexes(chunks, u));
      CommitEffect(config, Contents(), u);
      hide CommitsAs, StreamRefusal;
      if u !in sessions {
        return Rejected(UnknownUpload);
      }
      var s := sessions[u];
      if s.status.Completed? {
        return if s.status.artifact in manifests then Replayed(manifests[s.status.artifact]) else Rejected(ArtifactMissing);
      }
      if s.status != Pending {
        return Rejected(NotPending);
      }
      var parts := ReadChunks(u, ChunkCount(s.size, s.chunkSize));
      if parts == None {
        return Rejected(MissingChunks);
      }
      assert Concat(parts.value) == Assembled(Contents(), u);
      var filed := PutStream(parts.value, s.owner, s.media, Some(s.sha));
      if filed.StreamRefused? {
        return Rejected(filed.why);
      }
      EndSession(u, Completed(config.idOf(Sha(Concat(parts.value)))));
      return Committed(filed.manifest);
    }

    method CancelUpload(u: UploadId) returns (refusal: Option<Refusal>)
      requires Valid()
      modifies this`sessions, this`chunks
      ensures Valid()
      ensures refusal == CancelRefusal(old(Contents()), u)
      ensures Contents() == Cancel(old(Contents()), u, 2, Indexes(old(chunks), u))
      ensures refusal == Some(UnknownUpload) <==> u !in old(sessions)
      ensures refusal == Some(AlreadyCompleted) <==> u in old(sessions) && old(sessions)[u].status.Completed?
      ensures refusal.Some? ==> Contents() == old(Contents())
      ensures refusal == None ==>
                && u in old(sessions) && sessions == old(sessions)[u := old(sessions)[u].(status := Canceled)]
                && chunks == (map k | k in old(chunks) && k.0 != u :: old(chunks)[k])
    {
      CancelKeeps(config, Contents(), u, 2, Indexes(chunks, u));
      if u !in sessions {
        return Some(UnknownUpload);
      }
      if sessions[u].status.Completed? {
        return Some(AlreadyCompleted);
      }
      EndSession(u, Canceled);
      return None;
    }
  }

  /**
   * A commit completes a pending upload whose chunks are all there: the session names the declared digest's artifact, its
   * manifest is the one in place or a new one of the declared digest, size and owner, and its chunk files are gone. Every
   * other outcome changes nothing.
   */
  ghost predicate CommitsAs(c: Config, before: Store, after: Store, u: UploadId, outcome: CommitOutcome)
    requires SessionsOk(before.sessions)
  {
    match outcome
    case Committed(m) =>
      && u in before.sessions
      && var s := before.sessions[u];
         && s.status == Pending && AllPresent(before, u)
         && m.sha == s.sha && m.size == s.size && m.owner == s.owner
         && (c.idOf(s.sha) in before.manifests ==> m == before.manifests[c.idOf(s.sha)])
         && after.sessions == before.sessions[u := s.(status := Completed(c.idOf(s.sha)))]
         && after.manifests == before.manifests[c.idOf(s.sha) := m]
         && after.chunks == map k | k in before.chunks && k.0 != u :: before.chunks[k]
    case Replayed(m) =>
      && after == before && u in before.sessions && before.sessions[u].status.Completed?
      && before.sessions[u].status.artifact in before.manifests && m == before.manifests[before.sessions[u].status.artifact]
    case Rejected(why) =>
      && after == before
      && (why == UnknownUpload <==> u !in before.sessions)
      && (why == NotPending <==> u in before.sessions && before.sessions[u].status == Canceled)
      && (why == MissingChunks <==>
            u in before.sessions && before.sessions[u].status == Pending && !AllPresent(before, u))
      && (why == ArtifactMissing <==>
            u in before.sessions && before.sessions[u].status.Completed?
            && before.sessions[u].status.artifact !in before.manifests)
  }

  lemma FiledIs(c: Config, st: Store, data: Bytes, owner: Name, media: nat, sha: Digest)
    requires StoreOk(c, st) && StreamRefusal(c, st, data, owner, Some(sha)).None?
    ensures var id, after := c.idOf(sha), AfterStream(c, st, data, owner, media, 4);
            && sha == Sha(data) && id in after.manifests && after.manifests == st.manifests[id := after.manifests[id]]
            && after.manifests[id].sha == sha && after.manifests[id].size == |data| && after.manifests[id].owner == owner
            && (id in st.manifests ==> after.manifests[id] == st.manifests[id])
  {
    var id := c.idOf(sha);
    if id in st.manifests { assert ManifestOk(c, st.blobs, id, st.manifests[id]); }
  }

  lemma SweptAway(st: Store, u: UploadId)
    ensures Swept(st, u, Indexes(st.chunks, u)).chunks == map k | k in st.chunks && k.0 != u :: st.chunks[k]
  {
    assert forall k :: k in st.chunks && k.0 == u ==> k.1 in Indexes(st.chunks, u);
  }

  lemma CommittedEffect(c: Config, st: Store, u: UploadId)
    requires StoreOk(c, st) && CommitOutcomeOf(c, st, u).Committed?
    ensures CommitsAs(c, st, Commit(c, st, u, 4, Indexes(st.chunks, u)), u, CommitOutcomeOf(c, st, u))
  {
    var s, data := st.sessions[u], Assembled(st, u);
    AssembledHasDeclaredSize(st, u);
    FiledIs(c, st, data, s.owner, s.media, s.sha);
    hide StoreOk, StreamRefusal, AllPresent, Assembled, AfterStream, Swept, Indexes;
    SweptAway(WithStatus(AfterStream(c, st, data, s.owner, s.media, 4), u, Completed(c.idOf(s.sha))), u);
  }

  lemma CommitEffect(c: Config, st: Store, u: UploadId)
    requires StoreOk(c, st)
    ensures CommitsAs(c, st, Commit(c, st, u, 4, Indexes(st.chunks, u)), u, CommitOutcomeOf(c, st, u))
  {
    if CommitOutcomeOf(c, st, u).Committed? {
      CommittedEffect(c, st, u);
    } else {
      hide StoreOk, AllPresent, Assembled, Indexes;
    }
  }

  lemma {:induction false} PrefixNoLonger(source: seq<Bytes>, n: nat)
    requires n <= |source|
    ensures |Concat(source[..n])| <= |Concat(source)|
    decreases |source| - n
  {
    if n < |source| {
      assert source[..n + 1][..n] == source[..n];
      PrefixNoLonger(source, n + 1);
    } else {
      assert source[..n] == source;
    }
  }
}
