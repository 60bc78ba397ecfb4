/** The gRPC checkpoint service: shard upload and download, the manifest that
    commits a checkpoint, and the abort that clears an unfinished one. */
module DataPlane {
  import opened Sequences
  import opened ObjectKeys
  import opened ObjectStore
  import opened ShardWriter

  const READ_CHUNK_SIZE: nat := 4 * 1024 * 1024

  datatype ShardChunk = ShardChunk(shardId: string, checkpointId: string, offset: nat, data: Bytes, isLast: bool)

  /** A body as numbered messages of n bytes. */
  function ChunksOf(shardId: string, checkpointId: string, body: Bytes, n: nat): (chunks: seq<ShardChunk>)
    requires n > 0
    ensures |chunks| == |Slices(body, n)|
  {
    var slices := Slices(body, n);
    seq(|slices|, i requires 0 <= i < |slices| => ShardChunk(shardId, checkpointId, i * n, slices[i], i == |slices| - 1))
  }

  function Payloads(chunks: seq<ShardChunk>): (data: seq<Bytes>)
    ensures |data| == |chunks| && forall i :: 0 <= i < |data| ==> data[i] == chunks[i].data
  {
    seq(|chunks|, i requires 0 <= i < |chunks| => chunks[i].data)
  }

  /** Joining the messages gives the body back; each offset is the number of
      bytes before the message; exactly the final message is marked last. */
  lemma ChunksCarryBody(shardId: string, checkpointId: string, body: Bytes, n: nat)
    requires n > 0
    ensures var chunks := ChunksOf(shardId, checkpointId, body, n);
            && Join(Payloads(chunks)) == body
            && (forall i :: 0 <= i < |chunks| ==>
                              && chunks[i].offset == |Join(Payloads(chunks)[..i])|
                              && chunks[i].isLast == (chunks[i].offset + |chunks[i].data| == |body|))
            && (chunks == [] <==> body == [])
  {
    var chunks, slices := ChunksOf(shardId, checkpointId, body, n), Slices(body, n);
    assert Payloads(chunks) == slices;
    SlicesJoin(body, n);
    forall i | 0 <= i < |chunks|
      ensures chunks[i].offset == |Join(Payloads(chunks)[..i])|
      ensures chunks[i].isLast == (chunks[i].offset + |chunks[i].data| == |body|)
    {
      SlicesBefore(body, n, i);
      SliceAt(body, n, i);
    }
  }

  /** What the handler forwards to the writer: the data of the messages, up to
      the first transport error or change of metadata, which becomes an error. */
  function Relayed(stream: seq<Outcome<ShardChunk>>, shardId: string, checkpointId: string): (data: seq<Outcome<Bytes>>)
  {
    if stream == [] then []
    else if stream[0].Err? then [Err("Stream error: " + stream[0].message)]
    else if stream[0].value.shardId != shardId || stream[0].value.checkpointId != checkpointId then
      [Err("Shard metadata changed within the stream")]
    else [Ok(stream[0].value.data)] + Relayed(stream[1..], shardId, checkpointId)
  }

  function AllOk(chunks: seq<ShardChunk>): (stream: seq<Outcome<ShardChunk>>)
    ensures |stream| == |chunks| && forall i :: 0 <= i < |stream| ==> stream[i] == Ok(chunks[i])
  {
    seq(|chunks|, i requires 0 <= i < |chunks| => Ok(chunks[i]))
  }

  lemma {:induction false} RelayedIntact(chunks: seq<ShardChunk>, shardId: string, checkpointId: string)
    requires forall i :: 0 <= i < |chunks| ==> chunks[i].shardId == shardId && chunks[i].checkpointId == checkpointId
    ensures Received(Relayed(AllOk(chunks), shardId, checkpointId)) == Some(Join(Payloads(chunks)))
  {
    if chunks != [] {
      RelayedIntact(chunks[1..], shardId, checkpointId);
      assert AllOk(chunks)[1..] == AllOk(chunks[1..]);
      assert Payloads(chunks)[1..] == Payloads(chunks[1..]);
    }
  }

  /** A stream delivers its data if and only if no message is an error and all
      carry these ids. */
  lemma {:induction false} RelayedExactly(stream: seq<Outcome<ShardChunk>>, shardId: string, checkpointId: string)
    ensures Received(Relayed(stream, shardId, checkpointId)).Some? <==>
            forall i :: 0 <= i < |stream| ==> stream[i].Ok? && stream[i].value.shardId == shardId && stream[i].value.checkpointId == checkpointId
  {
    if stream != [] && stream[0].Ok? && stream[0].value.shardId == shardId && stream[0].value.checkpointId == checkpointId {
      RelayedExactly(stream[1..], shardId, checkpointId);
      var data := Relayed(stream, shardId, checkpointId);
      assert data[1..] == Relayed(stream[1..], shardId, checkpointId);
      assert forall i :: 1 <= i < |stream| ==> stream[i] == stream[1..][i - 1];
    }
  }

  /** Run and checkpoint id of a write request: split at the first slash, or
      both the whole id when there is none. */
  function WriteIds(checkpointId: string): (ids: (string, string))
  {
    var pos := FirstSlash(checkpointId);
    if pos < |checkpointId| then (checkpointId[..pos], checkpointId[pos + 1..]) else (checkpointId, checkpointId)
  }

  function FindShard(shards: seq<ShardInfo>, shardId: string): (found: Option<ShardInfo>)
  {
    if shards == [] then None
    else if shards[0].shardId == shardId then Some(shards[0])
    else FindShard(shards[1..], shardId)
  }

  /** The bytes a download of this shard addresses: the first manifest entry
      with the shard's id, at the key that entry records. */
  function Addressed(bucket: Bucket, run: string, ckpt: string, shardId: string): (data: Option<Bytes>)
  {
    var key := ManifestKey(run, ckpt);
    if key !in bucket || !bucket[key].Doc? then None
    else
      var info := FindShard(bucket[key].manifest.shards, shardId);
      if info.None? || info.value.storageKey !in bucket || !bucket[info.value.storageKey].Blob? then None
      else Some(bucket[info.value.storageKey].data)
  }

  function TotalSize(shards: seq<ShardInfo>): (total: nat)
  {
    if shards == [] then 0 else shards[0].sizeBytes + TotalSize(shards[1..])
  }

  lemma {:induction false} TotalSizePush(shards: seq<ShardInfo>, last: ShardInfo)
    ensures TotalSize([]) == 0 && TotalSize(shards + [last]) == TotalSize(shards) + last.sizeBytes
  {
    if shards == [] {
      assert [] + [last] == [last];
    } else {
      assert (shards + [last])[1..] == shards[1..] + [last];
      TotalSizePush(shards[1..], last);
    }
  }

  /** The manifest says whose it is and lists exactly the shards it counts. */
  lemma ManifestLists(run: string, ckpt: string, step: int, shards: seq<ShardInfo>)
    ensures ManifestOf(run, ckpt, step, shards) == Manifest(ckpt, run, step, |shards|, TotalSize(shards), shards)
  {
  }

  function ManifestOf(run: string, ckpt: string, step: int, shards: seq<ShardInfo>): Manifest
  {
    Manifest(ckpt, run, step, |shards|, TotalSize(shards), shards)
  }

  /** The objects an abort removes: everything of the checkpoint but manifests. */
  function Doomed(bucket: Bucket, run: string, ckpt: string): set<string>
  {
    set k | k in bucket && Under(k, run, ckpt) && !EndsWith(k, "_manifest.json")
  }

  /** Told by the key alone: everything below run/checkpoint/ whose key does not
      end in _manifest.json, so also shards, checksums and what an interrupted
      write has staged. */
  lemma DoomedExactly(bucket: Bucket, run: string, ckpt: string, key: string)
    ensures key in Doomed(bucket, run, ckpt) <==>
            && key in bucket && |run + "/" + ckpt + "/"| <= |key| && key[..|run| + |ckpt| + 2] == run + "/" + ckpt + "/"
            && !(|key| >= 14 && key[|key| - 14..] == "_manifest.json")
  {
    assert |"_manifest.json"| == 14;
  }

  lemma PartialObjectsDoomed(bucket: Bucket, run: string, ckpt: string, shard: string, uuid: Uuid, digits: string)
    ensures StagingKey(run, ckpt, shard, uuid) in bucket ==> StagingKey(run, ckpt, shard, uuid) in Doomed(bucket, run, ckpt)
    ensures SidecarKey(run, ckpt, shard) in bucket ==> SidecarKey(run, ckpt, shard) in Doomed(bucket, run, ckpt)
    ensures |digits| == 16 && ShardKey(run, ckpt, digits, shard) in bucket ==> ShardKey(run, ckpt, digits, shard) in Doomed(bucket, run, ckpt)
    ensures ManifestKey(run, ckpt) !in Doomed(bucket, run, ckpt)
  {
    OnlyManifestEndsSo(run, ckpt, shard, uuid, digits);
    assert Under(StagingKey(run, ckpt, shard, uuid), run, ckpt) && Under(SidecarKey(run, ckpt, shard), run, ckpt);
    assert Under(ShardKey(run, ckpt, digits, shard), run, ckpt);
    var key := ManifestKey(run, ckpt);
    assert key[|key| - 14..] == "_manifest.json";
  }

  /** Only objects of the doomed set disappear and nothing else changes. */
  ghost predicate Cleared(before: Bucket, after: Bucket, run: string, ckpt: string)
  {
    && (forall k :: k in after ==> k in before && after[k] == before[k])
    && (forall k :: k in before && k !in after ==> k in Doomed(before, run, ckpt))
  }

  /** The manifest is in the bucket afterwards: either one was already there,
      or this one was written. A failed attempt may still have written it. */
  ghost predicate CommitEffect(before: Bucket, after: Bucket, manifest: Manifest, ok: bool)
  {
    var key := ManifestKey(manifest.runId, manifest.checkpointId);
    && (after == before || after == before[key := Doc(manifest)])
    && (ok ==> key in after)
  }

  class CheckpointService {
    const s3: S3Client
    const sha: Bytes -> Digest

    constructor (s3: S3Client, sha: Bytes -> Digest)
      ensures this.s3 == s3 && this.sha == sha
    {
      this.s3, this.sha := s3, sha;
    }

    method WriteShard(stream: seq<Outcome<ShardChunk>>, uuid: Uuid) returns (r: Outcome<WriteResult>)
      modifies s3
      ensures stream == [] || stream[0].Err? ==> r.Err? && s3.objects == old(s3.objects)
      ensures stream != [] && stream[0].Ok? ==>
                var first := stream[0].value;
                var (run, ckpt) := WriteIds(first.checkpointId);
                Written(sha, old(s3.objects), s3.objects, run, ckpt, first.shardId, uuid,
                        Received(Relayed(stream, first.shardId, first.checkpointId)), r)
      ensures s3.reliable && stream != [] && stream[0].Ok? ==>
                var body := Received(Relayed(stream, stream[0].value.shardId, stream[0].value.checkpointId));
                body.Some? && body.value != [] ==> r.Ok?
    {
      if stream == [] { return Err("Shard stream was empty"); }
      if stream[0].Err? { return Err("Stream error: " + stream[0].message); }
      var shardId, checkpointId := stream[0].value.shardId, stream[0].value.checkpointId;
      var (run, ckpt) := WriteIds(checkpointId);
      var rest := Relay(stream[1..], shardId, checkpointId);
      r := WriteShardStream(s3, sha, run, ckpt, shardId, uuid, [Ok(stream[0].value.data)] + rest);
    }

    method ReadManifest(run: string, ckpt: string) returns (manifest: Outcome<Option<Manifest>>)
      ensures manifest.Ok? && manifest.value.Some? ==>
                ManifestKey(run, ckpt) in s3.objects && s3.objects[ManifestKey(run, ckpt)] == Doc(manifest.value.value)
      ensures s3.reliable ==> (manifest.Ok? && manifest.value.None? <==> ManifestKey(run, ckpt) !in s3.objects)
      ensures s3.reliable && ManifestKey(run, ckpt) in s3.objects ==> (manifest.Ok? <==> s3.objects[ManifestKey(run, ckpt)].Doc?)
    {
      var key := ManifestKey(run, ckpt);
      var found := s3.ObjectExists(key);
      if !found { return Ok(None); }
      var content := s3.GetObject(key);
      if content.None? || !content.value.Doc? { return Err("could not read the manifest"); }
      manifest := Ok(Some(content.value.manifest));
    }

    /** Cut the addressed bytes into messages of the read chunk size. */
    method ReadShard(shardId: string, ckpt: string, run: string) returns (r: Outcome<seq<ShardChunk>>)
      ensures r.Ok? ==> Addressed(s3.objects, run, ckpt, shardId).Some?
                        && r.value == ChunksOf(shardId, ckpt, Addressed(s3.objects, run, ckpt, shardId).value, READ_CHUNK_SIZE)
      ensures s3.reliable ==> (r.Ok? <==> Addressed(s3.objects, run, ckpt, shardId).Some?)
    {
      var manifest := ReadManifest(run, ckpt);
      if manifest.Err? { return Err(manifest.message); }
      if manifest.value.None? { return Err("Manifest not found"); }
      var info := FindShard(manifest.value.value.shards, shardId);
      if info.None? { return Err("Shard not found in manifest"); }
      var content := s3.GetObject(info.value.storageKey);
      if content.None? || !content.value.Blob? { return Err("Read failed"); }
      var slices := SliceData(content.value.data, READ_CHUNK_SIZE);
      var chunks: seq<ShardChunk> := [];
      for i := 0 to |slices|
        invariant |chunks| == i
        invariant forall j :: 0 <= j < i ==>
                                chunks[j] == ShardChunk(shardId, ckpt, j * READ_CHUNK_SIZE, slices[j], j == |slices| - 1)
      {
        chunks := chunks + [ShardChunk(shardId, ckpt, i * 4 * 1024 * 1024, slices[i], i == |slices| - 1)];
      }
      assert chunks == ChunksOf(shardId, ckpt, content.value.data, READ_CHUNK_SIZE);
      r := Ok(chunks);
    }

    method CommitCheckpoint(ckpt: string, run: string, step: int, shards: seq<ShardInfo>) returns (r: Outcome<string>)
      modifies s3`objects
      ensures CommitEffect(old(s3.objects), s3.objects, ManifestOf(run, ckpt, step, shards), r.Ok?)
      ensures r.Ok? ==> r.value == ManifestKey(run, ckpt)
      ensures s3.reliable ==> r.Ok? && s3.objects == if ManifestKey(run, ckpt) in old(s3.objects) then old(s3.objects)
                              else old(s3.objects)[ManifestKey(run, ckpt) := Doc(ManifestOf(run, ckpt, step, shards))]
    {
      var total := 0;
      for i := 0 to |shards|
        invariant total + TotalSize(shards[i..]) == TotalSize(shards)
      {
        total := total + shards[i].sizeBytes;
      }
      var manifest := Manifest(ckpt, run, step, |shards|, total, shards);
      var key := ManifestKey(run, ckpt);
      var found := s3.ObjectExists(key);
      if found { return Ok(key); }
      var ok := s3.PutObject(key, Doc(manifest));
      r := if ok then Ok(key) else Err("could not write the manifest");
    }

    /** Delete the checkpoint's objects one by one; stop at the first failure. */
    method AbortCheckpoint(ckpt: string, run: string) returns (r: Outcome<nat>)
      modifies s3`objects
      ensures Cleared(old(s3.objects), s3.objects, run, ckpt)
      ensures r.Ok? ==> s3.objects == old(s3.objects) - Doomed(old(s3.objects), run, ckpt)
                        && r.value == |Doomed(old(s3.objects), run, ckpt)|
      ensures s3.reliable ==> r.Ok?
    {
      var listed := s3.ListObjects(Dir(run, ckpt));
      if listed.None? { return Err("could not list the checkpoint"); }
      var ok, deleted, gone := DeleteAllButManifests(listed.value);
      assert (set k | k in listed.value && !EndsWith(k, "_manifest.json")) == Doomed(old(s3.objects), run, ckpt);
      r := if ok then Ok(deleted) else Err("delete failed");
    }

    method DeleteAllButManifests(keys: seq<string>) returns (ok: bool, deleted: nat, ghost gone: set<string>)
      requires forall i, j :: 0 <= i < j < |keys| ==> keys[i] != keys[j]
      modifies s3`objects
      ensures s3.objects == old(s3.objects) - gone
      ensures gone <= set k | k in keys && !EndsWith(k, "_manifest.json")
      ensures ok ==> deleted == |gone| && gone == set k | k in keys && !EndsWith(k, "_manifest.json")
      ensures s3.reliable ==> ok
    {
      gone, deleted := {}, 0;
      for i := 0 to |keys|
        invariant s3.objects == old(s3.objects) - gone && deleted == |gone|
        invariant forall k :: k in gone <==> k in keys[..i] && !EndsWith(k, "_manifest.json")
      {
        assert keys[..i + 1] == keys[..i] + [keys[i]];
        if !EndsWith(keys[i], "_manifest.json") {
          ok := s3.DeleteObject(keys[i]);
          if !ok {
            if s3.objects != old(s3.objects) - gone { gone := gone + {keys[i]}; }
            return;
          }
          gone, deleted := gone + {keys[i]}, deleted + 1;
        }
      }
      assert keys[..|keys|] == keys;
      ok := true;
    }
  }

  /** Forward the messages after the first one until an error or the end. */
  method Relay(stream: seq<Outcome<ShardChunk>>, shardId: string, checkpointId: string) returns (data: seq<Outcome<Bytes>>)
    ensures data == Relayed(stream, shardId, checkpointId)
  {
    data := [];
    var i := 0;
    while i < |stream|
      invariant i <= |stream|
      invariant data + Relayed(stream[i..], shardId, checkpointId) == Relayed(stream, shardId, checkpointId)
    {
      assert stream[i..][1..] == stream[i + 1..];
      if stream[i].Err? {
        return data + [Err("Stream error: " + stream[i].message)];
      }
      var chunk := stream[i].value;
      if chunk.shardId != shardId || chunk.checkpointId != checkpointId {
        return data + [Err("Shard metadata changed within the stream")];
      }
      assert Relayed(stream[i..], shardId, checkpointId) == [Ok(chunk.data)] + Relayed(stream[i + 1..], shardId, checkpointId);
      data, i := data + [Ok(chunk.data)], i + 1;
    }
  }

  /** bytes.chunks(n): push fixed-size slices onto a growing list. */
  method SliceData(data: Bytes, n: nat) returns (chunks: seq<Bytes>)
    requires n > 0
    ensures chunks == Slices(data, n)
  {
    chunks := [];
    var offset := 0;
    while offset < |data|
      invariant offset <= |data|
      invariant chunks + Slices(data[offset..], n) == Slices(data, n)
    {
      var end := if offset + n <= |data| then offset + n else |data|;
      var rest := data[offset..];
      assert rest[..end - offset] == data[offset..end] && rest[end - offset..] == data[end..];
      assert |rest| <= n ==> data[offset..end] == rest && data[end..] == [];
      assert Slices(data[offset..], n) == [data[offset..end]] + Slices(data[end..], n);
      chunks := chunks + [data[offset..end]];
      offset := end;
    }
  }
}
