/** Streaming a shard into the bucket: arriving chunks are regrouped in place
    into exact multipart parts, hashed on the way, and the staged object is
    promoted to its content-addressed key. */
module ShardWriter {
  import opened Sequences
  import opened ObjectKeys
  import opened ObjectStore

  /** Moving the first bytes of the first chunk over to the part. */
  lemma MoveHead(all: Bytes, part: Bytes, chunks: seq<Bytes>, take: nat)
    requires |part| <= |all| && part == all[..|part|] && Join(chunks) == all[|part|..]
    requires chunks != [] && take <= |chunks[0]|
    ensures var n := |part| + take;
            var rest := chunks[0 := chunks[0][take..]];
            && n <= |all| && part + chunks[0][..take] == all[..n]
            && Join(rest) == all[n..]
            && (rest[0] == [] ==> Join(rest[1..]) == all[n..])
  {
    var rest := chunks[0 := chunks[0][take..]];
    var head, tail := chunks[0], Join(chunks[1..]);
    assert rest[1..] == chunks[1..];
    assert all == part + (head + tail);
    assert all == (part + head[..take]) + (head[take..] + tail);
  }

  /** The chunks received and not yet uploaded, with their total length. */
  class PartBuffer {
    var chunks: seq<Bytes>
    var bufferedBytes: nat

    ghost predicate Valid()
      reads this
    {
      bufferedBytes == |Join(chunks)|
    }

    constructor ()
      ensures Valid() && chunks == []
    {
      chunks, bufferedBytes := [], 0;
    }

    method Push(chunk: Bytes)
      requires Valid()
      modifies this
      ensures Valid() && Join(chunks) == old(Join(chunks)) + chunk
    {
      JoinPush(chunks, chunk);
      chunks, bufferedBytes := chunks + [chunk], bufferedBytes + |chunk|;
    }

    /** Remove the first partSize bytes; a chunk that straddles the boundary
        keeps its remainder. */
    method TakePart(partSize: nat) returns (part: Bytes)
      requires Valid() && partSize <= bufferedBytes
      modifies this
      ensures Valid()
      ensures part == old(Join(chunks))[..partSize]
      ensures Join(chunks) == old(Join(chunks))[partSize..]
    {
      ghost var all := Join(chunks);
      if |chunks| == 1 && |chunks[0]| == partSize {
        assert all == chunks[0] + Join(chunks[1..]);
        part := chunks[0];
        chunks, bufferedBytes := chunks[1..], bufferedBytes - partSize;
        return;
      }
      part := [];
      while |part| < partSize
        invariant |part| <= partSize <= |all| && bufferedBytes == |all|
        invariant part == all[..|part|] && Join(chunks) == all[|part|..]
        decreases partSize - |part|, |chunks|
      {
        var remaining := partSize - |part|;
        var take := if remaining <= |chunks[0]| then remaining else |chunks[0]|;
        var fragment := chunks[0][..take];
        MoveHead(all, part, chunks, take);
        part, chunks := part + fragment, chunks[0 := chunks[0][take..]];
        if chunks[0] == [] {
          chunks := chunks[1..];
        }
      }
      bufferedBytes := bufferedBytes - partSize;
    }
  }

  datatype WriteResult = WriteResult(shardId: string, totalBytes: nat, checksum: Digest, storageKey: string)

  /** The bytes a stream delivers, or None if an error arrives on it. */
  function Received(stream: seq<Outcome<Bytes>>): (body: Option<Bytes>)
  {
    if stream == [] then Some([])
    else if stream[0].Err? then None
    else
      var rest := Received(stream[1..]);
      if rest.None? then None else Some(stream[0].value + rest.value)
  }

  lemma {:induction false} ReceivedPush(stream: seq<Outcome<Bytes>>, item: Outcome<Bytes>)
    ensures Received(stream + [item]) ==
            if Received(stream).Some? && item.Ok? then Some(Received(stream).value + item.value) else None
  {
    if stream == [] {
      assert stream + [item] == [item] && [item][1..] == [];
      assert item.Ok? ==> item.value + [] == [] + item.value;
    } else {
      assert (stream + [item])[1..] == stream[1..] + [item];
      ReceivedPush(stream[1..], item);
      if stream[0].Ok? && Received(stream[1..]).Some? && item.Ok? {
        var rest := Received(stream[1..]).value;
        assert stream[0].value + (rest + item.value) == (stream[0].value + rest) + item.value;
      }
    }
  }

  lemma {:induction false} ReceivedError(stream: seq<Outcome<Bytes>>, i: nat)
    requires i < |stream| && stream[i].Err?
    ensures Received(stream) == None
  {
    if i > 0 { ReceivedError(stream[1..], i - 1); }
  }

  /** The uploaded parts are the 5 MiB slices of data, numbered from one. */
  ghost predicate PartsAre(parts: map<nat, Bytes>, numbers: seq<nat>, data: seq<Bytes>)
  {
    && |numbers| == |data|
    && (forall i :: 0 <= i < |numbers| ==> numbers[i] == i + 1 && numbers[i] in parts && parts[numbers[i]] == data[i])
  }

  lemma PartsSelected(parts: map<nat, Bytes>, numbers: seq<nat>, data: seq<Bytes>)
    requires PartsAre(parts, numbers, data) && data != []
    requires Regular(data, MULTIPART_PART_SIZE)
    ensures Completable(parts, numbers) && Selected(parts, numbers) == data
  {
    forall i | 0 <= i < |numbers| - 1 ensures |parts[numbers[i]]| >= MULTIPART_PART_SIZE {
      assert |data[i]| == MULTIPART_PART_SIZE;
    }
  }

  /** The parts sent so far, all full, and the bytes still pending make up the
      bytes received. */
  ghost predicate Underway(parts: map<nat, Bytes>, numbers: seq<nat>, sent: seq<Bytes>, pending: Bytes, received: Bytes)
  {
    && PartsAre(parts, numbers, sent)
    && (forall i :: 0 <= i < |sent| ==> |sent[i]| == MULTIPART_PART_SIZE)
    && Join(sent) + pending == received
  }

  lemma BufferChunk(parts: map<nat, Bytes>, numbers: seq<nat>, sent: seq<Bytes>, pending: Bytes, received: Bytes, chunk: Bytes)
    requires Underway(parts, numbers, sent, pending, received)
    ensures Underway(parts, numbers, sent, pending + chunk, received + chunk)
  {
    assert Join(sent) + (pending + chunk) == Join(sent) + pending + chunk;
  }

  lemma SendFullPart(parts: map<nat, Bytes>, numbers: seq<nat>, sent: seq<Bytes>, pending: Bytes, received: Bytes)
    requires Underway(parts, numbers, sent, pending, received) && MULTIPART_PART_SIZE <= |pending|
    ensures var part := pending[..MULTIPART_PART_SIZE];
            Underway(parts[|numbers| + 1 := part], numbers + [|numbers| + 1], sent + [part],
                     pending[MULTIPART_PART_SIZE..], received)
  {
    var part := pending[..MULTIPART_PART_SIZE];
    JoinPush(sent, part);
    assert Join(sent) + (part + pending[MULTIPART_PART_SIZE..]) == Join(sent) + part + pending[MULTIPART_PART_SIZE..];
  }

  /** Sending what is left completes the slicing. */
  lemma SendLastPart(parts: map<nat, Bytes>, numbers: seq<nat>, sent: seq<Bytes>, pending: Bytes, received: Bytes)
    requires Underway(parts, numbers, sent, pending, received) && |pending| < MULTIPART_PART_SIZE
    ensures pending == [] ==> PartsAre(parts, numbers, Slices(received, MULTIPART_PART_SIZE))
    ensures Slices(received, MULTIPART_PART_SIZE) == [] <==> received == []
    ensures pending != [] ==> PartsAre(parts[|numbers| + 1 := pending], numbers + [|numbers| + 1], Slices(received, MULTIPART_PART_SIZE))
  {
    if pending == [] {
      assert Join(sent) == received;
      RegularUnique(sent, MULTIPART_PART_SIZE);
    } else {
      JoinPush(sent, pending);
      RegularUnique(sent + [pending], MULTIPART_PART_SIZE);
    }
  }

  /** Only this upload has changed, and not its key. */
  ghost predicate OnlyUpload(id: nat, uploads: map<nat, Upload>, uploads': map<nat, Upload>)
  {
    id in uploads && id in uploads' && uploads'[id].key == uploads[id].key && uploads' == uploads[id := uploads'[id]]
  }

  /** The inner loop: while a full part is buffered, upload it under the next
      part number. */
  method SendFullParts(s3: S3Client, id: nat, buffer: PartBuffer, completed: seq<nat>, ghost sent: seq<Bytes>, ghost received: Bytes)
    returns (all: Option<seq<nat>>, ghost sentAll: seq<Bytes>)
    requires buffer.Valid() && id in s3.uploads
    requires Underway(s3.uploads[id].parts, completed, sent, Join(buffer.chunks), received)
    modifies buffer, s3`uploads
    ensures buffer.Valid() && OnlyUpload(id, old(s3.uploads), s3.uploads)
    ensures all.Some? ==> buffer.bufferedBytes < MULTIPART_PART_SIZE
                          && Underway(s3.uploads[id].parts, all.value, sentAll, Join(buffer.chunks), received)
    ensures s3.reliable ==> all.Some?
  {
    var numbers: seq<nat>, partNumber: nat := completed, |completed| + 1;
    sentAll := sent;
    while buffer.bufferedBytes >= MULTIPART_PART_SIZE
      invariant buffer.Valid()
      invariant OnlyUpload(id, old(s3.uploads), s3.uploads)
      invariant Underway(s3.uploads[id].parts, numbers, sentAll, Join(buffer.chunks), received)
      invariant partNumber == |numbers| + 1
      decreases buffer.bufferedBytes
    {
      SendFullPart(s3.uploads[id].parts, numbers, sentAll, Join(buffer.chunks), received);
      var part := buffer.TakePart(MULTIPART_PART_SIZE);
      var ok := s3.UploadPart(id, partNumber, part);
      if !ok { return None, sentAll; }
      sentAll, numbers := sentAll + [part], numbers + [partNumber];
      partNumber := partNumber + 1;
    }
    all := Some(numbers);
  }

  /** After this much of the stream: hashed, and in full parts or buffered. */
  ghost predicate Absorbed(parts: map<nat, Bytes>, numbers: seq<nat>, sent: seq<Bytes>, pending: Bytes, stream: seq<Outcome<Bytes>>, hashed: Bytes)
  {
    Received(stream) == Some(hashed) && |pending| < MULTIPART_PART_SIZE && Underway(parts, numbers, sent, pending, hashed)
  }

  /** A chunk arrives: buffer it, and send what makes full parts. */
  method Absorb(s3: S3Client, id: nat, buffer: PartBuffer, chunk: Bytes, completed: seq<nat>, ghost sent: seq<Bytes>,
                ghost stream: seq<Outcome<Bytes>>, ghost hashed: Bytes)
    returns (all: Option<seq<nat>>, ghost sentAll: seq<Bytes>)
    requires buffer.Valid() && id in s3.uploads
    requires Absorbed(s3.uploads[id].parts, completed, sent, Join(buffer.chunks), stream, hashed)
    modifies buffer, s3`uploads
    ensures buffer.Valid() && OnlyUpload(id, old(s3.uploads), s3.uploads)
    ensures all.Some? ==> Absorbed(s3.uploads[id].parts, all.value, sentAll, Join(buffer.chunks), stream + [Ok(chunk)], hashed + chunk)
    ensures s3.reliable ==> all.Some?
  {
    BufferChunk(s3.uploads[id].parts, completed, sent, Join(buffer.chunks), hashed, chunk);
    ReceivedPush(stream, Ok(chunk));
    buffer.Push(chunk);
    all, sentAll := SendFullParts(s3, id, buffer, completed, sent, hashed + chunk);
  }

  /** After the stream has ended: upload the remainder as the last part; a
      shard without any byte is refused. */
  method SendRest(s3: S3Client, id: nat, buffer: PartBuffer, completed: seq<nat>, ghost sent: seq<Bytes>, ghost received: Bytes)
    returns (numbers: Outcome<seq<nat>>)
    requires buffer.Valid() && id in s3.uploads && buffer.bufferedBytes < MULTIPART_PART_SIZE
    requires Underway(s3.uploads[id].parts, completed, sent, Join(buffer.chunks), received)
    modifies buffer, s3`uploads
    ensures OnlyUpload(id, old(s3.uploads), s3.uploads)
    ensures received == [] ==> numbers.Err?
    ensures numbers.Ok? ==> PartsAre(s3.uploads[id].parts, numbers.value, Slices(received, MULTIPART_PART_SIZE))
    ensures s3.reliable && received != [] ==> numbers.Ok?
  {
    SendLastPart(s3.uploads[id].parts, completed, sent, Join(buffer.chunks), received);
    var all := completed;
    if buffer.bufferedBytes > 0 {
      var part := buffer.TakePart(buffer.bufferedBytes);
      var ok := s3.UploadPart(id, |completed| + 1, part);
      if !ok { return Err("part upload failed"); }
      all := completed + [|completed| + 1];
    }
    if all == [] { return Err("cannot write an empty shard"); }
    numbers := Ok(all);
  }

  /** The receive loop: buffer, hash and send, until the stream ends or breaks. */
  method ReceiveParts(s3: S3Client, id: nat, buffer: PartBuffer, stream: seq<Outcome<Bytes>>)
    returns (numbers: Outcome<seq<nat>>, hashed: Bytes, ghost sent: seq<Bytes>)
    requires id in s3.uploads && buffer.Valid() && buffer.chunks == []
    modifies buffer, s3`uploads
    ensures buffer.Valid() && OnlyUpload(id, old(s3.uploads), s3.uploads)
    ensures numbers.Ok? ==> Absorbed(s3.uploads[id].parts, numbers.value, sent, Join(buffer.chunks), stream, hashed)
    ensures s3.reliable && Received(stream).Some? ==> numbers.Ok?
  {
    var completed: seq<nat> := [];
    sent, hashed := [], [];
    for i := 0 to |stream|
      invariant buffer.Valid() && OnlyUpload(id, old(s3.uploads), s3.uploads)
      invariant Absorbed(s3.uploads[id].parts, completed, sent, Join(buffer.chunks), stream[..i], hashed)
    {
      if stream[i].Err? {
        ReceivedError(stream, i);
        return Err(stream[i].message), hashed, sent;
      }
      var more: Option<seq<nat>>;
      more, sent := Absorb(s3, id, buffer, stream[i].value, completed, sent, stream[..i], hashed);
      if more.None? { return Err("part upload failed"), hashed, sent; }
      completed, hashed := more.value, hashed + stream[i].value;
      assert stream[..i + 1] == stream[..i] + [Ok(stream[i].value)];
    }
    assert stream[..|stream|] == stream;
    numbers := Ok(completed);
  }

  /** Upload the stream as multipart parts. On success the parts are exactly the
      fixed-size slices of the received bytes, and the checksum worker has seen
      those same bytes. */
  method UploadParts(s3: S3Client, id: nat, stream: seq<Outcome<Bytes>>)
    returns (numbers: Outcome<seq<nat>>, hashed: Bytes)
    requires id in s3.uploads
    modifies s3`uploads
    ensures OnlyUpload(id, old(s3.uploads), s3.uploads)
    ensures numbers.Ok? ==> Received(stream) == Some(hashed) && hashed != []
                            && PartsAre(s3.uploads[id].parts, numbers.value, Slices(hashed, MULTIPART_PART_SIZE))
    ensures Received(stream).None? || Received(stream).value == [] ==> numbers.Err?
    ensures s3.reliable && Received(stream).Some? && Received(stream).value != [] ==> numbers.Ok?
  {
    var buffer := new PartBuffer();
    ghost var sent;
    numbers, hashed, sent := ReceiveParts(s3, id, buffer, stream);
    if numbers.Ok? {
      numbers := SendRest(s3, id, buffer, numbers.value, sent, hashed);
    }
  }

  /** What a shard write may do to the bucket, whether or not it succeeds: only
      its own staging, shard and sidecar keys can change, and the shard key can
      only come to hold the shard's bytes. */
  ghost predicate TouchesOwnKeys(before: Bucket, after: Bucket, staging: string, key: string, sidecar: string, body: Bytes)
  {
    && (forall k :: k !in {staging, key, sidecar} ==>
                      (k in after <==> k in before) && (k in before ==> after[k] == before[k]))
    && (key in before ==> key in after)
    && (key in after ==> (key in before && after[key] == before[key]) || after[key] == Blob(body))
  }

  /** How a shard write leaves the bucket. A successful one reports the length,
      digest and key of the received bytes, fills the key and the sidecar and
      leaves no staging object; an interrupted or empty stream changes nothing. */
  ghost predicate Written(sha: Bytes -> Digest, before: Bucket, after: Bucket, run: string, ckpt: string, shard: string, uuid: Uuid,
                          received: Option<Bytes>, r: Outcome<WriteResult>)
  {
    if received.None? || received.value == [] then r.Err? && after == before
    else
      var body := received.value;
      var key := ShardKey(run, ckpt, Digits(sha(body)), shard);
      var staging, sidecar := StagingKey(run, ckpt, shard, uuid), SidecarKey(run, ckpt, shard);
      && TouchesOwnKeys(before, after, staging, key, sidecar, body)
      && (r.Ok? ==>
            && r.value == WriteResult(shard, |body|, sha(body), key)
            && key in after && staging !in after && sidecar in after && after[sidecar] == Text(sha(body)))
  }

  /** An object that is at the key stays; otherwise the body is put there. The
      checksum is written and nothing stays staged. */
  ghost predicate Promoted(before: Bucket, after: Bucket, staging: string, key: string, sidecar: string, body: Bytes, checksum: Digest)
  {
    after == (if key in before then before else before[key := Blob(body)])[sidecar := Text(checksum)] - {staging}
  }

  /** Stage the stream as one object of the staging key, made of exact parts. */
  method StageUpload(s3: S3Client, staging: string, stream: seq<Outcome<Bytes>>) returns (staged: Outcome<Bytes>)
    modifies s3
    ensures staged.Ok? ==> Received(stream) == Some(staged.value) && staged.value != []
                           && s3.objects == old(s3.objects)[staging := Blob(staged.value)]
    ensures Received(stream).None? || Received(stream).value == [] ==> staged.Err? && s3.objects == old(s3.objects)
    ensures staged.Err? ==> s3.objects == old(s3.objects)
                            || (Received(stream).Some? && s3.objects == old(s3.objects)[staging := Blob(Received(stream).value)])
    ensures s3.reliable && Received(stream).Some? && Received(stream).value != [] ==> staged.Ok?
    ensures s3.reliable ==> s3.uploads == old(s3.uploads)
  {
    var id := s3.CreateMultipartUpload(staging);
    if id.None? { return Err("could not create the upload"); }
    var numbers, hashed := UploadParts(s3, id.value, stream);
    if numbers.Err? {
      s3.AbortMultipartUpload(id.value);
      return Err(numbers.message);
    }
    SlicesRegular(hashed, MULTIPART_PART_SIZE);
    SlicesJoin(hashed, MULTIPART_PART_SIZE);
    PartsSelected(s3.uploads[id.value].parts, numbers.value, Slices(hashed, MULTIPART_PART_SIZE));
    var ok := s3.CompleteMultipartUpload(id.value, numbers.value);
    if !ok {
      s3.AbortMultipartUpload(id.value);
      return Err("could not complete the upload");
    }
    staged := Ok(hashed);
  }

  method WriteShardStream(s3: S3Client, sha: Bytes -> Digest, run: string, ckpt: string, shard: string, uuid: Uuid,
                          stream: seq<Outcome<Bytes>>)
    returns (r: Outcome<WriteResult>)
    modifies s3
    ensures Written(sha, old(s3.objects), s3.objects, run, ckpt, shard, uuid, Received(stream), r)
    ensures s3.reliable && Received(stream).Some? && Received(stream).value != [] ==>
              r.Ok? && Promoted(old(s3.objects), s3.objects, StagingKey(run, ckpt, shard, uuid), r.value.storageKey, SidecarKey(run, ckpt, shard),
                                Received(stream).value, r.value.checksum)
    ensures s3.reliable ==> s3.uploads == old(s3.uploads)
  {
    var staging := StagingKey(run, ckpt, shard, uuid);
    var staged := StageUpload(s3, staging, stream);
    if staged.Err? { return Err(staged.message); }
    var checksum := sha(staged.value);
    var key := ShardKey(run, ckpt, Digits(checksum), shard);
    KindsDisjoint(run, ckpt, shard, uuid, Digits(checksum), run, ckpt, shard);
    var ok := Promote(s3, staging, key, SidecarKey(run, ckpt, shard), checksum, staged.value, old(s3.objects));
    r := if ok then Ok(WriteResult(shard, |staged.value|, checksum, key)) else Err("could not promote the staged object");
  }

  /** Copy the staged object to its key unless one is there, delete it, and write
      the checksum. */
  method Promote(s3: S3Client, staging: string, key: string, sidecar: string, checksum: Digest, ghost body: Bytes, ghost before: Bucket)
    returns (ok: bool)
    requires staging != key && staging != sidecar && key != sidecar && s3.objects == before[staging := Blob(body)]
    modifies s3`objects
    ensures TouchesOwnKeys(before, s3.objects, staging, key, sidecar, body)
    ensures ok ==> key in s3.objects && staging !in s3.objects && sidecar in s3.objects && s3.objects[sidecar] == Text(checksum)
    ensures s3.reliable ==> ok && Promoted(before, s3.objects, staging, key, sidecar, body, checksum)
  {
    ok := CopyUnlessThere(s3, staging, key);
    ghost var copied := s3.objects;
    if ok { ok := s3.DeleteObject(staging); }
    ghost var deleted := s3.objects;
    if ok { ok := s3.PutObject(sidecar, Text(checksum)); }
    PromotedOwnKeys(before, copied, deleted, s3.objects, staging, key, sidecar, body, checksum);
  }

  method CopyUnlessThere(s3: S3Client, staging: string, key: string) returns (ok: bool)
    requires staging != key && staging in s3.objects
    modifies s3`objects
    ensures s3.objects == old(s3.objects) || s3.objects == old(s3.objects)[key := old(s3.objects)[staging]]
    ensures ok ==> key in s3.objects
    ensures s3.reliable ==> ok && s3.objects == if key in old(s3.objects) then old(s3.objects) else old(s3.objects)[key := old(s3.objects)[staging]]
  {
    ok := s3.ObjectExists(key);
    if !ok { ok := s3.CopyObject(staging, key); }
  }

  lemma PromotedOwnKeys(before: Bucket, copied: Bucket, deleted: Bucket, after: Bucket, staging: string, key: string, sidecar: string,
                        body: Bytes, checksum: Digest)
    requires staging != key && staging != sidecar && key != sidecar
    requires var staged := before[staging := Blob(body)]; copied == staged || copied == staged[key := Blob(body)]
    requires deleted == copied || deleted == copied - {staging}
    requires after == deleted || after == deleted[sidecar := Text(checksum)]
    ensures TouchesOwnKeys(before, after, staging, key, sidecar, body)
  {
  }
}
