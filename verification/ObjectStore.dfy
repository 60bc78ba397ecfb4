/** The S3-compatible bucket and the client calls the data plane makes. Every
    call may fail; a failed write may still have taken effect, and a failed
    HEAD reads as "absent", as the client reports it. Only a store that is
    reliable answers every call truthfully and carries it out. */
module ObjectStore {
  import opened Sequences
  import opened ObjectKeys

  const MULTIPART_PART_SIZE: nat := 5 * 1024 * 1024

  datatype ShardInfo = ShardInfo(shardId: string, rank: int, sizeBytes: nat, sha256: Digest, storageKey: string)

  datatype Manifest = Manifest(checkpointId: string, runId: string, step: int, numShards: nat, totalBytes: nat, shards: seq<ShardInfo>)

  /** What a key holds: raw bytes, a serialized manifest, or a checksum text. */
  datatype Stored = Blob(data: Bytes) | Doc(manifest: Manifest) | Text(text: string)

  type Bucket = map<string, Stored>

  /** A multipart upload that has not been completed yet. */
  datatype Upload = Upload(key: string, parts: map<nat, Bytes>)

  /** S3's rules for completing an upload: known parts in ascending order, and
      every part but the last at least the minimum part size. */
  ghost predicate Completable(parts: map<nat, Bytes>, numbers: seq<nat>)
  {
    && numbers != []
    && (forall i :: 0 <= i < |numbers| ==> numbers[i] in parts)
    && (forall i :: 0 <= i < |numbers| - 1 ==> numbers[i] < numbers[i + 1])
    && (forall i :: 0 <= i < |numbers| - 1 ==> |parts[numbers[i]]| >= MULTIPART_PART_SIZE)
  }

  /** The listed parts in list order. */
  function Selected(parts: map<nat, Bytes>, numbers: seq<nat>): (chosen: seq<Bytes>)
    requires forall i :: 0 <= i < |numbers| ==> numbers[i] in parts
    ensures |chosen| == |numbers|
    ensures forall i :: 0 <= i < |numbers| ==> chosen[i] == parts[numbers[i]]
  {
    seq(|numbers|, i requires 0 <= i < |numbers| => parts[numbers[i]])
  }

  class S3Client {
    const reliable: bool
    var objects: Bucket
    var uploads: map<nat, Upload>

    constructor (reliable: bool)
      ensures this.reliable == reliable && objects == map[] && uploads == map[]
    {
      this.reliable, objects, uploads := reliable, map[], map[];
    }

    /** Whether the store does and answers what the next call asks. */
    method Answers() returns (ok: bool)
      ensures reliable ==> ok
    {
      ok := *;
      ok := ok || reliable;
    }

    method CreateMultipartUpload(key: string) returns (id: Option<nat>)
      modifies this`uploads
      ensures id.Some? ==> id.value !in old(uploads) && uploads == old(uploads)[id.value := Upload(key, map[])]
      ensures id.None? ==> uploads == old(uploads) && !reliable
    {
      var ok := Answers();
      if ok {
        var next: nat := FreshId(uploads.Keys);
        uploads := uploads[next := Upload(key, map[])];
        id := Some(next);
      } else {
        id := None;
      }
    }

    method UploadPart(id: nat, number: nat, part: Bytes) returns (ok: bool)
      requires id in uploads
      modifies this`uploads
      ensures id in uploads && uploads[id].key == old(uploads[id].key) && uploads == old(uploads)[id := uploads[id]]
      ensures ok ==> uploads[id].parts == old(uploads[id].parts)[number := part]
      ensures reliable ==> ok
    {
      ok := Answers();
      if ok {
        uploads := uploads[id := Upload(uploads[id].key, uploads[id].parts[number := part])];
      }
    }

    method CompleteMultipartUpload(id: nat, numbers: seq<nat>) returns (ok: bool)
      requires id in uploads && Completable(uploads[id].parts, numbers)
      modifies this
      ensures ok ==> objects == old(objects[uploads[id].key := Blob(Join(Selected(uploads[id].parts, numbers)))])
      ensures objects == old(objects) || objects == old(objects[uploads[id].key := Blob(Join(Selected(uploads[id].parts, numbers)))])
      ensures reliable ==> ok && uploads == old(uploads) - {id}
    {
      ok := Answers();
      var applied: bool := *;
      if ok || applied {
        objects := objects[uploads[id].key := Blob(Join(Selected(uploads[id].parts, numbers)))];
        uploads := uploads - {id};
      }
    }

    method AbortMultipartUpload(id: nat)
      modifies this`uploads
      ensures uploads == old(uploads) - {id} || (uploads == old(uploads) && !reliable)
    {
      var ok := Answers();
      if ok { uploads := uploads - {id}; }
    }

    /** True only if the object is there; any HEAD error also answers false. */
    method ObjectExists(key: string) returns (found: bool)
      ensures found ==> key in objects
      ensures reliable ==> found == (key in objects)
    {
      var answered := Answers();
      found := answered && key in objects;
    }

    method GetObject(key: string) returns (content: Option<Stored>)
      ensures content.Some? ==> key in objects && content.value == objects[key]
      ensures reliable && key in objects ==> content.Some?
    {
      var answered := Answers();
      content := if answered && key in objects then Some(objects[key]) else None;
    }

    method PutObject(key: string, content: Stored) returns (ok: bool)
      modifies this`objects
      ensures ok ==> objects == old(objects)[key := content]
      ensures objects == old(objects) || objects == old(objects)[key := content]
      ensures reliable ==> ok
    {
      ok := Answers();
      var applied: bool := *;
      if ok || applied { objects := objects[key := content]; }
    }

    method CopyObject(source: string, target: string) returns (ok: bool)
      modifies this`objects
      ensures ok ==> source in old(objects) && objects == old(objects)[target := old(objects)[source]]
      ensures objects == old(objects) || (source in old(objects) && objects == old(objects)[target := old(objects)[source]])
      ensures reliable && source in old(objects) ==> ok
    {
      ok := Answers();
      var applied: bool := *;
      if source !in objects {
        ok := false;
      } else if ok || applied {
        objects := objects[target := objects[source]];
      }
    }

    method DeleteObject(key: string) returns (ok: bool)
      modifies this`objects
      ensures ok ==> objects == old(objects) - {key}
      ensures objects == old(objects) || objects == old(objects) - {key}
      ensures reliable ==> ok
    {
      ok := Answers();
      var applied: bool := *;
      if ok || applied { objects := objects - {key}; }
    }

    /** The batch delete: the keys that could not be deleted are reported. */
    method DeleteObjects(keys: seq<string>) returns (errors: seq<string>)
      modifies this`objects
      ensures forall k :: k in objects ==> k in old(objects) && objects[k] == old(objects)[k]
      ensures forall k :: k in old(objects) && k !in keys ==> k in objects
      ensures errors == [] ==> forall k :: k in keys ==> k !in objects
      ensures reliable ==> errors == []
    {
      errors := [];
      for i := 0 to |keys|
        invariant forall k :: k in objects ==> k in old(objects) && objects[k] == old(objects)[k]
        invariant forall k :: k in old(objects) && k !in keys ==> k in objects
        invariant errors == [] ==> forall j :: 0 <= j < i ==> keys[j] !in objects
        invariant reliable ==> errors == []
      {
        var ok := DeleteObject(keys[i]);
        if !ok { errors := errors + [keys[i]]; }
      }
    }

    /** All keys with the prefix, each once. */
    method ListObjects(prefix: string) returns (keys: Option<seq<string>>)
      ensures keys.Some? ==> forall k :: k in keys.value <==> k in objects && prefix <= k
      ensures keys.Some? ==> forall i, j :: 0 <= i < j < |keys.value| ==> keys.value[i] != keys.value[j]
      ensures reliable ==> keys.Some?
    {
      var answered := Answers();
      if !answered { return None; }
      var left := set k | k in objects && prefix <= k;
      ghost var all := left;
      var listed: seq<string> := [];
      while left != {}
        invariant left <= all
        invariant forall k :: k in listed <==> k in all && k !in left
        invariant forall i, j :: 0 <= i < j < |listed| ==> listed[i] != listed[j]
      {
        var k :| k in left;
        left := left - {k};
        listed := listed + [k];
      }
      keys := Some(listed);
    }
  }

  /** A number outside a finite set. */
  method FreshId(used: set<nat>) returns (next: nat)
    ensures next !in used
  {
    next := 0;
    var left := used;
    while left != {}
      invariant left <= used
      invariant forall n :: n in used && n !in left ==> n < next
    {
      var n :| n in left;
      left := left - {n};
      if n >= next { next := n + 1; }
    }
    assert next in used ==> next < next;
  }
}
