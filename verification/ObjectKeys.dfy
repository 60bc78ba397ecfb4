/** Names of the objects in the checkpoint bucket: `run/checkpoint/...`. */
module ObjectKeys {
  import opened Sequences

  predicate HexDigit(c: char) { '0' <= c <= '9' || 'a' <= c <= 'f' }

  /** A hex-encoded SHA-256 digest. */
  type Digest = d: string | |d| == 64 && forall i :: 0 <= i < |d| ==> HexDigit(d[i])
    witness seq(64, _ => '0')

  /** A random UUID in its 36-character form. */
  type Uuid = u: string | |u| == 36 && forall i :: 0 <= i < |u| ==> HexDigit(u[i]) || u[i] == '-'
    witness seq(36, _ => '0')

  predicate SlashFree(s: string) { '/' !in s }

  /** The digits of a digest that its object key carries. */
  function Digits(d: Digest): (digits: string)
    ensures |digits| == 16
  {
    d[..16]
  }

  /** Position of the first slash; the length when there is none. */
  function FirstSlash(s: string): (pos: nat)
    ensures pos <= |s| && SlashFree(s[..pos])
    ensures pos < |s| ==> s[pos] == '/'
  {
    if s == [] || s[0] == '/' then 0
    else
      var pos := FirstSlash(s[1..]);
      assert s[..pos + 1] == [s[0]] + s[1..][..pos];
      pos + 1
  }

  function Dir(run: string, ckpt: string): string { run + "/" + (ckpt + "/") }

  function StagingKey(run: string, ckpt: string, shard: string, uuid: Uuid): string
  {
    Dir(run, ckpt) + (".multipart-" + shard + "-" + uuid)
  }

  function ShardKey(run: string, ckpt: string, digits: string, shard: string): string
  {
    Dir(run, ckpt) + ShardName(digits, shard)
  }

  function ShardName(digits: string, shard: string): string { "sha256-" + digits + "-" + shard + ".bin" }

  function SidecarKey(run: string, ckpt: string, shard: string): string
  {
    Dir(run, ckpt) + (shard + ".sha256")
  }

  function ManifestKey(run: string, ckpt: string): string
  {
    Dir(run, ckpt) + "_manifest.json"
  }

  /** key.split("/", 2): run, checkpoint and the rest, or None with fewer than
      three segments. */
  function SplitKey(key: string): (parts: Option<(string, string, string)>)
  {
    var i := FirstSlash(key);
    if i == |key| then None
    else
      var tail := key[i + 1..];
      var j := FirstSlash(tail);
      if j == |tail| then None else Some((key[..i], tail[..j], tail[j + 1..]))
  }

  predicate EndsWith(s: string, suffix: string)
  {
    |suffix| <= |s| && s[|s| - |suffix|..] == suffix
  }

  /** The key names an object of this checkpoint. */
  predicate Under(key: string, run: string, ckpt: string) { Dir(run, ckpt) <= key }

  lemma SplitAtSlash(a: string, x: string, b: string, y: string)
    requires SlashFree(a) && SlashFree(b)
    requires a + "/" + x == b + "/" + y
    ensures a == b && x == y
  {
    var s, t := a + "/" + x, b + "/" + y;
    assert s[|a|] == '/' && t[|b|] == '/';
    assert forall i :: 0 <= i < |a| ==> s[i] == a[i];
    assert forall i :: 0 <= i < |b| ==> t[i] == b[i];
    assert |a| == |b|;
    assert a == s[..|a|] && b == t[..|b|];
    assert x == s[|a| + 1..] && y == t[|b| + 1..];
  }

  lemma FirstSlashIs(a: string, x: string)
    requires SlashFree(a)
    ensures FirstSlash(a + "/" + x) == |a|
  {
    var s := a + "/" + x;
    var pos := FirstSlash(s);
    assert s[|a|] == '/';
    assert forall i :: 0 <= i < pos ==> s[..pos][i] == s[i];
    assert pos <= |a|;
    assert forall i :: 0 <= i < |a| ==> s[i] == a[i];
  }

  /** The two ids can be read back from the key of any object below them. */
  lemma SplitUnder(run: string, ckpt: string, rest: string)
    requires SlashFree(run) && SlashFree(ckpt)
    ensures SplitKey(Dir(run, ckpt) + rest) == Some((run, ckpt, rest))
  {
    var key := Dir(run, ckpt) + rest;
    assert key == run + "/" + (ckpt + "/" + rest);
    FirstSlashIs(run, ckpt + "/" + rest);
    FirstSlashIs(ckpt, rest);
    var tail := ckpt + "/" + rest;
    assert key[..|run|] == run && key[|run| + 1..] == tail;
    assert tail[..|ckpt|] == ckpt && tail[|ckpt| + 1..] == rest;
  }

  lemma SplitIsUnder(key: string)
    requires SplitKey(key).Some?
    ensures var (run, ckpt, rest) := SplitKey(key).value;
            SlashFree(run) && SlashFree(ckpt) && key == Dir(run, ckpt) + rest
  {
  }

  /** A key lies under one checkpoint only. */
  lemma UnderOne(key: string, run: string, ckpt: string, run': string, ckpt': string)
    requires SlashFree(run) && SlashFree(ckpt) && SlashFree(run') && SlashFree(ckpt')
    requires Under(key, run, ckpt) && Under(key, run', ckpt')
    ensures run == run' && ckpt == ckpt'
  {
    var x, y := key[|Dir(run, ckpt)|..], key[|Dir(run', ckpt')|..];
    assert key == Dir(run, ckpt) + x == Dir(run', ckpt') + y;
    SplitUnder(run, ckpt, x);
    SplitUnder(run', ckpt', y);
  }

  lemma UnderIffSplit(key: string, run: string, ckpt: string)
    requires SlashFree(run) && SlashFree(ckpt)
    ensures Under(key, run, ckpt) <==> SplitKey(key).Some? && SplitKey(key).value.0 == run && SplitKey(key).value.1 == ckpt
  {
    if Under(key, run, ckpt) {
      assert key == Dir(run, ckpt) + key[|Dir(run, ckpt)|..];
      SplitUnder(run, ckpt, key[|Dir(run, ckpt)|..]);
    } else if SplitKey(key).Some? {
      SplitIsUnder(key);
    }
  }

  /** Character i of a key, counted from its end. */
  function FromEnd(s: string, i: nat): char
    requires 1 <= i <= |s|
  {
    s[|s| - i]
  }

  /** Staging, shard, sidecar and manifest keys never coincide, whatever the ids. */
  lemma KindsDisjoint(run: string, ckpt: string, shard: string, uuid: Uuid, digits: string,
                      run': string, ckpt': string, shard': string)
    ensures StagingKey(run, ckpt, shard, uuid) != ShardKey(run', ckpt', digits, shard')
    ensures StagingKey(run, ckpt, shard, uuid) != SidecarKey(run', ckpt', shard')
    ensures StagingKey(run, ckpt, shard, uuid) != ManifestKey(run', ckpt')
    ensures ShardKey(run, ckpt, digits, shard) != SidecarKey(run', ckpt', shard')
    ensures ShardKey(run, ckpt, digits, shard) != ManifestKey(run', ckpt')
    ensures SidecarKey(run, ckpt, shard) != ManifestKey(run', ckpt')
  {
    var staging := StagingKey(run, ckpt, shard, uuid);
    assert FromEnd(staging, 1) == uuid[35] && FromEnd(staging, 7) == uuid[29];
    assert FromEnd(ShardKey(run, ckpt, digits, shard), 1) == 'n' && FromEnd(ShardKey(run, ckpt, digits, shard), 2) == 'i';
    assert FromEnd(ShardKey(run', ckpt', digits, shard'), 1) == 'n';
    assert FromEnd(SidecarKey(run, ckpt, shard), 1) == '6';
    assert FromEnd(SidecarKey(run', ckpt', shard'), 1) == '6' && FromEnd(SidecarKey(run', ckpt', shard'), 7) == '.';
    assert FromEnd(ManifestKey(run', ckpt'), 1) == 'n' && FromEnd(ManifestKey(run', ckpt'), 2) == 'o';
  }

  lemma NotEnding(s: string, suffix: string, i: nat)
    requires 1 <= i <= |suffix| <= |s| && FromEnd(s, i) != FromEnd(suffix, i)
    ensures !EndsWith(s, suffix)
  {
    assert s[|s| - |suffix|..][|suffix| - i] == FromEnd(s, i);
  }

  lemma DataEndsOtherwise(run: string, ckpt: string, shard: string, uuid: Uuid, digits: string)
    ensures !EndsWith(StagingKey(run, ckpt, shard, uuid), "_manifest.json")
    ensures |digits| == 16 ==> !EndsWith(ShardKey(run, ckpt, digits, shard), "_manifest.json")
  {
    var suffix := "_manifest.json";
    assert FromEnd(suffix, 1) == 'n' && FromEnd(suffix, 2) == 'o';
    NotEnding(StagingKey(run, ckpt, shard, uuid), suffix, 1);
    if |digits| == 16 { NotEnding(ShardKey(run, ckpt, digits, shard), suffix, 2); }
  }

  lemma SidecarEndsOtherwise(run: string, ckpt: string, shard: string)
    ensures !EndsWith(SidecarKey(run, ckpt, shard), "_manifest.json")
  {
    var sidecar, suffix := SidecarKey(run, ckpt, shard), "_manifest.json";
    if |sidecar| >= |suffix| {
      assert FromEnd(sidecar, 1) == '6' && FromEnd(suffix, 1) == 'n';
      NotEnding(sidecar, suffix, 1);
    }
  }

  /** Among a checkpoint's own objects only the manifest has the manifest's suffix. */
  lemma OnlyManifestEndsSo(run: string, ckpt: string, shard: string, uuid: Uuid, digits: string)
    ensures !EndsWith(StagingKey(run, ckpt, shard, uuid), "_manifest.json")
    ensures |digits| == 16 ==> !EndsWith(ShardKey(run, ckpt, digits, shard), "_manifest.json")
    ensures !EndsWith(SidecarKey(run, ckpt, shard), "_manifest.json")
    ensures EndsWith(ManifestKey(run, ckpt), "/_manifest.json")
  {
    DataEndsOtherwise(run, ckpt, shard, uuid, digits);
    SidecarEndsOtherwise(run, ckpt, shard);
    var key := ManifestKey(run, ckpt);
    assert key == run + "/" + ckpt + "/_manifest.json";
    assert key[|key| - 15..] == "/_manifest.json";
  }

  lemma ShardNameInjective(digits: string, shard: string, digits': string, shard': string)
    requires |digits| == 16 && |digits'| == 16 && ShardName(digits, shard) == ShardName(digits', shard')
    ensures digits == digits' && shard == shard'
  {
    var x, y := ShardName(digits, shard), ShardName(digits', shard');
    assert digits == x[7..23] && digits' == y[7..23];
    assert |x| == |shard| + 28 && |y| == |shard'| + 28;
    assert shard == x[24..|x| - 4] && shard' == y[24..|y| - 4];
  }

  /** For slash-free run and checkpoint ids, a shard key names its parts. */
  lemma ShardKeyInjective(run: string, ckpt: string, digits: string, shard: string,
                          run': string, ckpt': string, digits': string, shard': string)
    requires SlashFree(run) && SlashFree(ckpt) && SlashFree(run') && SlashFree(ckpt')
    requires |digits| == 16 && |digits'| == 16
    requires ShardKey(run, ckpt, digits, shard) == ShardKey(run', ckpt', digits', shard')
    ensures run == run' && ckpt == ckpt' && digits == digits' && shard == shard'
  {
    var x, y := ShardName(digits, shard), ShardName(digits', shard');
    SplitUnder(run, ckpt, x);
    SplitUnder(run', ckpt', y);
    ShardNameInjective(digits, shard, digits', shard');
  }

  /** The composite id the control plane sends is split back into its parts. */
  lemma CompositeSplits(run: string, ckpt: string)
    requires SlashFree(run)
    ensures var id := run + "/" + ckpt; var pos := FirstSlash(id);
            pos < |id| && id[..pos] == run && id[pos + 1..] == ckpt
  {
    FirstSlashIs(run, ckpt);
  }
}
