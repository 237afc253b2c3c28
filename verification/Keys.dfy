/** The names objects are stored under, and why no two kinds of object can share one. */
module Keys {
  import opened Basics

  const LATEST_KEY := "latest.json"
  const LOCK_KEY := "lock.json"

  function ObjectKey(stamp: string): string { "snapshots/" + stamp + ".zst.age" }

  function SignatureKey(stamp: string): string { "snapshots/" + stamp + ".zst.age.sig" }

  function HealthKey(name: string): string { "health/" + name + ".json" }

  function IndexKey(prefix: string): string { prefix + "index.json.age" }

  function ConvKey(prefix: string, id: string): string { prefix + "conv/" + id + ".json.zst.age" }

  /** Covers every key a chats workload can write, whatever its configured prefix. */
  predicate IsWorkloadKey(key: string) {
    HasSuffix(key, ".json.age") || HasSuffix(key, ".json.zst.age")
  }

  /** Snapshot stamps end in the zone letter of `%Y-%m-%dT%H-%M-%SZ`. */
  predicate IsStamp(stamp: string) {
    HasSuffix(stamp, "Z")
  }

  lemma SuffixChar(key: string, suffix: string, i: nat)
    requires HasSuffix(key, suffix) && i < |suffix|
    ensures |key| >= |suffix| && key[|key| - |suffix| + i] == suffix[i]
  {
  }

  lemma WorkloadKeysEndInAge(prefix: string, id: string)
    ensures HasSuffix(IndexKey(prefix), ".json.age") && IsWorkloadKey(IndexKey(prefix))
    ensures HasSuffix(ConvKey(prefix, id), ".json.zst.age") && IsWorkloadKey(ConvKey(prefix, id))
  {
  }

  /** For every prefix and id, workload keys never meet the lock, pointer, health, snapshot or signature keys. */
  lemma WorkloadKeysAreSeparate(key: string, stamp: string, name: string)
    requires IsWorkloadKey(key) && IsStamp(stamp)
    ensures key != LATEST_KEY && key != LOCK_KEY && key != HealthKey(name)
    ensures key != ObjectKey(stamp) && key != SignatureKey(stamp)
  {
    var tail := if HasSuffix(key, ".json.age") then ".json.age" else ".json.zst.age";
    SuffixChar(key, tail, |tail| - 1);
    SuffixChar(key, tail, |tail| - 9);
    SuffixChar(key, tail, |tail| - 3);
    assert key[|key| - 1] == 'e' && key[|key| - 3] == 'a' && key[|key| - 9] in {'.', 'n'};
    assert LATEST_KEY[|LATEST_KEY| - 1] == LOCK_KEY[|LOCK_KEY| - 1] == 'n';
    assert HealthKey(name)[|HealthKey(name)| - 1] == 'n';
    assert SignatureKey(stamp)[|SignatureKey(stamp)| - 1] == 'g';
    SuffixChar(stamp, "Z", 0);
    assert ObjectKey(stamp)[|ObjectKey(stamp)| - 9] == stamp[|stamp| - 1] == 'Z';
  }

  /** The protocol's own keys are pairwise different, and a snapshot or signature key determines its stamp. */
  lemma ProtocolKeysAreSeparate(s: string, t: string, name: string)
    ensures LATEST_KEY != LOCK_KEY && LATEST_KEY != HealthKey(name) && LOCK_KEY != HealthKey(name)
    ensures ObjectKey(s) !in {LATEST_KEY, LOCK_KEY, HealthKey(name), SignatureKey(t)}
    ensures SignatureKey(s) !in {LATEST_KEY, LOCK_KEY, HealthKey(name)}
    ensures ObjectKey(s) == ObjectKey(t) <==> s == t
    ensures SignatureKey(s) == SignatureKey(t) <==> s == t
  {
    assert LATEST_KEY[1] == 'a' && LOCK_KEY[1] == 'o' && HealthKey(name)[1] == 'e';
    assert ObjectKey(s)[1] == 'n' && SignatureKey(s)[1] == 'n';
    assert ObjectKey(s)[|ObjectKey(s)| - 1] == 'e' && SignatureKey(t)[|SignatureKey(t)| - 1] == 'g';
    assert ObjectKey(s)[10..|ObjectKey(s)| - 8] == s && ObjectKey(t)[10..|ObjectKey(t)| - 8] == t;
    assert SignatureKey(s)[10..|SignatureKey(s)| - 12] == s && SignatureKey(t)[10..|SignatureKey(t)| - 12] == t;
  }

  /** Under one prefix the index and the conversations never collide, and a conversation key determines its id. */
  lemma ChatKeysAreSeparate(prefix: string, id: string, other: string)
    ensures IndexKey(prefix) != ConvKey(prefix, id)
    ensures ConvKey(prefix, id) == ConvKey(prefix, other) <==> id == other
  {
    var n := |prefix|;
    assert IndexKey(prefix)[n] == 'i' && ConvKey(prefix, id)[n] == 'c';
    assert ConvKey(prefix, id)[n + 5..|ConvKey(prefix, id)| - 13] == id;
    assert ConvKey(prefix, other)[n + 5..|ConvKey(prefix, other)| - 13] == other;
  }
}
