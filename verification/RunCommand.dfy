/**
 The commands themselves, as they run when no other process interferes: `acquire`, `release`, `restore`,
 `save`, `run` and `seed` over in-memory stores. The outside world is a parameter; mirrors may fail.
 */
module RunCommand {
  import opened Basics
  import opened Stores
  import opened Keys
  import opened Snapshot
  import opened Protocol
  import Hex

  // ---------------------------------------------------------------- lock

  /** No lock, or a readable lock whose lease has run out. */
  predicate LockIsFree(c: Codec, s: Store, now: int) {
    LOCK_KEY in s.objects ==>
      c.parseLock(s.objects[LOCK_KEY].body).Some? && c.parseLock(s.objects[LOCK_KEY].body).value.expiresAt <= now
  }

  /** The store with the lock taken. */
  function Locked(c: Codec, s: Store, runId: string, ttl: nat, now: int): Store {
    s.Write(LOCK_KEY, c.lockBytes(Lock(runId, now, now + ttl)))
  }

  /**
   `acquire` succeeds exactly if there is no lock or a readable one that expires no later than now; then the lock
   object is its own.
   */
  method Acquire(store: InMemoryStore, c: Codec, runId: string, ttl: nat, now: int) returns (guard: Result<Etag>)
    modifies store
    ensures guard.Ok? <==> LockIsFree(c, old(store.Contents()), now)
    ensures guard.Ok? ==> store.Contents() == Locked(c, old(store.Contents()), runId, ttl, now)
                          && guard.value == store.counter
    ensures guard.Err? ==> store.Contents() == old(store.Contents())
    ensures LOCK_KEY !in old(store.inner) ==> guard.Ok?
    ensures LOCK_KEY in old(store.inner) ==>
              var found := c.parseLock(old(store.inner)[LOCK_KEY].body);
              guard.Ok? <==> found.Some? && found.value.expiresAt <= now
    ensures guard.Ok? ==>
              && guard.value == old(store.counter) + 1
              && store.inner == old(store.inner)[LOCK_KEY := Object(c.lockBytes(Lock(runId, now, now + ttl)),
                                                                    guard.value)]
  {
    var body := c.lockBytes(Lock(runId, now, now + ttl));
    var existing := store.Head(LOCK_KEY);
    match existing {
      case None => guard := store.PutIfUnmodified(LOCK_KEY, body, None);
      case Some(etag) =>
        var found := store.Get(LOCK_KEY);
        if found.Err? {
          return Err;
        }
        var prev := c.parseLock(found.value.body);
        if prev.None? || prev.value.expiresAt > now {
          return Err;
        }
        guard := store.PutIfUnmodified(LOCK_KEY, body, Some(etag));
    }
  }

  /** A lease holds for its whole term and not an instant longer, whoever asks. */
  lemma LeaseWindow(c: Codec, s: Store, runId: string, ttl: nat, taken: int, now: int)
    requires c.Lawful()
    ensures LockIsFree(c, Locked(c, s, runId, ttl, taken), now) <==> taken + ttl <= now
  {
    assert c.parseLock(c.lockBytes(Lock(runId, taken, taken + ttl))) == Some(Lock(runId, taken, taken + ttl));
  }

  /** `release` removes the lock only while it is still the guard's own; it fails only if another one is there. */
  method ReleaseLock(store: InMemoryStore, guard: Etag) returns (ok: bool)
    modifies store
    ensures ok <==> (LOCK_KEY in old(store.inner) ==> old(store.inner)[LOCK_KEY].etag == guard)
    ensures store.inner == if ok then old(store.inner) - {LOCK_KEY} else old(store.inner)
    ensures store.counter == old(store.counter)
    ensures forall k :: k != LOCK_KEY ==> SameAt(old(store.Contents()), store.Contents(), k)
  {
    ok := store.DeleteIfMatch(LOCK_KEY, guard);
  }

  // ---------------------------------------------------------------- restore

  /** What `restore` returns: the current pointer with its etag, and the state it resolves to. */
  function Restorable(c: Codec, s: Store): Option<Restored> {
    if LATEST_KEY !in s.objects then None
    else
      match c.parsePointer(s.objects[LATEST_KEY].body)
      case None => None
      case Some(p) =>
        match Resolve(c, s, p)
        case None => None
        case Some(state) => Some(Restored(p, s.objects[LATEST_KEY].etag, state))
  }

  /**
   `restore` gets through exactly if the pointer is there and readable, both objects it names are there, the snapshot
   has the digest it names, the stored text decodes to a signature that verifies, and decryption and decompression
   succeed.
   */
  method Restore(store: InMemoryStore, c: Codec) returns (r: Option<Restored>)
    ensures r == Restorable(c, store.Contents())
    ensures r.Some? ==> LATEST_KEY in store.inner && c.parsePointer(store.inner[LATEST_KEY].body).Some?
    ensures LATEST_KEY in store.inner && c.parsePointer(store.inner[LATEST_KEY].body).Some? ==>
              var p := c.parsePointer(store.inner[LATEST_KEY].body).value;
              r.Some? <==>
                && p.objectKey in store.inner && p.signatureKey in store.inner
                && var cipher := store.inner[p.objectKey].body;
                   var signature := Hex.Decode(Hex.Trim(store.inner[p.signatureKey].body));
                   && c.sha256(cipher) == p.sha256
                   && signature.Some? && c.verify(cipher, signature.value)
                   && c.decrypt(cipher).Some? && c.decompress(c.decrypt(cipher).value).Some?
    ensures r.Some? ==>
              var p := c.parsePointer(store.inner[LATEST_KEY].body).value;
              && r.value.pointer == p && r.value.pointerEtag == store.inner[LATEST_KEY].etag
              && p.objectKey in store.inner && c.decrypt(store.inner[p.objectKey].body).Some?
              && c.decompress(c.decrypt(store.inner[p.objectKey].body).value) == Some(r.value.state)
  {
    var latest := store.Get(LATEST_KEY);
    if latest.Err? {
      return None;
    }
    var pointer := c.parsePointer(latest.value.body);
    if pointer.None? {
      return None;
    }
    var cipher := store.Get(pointer.value.objectKey);
    if cipher.Err? || !DigestMatches(c, pointer.value.sha256, cipher.value.body) {
      return None;
    }
    var signature := store.Get(pointer.value.signatureKey);
    if signature.Err? || !SignatureOk(c, cipher.value.body, signature.value.body) {
      return None;
    }
    var state := Open(c, cipher.value.body);
    if state.None? {
      return None;
    }
    r := Some(Restored(pointer.value, latest.value.etag, state.value));
  }

  /** The pointer in a store, and where the snapshot and the signature it names lie. */
  ghost predicate Names(c: Codec, s: Store, p: LatestPointer) {
    && LATEST_KEY in s.objects && c.parsePointer(s.objects[LATEST_KEY].body) == Some(p)
    && p.objectKey in s.objects && p.signatureKey in s.objects
  }

  /** A well-formed signature that does not verify is refused, whatever else has been put in place around it. */
  lemma ForgedSignatureIsRefused(c: Codec, s: Store, p: LatestPointer, forged: Bytes)
    requires Names(c, s, p) && s.objects[p.signatureKey].body == Hex.Encode(forged)
    requires !c.verify(s.objects[p.objectKey].body, forged)
    ensures Restorable(c, s) == None
  {
    Hex.StoredSignatureReadsBack(forged);
  }

  /** So is a text with a character in it that is neither a hex digit nor white space around the digits. */
  lemma NonHexSignatureIsRefused(c: Codec, s: Store, p: LatestPointer, i: nat)
    requires Names(c, s, p)
    requires var text := Hex.Trim(s.objects[p.signatureKey].body);
             i < |text| && text[i] as char !in "0123456789abcdefABCDEF"
    ensures Restorable(c, s) == None
  {
    var text := Hex.Trim(s.objects[p.signatureKey].body);
    if Hex.Decode(text).Some? {
      Hex.DecodeMeans(text, Hex.Decode(text).value);
      Hex.SpelledInDigits(text, Hex.Decode(text).value, i);
    }
  }

  /** A snapshot other than the one the pointer was made for is refused. */
  lemma OtherDigestIsRefused(c: Codec, s: Store, p: LatestPointer)
    requires Names(c, s, p) && c.sha256(s.objects[p.objectKey].body) != p.sha256
    ensures Restorable(c, s) == None
  {
  }

  // ---------------------------------------------------------------- fan-out

  ghost predicate Distinct(primary: InMemoryStore, mirrors: seq<InMemoryStore>) {
    && primary !in mirrors
    && (forall i, j :: 0 <= i < j < |mirrors| ==> mirrors[i] != mirrors[j])
  }

  /** One best-effort put to every mirror; `down(i)` says that mirror `i` fails. */
  method Fanout(mirrors: seq<InMemoryStore>, key: string, body: Bytes, down: int -> bool)
    requires forall i, j :: 0 <= i < j < |mirrors| ==> mirrors[i] != mirrors[j]
    modifies mirrors
    ensures forall i :: 0 <= i < |mirrors| ==>
              mirrors[i].Contents() == if down(i) then old(mirrors[i].Contents())
                else old(mirrors[i].Contents()).Write(key, body)
  {
    for n := 0 to |mirrors|
      invariant forall i :: 0 <= i < n ==>
                  mirrors[i].Contents() == if down(i) then old(mirrors[i].Contents())
                    else old(mirrors[i].Contents()).Write(key, body)
      invariant forall i :: n <= i < |mirrors| ==> mirrors[i].Contents() == old(mirrors[i].Contents())
    {
      if !down(n) {
        var _ := mirrors[n].Put(key, body);
      }
    }
  }

  /** Mirror `i` after the first `items` fan-outs of a draft; `down(i, item)` ones fail. */
  function Fanned(c: Codec, s: Store, d: Draft, i: int, down: (int, int) -> bool, items: nat): Store {
    if items == 0 then s
    else
      var before := Fanned(c, s, d, i, down, items - 1);
      if down(i, items - 1) then before else before.Write(FanKey(d, items - 1), FanBody(c, d, items - 1))
  }

  /**
   A mirror after a fan-out: under each of the three keys the bytes that were sent, unless that item did not get
   through, and then what was there before; nothing else has changed.
   */
  ghost predicate Mirrored(s: Store, s': Store, stamp: string, cipher: Bytes, signature: Bytes, pointer: Bytes, i: int,
                           down: (int, int) -> bool) {
    && (if down(i, 0) then SameAt(s, s', ObjectKey(stamp))
        else ObjectKey(stamp) in s'.objects && s'.objects[ObjectKey(stamp)].body == cipher)
    && (if down(i, 1) then SameAt(s, s', SignatureKey(stamp))
        else SignatureKey(stamp) in s'.objects && s'.objects[SignatureKey(stamp)].body == signature)
    && (if down(i, 2) then SameAt(s, s', LATEST_KEY)
        else LATEST_KEY in s'.objects && s'.objects[LATEST_KEY].body == pointer)
    && forall k :: k !in {ObjectKey(stamp), SignatureKey(stamp), LATEST_KEY} ==> SameAt(s, s', k)
  }

  lemma FannedHolds(c: Codec, s: Store, d: Draft, i: int, down: (int, int) -> bool)
    ensures Mirrored(s, Fanned(c, s, d, i, down, 3), d.stamp, d.cipher, d.signature, c.pointerBytes(d.pointer), i, down)
  {
    ProtocolKeysAreSeparate(d.stamp, d.stamp, "");
    assert Fanned(c, s, d, i, down, 0) == s;
    var s1, s2 := Fanned(c, s, d, i, down, 1), Fanned(c, s, d, i, down, 2);
    assert s1 == if down(i, 0) then s else s.Write(ObjectKey(d.stamp), d.cipher);
    assert s2 == if down(i, 1) then s1 else s1.Write(SignatureKey(d.stamp), d.signature);
  }

  /** A restore from this store yields this pointer and this state. */
  ghost predicate Restores(c: Codec, s: Store, p: LatestPointer, state: StorageState) {
    var r := Restorable(c, s);
    r.Some? && r.value.pointer == p && r.value.state == state
  }

  /** From a mirror that everything reached, a restore yields exactly what was published. */
  lemma MirrorRestores(c: Codec, s: Store, s': Store, state: StorageState, randomness: nat, now: int, i: int,
                       down: (int, int) -> bool)
    requires c.Lawful() && !down(i, 0) && !down(i, 1) && !down(i, 2)
    requires var d := MakeDraft(c, state, randomness, now);
             Mirrored(s, s', d.stamp, d.cipher, d.signature, c.pointerBytes(d.pointer), i, down)
    ensures Restores(c, s', MakeDraft(c, state, randomness, now).pointer, state)
  {
    UploadedDraftResolves(c, state, randomness, now, s');
  }

  method FanoutDraft(mirrors: seq<InMemoryStore>, c: Codec, d: Draft, down: (int, int) -> bool)
    requires forall i, j :: 0 <= i < j < |mirrors| ==> mirrors[i] != mirrors[j]
    modifies mirrors
    ensures forall i :: 0 <= i < |mirrors| ==>
              && mirrors[i].Contents() == Fanned(c, old(mirrors[i].Contents()), d, i, down, 3)
              && Mirrored(old(mirrors[i].Contents()), mirrors[i].Contents(), d.stamp, d.cipher, d.signature,
                          c.pointerBytes(d.pointer), i, down)
  {
    Fanout(mirrors, ObjectKey(d.stamp), d.cipher, i => down(i, 0));
    assert forall i :: 0 <= i < |mirrors| ==>
        mirrors[i].Contents() == Fanned(c, old(mirrors[i].Contents()), d, i, down, 1);
    Fanout(mirrors, SignatureKey(d.stamp), d.signature, i => down(i, 1));
    assert forall i :: 0 <= i < |mirrors| ==>
        mirrors[i].Contents() == Fanned(c, old(mirrors[i].Contents()), d, i, down, 2);
    Fanout(mirrors, LATEST_KEY, c.pointerBytes(d.pointer), i => down(i, 2));
    forall i | 0 <= i < |mirrors|
      ensures Mirrored(old(mirrors[i].Contents()), mirrors[i].Contents(), d.stamp, d.cipher, d.signature,
                       c.pointerBytes(d.pointer), i, down)
    {
      FannedHolds(c, old(mirrors[i].Contents()), d, i, down);
    }
  }

  // ---------------------------------------------------------------- save

  function Upload(s: Store, d: Draft): Store {
    s.Write(ObjectKey(d.stamp), d.cipher).Write(SignatureKey(d.stamp), d.signature)
  }

  method UploadDraft(store: InMemoryStore, d: Draft)
    modifies store
    ensures store.Contents() == Upload(old(store.Contents()), d)
  {
    var _ := store.Put(ObjectKey(d.stamp), d.cipher);
    var _ := store.Put(SignatureKey(d.stamp), d.signature);
  }

  function Publish(c: Codec, s: Store, d: Draft): Store {
    Upload(s, d).Write(LATEST_KEY, c.pointerBytes(d.pointer))
  }

  lemma UploadKeepsPointer(s: Store, d: Draft)
    ensures SameAt(s, Upload(s, d), LATEST_KEY) && SameAt(s, Upload(s, d), LOCK_KEY)
  {
  }

  /** What is published, byte by byte. */
  lemma PublishMeans(c: Codec, s: Store, state: StorageState, randomness: nat, now: int)
    ensures var d := MakeDraft(c, state, randomness, now);
            var t := c.stamp(now);
            var cipher := c.encrypt(c.compress(state), randomness);
            var pointer := c.pointerBytes(LatestPointer(t, ObjectKey(t), c.sha256(cipher), SignatureKey(t), now));
            var uploaded := s.objects[ObjectKey(t) := Object(cipher, s.counter + 1)]
                [SignatureKey(t) := Object(Hex.Encode(c.sign(cipher)), s.counter + 2)];
            && d.stamp == t && d.cipher == cipher && d.signature == Hex.Encode(c.sign(cipher))
            && c.pointerBytes(d.pointer) == pointer
            && Upload(s, d).objects == uploaded
            && Publish(c, s, d).objects == uploaded[LATEST_KEY := Object(pointer, s.counter + 3)]
  {
  }

  /** A published draft is what the next restore reads. */
  lemma PublishedIsRestorable(c: Codec, s: Store, state: StorageState, randomness: nat, now: int)
    requires c.Lawful()
    ensures var d := MakeDraft(c, state, randomness, now);
            var s' := Publish(c, s, d);
            Restorable(c, s') == Some(Restored(d.pointer, s'.counter, state)) && SameAt(s, s', LOCK_KEY)
  {
    var d := MakeDraft(c, state, randomness, now);
    ProtocolKeysAreSeparate(d.stamp, d.stamp, "");
    UploadedDraftResolves(c, state, randomness, now, Publish(c, s, d));
  }

  /**
   `save` commits exactly when the clock has moved on and nobody has replaced the pointer it restored from.
   A rollback is refused before anything is written; a lost race leaves two uploads and no other change.
   */
  method Save(primary: InMemoryStore, mirrors: seq<InMemoryStore>, c: Codec, state: StorageState, randomness: nat,
              now: int, prev: Restored, down: (int, int) -> bool)
    returns (version: Option<string>)
    requires Distinct(primary, mirrors)
    modifies primary, mirrors
    ensures var d := MakeDraft(c, state, randomness, now);
            var s := old(primary.Contents());
            && (version.Some? <==> now > prev.pointer.createdAt && s.EtagAt(LATEST_KEY) == Some(prev.pointerEtag))
            && (version.Some? ==> version.value == d.stamp && primary.Contents() == Publish(c, s, d))
            && (version.None? ==>
                  primary.Contents() == if now > prev.pointer.createdAt then Upload(s, d) else s)
            && (forall i :: 0 <= i < |mirrors| ==>
                  mirrors[i].Contents()
                  == if version.Some? then Fanned(c, old(mirrors[i].Contents()), d, i, down, 3)
                     else old(mirrors[i].Contents()))
    ensures var t := c.stamp(now);
            var cipher := c.encrypt(c.compress(state), randomness);
            var signature := Hex.Encode(c.sign(cipher));
            var pointer := c.pointerBytes(LatestPointer(t, ObjectKey(t), c.sha256(cipher), SignatureKey(t), now));
            var n, held := old(primary.counter), old(primary.inner);
            var uploaded := held[ObjectKey(t) := Object(cipher, n + 1)][SignatureKey(t) := Object(signature, n + 2)];
            && (version.Some? ==> version.value == t && primary.inner == uploaded[LATEST_KEY := Object(pointer, n + 3)])
            && (version.None? ==> primary.inner == if now > prev.pointer.createdAt then uploaded else held)
    ensures version.Some? ==> forall i :: 0 <= i < |mirrors| ==>
              Mirrored(old(mirrors[i].Contents()), mirrors[i].Contents(), c.stamp(now),
                       MakeDraft(c, state, randomness, now).cipher, MakeDraft(c, state, randomness, now).signature,
                       c.pointerBytes(MakeDraft(c, state, randomness, now).pointer), i, down)
  {
    var d := MakeDraft(c, state, randomness, now);
    PublishMeans(c, primary.Contents(), state, randomness, now);
    if !StrictlyNewer(prev.pointer, d.pointer) {
      return None;
    }
    UploadKeepsPointer(primary.Contents(), d);
    UploadDraft(primary, d);
    var cas := primary.PutIfUnmodified(LATEST_KEY, c.pointerBytes(d.pointer), Some(prev.pointerEtag));
    if cas.Err? {
      return None;
    }
    FanoutDraft(mirrors, c, d, down);
    version := Some(d.stamp);
  }

  // ---------------------------------------------------------------- run

  /** One workload: the requests it makes of the primary, and whether it succeeds. */
  datatype WorkloadRun = WorkloadRun(requests: seq<Op>, ok: bool)

  /** What the world outside the stores does during one run. */
  datatype Session = Session(launched: bool, canaryOk: bool, workloads: seq<WorkloadRun>,
                             exported: Option<StorageState>, randomness: nat, savedAt: int)

  ghost predicate StaysInItsPrefix(w: WorkloadRun) {
    forall i :: 0 <= i < |w.requests| ==> IsWorkloadKey(w.requests[i].key)
  }

  /** The lock, the pointer and every snapshot are as they were. */
  ghost predicate StateKept(s: Store, s': Store) {
    && SameAt(s, s', LATEST_KEY) && SameAt(s, s', LOCK_KEY)
    && (forall t :: IsStamp(t) ==> SameAt(s, s', ObjectKey(t)) && SameAt(s, s', SignatureKey(t)))
  }

  lemma WorkloadRequestKeepsState(s: Store, op: Op)
    requires IsWorkloadKey(op.key)
    ensures StateKept(s, Apply(s, op).0)
  {
    WorkloadKeysAreSeparate(op.key, "Z", "");
    forall t | IsStamp(t)
      ensures var s' := Apply(s, op).0; SameAt(s, s', ObjectKey(t)) && SameAt(s, s', SignatureKey(t))
    {
      WorkloadKeysAreSeparate(op.key, t, "");
    }
  }

  method Serve(store: InMemoryStore, op: Op)
    modifies store
    ensures store.Contents() == Apply(old(store.Contents()), op).0
  {
    match op {
      case Head(_) =>
      case Get(_) =>
      case Put(key, body) => var _ := store.Put(key, body);
      case PutIf(key, body, expected) => var _ := store.PutIfUnmodified(key, body, expected);
      case DeleteIf(key, etag) => var _ := store.DeleteIfMatch(key, etag);
    }
  }

  method RunWorkload(primary: InMemoryStore, w: WorkloadRun)
    requires StaysInItsPrefix(w)
    modifies primary
    ensures primary.Contents() == ApplyAll(old(primary.Contents()), w.requests)
    ensures StateKept(old(primary.Contents()), primary.Contents())
  {
    for i := 0 to |w.requests|
      invariant primary.Contents() == ApplyAll(old(primary.Contents()), w.requests[..i])
      invariant StateKept(old(primary.Contents()), primary.Contents())
    {
      assert w.requests[..i + 1][..i] == w.requests[..i];
      WorkloadRequestKeepsState(primary.Contents(), w.requests[i]);
      Serve(primary, w.requests[i]);
    }
    assert w.requests[..|w.requests|] == w.requests;
  }

  predicate AllOk(workloads: seq<WorkloadRun>) {
    forall i :: 0 <= i < |workloads| ==> workloads[i].ok
  }

  /** How many workloads run: all of them, or those up to the first that fails. */
  function Ran(workloads: seq<WorkloadRun>): (n: nat)
    ensures n <= |workloads| && (forall i :: 0 <= i < n - 1 ==> workloads[i].ok)
    ensures n < |workloads| ==> n > 0 && !workloads[n - 1].ok
  {
    if workloads == [] then 0 else if !workloads[0].ok then 1 else 1 + Ran(workloads[1..])
  }

  function Requests(workloads: seq<WorkloadRun>): seq<Op> {
    if workloads == [] then [] else Requests(workloads[..|workloads| - 1]) + Last(workloads).requests
  }

  /** The requests of one list of workloads after another are those of the joined list, in that order. */
  lemma {:induction false} RequestsInOrder(first: seq<WorkloadRun>, then_: seq<WorkloadRun>, w: WorkloadRun)
    ensures Requests([w]) == w.requests
    ensures Requests(first + then_) == Requests(first) + Requests(then_)
  {
    assert [w][..0] == [];
    if then_ == [] {
      assert first + then_ == first;
    } else {
      var before := then_[..|then_| - 1];
      RequestsInOrder(first, before, w);
      assert (first + then_)[..|first + then_| - 1] == first + before;
    }
  }

  lemma {:induction false} ApplyAllSplits(s: Store, first: seq<Op>, then_: seq<Op>)
    ensures ApplyAll(s, first + then_) == ApplyAll(ApplyAll(s, first), then_)
  {
    if then_ == [] {
      assert first + then_ == first;
    } else {
      ApplyAllSplits(s, first, then_[..|then_| - 1]);
      assert (first + then_)[..|first + then_| - 1] == first + then_[..|then_| - 1];
    }
  }

  /** Workloads run in order, each making its requests; the first failure stops them. */
  method RunWorkloads(primary: InMemoryStore, workloads: seq<WorkloadRun>) returns (ok: bool)
    requires forall i :: 0 <= i < |workloads| ==> StaysInItsPrefix(workloads[i])
    modifies primary
    ensures primary.Contents() == ApplyAll(old(primary.Contents()), Requests(workloads[..Ran(workloads)]))
    ensures StateKept(old(primary.Contents()), primary.Contents())
    ensures ok <==> forall i :: 0 <= i < |workloads| ==> workloads[i].ok
  {
    for n := 0 to |workloads|
      invariant primary.Contents() == ApplyAll(old(primary.Contents()), Requests(workloads[..n]))
      invariant StateKept(old(primary.Contents()), primary.Contents())
      invariant forall i :: 0 <= i < n ==> workloads[i].ok
    {
      assert workloads[..n + 1][..n] == workloads[..n];
      ApplyAllSplits(old(primary.Contents()), Requests(workloads[..n]), workloads[n].requests);
      RunWorkload(primary, workloads[n]);
      if !workloads[n].ok {
        assert Ran(workloads) == n + 1;
        return false;
      }
    }
    ok := true;
  }

  /** Everything a run needs to save, once it holds the lock and no one else moves the pointer. */
  predicate CanSave(c: Codec, s: Store, x: Session) {
    && Restorable(c, s).Some? && x.launched && x.canaryOk && AllOk(x.workloads)
    && x.exported.Some? && x.exported.value.cookies != []
    && x.savedAt > Restorable(c, s).value.pointer.createdAt
  }

  /**
   A pointer put back from outside goes unnoticed. Whatever the store held under `latest.json`, once an earlier pointer
   whose snapshot is still there is written back, a run saves if and only if its stages succeed and its clock is past
   that earlier pointer; the pointer that was replaced plays no part.
   */
  lemma PutBackPointerGoesUnnoticed(c: Codec, s: Store, earlier: LatestPointer, stamp: string, x: Session)
    requires c.Lawful() && Resolve(c, s, earlier).Some?
    requires earlier.objectKey == ObjectKey(stamp) && earlier.signatureKey == SignatureKey(stamp)
    ensures CanSave(c, s.Write(LATEST_KEY, c.pointerBytes(earlier)), x) <==>
              && x.launched && x.canaryOk && AllOk(x.workloads)
              && x.exported.Some? && x.exported.value.cookies != [] && x.savedAt > earlier.createdAt
  {
    ProtocolKeysAreSeparate(stamp, stamp, "");
  }

  method RunLocked(primary: InMemoryStore, mirrors: seq<InMemoryStore>, c: Codec, x: Session, down: (int, int) -> bool)
    returns (outcome: Outcome)
    requires c.Lawful() && Distinct(primary, mirrors)
    requires forall i :: 0 <= i < |x.workloads| ==> StaysInItsPrefix(x.workloads[i])
    modifies primary, mirrors
    ensures outcome.Saved? <==> CanSave(c, old(primary.Contents()), x)
    ensures outcome.Saved? ==>
              var d := MakeDraft(c, x.exported.value, x.randomness, x.savedAt);
              && outcome.version == d.stamp
              && Restorable(c, primary.Contents()) == Some(Restored(d.pointer, primary.counter, x.exported.value))
              && SameAt(old(primary.Contents()), primary.Contents(), LOCK_KEY)
    ensures !outcome.Saved? ==> StateKept(old(primary.Contents()), primary.Contents())
    ensures outcome.CanaryFailed? <==> Restorable(c, old(primary.Contents())).Some? && x.launched && !x.canaryOk
    ensures var s := old(primary.Contents());
            var worked := if Restorable(c, s).Some? && x.launched && x.canaryOk
                          then ApplyAll(s, Requests(x.workloads[..Ran(x.workloads)])) else s;
            primary.Contents()
            == if outcome.Saved? then Publish(c, worked, MakeDraft(c, x.exported.value, x.randomness, x.savedAt))
               else worked
    ensures forall i :: 0 <= i < |mirrors| ==>
              mirrors[i].Contents()
              == if outcome.Saved?
                 then Fanned(c, old(mirrors[i].Contents()), MakeDraft(c, x.exported.value, x.randomness, x.savedAt), i,
                             down, 3)
                 else old(mirrors[i].Contents())
  {
    var prev := Restore(primary, c);
    if prev.None? || !x.launched {
      return Errored;
    }
    if !x.canaryOk {
      return CanaryFailed;
    }
    var ok := RunWorkloads(primary, x.workloads);
    if !ok || x.exported.None? || x.exported.value.cookies == [] {
      return Errored;
    }
    PublishedIsRestorable(c, primary.Contents(), x.exported.value, x.randomness, x.savedAt);
    var version := Save(primary, mirrors, c, x.exported.value, x.randomness, x.savedAt, prev.value, down);
    match version {
      case Some(v) => outcome := Saved(v);
      case None => outcome := Errored;
    }
  }

  /** The store when the stages of a run under its lock are over. */
  function Staged(c: Codec, s: Store, x: Session): Store {
    var worked := if Restorable(c, s).Some? && x.launched && x.canaryOk
                  then ApplyAll(s, Requests(x.workloads[..Ran(x.workloads)])) else s;
    if CanSave(c, s, x) then Publish(c, worked, MakeDraft(c, x.exported.value, x.randomness, x.savedAt)) else worked
  }

  /** The end of every run that got the lock: give it back, and record how the run went. */
  method ReleaseAndReport(primary: InMemoryStore, guard: Etag, healthName: string, record: Bytes)
    requires primary.Contents().EtagAt(LOCK_KEY) == Some(guard)
    modifies primary
    ensures primary.inner == (old(primary.inner) - {LOCK_KEY})[HealthKey(healthName) := Object(record,
                                                                                           old(primary.counter) + 1)]
    ensures LOCK_KEY !in primary.inner && RestKept(old(primary.Contents()), primary.Contents())
  {
    ghost var s := primary.Contents();
    var _ := ReleaseLock(primary, guard);
    ghost var s1 := primary.Contents();
    LockChangeKeepsRest(s, s1);
    var _ := primary.Put(HealthKey(healthName), record);
    HealthWriteKeepsRest(s1, healthName, record);
  }

  /**
   One whole run. With the pointer to itself it saves exactly when the lock is free and every stage
   succeeds; it always gives the lock back; and unless it saves, the pointer and all snapshots stay put.
   */
  method RunOnce(primary: InMemoryStore, mirrors: seq<InMemoryStore>, c: Codec, runId: string, ttl: nat, now: int,
                 x: Session, down: (int, int) -> bool, healthName: string, record: Outcome -> Bytes)
    returns (outcome: Outcome)
    requires c.Lawful() && Distinct(primary, mirrors)
    requires forall i :: 0 <= i < |x.workloads| ==> StaysInItsPrefix(x.workloads[i])
    modifies primary, mirrors
    ensures outcome.Saved? <==>
              && LockIsFree(c, old(primary.Contents()), now)
              && CanSave(c, Locked(c, old(primary.Contents()), runId, ttl, now), x)
    ensures outcome.Saved? ==>
              var r := Restorable(c, primary.Contents());
              && r.Some? && r.value.state == x.exported.value
              && r.value.pointer == MakeDraft(c, x.exported.value, x.randomness, x.savedAt).pointer
              && outcome.version == r.value.pointer.version
    ensures outcome.CanaryFailed? <==>
              && LockIsFree(c, old(primary.Contents()), now) && x.launched && !x.canaryOk
              && Restorable(c, Locked(c, old(primary.Contents()), runId, ttl, now)).Some?
    ensures !LockIsFree(c, old(primary.Contents()), now) ==> primary.Contents() == old(primary.Contents())
    ensures LockIsFree(c, old(primary.Contents()), now) ==>
              var s := Staged(c, Locked(c, old(primary.Contents()), runId, ttl, now), x);
              primary.inner == (s.objects - {LOCK_KEY})[HealthKey(healthName) := Object(record(outcome), s.counter + 1)]
    ensures LockIsFree(c, old(primary.Contents()), now) ==> LOCK_KEY !in primary.Contents().objects
    ensures !outcome.Saved? ==>
              && SameAt(old(primary.Contents()), primary.Contents(), LATEST_KEY)
              && (forall t :: IsStamp(t) ==>
                    && SameAt(old(primary.Contents()), primary.Contents(), ObjectKey(t))
                    && SameAt(old(primary.Contents()), primary.Contents(), SignatureKey(t)))
    ensures forall i :: 0 <= i < |mirrors| ==>
              mirrors[i].Contents()
              == if outcome.Saved?
                 then Fanned(c, old(mirrors[i].Contents()), MakeDraft(c, x.exported.value, x.randomness, x.savedAt), i,
                             down, 3)
                 else old(mirrors[i].Contents())
    ensures outcome.Saved? ==>
              forall i :: 0 <= i < |mirrors| && !down(i, 0) && !down(i, 1) && !down(i, 2) ==>
                Restores(c, mirrors[i].Contents(), MakeDraft(c, x.exported.value, x.randomness, x.savedAt).pointer,
                         x.exported.value)
  {
    ghost var s0 := primary.Contents();
    var guard := Acquire(primary, c, runId, ttl, now);
    if guard.Err? {
      return Errored;
    }
    LockChangeKeepsRest(s0, primary.Contents());
    outcome := RunLocked(primary, mirrors, c, x, down);
    ghost var s2 := primary.Contents();
    ReleaseAndReport(primary, guard.value, healthName, record(outcome));
    if outcome.Saved? {
      ghost var d := MakeDraft(c, x.exported.value, x.randomness, x.savedAt);
      RestorableIsKept(c, s2, primary.Contents(), d.stamp);
      forall i | 0 <= i < |mirrors| && !down(i, 0) && !down(i, 1) && !down(i, 2)
        ensures Restores(c, mirrors[i].Contents(), d.pointer, x.exported.value)
      {
        FannedHolds(c, old(mirrors[i].Contents()), d, i, down);
        MirrorRestores(c, old(mirrors[i].Contents()), mirrors[i].Contents(), x.exported.value, x.randomness, x.savedAt,
                       i, down);
      }
    }
  }

  /** The pointer and every snapshot are as they were. */
  ghost predicate RestKept(s: Store, s': Store) {
    && SameAt(s, s', LATEST_KEY)
    && (forall t :: IsStamp(t) ==> SameAt(s, s', ObjectKey(t)) && SameAt(s, s', SignatureKey(t)))
  }

  lemma LockChangeKeepsRest(s: Store, s': Store)
    requires forall k :: k != LOCK_KEY ==> SameAt(s, s', k)
    ensures RestKept(s, s')
  {
  }

  lemma HealthWriteKeepsRest(s: Store, name: string, body: Bytes)
    ensures RestKept(s, s.Write(HealthKey(name), body)) && SameAt(s, s.Write(HealthKey(name), body), LOCK_KEY)
  {
    ProtocolKeysAreSeparate("", "", name);
    forall t ensures HealthKey(name) != ObjectKey(t) && HealthKey(name) != SignatureKey(t) {
      ProtocolKeysAreSeparate(t, t, name);
    }
  }

  lemma RestorableIsKept(c: Codec, s: Store, s': Store, stamp: string)
    requires RestKept(s, s') && IsStamp(stamp)
    requires Restorable(c, s).Some?
    requires Restorable(c, s).value.pointer.objectKey == ObjectKey(stamp)
    requires Restorable(c, s).value.pointer.signatureKey == SignatureKey(stamp)
    ensures Restorable(c, s') == Restorable(c, s)
  {
  }

  // ---------------------------------------------------------------- seed

  /** A seed puts its pointer under whatever etag it finds there. */
  method ReplacePointer(primary: InMemoryStore, body: Bytes)
    modifies primary
    ensures primary.Contents() == old(primary.Contents()).Write(LATEST_KEY, body)
  {
    var existing := primary.Head(LATEST_KEY);
    var cas;
    match existing {
      case None => cas := primary.PutIfUnmodified(LATEST_KEY, body, None);
      case Some(etag) => cas := primary.PutIfUnmodified(LATEST_KEY, body, Some(etag));
    }
  }

  /**
   A seed with the pointer to itself publishes unless no cookies were captured; it needs no lock and no later clock.
   */
  method SeedOnce(primary: InMemoryStore, mirrors: seq<InMemoryStore>, c: Codec, state: StorageState, randomness: nat,
                  now: int, down: (int, int) -> bool)
    returns (outcome: Outcome)
    requires c.Lawful() && Distinct(primary, mirrors)
    modifies primary, mirrors
    ensures var d := MakeDraft(c, state, randomness, now);
            && outcome == (if state.cookies == [] then Errored else Saved(d.stamp))
            && primary.Contents()
               == (if outcome.Saved? then Publish(c, old(primary.Contents()), d) else old(primary.Contents()))
            && (outcome.Saved? ==>
                  Restorable(c, primary.Contents()) == Some(Restored(d.pointer, primary.counter, state)))
            && (forall i :: 0 <= i < |mirrors| ==>
                  mirrors[i].Contents()
                  == if outcome.Saved? then Fanned(c, old(mirrors[i].Contents()), d, i, down, 3)
                     else old(mirrors[i].Contents()))
    ensures outcome.Saved? ==>
              var d := MakeDraft(c, state, randomness, now);
              forall i :: 0 <= i < |mirrors| ==>
                && Mirrored(old(mirrors[i].Contents()), mirrors[i].Contents(), c.stamp(now), d.cipher, d.signature,
                            c.pointerBytes(d.pointer), i, down)
                && (!down(i, 0) && !down(i, 1) && !down(i, 2) ==>
                      Restores(c, mirrors[i].Contents(), d.pointer, state))
  {
    if state.cookies == [] {
      return Errored;
    }
    var d := MakeDraft(c, state, randomness, now);
    PublishedIsRestorable(c, primary.Contents(), state, randomness, now);
    UploadDraft(primary, d);
    ReplacePointer(primary, c.pointerBytes(d.pointer));
    FanoutDraft(mirrors, c, d, down);
    forall i | 0 <= i < |mirrors| && !down(i, 0) && !down(i, 1) && !down(i, 2)
      ensures Restores(c, mirrors[i].Contents(), d.pointer, state)
    {
      MirrorRestores(c, old(mirrors[i].Contents()), mirrors[i].Contents(), state, randomness, now, i, down);
    }
    outcome := Saved(d.stamp);
  }
}
