/** Snapshots, the pointer that names the latest one, and what it means for a pointer to resolve. */
module Snapshot {
  import opened Basics
  import opened Stores
  import opened Keys
  import Hex

  /** A session's browser state. */
  datatype StorageState = StorageState(cookies: seq<string>, origins: seq<string>)

  datatype Lock = Lock(runId: string, createdAt: int, expiresAt: int)

  /** `createdAt` is a full timestamp, `version` its one-second stamp. */
  datatype LatestPointer = LatestPointer(version: string, objectKey: string, sha256: string,
                                         signatureKey: string, createdAt: int)

  /**
   Serialisation and cryptography, as functions the model is parameterised by. `encrypt` takes the
   randomness of one call as its second argument.
   */
  datatype Codec = Codec(
    lockBytes: Lock -> Bytes,
    parseLock: Bytes -> Option<Lock>,
    pointerBytes: LatestPointer -> Bytes,
    parsePointer: Bytes -> Option<LatestPointer>,
    compress: StorageState -> Bytes,
    decompress: Bytes -> Option<StorageState>,
    encrypt: (Bytes, nat) -> Bytes,
    decrypt: Bytes -> Option<Bytes>,
    sha256: Bytes -> string,
    sign: Bytes -> Bytes,
    verify: (Bytes, Bytes) -> bool,
    stamp: int -> string
  ) {
    /** Reading undoes writing under matching keys, and stamps have the shape of the time format. */
    ghost predicate Lawful() {
      && (forall l {:trigger lockBytes(l)} :: parseLock(lockBytes(l)) == Some(l))
      && (forall p {:trigger pointerBytes(p)} :: parsePointer(pointerBytes(p)) == Some(p))
      && (forall s {:trigger compress(s)} :: decompress(compress(s)) == Some(s))
      && (forall b, r {:trigger encrypt(b, r)} :: decrypt(encrypt(b, r)) == Some(b))
      && (forall b {:trigger sign(b)} :: verify(b, sign(b)))
      && (forall t {:trigger stamp(t)} :: IsStamp(stamp(t)))
    }
  }

  /** A snapshot ready to be published: the three objects `save` and `seed` write. */
  datatype Draft = Draft(state: StorageState, stamp: string, cipher: Bytes, signature: Bytes, pointer: LatestPointer)

  function MakeDraft(c: Codec, state: StorageState, randomness: nat, now: int): Draft {
    var cipher := c.encrypt(c.compress(state), randomness);
    var stamp := c.stamp(now);
    Draft(state, stamp, cipher, Hex.Encode(c.sign(cipher)),
          LatestPointer(stamp, ObjectKey(stamp), c.sha256(cipher), SignatureKey(stamp), now))
  }

  predicate DigestMatches(c: Codec, expected: string, body: Bytes) {
    c.sha256(body) == expected
  }

  predicate SignatureOk(c: Codec, cipher: Bytes, text: Bytes) {
    match Hex.Decode(Hex.Trim(text))
    case Some(sig) => c.verify(cipher, sig)
    case None => false
  }

  function Open(c: Codec, cipher: Bytes): Option<StorageState> {
    match c.decrypt(cipher)
    case Some(plain) => c.decompress(plain)
    case None => None
  }

  /** The state a pointer leads to in a store: fetch, check digest, check signature, decrypt, decompress. */
  function Resolve(c: Codec, s: Store, p: LatestPointer): Option<StorageState> {
    if p.objectKey in s.objects && p.signatureKey in s.objects
       && DigestMatches(c, p.sha256, s.objects[p.objectKey].body)
       && SignatureOk(c, s.objects[p.objectKey].body, s.objects[p.signatureKey].body)
    then Open(c, s.objects[p.objectKey].body)
    else None
  }

  predicate StrictlyNewer(prev: LatestPointer, next: LatestPointer) {
    next.createdAt > prev.createdAt
  }

  /** The two objects of a draft lie in the store under the draft's own keys. */
  predicate Uploaded(d: Draft, s: Store) {
    && ObjectKey(d.stamp) in s.objects && s.objects[ObjectKey(d.stamp)].body == d.cipher
    && SignatureKey(d.stamp) in s.objects && s.objects[SignatureKey(d.stamp)].body == d.signature
  }

  /** A well-made draft opens to the state it was made from, wherever its two objects have been uploaded. */
  lemma UploadedDraftResolves(c: Codec, state: StorageState, randomness: nat, now: int, s: Store)
    requires c.Lawful()
    requires Uploaded(MakeDraft(c, state, randomness, now), s)
    ensures Resolve(c, s, MakeDraft(c, state, randomness, now).pointer) == Some(state)
  {
    Hex.StoredSignatureReadsBack(c.sign(c.encrypt(c.compress(state), randomness)));
  }
}
