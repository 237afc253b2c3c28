/**
 The laws asked of the codecs can be met: JSON has a prefix code, indexes, locks and pointers can be written as JSON,
 and a reader can look for what was written.
 */
module Codecs {
  import opened Basics
  import opened JsonValues
  import ChatList
  import ChatSync
  import Snapshot

  // ---------------------------------------------------------------- a prefix code

  /** A number in unary. */
  function NatCode(n: nat): Bytes {
    if n == 0 then [0] else [1] + NatCode(n - 1)
  }

  lemma {:induction false} NatCodeIsPrefixFree(n: nat, m: nat, x: Bytes, y: Bytes)
    requires NatCode(n) + x == NatCode(m) + y
    ensures n == m && x == y
  {
    var a, b := NatCode(n) + x, NatCode(m) + y;
    assert a[0] == NatCode(n)[0] && b[0] == NatCode(m)[0];
    if n == 0 {
      assert a[1..] == x && b[1..] == y;
    } else {
      assert a[1..] == NatCode(n - 1) + x && b[1..] == NatCode(m - 1) + y;
      NatCodeIsPrefixFree(n - 1, m - 1, x, y);
    }
  }

  function IntCode(i: int): Bytes {
    NatCode(if i >= 0 then 2 * i else -2 * i - 1)
  }

  function StringCode(s: string): Bytes {
    if s == "" then NatCode(0) else NatCode(s[0] as nat + 1) + StringCode(s[1..])
  }

  lemma Assoc(a: Bytes, b: Bytes, d: Bytes)
    ensures (a + b) + d == a + (b + d)
  {
  }

  lemma {:induction false} StringCodeIsPrefixFree(s: string, t: string, x: Bytes, y: Bytes)
    requires StringCode(s) + x == StringCode(t) + y
    ensures s == t && x == y
  {
    var n, m := if s == "" then 0 else s[0] as nat + 1, if t == "" then 0 else t[0] as nat + 1;
    var x', y' := if s == "" then x else StringCode(s[1..]) + x, if t == "" then y else StringCode(t[1..]) + y;
    if s != "" {
      Assoc(NatCode(n), StringCode(s[1..]), x);
    }
    if t != "" {
      Assoc(NatCode(m), StringCode(t[1..]), y);
    }
    NatCodeIsPrefixFree(n, m, x', y');
    if s != "" {
      StringCodeIsPrefixFree(s[1..], t[1..], x, y);
      assert s == [s[0]] + s[1..] && t == [t[0]] + t[1..];
    }
  }

  /** The keys of an object in some order. */
  ghost function Order(keys: set<string>): (r: seq<string>)
    ensures forall k :: k in r <==> k in keys
  {
    if keys == {} then []
    else
      var k :| k in keys;
      [k] + Order(keys - {k})
  }

  ghost function JsonCode(v: Json): Bytes
    decreases v, 1
  {
    match v
    case Null => NatCode(0)
    case Bool(b) => NatCode(if b then 1 else 2)
    case Number(n) => NatCode(3) + IntCode(n)
    case String(s) => NatCode(4) + StringCode(s)
    case Array(items) => NatCode(5) + ItemsCode(v, |items|)
    case Object(fields) => NatCode(6) + FieldsCode(v, Order(fields.Keys))
  }

  /** The last `n` items of an array. */
  ghost function ItemsCode(v: Json, n: nat): Bytes
    requires v.Array? && n <= |v.items|
    decreases v, 0, n
  {
    if n == 0 then NatCode(0) else NatCode(1) + (JsonCode(v.items[|v.items| - n]) + ItemsCode(v, n - 1))
  }

  ghost function FieldsCode(v: Json, keys: seq<string>): Bytes
    requires v.Object? && forall k :: k in keys ==> k in v.fields
    decreases v, 0, |keys|
  {
    if keys == [] then NatCode(0)
    else NatCode(1) + (StringCode(keys[0]) + (JsonCode(v.fields[keys[0]]) + FieldsCode(v, keys[1..])))
  }

  function Tag(v: Json): nat {
    match v
    case Null => 0
    case Bool(b) => if b then 1 else 2
    case Number(_) => 3
    case String(_) => 4
    case Array(_) => 5
    case Object(_) => 6
  }

  ghost function Rest(v: Json): Bytes {
    match v
    case Null => []
    case Bool(b) => []
    case Number(n) => IntCode(n)
    case String(s) => StringCode(s)
    case Array(items) => ItemsCode(v, |items|)
    case Object(fields) => FieldsCode(v, Order(fields.Keys))
  }

  lemma JsonCodeParts(v: Json, x: Bytes)
    ensures JsonCode(v) + x == NatCode(Tag(v)) + (Rest(v) + x)
  {
    assert JsonCode(v) == NatCode(Tag(v)) + Rest(v);
    Assoc(NatCode(Tag(v)), Rest(v), x);
  }

  lemma {:induction false} JsonCodeIsPrefixFree(v: Json, w: Json, x: Bytes, y: Bytes)
    requires JsonCode(v) + x == JsonCode(w) + y
    ensures v == w && x == y
    decreases v, 1
  {
    JsonCodeParts(v, x);
    JsonCodeParts(w, y);
    NatCodeIsPrefixFree(Tag(v), Tag(w), Rest(v) + x, Rest(w) + y);
    match v {
      case Null => assert Rest(v) + x == x && Rest(w) + y == y;
      case Bool(_) => assert Rest(v) + x == x && Rest(w) + y == y;
      case Number(n) =>
        NatCodeIsPrefixFree(if n >= 0 then 2 * n else -2 * n - 1, if w.n >= 0 then 2 * w.n else -2 * w.n - 1, x, y);
      case String(s) => StringCodeIsPrefixFree(s, w.s, x, y);
      case Array(items) =>
        ItemsCodeIsPrefixFree(v, w, |items|, |w.items|, x, y);
        assert items == items[0..] && w.items == w.items[0..];
      case Object(fields) =>
        FieldsCodeIsPrefixFree(v, w, Order(fields.Keys), Order(w.fields.Keys), x, y);
        assert fields.Keys == w.fields.Keys;
    }
  }

  lemma {:induction false} ItemsCodeIsPrefixFree(v: Json, w: Json, n: nat, m: nat, x: Bytes, y: Bytes)
    requires v.Array? && w.Array? && n <= |v.items| && m <= |w.items|
    requires ItemsCode(v, n) + x == ItemsCode(w, m) + y
    ensures n == m && v.items[|v.items| - n..] == w.items[|w.items| - m..] && x == y
    decreases v, 0, n
  {
    var a := if n == 0 then [] else JsonCode(v.items[|v.items| - n]) + ItemsCode(v, n - 1);
    var b := if m == 0 then [] else JsonCode(w.items[|w.items| - m]) + ItemsCode(w, m - 1);
    var i, j := if n == 0 then 0 else 1, if m == 0 then 0 else 1;
    assert ItemsCode(v, n) == NatCode(i) + a && ItemsCode(w, m) == NatCode(j) + b;
    Assoc(NatCode(i), a, x);
    Assoc(NatCode(j), b, y);
    NatCodeIsPrefixFree(i, j, a + x, b + y);
    if n > 0 {
      var p, q := v.items[|v.items| - n], w.items[|w.items| - m];
      Assoc(JsonCode(p), ItemsCode(v, n - 1), x);
      Assoc(JsonCode(q), ItemsCode(w, m - 1), y);
      JsonCodeIsPrefixFree(p, q, ItemsCode(v, n - 1) + x, ItemsCode(w, m - 1) + y);
      ItemsCodeIsPrefixFree(v, w, n - 1, m - 1, x, y);
      assert v.items[|v.items| - n..] == [p] + v.items[|v.items| - (n - 1)..];
      assert w.items[|w.items| - m..] == [q] + w.items[|w.items| - (m - 1)..];
    } else {
      assert a + x == x && b + y == y;
    }
  }

  lemma {:induction false} FieldsCodeIsPrefixFree(v: Json, w: Json, ks: seq<string>, ls: seq<string>, x: Bytes,
                                                  y: Bytes)
    requires v.Object? && w.Object? && (forall k :: k in ks ==> k in v.fields) && forall k :: k in ls ==> k in w.fields
    requires FieldsCode(v, ks) + x == FieldsCode(w, ls) + y
    ensures ks == ls && (forall k :: k in ks ==> v.fields[k] == w.fields[k]) && x == y
    decreases v, 0, |ks|, 1
  {
    var a := if ks == [] then [] else StringCode(ks[0]) + (JsonCode(v.fields[ks[0]]) + FieldsCode(v, ks[1..]));
    var b := if ls == [] then [] else StringCode(ls[0]) + (JsonCode(w.fields[ls[0]]) + FieldsCode(w, ls[1..]));
    var i, j := if ks == [] then 0 else 1, if ls == [] then 0 else 1;
    assert FieldsCode(v, ks) == NatCode(i) + a && FieldsCode(w, ls) == NatCode(j) + b;
    Assoc(NatCode(i), a, x);
    Assoc(NatCode(j), b, y);
    NatCodeIsPrefixFree(i, j, a + x, b + y);
    if ks != [] {
      FirstFieldIsPrefixFree(v, w, ks, ls, x, y);
      FieldsCodeIsPrefixFree(v, w, ks[1..], ls[1..], x, y);
      assert ks == [ks[0]] + ks[1..] && ls == [ls[0]] + ls[1..];
    } else {
      assert a + x == x && b + y == y;
    }
  }

  lemma FirstFieldIsPrefixFree(v: Json, w: Json, ks: seq<string>, ls: seq<string>, x: Bytes, y: Bytes)
    requires v.Object? && w.Object? && (forall k :: k in ks ==> k in v.fields) && forall k :: k in ls ==> k in w.fields
    requires ks != [] && ls != []
    requires StringCode(ks[0]) + (JsonCode(v.fields[ks[0]]) + FieldsCode(v, ks[1..])) + x
             == StringCode(ls[0]) + (JsonCode(w.fields[ls[0]]) + FieldsCode(w, ls[1..])) + y
    ensures ks[0] == ls[0] && v.fields[ks[0]] == w.fields[ls[0]]
    ensures FieldsCode(v, ks[1..]) + x == FieldsCode(w, ls[1..]) + y
    decreases v, 0, |ks|, 0
  {
    var p, q := JsonCode(v.fields[ks[0]]), JsonCode(w.fields[ls[0]]);
    var f, g := FieldsCode(v, ks[1..]), FieldsCode(w, ls[1..]);
    Assoc(StringCode(ks[0]), p + f, x);
    Assoc(StringCode(ls[0]), q + g, y);
    StringCodeIsPrefixFree(ks[0], ls[0], p + f + x, q + g + y);
    Assoc(p, f, x);
    Assoc(q, g, y);
    JsonCodeIsPrefixFree(v.fields[ks[0]], w.fields[ls[0]], f + x, g + y);
  }

  // ---------------------------------------------------------------- records as JSON

  function Optional(o: Option<Json>): Json {
    match o
    case None => Array([])
    case Some(v) => Array([v])
  }

  function EntryJson(e: ChatList.Entry): Json {
    Array([Optional(if e.updateTime.Some? then Some(Number(e.updateTime.value)) else None),
           Optional(if e.title.Some? then Some(String(e.title.value)) else None),
           String(e.objectKey), String(e.sha256), Number(e.bytes), Number(e.storedAt)])
  }

  lemma EntryJsonIsInjective(d: ChatList.Entry, e: ChatList.Entry)
    requires EntryJson(d) == EntryJson(e)
    ensures d == e
  {
    var a, b := EntryJson(d).items, EntryJson(e).items;
    assert a[0] == b[0] && a[1] == b[1] && a[2] == b[2] && a[3] == b[3] && a[4] == b[4] && a[5] == b[5];
    assert d.updateTime.Some? && e.updateTime.Some? ==> a[0].items[0] == b[0].items[0];
    assert d.title.Some? && e.title.Some? ==> a[1].items[0] == b[1].items[0];
    assert |a[0].items| == |b[0].items| && |a[1].items| == |b[1].items|;
  }

  function IndexJson(index: ChatList.Index): Json {
    Object(map id | id in index :: EntryJson(index[id]))
  }

  lemma IndexJsonIsInjective(a: ChatList.Index, b: ChatList.Index)
    requires IndexJson(a) == IndexJson(b)
    ensures a == b
  {
    assert forall id :: id in a <==> id in IndexJson(a).fields;
    assert forall id :: id in b <==> id in IndexJson(b).fields;
    forall id | id in a ensures id in b && a[id] == b[id] {
      assert IndexJson(a).fields[id] == IndexJson(b).fields[id];
      EntryJsonIsInjective(a[id], b[id]);
    }
  }

  function TextsJson(texts: seq<string>): Json {
    Array(seq(|texts|, i requires 0 <= i < |texts| => String(texts[i])))
  }

  lemma TextsJsonIsInjective(a: seq<string>, b: seq<string>)
    requires TextsJson(a) == TextsJson(b)
    ensures a == b
  {
    assert |a| == |TextsJson(a).items| == |TextsJson(b).items| == |b|;
    forall i | 0 <= i < |a| ensures a[i] == b[i] {
      assert TextsJson(a).items[i] == TextsJson(b).items[i];
    }
  }

  function StateJson(s: Snapshot.StorageState): Json {
    Array([TextsJson(s.cookies), TextsJson(s.origins)])
  }

  lemma StateJsonIsInjective(a: Snapshot.StorageState, b: Snapshot.StorageState)
    requires StateJson(a) == StateJson(b)
    ensures a == b
  {
    assert StateJson(a).items[0] == StateJson(b).items[0] && StateJson(a).items[1] == StateJson(b).items[1];
    TextsJsonIsInjective(a.cookies, b.cookies);
    TextsJsonIsInjective(a.origins, b.origins);
  }

  function LockJson(l: Snapshot.Lock): Json {
    Array([String(l.runId), Number(l.createdAt), Number(l.expiresAt)])
  }

  function PointerJson(p: Snapshot.LatestPointer): Json {
    Array([String(p.version), String(p.objectKey), String(p.sha256), String(p.signatureKey), Number(p.createdAt)])
  }

  lemma RecordsAreInjective(k: Snapshot.Lock, l: Snapshot.Lock, p: Snapshot.LatestPointer, q: Snapshot.LatestPointer)
    ensures LockJson(k) == LockJson(l) ==> k == l
    ensures PointerJson(p) == PointerJson(q) ==> p == q
  {
    var a, b := LockJson(k).items, LockJson(l).items;
    assert a == b ==> a[0] == b[0] && a[1] == b[1] && a[2] == b[2];
    var d, e := PointerJson(p).items, PointerJson(q).items;
    assert d == e ==> d[0] == e[0] && d[1] == e[1] && d[2] == e[2] && d[3] == e[3] && d[4] == e[4];
  }

  // ---------------------------------------------------------------- writing and reading

  /** A body under one call's randomness: the randomness is written in front, so every call gives other bytes. */
  function Sealed(body: Bytes, nonce: nat): Bytes {
    NatCode(nonce) + body
  }

  /** Reading is looking for what was written. */
  ghost function Read<T(!new)>(write: T -> Bytes, b: Bytes): Option<T> {
    if exists x :: write(x) == b then
      var x :| write(x) == b; Some(x)
    else None
  }

  lemma ReadsBack<T(!new)>(write: T -> Bytes, x: T)
    requires forall y :: write(y) == write(x) ==> y == x
    ensures Read(write, write(x)) == Some(x)
  {
  }

  lemma JsonCodeIsInjective(v: Json, w: Json)
    requires JsonCode(v) == JsonCode(w)
    ensures v == w
  {
    assert JsonCode(v) + [] == JsonCode(v) && JsonCode(w) + [] == JsonCode(w);
    JsonCodeIsPrefixFree(v, w, [], []);
  }

  ghost function Unsealed(b: Bytes): Option<Bytes> {
    if exists body, n: nat :: Sealed(body, n) == b then
      var body, n: nat :| Sealed(body, n) == b; Some(body)
    else None
  }

  lemma UnsealedIs(body: Bytes, n: nat)
    ensures Unsealed(Sealed(body, n)) == Some(body)
  {
    var b := Sealed(body, n);
    assert Unsealed(b).Some?;
    var x := Unsealed(b).value;
    var m: nat :| Sealed(x, m) == b;
    NatCodeIsPrefixFree(n, m, body, x);
  }

  /** A hash without collisions: the bytes themselves. */
  function Spelled(b: Bytes): (s: string)
    ensures |s| == |b| && forall i :: 0 <= i < |b| ==> s[i] == b[i] as char
  {
    if b == [] then "" else [b[0] as char] + Spelled(b[1..])
  }

  lemma SpelledIsInjective(a: Bytes, b: Bytes)
    requires Spelled(a) == Spelled(b)
    ensures a == b
  {
    assert forall i :: 0 <= i < |a| ==> a[i] as char == Spelled(a)[i] == Spelled(b)[i] == b[i] as char;
  }

  // ---------------------------------------------------------------- the chats codec

  ghost function IndexCode(i: ChatList.Index): Bytes {
    JsonCode(IndexJson(i))
  }

  ghost function Then<T>(b: Option<Bytes>, read: Bytes -> Option<T>): Option<T> {
    if b.Some? then read(b.value) else None
  }

  ghost function Chats(): ChatSync.ChatCodec {
    ChatSync.ChatCodec(
      (v, n: nat) => Sealed(JsonCode(v), n),
      b => Then(Unsealed(b), plain => Read(JsonCode, plain)),
      (i, t: int, n: nat) => Sealed(IndexCode(i), n),
      b => Then(Unsealed(b), plain => Read(IndexCode, plain)),
      Spelled)
  }

  lemma ConversationReadsBack(v: Json, n: nat)
    ensures Chats().decodeConversation(Chats().encodeConversation(v, n)) == Some(v)
  {
    UnsealedIs(JsonCode(v), n);
    forall w | JsonCode(w) == JsonCode(v) ensures w == v {
      JsonCodeIsInjective(w, v);
    }
    ReadsBack(JsonCode, v);
  }

  lemma IndexReadsBack(i: ChatList.Index, t: int, n: nat)
    ensures Chats().decodeIndex(Chats().encodeIndex(i, t, n)) == Some(i)
  {
    UnsealedIs(IndexCode(i), n);
    forall j | IndexCode(j) == IndexCode(i) ensures j == i {
      JsonCodeIsInjective(IndexJson(j), IndexJson(i));
      IndexJsonIsInjective(j, i);
    }
    ReadsBack(IndexCode, i);
  }

  /** The chats codec is lawful, all its encryptions differ, and its hash has no collisions. */
  lemma ChatLawsCanBeMet()
    ensures Chats().Lawful()
    ensures forall v, n: nat, w, m: nat :: Chats().encodeConversation(v, n) == Chats().encodeConversation(w, m) ==>
              v == w && n == m
    ensures forall a, b :: Chats().sha256(a) == Chats().sha256(b) ==> a == b
  {
    var c := Chats();
    forall v, n: nat {:trigger c.encodeConversation(v, n)}
      ensures c.decodeConversation(c.encodeConversation(v, n)) == Some(v)
    {
      ConversationReadsBack(v, n);
    }
    forall i, t, n: nat {:trigger c.encodeIndex(i, t, n)}
      ensures c.decodeIndex(c.encodeIndex(i, t, n)) == Some(i)
    {
      IndexReadsBack(i, t, n);
    }
    forall v, n: nat, w, m: nat | c.encodeConversation(v, n) == c.encodeConversation(w, m) ensures v == w && n == m {
      NatCodeIsPrefixFree(n, m, JsonCode(v), JsonCode(w));
      JsonCodeIsInjective(v, w);
    }
    forall a, b | c.sha256(a) == c.sha256(b) ensures a == b {
      SpelledIsInjective(a, b);
    }
  }

  // ---------------------------------------------------------------- the snapshot codec

  ghost function LockCode(l: Snapshot.Lock): Bytes {
    JsonCode(LockJson(l))
  }

  ghost function PointerCode(p: Snapshot.LatestPointer): Bytes {
    JsonCode(PointerJson(p))
  }

  ghost function StateCode(s: Snapshot.StorageState): Bytes {
    JsonCode(StateJson(s))
  }

  ghost function Snapshots(): Snapshot.Codec {
    Snapshot.Codec(LockCode, b => Read(LockCode, b), PointerCode, b => Read(PointerCode, b), StateCode,
                   b => Read(StateCode, b), Sealed, Unsealed, Spelled, b => b, (b, signature) => b == signature,
                   t => Spelled(IntCode(t)) + "Z")
  }

  lemma LockReadsBack(l: Snapshot.Lock)
    ensures Read(LockCode, LockCode(l)) == Some(l)
  {
    forall k | LockCode(k) == LockCode(l) ensures k == l {
      JsonCodeIsInjective(LockJson(k), LockJson(l));
      RecordsAreInjective(k, l, Snapshot.LatestPointer("", "", "", "", 0), Snapshot.LatestPointer("", "", "", "", 0));
    }
    ReadsBack(LockCode, l);
  }

  lemma PointerReadsBack(p: Snapshot.LatestPointer)
    ensures Read(PointerCode, PointerCode(p)) == Some(p)
  {
    forall q | PointerCode(q) == PointerCode(p) ensures q == p {
      JsonCodeIsInjective(PointerJson(q), PointerJson(p));
      RecordsAreInjective(Snapshot.Lock("", 0, 0), Snapshot.Lock("", 0, 0), q, p);
    }
    ReadsBack(PointerCode, p);
  }

  lemma StateReadsBack(s: Snapshot.StorageState)
    ensures Read(StateCode, StateCode(s)) == Some(s)
  {
    forall t | StateCode(t) == StateCode(s) ensures t == s {
      JsonCodeIsInjective(StateJson(t), StateJson(s));
      StateJsonIsInjective(t, s);
    }
    ReadsBack(StateCode, s);
  }

  lemma SnapshotsReadBack()
    ensures Snapshots().Lawful()
  {
    var c := Snapshots();
    forall l {:trigger c.lockBytes(l)} ensures c.parseLock(c.lockBytes(l)) == Some(l) {
      LockReadsBack(l);
    }
    forall p {:trigger c.pointerBytes(p)} ensures c.parsePointer(c.pointerBytes(p)) == Some(p) {
      PointerReadsBack(p);
    }
    forall s {:trigger c.compress(s)} ensures c.decompress(c.compress(s)) == Some(s) {
      StateReadsBack(s);
    }
    forall b, r: nat {:trigger c.encrypt(b, r)} ensures c.decrypt(c.encrypt(b, r)) == Some(b) {
      UnsealedIs(b, r);
    }
  }

  /** The snapshot codec is lawful, its hash has no collisions, and different times have different stamps. */
  lemma SnapshotLawsCanBeMet()
    ensures Snapshots().Lawful()
    ensures forall a, b :: Snapshots().sha256(a) == Snapshots().sha256(b) ==> a == b
    ensures forall t, u :: Snapshots().stamp(t) == Snapshots().stamp(u) ==> t == u
  {
    SnapshotsReadBack();
    forall a, b | Spelled(a) == Spelled(b) ensures a == b {
      SpelledIsInjective(a, b);
    }
    forall t, u | Spelled(IntCode(t)) + "Z" == Spelled(IntCode(u)) + "Z" ensures t == u {
      StampTellsTime(t, u);
    }
  }

  lemma StampTellsTime(t: int, u: int)
    requires Spelled(IntCode(t)) + "Z" == Spelled(IntCode(u)) + "Z"
    ensures t == u
  {
    var a, b := Spelled(IntCode(t)), Spelled(IntCode(u));
    assert a == (a + "Z")[..|a|] && b == (b + "Z")[..|b|] && |a + "Z"| == |b + "Z"|;
    SpelledIsInjective(IntCode(t), IntCode(u));
    NatCodeIsPrefixFree(if t >= 0 then 2 * t else -2 * t - 1, if u >= 0 then 2 * u else -2 * u - 1, [], []);
  }
}
