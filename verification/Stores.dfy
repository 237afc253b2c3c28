/**
 The per-key compare-and-swap contract of `SnapshotStore`, as a function on store values, and the
 in-memory reference store that implements it. Every successful write takes a new number from one
 counter as its etag, which is the hypothesis "every successful write yields a fresh etag".
 */
module Stores {
  import opened Basics

  type Etag = nat

  datatype Object = Object(body: Bytes, etag: Etag)

  datatype Op =
    | Head(key: string)
    | Get(key: string)
    | Put(key: string, body: Bytes)
    | PutIf(key: string, body: Bytes, expected: Option<Etag>)
    | DeleteIf(key: string, etag: Etag)

  datatype Reply =
    | HeadIs(current: Option<Etag>)
    | Found(body: Bytes, etag: Etag)
    | Written(etag: Etag)
    | Deleted
    | Failed

  datatype Store = Store(objects: map<string, Object>, counter: Etag) {

    ghost predicate Valid() {
      forall k :: k in objects ==> objects[k].etag <= counter
    }

    function EtagAt(key: string): Option<Etag> {
      if key in objects then Some(objects[key].etag) else None
    }

    function Write(key: string, body: Bytes): Store {
      Store(objects[key := Object(body, counter + 1)], counter + 1)
    }
  }

  /** What one request does to the store, and what the client is told. */
  function Apply(s: Store, op: Op): (Store, Reply) {
    match op
    case Head(key) =>
      (s, HeadIs(s.EtagAt(key)))
    case Get(key) =>
      (s, if key in s.objects then Found(s.objects[key].body, s.objects[key].etag) else Failed)
    case Put(key, body) =>
      (s.Write(key, body), Written(s.counter + 1))
    case PutIf(key, body, expected) =>
      if s.EtagAt(key) == expected then (s.Write(key, body), Written(s.counter + 1)) else (s, Failed)
    case DeleteIf(key, etag) =>
      if key !in s.objects then (s, Deleted)
      else if s.objects[key].etag == etag then (s.(objects := s.objects - {key}), Deleted)
      else (s, Failed)
  }

  /** A request may fail before it reaches the store, or take effect and lose its answer. */
  datatype Fault = NoFault | LostRequest | LostReply

  function Perform(s: Store, op: Op, fault: Fault): (Store, Reply) {
    match fault
    case NoFault => Apply(s, op)
    case LostRequest => (s, Failed)
    case LostReply => (Apply(s, op).0, Failed)
  }

  function ApplyAll(s: Store, ops: seq<Op>): Store {
    if ops == [] then s else Apply(ApplyAll(s, ops[..|ops| - 1]), Last(ops)).0
  }

  lemma ApplyKeepsValid(s: Store, op: Op)
    requires s.Valid()
    ensures Apply(s, op).0.Valid()
    ensures s.counter <= Apply(s, op).0.counter
  {
  }

  /** A key holds in one store what it holds in the other. */
  predicate SameAt(s: Store, s': Store, key: string) {
    && (key in s.objects <==> key in s'.objects)
    && (key in s.objects ==> s'.objects[key] == s.objects[key])
  }

  /** A request changes no key but its own. */
  lemma ApplyFrame(s: Store, op: Op, key: string)
    requires key != op.key
    ensures SameAt(s, Apply(s, op).0, key)
  {
  }

  lemma {:induction false} ApplyAllGrows(s: Store, ops: seq<Op>)
    requires s.Valid()
    ensures ApplyAll(s, ops).Valid()
    ensures s.counter <= ApplyAll(s, ops).counter
  {
    if ops != [] {
      ApplyAllGrows(s, ops[..|ops| - 1]);
      ApplyKeepsValid(ApplyAll(s, ops[..|ops| - 1]), Last(ops));
    }
  }

  /**
   An etag pins a body: if a key carries at the end an etag that the store had already handed out at
   the start, then the key carried that very object at the start and at every moment in between.
   So a conditional write that succeeds overwrote exactly what its caller had looked at.
   */
  lemma {:induction false} EtagPinsObject(s: Store, ops: seq<Op>, key: string, i: nat)
    requires s.Valid() && i <= |ops|
    requires key in ApplyAll(s, ops).objects
    requires ApplyAll(s, ops).objects[key].etag <= s.counter
    ensures key in ApplyAll(s, ops[..i]).objects
    ensures ApplyAll(s, ops[..i]).objects[key] == ApplyAll(s, ops).objects[key]
  {
    if i == |ops| {
      assert ops[..i] == ops;
    } else {
      var before := ops[..|ops| - 1];
      ApplyAllGrows(s, before);
      assert before[..i] == ops[..i];
      EtagPinsObject(s, before, key, i);
    }
  }

  /** The conditional write accepts exactly when the key is as the caller saw it. */
  lemma {:induction false} CasSucceedsIffUntouched(s: Store, ops: seq<Op>, key: string, body: Bytes)
    requires s.Valid() && key in s.objects
    ensures Apply(ApplyAll(s, ops), PutIf(key, body, s.EtagAt(key))).1.Written?
            <==> forall i {:trigger ops[..i]} :: 0 <= i <= |ops| ==>
                   key in ApplyAll(s, ops[..i]).objects && ApplyAll(s, ops[..i]).objects[key] == s.objects[key]
  {
    var seen := s.objects[key];
    assert ops[..|ops|] == ops;
    if Apply(ApplyAll(s, ops), PutIf(key, body, Some(seen.etag))).1.Written? {
      forall i {:trigger ops[..i]} | 0 <= i <= |ops|
        ensures key in ApplyAll(s, ops[..i]).objects && ApplyAll(s, ops[..i]).objects[key] == seen
      {
        EtagPinsObject(s, ops, key, i);
        EtagPinsObject(s, ops, key, 0);
        assert ops[..0] == [];
      }
    }
  }

  /** `InMemoryStore`: the executable form of the contract. */
  class InMemoryStore {
    var inner: map<string, Object>
    var counter: Etag

    function Contents(): Store
      reads this
    {
      Store(inner, counter)
    }

    constructor ()
      ensures Contents() == Store(map[], 0)
    {
      inner, counter := map[], 0;
    }

    method NextEtag() returns (etag: Etag)
      modifies this`counter
      ensures counter == old(counter) + 1 == etag
    {
      counter := counter + 1;
      etag := counter;
    }

    method Put(key: string, body: Bytes) returns (etag: Etag)
      modifies this
      ensures (Contents(), Written(etag)) == Apply(old(Contents()), Op.Put(key, body))
      ensures etag == counter == old(counter) + 1 && inner == old(inner)[key := Object(body, etag)]
    {
      etag := NextEtag();
      inner := inner[key := Object(body, etag)];
    }

    method PutIfUnmodified(key: string, body: Bytes, expected: Option<Etag>) returns (r: Result<Etag>)
      modifies this
      ensures (Contents(), if r.Ok? then Written(r.value) else Failed)
              == Apply(old(Contents()), PutIf(key, body, expected))
      ensures r.Ok? <==> (if expected.Some? then key in old(inner) && old(inner)[key].etag == expected.value
                          else key !in old(inner))
      ensures r.Ok? ==> r.value == counter == old(counter) + 1 && inner == old(inner)[key := Object(body, counter)]
      ensures r.Err? ==> unchanged(this)
    {
      if key in inner && expected.None? {
        return Err;
      }
      if key !in inner && expected.Some? {
        return Err;
      }
      if key in inner && expected.Some? && inner[key].etag != expected.value {
        return Err;
      }
      var etag := NextEtag();
      inner := inner[key := Object(body, etag)];
      r := Ok(etag);
    }

    method Get(key: string) returns (r: Result<Object>)
      ensures Apply(Contents(), Op.Get(key))
              == (Contents(), if r.Ok? then Found(r.value.body, r.value.etag) else Failed)
      ensures r.Ok? <==> key in inner
      ensures r.Ok? ==> r.value == inner[key]
    {
      if key in inner {
        r := Ok(inner[key]);
      } else {
        r := Err;
      }
    }

    method Head(key: string) returns (etag: Option<Etag>)
      ensures Apply(Contents(), Op.Head(key)) == (Contents(), HeadIs(etag))
      ensures etag.Some? <==> key in inner
      ensures etag.Some? ==> etag.value == inner[key].etag
    {
      etag := if key in inner then Some(inner[key].etag) else None;
    }

    method DeleteIfMatch(key: string, etag: Etag) returns (ok: bool)
      modifies this
      ensures (Contents(), if ok then Deleted else Failed) == Apply(old(Contents()), DeleteIf(key, etag))
      ensures ok <==> (key in old(inner) ==> old(inner)[key].etag == etag)
      ensures inner == (if ok then old(inner) - {key} else old(inner)) && counter == old(counter)
    {
      if key !in inner {
        ok := true;
      } else if inner[key].etag == etag {
        inner := inner - {key};
        ok := true;
      } else {
        ok := false;
      }
    }
  }
}
