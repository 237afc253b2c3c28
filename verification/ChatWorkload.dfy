/** The chats workload itself, over the in-memory store, and what its runs guarantee from one to the next. */
module ChatWorkload {
  import opened Basics
  import opened Stores
  import opened Keys
  import opened ChatList
  import opened JsonValues
  import opened Retry
  import opened ChatSync

  datatype Config = Config(prefix: string, pageLimit: nat, stopAfterKnown: nat, batchSize: nat)

  /** What answers: the two requests of `load_index` and the session endpoint. */
  datatype Answers = Answers(head: bool, get: bool, session: bool)

  datatype Loaded = Loaded(index: Index, etag: Option<Etag>)

  /** The index as stored, or the empty one on the first run. */
  function LoadedIndex(c: ChatCodec, prefix: string, s: Store, up: Answers): Option<Loaded> {
    var key := IndexKey(prefix);
    if !up.head then None
    else if key !in s.objects then Some(Loaded(map[], None))
    else if !up.get then None
    else
      match c.decodeIndex(s.objects[key].body)
      case None => None
      case Some(index) => Some(Loaded(index, Some(s.objects[key].etag)))
  }

  method LoadIndex(store: InMemoryStore, c: ChatCodec, prefix: string, up: Answers) returns (r: Option<Loaded>)
    ensures r == LoadedIndex(c, prefix, store.Contents(), up)
    ensures var key := IndexKey(prefix);
            r == if !up.head then None
                 else if key !in store.inner then Some(Loaded(map[], None))
                 else if up.get && c.decodeIndex(store.inner[key].body).Some?
                 then Some(Loaded(c.decodeIndex(store.inner[key].body).value, Some(store.inner[key].etag)))
                 else None
  {
    if !up.head {
      return None;
    }
    var existing := store.Head(IndexKey(prefix));
    if existing.None? {
      return Some(Loaded(map[], None));
    }
    if !up.get {
      return None;
    }
    var found := store.Get(IndexKey(prefix));
    if found.Err? {
      return None;
    }
    var index := c.decodeIndex(found.value.body);
    match index {
      case None => r := None;
      case Some(i) => r := Some(Loaded(i, Some(found.value.etag)));
    }
  }

  function SaveOp(c: ChatCodec, prefix: string, index: Index, etag: Option<Etag>, savedAt: int, nonce: nat): Op {
    PutIf(IndexKey(prefix), c.encodeIndex(index, savedAt, nonce), etag)
  }

  method SaveIndex(store: InMemoryStore, c: ChatCodec, prefix: string, index: Index, etag: Option<Etag>, savedAt: int,
                   nonce: nat, fault: Fault)
    returns (ok: bool)
    modifies store
    ensures var outcome := Perform(old(store.Contents()), SaveOp(c, prefix, index, etag, savedAt, nonce), fault);
            store.Contents() == outcome.0 && ok == outcome.1.Written?
    ensures var key := IndexKey(prefix);
            var current := if key in old(store.inner) then Some(old(store.inner)[key].etag) else None;
            && (ok <==> fault.NoFault? && current == etag)
            && store.inner
               == if current == etag && !fault.LostRequest?
                  then old(store.inner)[key := Object.Object(c.encodeIndex(index, savedAt, nonce),
                                                             old(store.counter) + 1)]
                  else old(store.inner)
  {
    if fault.LostRequest? {
      return false;
    }
    var cas := store.PutIfUnmodified(IndexKey(prefix), c.encodeIndex(index, savedAt, nonce), etag);
    ok := cas.Ok? && fault.NoFault?;
  }

  method StoreConversation(store: InMemoryStore, c: ChatCodec, prefix: string, s: Summary, body: Json, nonce: nat,
                           now: int, fault: Fault)
    returns (r: Result<Entry>)
    modifies store
    ensures store.Contents()
            == Perform(old(store.Contents()), Op.Put(ConvKey(prefix, s.id), c.encodeConversation(body, nonce)), fault).0
    ensures r == if fault.NoFault? then Ok(EntryFor(c, prefix, s, body, nonce, now)) else Err
    ensures var key := ConvKey(prefix, s.id);
            var cipher := c.encodeConversation(body, nonce);
            && store.inner == (if fault.LostRequest? then old(store.inner)
                               else old(store.inner)[key := Object.Object(cipher, old(store.counter) + 1)])
            && (r.Ok? <==> fault.NoFault?)
            && (r.Ok? ==> r.value == Entry(s.updateTime, s.title, key, c.sha256(cipher), |cipher|, now))
  {
    var cipher := c.encodeConversation(body, nonce);
    var key := ConvKey(prefix, s.id);
    if fault.LostRequest? {
      return Err;
    }
    var _ := store.Put(key, cipher);
    if fault.LostReply? {
      return Err;
    }
    r := Ok(Entry(s.updateTime, s.title, key, c.sha256(cipher), |cipher|, now));
  }

  /** A fetched body lies under its conversation's key, and the index has an entry for it and is otherwise as it was. */
  ghost predicate Kept(c: ChatCodec, prefix: string, w: World, pass: Pass, k: int, s: Summary, body: Json, index: Index,
                       index': Index, objects: map<string, Object>) {
    var cipher := c.encodeConversation(body, w.nonce(pass, k));
    && ConvKey(prefix, s.id) in objects && objects[ConvKey(prefix, s.id)].body == cipher
    && index' == index[s.id := Entry(s.updateTime, s.title, ConvKey(prefix, s.id), c.sha256(cipher), |cipher|,
                                     w.clock(pass, k))]
  }

  /** One item of the first pass. */
  method FetchItem(store: InMemoryStore, c: ChatCodec, prefix: string, w: World, ghost p: Progress, s: Summary, k: int,
                   index: Index, failed: seq<Summary>, ghost calls: seq<Summary>)
    returns (ok: bool, index': Index, failed': seq<Summary>, ghost calls': seq<Summary>)
    requires store.Contents() == p.store && index == p.index && failed == p.ledger.failed && calls == p.calls
              && !p.halted
    modifies store
    ensures var q := Take(c, prefix, w, p, s, First, k);
            && store.Contents() == q.store && ok == !q.halted && calls' == q.calls
            && (ok ==> index' == q.index && failed' == q.ledger.failed)
    ensures match w.detail(First, k)
            case Got(body) =>
              && (ok <==> w.put(First, k).NoFault?)
              && (ok ==> failed' == failed && Kept(c, prefix, w, First, k, s, body, index, index', store.inner))
            case Inaccessible(_) => ok && store.inner == old(store.inner) && index' == index && failed' == failed
            case Transient => ok && store.inner == old(store.inner) && index' == index && failed' == failed + [s]
            case Fatal => !ok && store.inner == old(store.inner)
  {
    ok, index', failed' := true, index, failed;
    calls' := calls + [s];
    match w.detail(First, k) {
      case Got(body) =>
        var entry := StoreConversation(store, c, prefix, s, body, w.nonce(First, k), w.clock(First, k),
                                       w.put(First, k));
        if entry.Err? {
          ok := false;
        } else {
          index' := index[s.id := entry.value];
        }
      case Inaccessible(_) =>
      case Transient => failed' := failed + [s];
      case Fatal => ok := false;
    }
  }

  /** One item of the retry sweep. */
  method RetryItem(store: InMemoryStore, c: ChatCodec, prefix: string, w: World, ghost p: Progress, s: Summary, k: int,
                   index: Index, ghost calls: seq<Summary>)
    returns (ok: bool, index': Index, ghost calls': seq<Summary>)
    requires store.Contents() == p.store && index == p.index && calls == p.calls && !p.halted
    modifies store
    ensures var q := Take(c, prefix, w, p, s, Sweep, k);
            && store.Contents() == q.store && ok == !q.halted && calls' == q.calls && (ok ==> index' == q.index)
    ensures match w.detail(Sweep, k)
            case Got(body) =>
              && (ok <==> w.put(Sweep, k).NoFault?)
              && (ok ==> Kept(c, prefix, w, Sweep, k, s, body, index, index', store.inner))
            case _ => ok && store.inner == old(store.inner) && index' == index
  {
    ok, index' := true, index;
    calls' := calls + [s];
    var outcome := w.detail(Sweep, k);
    if outcome.Got? {
      var entry := StoreConversation(store, c, prefix, s, outcome.body, w.nonce(Sweep, k), w.clock(Sweep, k),
                                     w.put(Sweep, k));
      if entry.Err? {
        ok := false;
      } else {
        index' := index[s.id := entry.value];
      }
    }
  }

  lemma {:induction false} HaltedStays(c: ChatCodec, prefix: string, w: World, p: Progress, items: seq<Summary>,
                                       pass: Pass, n: nat)
    requires n <= |items| && TakeAll(c, prefix, w, p, items[..n], pass).halted
    ensures TakeAll(c, prefix, w, p, items, pass) == TakeAll(c, prefix, w, p, items[..n], pass)
  {
    if n == |items| {
      assert items[..n] == items;
    } else {
      assert items[..|items| - 1][..n] == items[..n];
      HaltedStays(c, prefix, w, p, items[..|items| - 1], pass, n);
    }
  }

  lemma TakeNext(c: ChatCodec, prefix: string, w: World, p: Progress, items: seq<Summary>, pass: Pass, k: nat)
    requires k < |items| && !TakeAll(c, prefix, w, p, items[..k], pass).halted
    ensures TakeAll(c, prefix, w, p, items[..k + 1], pass)
            == Take(c, prefix, w, TakeAll(c, prefix, w, p, items[..k], pass), items[k], pass, k)
  {
    assert items[..k + 1][..k] == items[..k];
  }

  /** The run is where the pass has got to after `n` items, and goes on. */
  ghost predicate Reached(c: ChatCodec, prefix: string, w: World, p: Progress, items: seq<Summary>, pass: Pass, n: nat,
                          s: Store, index: Index, failed: seq<Summary>, calls: seq<Summary>)
    requires n <= |items|
  {
    var q := TakeAll(c, prefix, w, p, items[..n], pass);
    !q.halted && s == q.store && index == q.index && failed == q.ledger.failed && calls == q.calls
  }

  /** One more item of the first pass. */
  method FetchNext(store: InMemoryStore, c: ChatCodec, prefix: string, w: World, ghost p: Progress, items: seq<Summary>,
                   k: nat, index: Index, failed: seq<Summary>, ghost calls: seq<Summary>)
    returns (ok: bool, index': Index, failed': seq<Summary>, ghost calls': seq<Summary>)
    requires k < |items| && Reached(c, prefix, w, p, items, First, k, store.Contents(), index, failed, calls)
    modifies store
    ensures ok ==> Reached(c, prefix, w, p, items, First, k + 1, store.Contents(), index', failed', calls')
    ensures !ok ==> Halted(c, prefix, w, p, items, First, store.Contents(), calls')
  {
    TakeNext(c, prefix, w, p, items, First, k);
    ghost var q := TakeAll(c, prefix, w, p, items[..k], First);
    ok, index', failed', calls' := FetchItem(store, c, prefix, w, q, items[k], k, index, failed, calls);
    if !ok {
      HaltedStays(c, prefix, w, p, items, First, k + 1);
    }
  }

  /** The pass has ended early, and the store is as it leaves it. */
  ghost predicate Halted(c: ChatCodec, prefix: string, w: World, p: Progress, items: seq<Summary>, pass: Pass, s: Store,
                         calls: seq<Summary>) {
    var q := TakeAll(c, prefix, w, p, items, pass);
    q.halted && s == q.store && calls == q.calls
  }

  /** One batch of the first pass. */
  method FetchBatch(store: InMemoryStore, c: ChatCodec, prefix: string, w: World, ghost p: Progress,
                    items: seq<Summary>, from: nat, to: nat, index: Index, failed: seq<Summary>,
                      ghost calls: seq<Summary>)
    returns (ok: bool, index': Index, failed': seq<Summary>, ghost calls': seq<Summary>)
    requires from <= to <= |items| && Reached(c, prefix, w, p, items, First, from, store.Contents(), index, failed,
                                              calls)
    modifies store
    ensures ok ==> Reached(c, prefix, w, p, items, First, to, store.Contents(), index', failed', calls')
    ensures !ok ==> Halted(c, prefix, w, p, items, First, store.Contents(), calls')
  {
    ok, index', failed', calls' := true, index, failed, calls;
    for k := from to to
      invariant ok && Reached(c, prefix, w, p, items, First, k, store.Contents(), index', failed', calls')
    {
      ok, index', failed', calls' := FetchNext(store, c, prefix, w, p, items, k, index', failed', calls');
      if !ok {
        return;
      }
    }
  }

  /** The first pass, batch by batch; the size of the batches does not matter. */
  method FetchBatches(store: InMemoryStore, c: ChatCodec, prefix: string, w: World, ghost p: Progress,
                      items: seq<Summary>, batchSize: nat, index: Index)
    returns (ok: bool, index': Index, failed: seq<Summary>, ghost calls: seq<Summary>)
    requires store.Contents() == p.store && index == p.index && p.ledger.failed == [] && p.calls == [] && !p.halted
    modifies store
    ensures ok ==> Reached(c, prefix, w, p, items, First, |items|, store.Contents(), index', failed, calls)
    ensures !ok ==> Halted(c, prefix, w, p, items, First, store.Contents(), calls)
  {
    ok, index', failed, calls := true, index, [], [];
    var step := AtLeastOne(batchSize);
    var at := 0;
    while at < |items|
      invariant at <= |items| && ok
      invariant Reached(c, prefix, w, p, items, First, at, store.Contents(), index', failed, calls)
      decreases |items| - at
    {
      var end := if at + step < |items| then at + step else |items|;
      ok, index', failed, calls := FetchBatch(store, c, prefix, w, p, items, at, end, index', failed, calls);
      if !ok {
        return;
      }
      at := end;
    }
  }

  /** The retry sweep, once over the queue. */
  method RetrySweep(store: InMemoryStore, c: ChatCodec, prefix: string, w: World, ghost p: Progress,
                    failed: seq<Summary>, index: Index, ghost calls: seq<Summary>)
    returns (ok: bool, index': Index, ghost calls': seq<Summary>)
    requires store.Contents() == p.store && index == p.index && calls == p.calls && !p.halted
    modifies store
    ensures ok ==> Reached(c, prefix, w, p, failed, Sweep, |failed|, store.Contents(), index', p.ledger.failed, calls')
    ensures !ok ==> Halted(c, prefix, w, p, failed, Sweep, store.Contents(), calls')
  {
    ok, index', calls' := true, index, calls;
    for k := 0 to |failed|
      invariant ok && Reached(c, prefix, w, p, failed, Sweep, k, store.Contents(), index', p.ledger.failed, calls')
    {
      TakeNext(c, prefix, w, p, failed, Sweep, k);
      SweepLeavesQueue(c, prefix, w, TakeAll(c, prefix, w, p, failed[..k], Sweep), failed[k], k);
      ok, index', calls' :=
        RetryItem(store, c, prefix, w, TakeAll(c, prefix, w, p, failed[..k], Sweep), failed[k], k, index', calls');
      if !ok {
        HaltedStays(c, prefix, w, p, failed, Sweep, k + 1);
        return;
      }
    }
  }

  lemma SweepLeavesQueue(c: ChatCodec, prefix: string, w: World, p: Progress, s: Summary, k: int)
    ensures Take(c, prefix, w, p, s, Sweep, k).ledger.failed == p.ledger.failed
  {
  }

  /** How a run that had something to fetch ends: cut short, or with an attempt to save the index. */
  function Finish(c: ChatCodec, prefix: string, w: World, s: Store, before: Loaded, items: seq<Summary>, savedAt: int,
                  nonce: nat, fault: Fault): (Store, bool) {
    var p := Fetched(c, prefix, w, s, before.index, items);
    if p.halted then (p.store, false)
    else
      var outcome := Perform(p.store, SaveOp(c, prefix, p.index, before.etag, savedAt, nonce), fault);
      (outcome.0, outcome.1.Written?)
  }

  /**
   `run`. `toFetch` is what the walk over the list found, `listed` whether the walk got through. A run that finds
   nothing to fetch succeeds and writes nothing at all.
   */
  method Run(store: InMemoryStore, c: ChatCodec, cfg: Config, server: Server, w: World, up: Answers, savedAt: int,
             nonce: nat, save: Fault)
    returns (ok: bool, ghost listed: bool, ghost toFetch: seq<Summary>, ghost calls: seq<Summary>)
    modifies store
    ensures (forall i :: !server.fails(i)) ==>
              (listed <==> LoadedIndex(c, cfg.prefix, old(store.Contents()), up).Some? && up.session)
    ensures !listed ==> !ok && store.Contents() == old(store.Contents())
    ensures listed ==>
              var before := LoadedIndex(c, cfg.prefix, old(store.Contents()), up);
              && before.Some? && up.session
              && IsFlatScan(before.value.index, server.list, AtLeastOne(cfg.stopAfterKnown), toFetch)
              && (store.Contents(), ok)
                 == (if toFetch == [] then (old(store.Contents()), true)
                     else Finish(c, cfg.prefix, w, old(store.Contents()), before.value, toFetch, savedAt, nonce, save))
              && calls == Fetched(c, cfg.prefix, w, old(store.Contents()), before.value.index, toFetch).calls
  {
    listed, toFetch, calls := false, [], [];
    var before := LoadIndex(store, c, cfg.prefix, up);
    if before.None? || !up.session {
      return false, false, [], [];
    }
    var index := before.value.index;
    var found;
    ghost var pages, n;
    found, pages, n := CollectOutdated(server, index, cfg.pageLimit, cfg.stopAfterKnown);
    if found.Err? {
      return false, false, [], [];
    }
    listed, toFetch := true, found.value;
    if found.value == [] {
      return true, true, found.value, [];
    }
    ghost var p := Start(store.Contents(), index);
    var failed;
    ok, index, failed, calls := FetchBatches(store, c, cfg.prefix, w, p, found.value, cfg.batchSize, index);
    assert toFetch[..|toFetch|] == toFetch;
    if !ok {
      return;
    }
    ghost var q := TakeAll(c, cfg.prefix, w, p, toFetch, First);
    ok, index, calls := RetrySweep(store, c, cfg.prefix, w, q, failed, index, calls);
    assert failed[..|failed|] == failed;
    if !ok {
      return;
    }
    ok := SaveIndex(store, c, cfg.prefix, index, before.value.etag, savedAt, nonce, save);
  }

  // ---------------------------------------------------------------- what a run guarantees

  /**
   After a successful run the stored index is the loaded one overridden on exactly the stored ids; the entries of
   those name, hash and measure the objects that are really there, and the objects hold what was fetched.
   */
  lemma SavedIndexTellsTheTruth(c: ChatCodec, prefix: string, w: World, s: Store, before: Loaded, items: seq<Summary>,
                                savedAt: int, nonce: nat, fault: Fault, up: Answers)
    requires c.Lawful() && Finish(c, prefix, w, s, before, items, savedAt, nonce, fault).1
    requires up.head && up.get
    ensures var t := Finish(c, prefix, w, s, before, items, savedAt, nonce, fault).0;
            var p := Fetched(c, prefix, w, s, before.index, items);
            && LoadedIndex(c, prefix, t, up) == Some(Loaded(p.index, Some(t.counter)))
            && (forall id :: id in p.bodies <==> exists x :: x in p.ledger.stored && x.id == id)
            && (forall id :: id in p.bodies ==>
                  id in p.index && Describes(c, prefix, t.objects, id, p.index[id], p.bodies[id]))
            && (forall id :: id !in p.bodies ==>
                  (id in p.index <==> id in before.index) && (id in before.index ==> p.index[id] == before.index[id]))
  {
    var p := Fetched(c, prefix, w, s, before.index, items);
    FetchedAgrees(c, prefix, w, s, before.index, items);
    StoredAreBodies(p.ledger.stored, p.index, p.bodies);
    SavedIs(c, prefix, p.store, p.index, before.etag, savedAt, nonce, fault, up);
    forall id | id in p.bodies
      ensures Describes(c, prefix, Finish(c, prefix, w, s, before, items, savedAt, nonce, fault).0.objects, id,
                        p.index[id], p.bodies[id])
    {
      SaveKeepsDescriptions(c, prefix, p.store, SaveOp(c, prefix, p.index, before.etag, savedAt, nonce), fault, id,
                            p.index[id], p.bodies[id]);
    }
  }

  /**
   After a successful run over distinct ids, the object under the key of a conversation that was answered in either pass
   decodes to that very answer, and the index object is the encryption of the index at the time of saving.
   */
  lemma RunStoresTheAnswers(c: ChatCodec, prefix: string, w: World, s: Store, before: Loaded, items: seq<Summary>,
                            savedAt: int, nonce: nat, fault: Fault, pass: Pass, k: nat)
    requires c.Lawful() && DistinctIds(items) && Finish(c, prefix, w, s, before, items, savedAt, nonce, fault).1
    requires k < if pass.First? then |items| else |Fetched(c, prefix, w, s, before.index, items).ledger.failed|
    requires w.detail(pass, k).Got?
    ensures var t := Finish(c, prefix, w, s, before, items, savedAt, nonce, fault).0;
            var p := Fetched(c, prefix, w, s, before.index, items);
            var id := (if pass.First? then items[k] else p.ledger.failed[k]).id;
            && ConvKey(prefix, id) in t.objects
            && c.decodeConversation(t.objects[ConvKey(prefix, id)].body) == Some(w.detail(pass, k).body)
            && IndexKey(prefix) in t.objects
            && t.objects[IndexKey(prefix)].body == c.encodeIndex(p.index, savedAt, nonce)
  {
    var p := Fetched(c, prefix, w, s, before.index, items);
    StoredIsTheAnswer(c, prefix, w, s, before.index, items, pass, k);
    IndexKeyIsNoConversation(prefix);
    ApplyFrame(p.store, SaveOp(c, prefix, p.index, before.etag, savedAt, nonce),
               ConvKey(prefix, (if pass.First? then items[k] else p.ledger.failed[k]).id));
  }

  lemma StoredAreBodies(stored: seq<Summary>, index: Index, bodies: map<string, Json>)
    requires forall x :: x in stored ==> x.id in bodies
    requires forall id :: id in bodies ==> id in index && FromList(stored, id, index[id])
    ensures forall id :: id in bodies <==> exists x :: x in stored && x.id == id
  {
  }

  /** A save that is known to have worked is what the next run loads. */
  lemma SavedIs(c: ChatCodec, prefix: string, s: Store, index: Index, etag: Option<Etag>, savedAt: int, nonce: nat,
                fault: Fault, up: Answers)
    requires c.Lawful() && up.head && up.get
    ensures var outcome := Perform(s, SaveOp(c, prefix, index, etag, savedAt, nonce), fault);
            outcome.1.Written? ==> LoadedIndex(c, prefix, outcome.0, up) == Some(Loaded(index, Some(outcome.0.counter)))
  {
  }

  lemma SaveKeepsDescriptions(c: ChatCodec, prefix: string, s: Store, save: Op, fault: Fault, id: string, entry: Entry,
                              body: Json)
    requires Describes(c, prefix, s.objects, id, entry, body) && save.PutIf? && save.key == IndexKey(prefix)
    ensures Describes(c, prefix, Perform(s, save, fault).0.objects, id, entry, body)
  {
    IndexKeyIsNoConversation(prefix);
    ApplyFrame(s, save, entry.objectKey);
    DescribesIsLocal(c, prefix, s.objects, Perform(s, save, fault).0.objects, id, entry, body);
  }

  /** With no other writer of the index, a run that gets through its items always saves. */
  lemma LoneRunAlwaysSaves(c: ChatCodec, prefix: string, w: World, s: Store, items: seq<Summary>, savedAt: int,
                           nonce: nat, up: Answers)
    requires c.Lawful() && LoadedIndex(c, prefix, s, up).Some?
    ensures var before := LoadedIndex(c, prefix, s, up).value;
            Finish(c, prefix, w, s, before, items, savedAt, nonce, NoFault).1
            <==> !Fetched(c, prefix, w, s, before.index, items).halted
  {
    var before := LoadedIndex(c, prefix, s, up).value;
    FetchedAgrees(c, prefix, w, s, before.index, items);
    IndexKeyIsNoConversation(prefix);
  }

  lemma IndexKeyIsNoConversation(prefix: string)
    ensures forall id :: IndexKey(prefix) != ConvKey(prefix, id)
  {
  }

  /** A run changes objects of its own workload only; and unless its conditional write took effect, not the index. */
  lemma RunsKeepToThemselves(c: ChatCodec, prefix: string, w: World, s: Store, before: Loaded, items: seq<Summary>,
                             savedAt: int, nonce: nat, fault: Fault, key: string)
    requires c.Lawful()
    requires var p := Fetched(c, prefix, w, s, before.index, items);
             !IsWorkloadKey(key)
             || (key == IndexKey(prefix) && (p.halted || fault.LostRequest? || p.store.EtagAt(key) != before.etag))
    ensures SameAt(s, Finish(c, prefix, w, s, before, items, savedAt, nonce, fault).0, key)
  {
    var p := Fetched(c, prefix, w, s, before.index, items);
    FetchedAgrees(c, prefix, w, s, before.index, items);
    KeptByConversations(prefix, s, p.store, key);
    if !p.halted {
      SaveFrame(prefix, p.store, SaveOp(c, prefix, p.index, before.etag, savedAt, nonce), fault, key);
    }
  }

  lemma KeptByConversations(prefix: string, s: Store, s': Store, key: string)
    requires OnlyConversations(prefix, s.objects, s'.objects) && (!IsWorkloadKey(key) || key == IndexKey(prefix))
    ensures SameAt(s, s', key)
  {
    IndexKeyIsNoConversation(prefix);
    forall id ensures key != ConvKey(prefix, id) {
      WorkloadKeysEndInAge(prefix, id);
    }
  }

  lemma SaveFrame(prefix: string, s: Store, save: Op, fault: Fault, key: string)
    requires save.PutIf? && save.key == IndexKey(prefix)
    requires !IsWorkloadKey(key) || (key == IndexKey(prefix) && (fault.LostRequest? || s.EtagAt(key) != save.expected))
    ensures SameAt(s, Perform(s, save, fault).0, key)
  {
    WorkloadKeysEndInAge(prefix, "");
  }

  /**
   Re-running against an unchanged list: the next run stops no later, and fetches only items that were inaccessible
   or failed the sweep. If there were none it fetches nothing, so it writes nothing.
   */
  lemma RerunFetchesOnlyLeftovers(c: ChatCodec, prefix: string, w: World, s: Store, before: Loaded, list: seq<Summary>,
                                  stop: nat, n: nat, m: nat, savedAt: int, nonce: nat, fault: Fault, up: Answers)
    requires c.Lawful() && DistinctIds(list) && 1 <= stop && StopsAt(before.index, list, stop, n)
    requires Finish(c, prefix, w, s, before, Outdated(before.index, list[..n]), savedAt, nonce, fault).1
    requires up.head && up.get
    ensures var items := Outdated(before.index, list[..n]);
            var t := Finish(c, prefix, w, s, before, items, savedAt, nonce, fault).0;
            var l := Fetched(c, prefix, w, s, before.index, items).ledger;
            var next := LoadedIndex(c, prefix, t, up);
            && next.Some?
            && (StopsAt(next.value.index, list, stop, m) ==>
                  && m <= n
                  && (forall x :: x in Outdated(next.value.index, list[..m]) ==> x in l.inaccessible || x in l.left)
                  && (l.inaccessible == [] && l.left == [] ==> Outdated(next.value.index, list[..m]) == []))
  {
    var items := Outdated(before.index, list[..n]);
    var p := Fetched(c, prefix, w, s, before.index, items);
    SavedIndexTellsTheTruth(c, prefix, w, s, before, items, savedAt, nonce, fault, up);
    if StopsAt(p.index, list, stop, m) {
      EveryItemEndsInOnePlace(c, prefix, w, s, before.index, items);
      StoredAreUpToDate(c, prefix, w, s, before.index, list, n);
      NextRunFetchesOnlyLeftovers(before.index, p.index, list, stop, n, m, p.bodies.Keys);
      LeftoversOnly(p, items, Outdated(p.index, list[..m]));
    }
  }

  lemma LeftoversOnly(p: Progress, items: seq<Summary>, again: seq<Summary>)
    requires multiset(p.ledger.stored) + multiset(p.ledger.inaccessible) + multiset(p.ledger.left) == multiset(items)
    requires forall x :: x in p.ledger.stored ==> x.id in p.bodies
    requires forall x :: x in again ==> x in items && x.id !in p.bodies
    ensures forall x :: x in again ==> x in p.ledger.inaccessible || x in p.ledger.left
    ensures p.ledger.inaccessible == [] && p.ledger.left == [] ==> again == []
  {
    forall x | x in again
      ensures x in p.ledger.inaccessible || x in p.ledger.left
    {
      InOneOfThree(p.ledger.stored, p.ledger.inaccessible, p.ledger.left, items, x);
    }
    if again != [] {
      assert again[0] in again;
    }
  }

  lemma InOneOfThree(a: seq<Summary>, b: seq<Summary>, d: seq<Summary>, all: seq<Summary>, x: Summary)
    requires multiset(a) + multiset(b) + multiset(d) == multiset(all)
    ensures x in all <==> x in a || x in b || x in d
  {
    assert x in multiset(all) <==> x in multiset(a) + multiset(b) + multiset(d);
  }

  /** The entry a run records for an item is the one the list showed, so the item counts as known from then on. */
  lemma StoredAreUpToDate(c: ChatCodec, prefix: string, w: World, s: Store, before: Index, list: seq<Summary>, n: nat)
    requires c.Lawful() && n <= |list| && DistinctIds(list)
    requires !Fetched(c, prefix, w, s, before, Outdated(before, list[..n])).halted
    ensures var p := Fetched(c, prefix, w, s, before, Outdated(before, list[..n]));
            && UpdatedOn(before, p.index, list[..n], p.bodies.Keys)
            && (forall id :: id in p.bodies.Keys ==> exists x :: x in Outdated(before, list[..n]) && x.id == id)
  {
    var items := Outdated(before, list[..n]);
    var p := Fetched(c, prefix, w, s, before, items);
    FetchedAgrees(c, prefix, w, s, before, items);
    EveryItemEndsInOnePlace(c, prefix, w, s, before, items);
    OverrideIsUpToDate(before, p.index, p.ledger, list[..n], p.bodies.Keys);
  }

  lemma OverrideIsUpToDate(before: Index, after: Index, l: Ledger, list: seq<Summary>, ids: set<string>)
    requires DistinctIds(list) && forall id :: id in ids ==> id in after && FromList(l.stored, id, after[id])
    requires multiset(l.stored) + multiset(l.inaccessible) + multiset(l.left) == multiset(Outdated(before, list))
    requires forall id :: id !in ids ==> (id in after <==> id in before) && (id in before ==> after[id] == before[id])
    ensures UpdatedOn(before, after, list, ids)
    ensures forall id :: id in ids ==> exists x :: x in Outdated(before, list) && x.id == id
  {
    forall id | id in ids
      ensures exists x :: x in Outdated(before, list) && x.id == id
      ensures forall y :: y in list && y.id == id ==> Known(after, y)
    {
      StoredIsUpToDate(before, after, l, list, id);
    }
  }

  lemma StoredIsUpToDate(before: Index, after: Index, l: Ledger, list: seq<Summary>, id: string)
    requires DistinctIds(list) && id in after && FromList(l.stored, id, after[id])
    requires multiset(l.stored) + multiset(l.inaccessible) + multiset(l.left) == multiset(Outdated(before, list))
    ensures exists x :: x in Outdated(before, list) && x.id == id
    ensures forall y :: y in list && y.id == id ==> Known(after, y)
  {
    var x :| x in l.stored && x.id == id && x.updateTime == after[id].updateTime && x.title == after[id].title;
    InOneOfThree(l.stored, l.inaccessible, l.left, Outdated(before, list), x);
    OutdatedMembers(before, list, x);
    forall y | y in list && y.id == id ensures y == x {
      SameIdSameItem(list, x, y);
    }
  }

  lemma SameIdSameItem(list: seq<Summary>, x: Summary, y: Summary)
    requires DistinctIds(list) && x in list && y in list && x.id == y.id
    ensures x == y
  {
  }
}
