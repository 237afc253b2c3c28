/**
 One run of the chats workload: load the index, fetch the outdated conversations in batches, retry the
 transient failures once, save the index. `Progress` and the functions over it say what a run has done so far;
 the run itself is in `ChatWorkload`.
 */
module ChatSync {
  import opened Basics
  import opened Stores
  import opened Keys
  import opened ChatList
  import opened JsonValues
  import opened Retry

  /** Encryption takes the randomness of one call; the index also carries the time it was saved at. */
  datatype ChatCodec = ChatCodec(
    encodeConversation: (Json, nat) -> Bytes,
    decodeConversation: Bytes -> Option<Json>,
    encodeIndex: (Index, int, nat) -> Bytes,
    decodeIndex: Bytes -> Option<Index>,
    sha256: Bytes -> string
  ) {
    ghost predicate Lawful() {
      && (forall v, r {:trigger encodeConversation(v, r)} :: decodeConversation(encodeConversation(v, r)) == Some(v))
      && (forall i, t, r {:trigger encodeIndex(i, t, r)} :: decodeIndex(encodeIndex(i, t, r)) == Some(i))
    }
  }

  /** The answers of the outside world to the detail call, and the put, of item `k` in a pass. */
  datatype World = World(detail: (Pass, int) -> Outcome, put: (Pass, int) -> Fault, nonce: (Pass, int) -> nat,
                         clock: (Pass, int) -> int)

  datatype Pass = First | Sweep

  /** Where the items of a run have ended up. `failed` is the queue of the sweep. */
  datatype Ledger = Ledger(stored: seq<Summary>, inaccessible: seq<Summary>, failed: seq<Summary>, left: seq<Summary>) {

    /** An item stored, or not: the first pass sorts out the inaccessible and queues the rest, the sweep leaves all. */
    function Enter(s: Summary, pass: Pass, outcome: Outcome): Ledger {
      if outcome.Got? then this.(stored := stored + [s])
      else if pass.Sweep? then this.(left := left + [s])
      else if outcome.Inaccessible? then this.(inaccessible := inaccessible + [s])
      else this.(failed := failed + [s])
    }
  }

  /** `calls` are the detail calls made so far. */
  datatype Progress = Progress(store: Store, index: Index, ledger: Ledger, bodies: map<string, Json>,
                               calls: seq<Summary>, halted: bool)

  function Start(s: Store, index: Index): Progress {
    Progress(s, index, Ledger([], [], [], []), map[], [], false)
  }

  function EntryFor(c: ChatCodec, prefix: string, s: Summary, body: Json, nonce: nat, now: int): Entry {
    var cipher := c.encodeConversation(body, nonce);
    Entry(s.updateTime, s.title, ConvKey(prefix, s.id), c.sha256(cipher), |cipher|, now)
  }

  /** Store one fetched body; a put that fails, or whose answer is lost, ends the run. */
  function Keep(c: ChatCodec, prefix: string, w: World, p: Progress, s: Summary, body: Json, pass: Pass,
                k: int): Progress {
    var fault := w.put(pass, k);
    var cipher := c.encodeConversation(body, w.nonce(pass, k));
    var store := Perform(p.store, Op.Put(ConvKey(prefix, s.id), cipher), fault).0;
    if fault.NoFault? then
      Progress(store, p.index[s.id := EntryFor(c, prefix, s, body, w.nonce(pass, k), w.clock(pass, k))],
               p.ledger.Enter(s, pass, Got(body)), p.bodies[s.id := body], p.calls, p.halted)
    else p.(store := store, halted := true)
  }

  /** One item of a pass. A fatal answer ends the run in the first pass only. */
  function Take(c: ChatCodec, prefix: string, w: World, p: Progress, s: Summary, pass: Pass, k: int): Progress {
    var outcome, asked := w.detail(pass, k), p.(calls := p.calls + [s]);
    if outcome.Got? then Keep(c, prefix, w, asked, s, outcome.body, pass, k)
    else if outcome.Fatal? && pass.First? then asked.(halted := true)
    else asked.(ledger := p.ledger.Enter(s, pass, outcome))
  }

  function TakeAll(c: ChatCodec, prefix: string, w: World, p: Progress, items: seq<Summary>, pass: Pass): Progress {
    if items == [] then p
    else
      var q := TakeAll(c, prefix, w, p, items[..|items| - 1], pass);
      if q.halted then q else Take(c, prefix, w, q, Last(items), pass, |items| - 1)
  }

  function Fetched(c: ChatCodec, prefix: string, w: World, s: Store, index: Index, items: seq<Summary>): Progress {
    var p := TakeAll(c, prefix, w, Start(s, index), items, First);
    if p.halted then p else TakeAll(c, prefix, w, p, p.ledger.failed, Sweep)
  }

  // ---------------------------------------------------------------- conservation

  lemma AppendToSum<T>(sum: multiset<T>, a: seq<T>, x: T)
    ensures sum + multiset(a) + multiset{x} == sum + multiset(a + [x])
  {
  }

  /** What a pass has settled: in the first pass everything it placed, in the sweep what it stored or left. */
  function Settled(l: Ledger, pass: Pass): multiset<Summary> {
    multiset(l.stored) + if pass.First? then multiset(l.inaccessible) + multiset(l.failed) else multiset(l.left)
  }

  predicate OtherPassKept(l: Ledger, l': Ledger, pass: Pass) {
    if pass.First? then l'.left == l.left else l'.failed == l.failed && l'.inaccessible == l.inaccessible
  }

  lemma EnterSettlesOne(l: Ledger, s: Summary, pass: Pass, outcome: Outcome)
    ensures Settled(l.Enter(s, pass, outcome), pass) == Settled(l, pass) + multiset{s}
    ensures OtherPassKept(l, l.Enter(s, pass, outcome), pass)
  {
  }

  lemma TakeEnters(c: ChatCodec, prefix: string, w: World, p: Progress, s: Summary, pass: Pass, k: int)
    requires !Take(c, prefix, w, p, s, pass, k).halted
    ensures Take(c, prefix, w, p, s, pass, k).ledger == p.ledger.Enter(s, pass, w.detail(pass, k))
  {
  }

  /** The ledger after a pass that was not cut short. */
  function EnterAll(l: Ledger, items: seq<Summary>, pass: Pass, detail: (Pass, int) -> Outcome): Ledger {
    if items == [] then l
    else EnterAll(l, items[..|items| - 1], pass, detail).Enter(Last(items), pass, detail(pass, |items| - 1))
  }

  lemma {:induction false} PassEntersItsItems(c: ChatCodec, prefix: string, w: World, p: Progress, items: seq<Summary>,
                                              pass: Pass)
    requires !TakeAll(c, prefix, w, p, items, pass).halted
    ensures TakeAll(c, prefix, w, p, items, pass).ledger == EnterAll(p.ledger, items, pass, w.detail)
  {
    if items != [] {
      PassEntersItsItems(c, prefix, w, p, items[..|items| - 1], pass);
      TakeEnters(c, prefix, w, TakeAll(c, prefix, w, p, items[..|items| - 1], pass), Last(items), pass, |items| - 1);
    }
  }

  lemma {:induction false} PassSettlesItsItems(l: Ledger, items: seq<Summary>, pass: Pass,
                                               detail: (Pass, int) -> Outcome)
    ensures Settled(EnterAll(l, items, pass, detail), pass) == Settled(l, pass) + multiset(items)
    ensures OtherPassKept(l, EnterAll(l, items, pass, detail), pass)
  {
    if items != [] {
      var before, last := items[..|items| - 1], Last(items);
      PassSettlesItsItems(l, before, pass, detail);
      EnterSettlesOne(EnterAll(l, before, pass, detail), last, pass, detail(pass, |items| - 1));
      AppendToSum(Settled(l, pass), before, last);
      assert items == before + [last];
    }
  }

  lemma Balance<T>(stored: multiset<T>, inaccessible: multiset<T>, failed: multiset<T>, items: multiset<T>,
                   stored': multiset<T>, left': multiset<T>)
    requires stored + (inaccessible + failed) == items
    requires stored' + left' == stored + failed
    ensures stored' + inaccessible + left' == items && failed <= items
  {
    calc {
      stored' + inaccessible + left';
      (stored' + left') + inaccessible;
      (stored + failed) + inaccessible;
      stored + (inaccessible + failed);
    }
  }

  /** A pass makes one call per item, in order, and stops calling when the run ends. */
  ghost predicate CallsInOrder(before: seq<Summary>, items: seq<Summary>, q: Progress) {
    exists n: nat :: n <= |items| && q.calls == before + items[..n] && (q.halted || n == |items|)
  }

  lemma {:induction false} PassCallsInOrder(c: ChatCodec, prefix: string, w: World, p: Progress, items: seq<Summary>,
                                            pass: Pass)
    requires !p.halted
    ensures CallsInOrder(p.calls, items, TakeAll(c, prefix, w, p, items, pass))
  {
    if items == [] {
      assert p.calls == p.calls + items[..0];
    } else {
      var before := items[..|items| - 1];
      PassCallsInOrder(c, prefix, w, p, before, pass);
      var q := TakeAll(c, prefix, w, p, before, pass);
      var n: nat :| n <= |before| && q.calls == p.calls + before[..n] && (q.halted || n == |before|);
      assert before[..n] == items[..n];
      if !q.halted {
        assert TakeAll(c, prefix, w, p, items, pass).calls == p.calls + items[..|items|];
      }
    }
  }

  /** Over both passes every item ends in exactly one of stored, inaccessible, or left for the next run. */
  lemma EveryItemEndsInOnePlace(c: ChatCodec, prefix: string, w: World, s: Store, index: Index, items: seq<Summary>)
    requires !Fetched(c, prefix, w, s, index, items).halted
    ensures var l := Fetched(c, prefix, w, s, index, items).ledger;
            && multiset(l.stored) + multiset(l.inaccessible) + multiset(l.left) == multiset(items)
            && multiset(l.failed) <= multiset(items)
  {
    var p := TakeAll(c, prefix, w, Start(s, index), items, First);
    PassEntersItsItems(c, prefix, w, Start(s, index), items, First);
    PassEntersItsItems(c, prefix, w, p, p.ledger.failed, Sweep);
    PassSettlesItsItems(Start(s, index).ledger, items, First, w.detail);
    PassSettlesItsItems(p.ledger, p.ledger.failed, Sweep, w.detail);
    var l, l' := p.ledger, TakeAll(c, prefix, w, p, p.ledger.failed, Sweep).ledger;
    Balance(multiset(l.stored), multiset(l.inaccessible), multiset(l.failed), multiset(items),
            multiset(l'.stored), multiset(l'.left));
  }

  /**
   The detail calls of a run that gets through: one per item, in order, then one more per item queued for the sweep.
   */
  lemma CallsAreItemsThenQueue(c: ChatCodec, prefix: string, w: World, s: Store, index: Index, items: seq<Summary>)
    requires !Fetched(c, prefix, w, s, index, items).halted
    ensures var q := Fetched(c, prefix, w, s, index, items); q.calls == items + q.ledger.failed
  {
    var p := TakeAll(c, prefix, w, Start(s, index), items, First);
    var failed := p.ledger.failed;
    var q := TakeAll(c, prefix, w, p, failed, Sweep);
    PassCallsInOrder(c, prefix, w, Start(s, index), items, First);
    PassCallsInOrder(c, prefix, w, p, failed, Sweep);
    PassEntersItsItems(c, prefix, w, p, failed, Sweep);
    SweepKeepsQueue(p.ledger, failed, w.detail);
    assert items[..|items|] == items && failed[..|failed|] == failed;
    assert p.calls == [] + items;
  }

  lemma {:induction false} SweepKeepsQueue(l: Ledger, items: seq<Summary>, detail: (Pass, int) -> Outcome)
    ensures EnterAll(l, items, Sweep, detail).failed == l.failed
  {
    if items != [] {
      SweepKeepsQueue(l, items[..|items| - 1], detail);
    }
  }

  lemma Slice(items: seq<Summary>, n: nat, x: Summary)
    requires n <= |items|
    ensures multiset(items[..n])[x] <= multiset(items)[x]
  {
    assert items == items[..n] + items[n..];
  }

  /** Wherever a run is cut short, it has asked for no item more than twice. */
  lemma AtMostTwoCallsEach(c: ChatCodec, prefix: string, w: World, s: Store, index: Index, items: seq<Summary>,
                           x: Summary)
    ensures multiset(Fetched(c, prefix, w, s, index, items).calls)[x] <= 2 * multiset(items)[x]
  {
    var p := TakeAll(c, prefix, w, Start(s, index), items, First);
    PassCallsInOrder(c, prefix, w, Start(s, index), items, First);
    var n: nat :| n <= |items| && p.calls == [] + items[..n] && (p.halted || n == |items|);
    Slice(items, n, x);
    assert p.calls == items[..n];
    if !p.halted {
      var failed := p.ledger.failed;
      PassEntersItsItems(c, prefix, w, Start(s, index), items, First);
      PassSettlesItsItems(Start(s, index).ledger, items, First, w.detail);
      PassCallsInOrder(c, prefix, w, p, failed, Sweep);
      var q := TakeAll(c, prefix, w, p, failed, Sweep);
      var m: nat :| m <= |failed| && q.calls == p.calls + failed[..m] && (q.halted || m == |failed|);
      Slice(failed, m, x);
      assert multiset(failed)[x] <= Settled(p.ledger, First)[x] == multiset(items)[x];
      assert multiset(p.calls + failed[..m])[x] == multiset(p.calls)[x] + multiset(failed[..m])[x];
    }
  }

  // ---------------------------------------------------------------- index and bodies

  /** The entry tells the truth about the stored object, and the object holds this conversation. */
  ghost predicate Describes(c: ChatCodec, prefix: string, objects: map<string, Object>, id: string, entry: Entry,
                            body: Json) {
    && entry.objectKey == ConvKey(prefix, id) && entry.objectKey in objects
    && entry.sha256 == c.sha256(objects[entry.objectKey].body) && entry.bytes == |objects[entry.objectKey].body|
    && c.decodeConversation(objects[entry.objectKey].body) == Some(body)
  }

  /** The entry repeats what the list said of one of the items stored under this id. */
  ghost predicate FromList(stored: seq<Summary>, id: string, entry: Entry) {
    exists s :: s in stored && s.id == id && s.updateTime == entry.updateTime && s.title == entry.title
  }

  /** The index a run has built so far: loaded entries, overridden on exactly the stored ids by true ones. */
  ghost predicate Agrees(c: ChatCodec, prefix: string, loaded: Index, p: Progress) {
    && (forall s :: s in p.ledger.stored ==> s.id in p.bodies)
    && (forall id :: id in p.bodies ==>
          id in p.index && FromList(p.ledger.stored, id, p.index[id])
          && Describes(c, prefix, p.store.objects, id, p.index[id], p.bodies[id]))
    && (forall id :: id !in p.bodies ==>
          (id in p.index <==> id in loaded) && (id in loaded ==> p.index[id] == loaded[id]))
  }

  /** Only conversation objects may differ. */
  ghost predicate OnlyConversations(prefix: string, before: map<string, Object>, after: map<string, Object>) {
    forall key {:trigger key in after} {:trigger key in before} :: (forall id :: key != ConvKey(prefix, id)) ==>
      (key in before <==> key in after) && (key in before ==> after[key] == before[key])
  }

  lemma DescribesIsLocal(c: ChatCodec, prefix: string, a: map<string, Object>, b: map<string, Object>, id: string,
                         entry: Entry, body: Json)
    requires Describes(c, prefix, a, id, entry, body)
    requires entry.objectKey in b && b[entry.objectKey] == a[entry.objectKey]
    ensures Describes(c, prefix, b, id, entry, body)
  {
  }

  /** A new entry repeats the list's title and time, carries the time of storing, and measures the stored object. */
  lemma FreshEntryDescribes(c: ChatCodec, prefix: string, store: Store, s: Summary, body: Json, nonce: nat, now: int)
    requires c.Lawful()
    ensures var t := Apply(store, Op.Put(ConvKey(prefix, s.id), c.encodeConversation(body, nonce))).0;
            var e := EntryFor(c, prefix, s, body, nonce, now);
            && Describes(c, prefix, t.objects, s.id, e, body)
            && e.updateTime == s.updateTime && e.title == s.title && e.storedAt == now
  {
  }

  lemma KeepAgrees(c: ChatCodec, prefix: string, w: World, loaded: Index, p: Progress, s: Summary, body: Json,
                   pass: Pass, k: int)
    requires c.Lawful() && Agrees(c, prefix, loaded, p) && w.put(pass, k).NoFault?
    ensures Agrees(c, prefix, loaded, Keep(c, prefix, w, p, s, body, pass, k))
  {
    var q := Keep(c, prefix, w, p, s, body, pass, k);
    FreshEntryDescribes(c, prefix, p.store, s, body, w.nonce(pass, k), w.clock(pass, k));
    assert s in q.ledger.stored;
    forall id | id in p.bodies && id != s.id
      ensures FromList(q.ledger.stored, id, q.index[id])
      ensures Describes(c, prefix, q.store.objects, id, q.index[id], q.bodies[id])
    {
      OtherPutKeepsDescription(c, prefix, p.store, s.id, c.encodeConversation(body, w.nonce(pass, k)), id, p.index[id],
                               p.bodies[id]);
      FromLonger(p.ledger.stored, s, id, p.index[id]);
    }
  }

  lemma OtherPutKeepsDescription(c: ChatCodec, prefix: string, s: Store, put: string, cipher: Bytes, id: string,
                                 entry: Entry, body: Json)
    requires put != id && Describes(c, prefix, s.objects, id, entry, body)
    ensures Describes(c, prefix, Apply(s, Op.Put(ConvKey(prefix, put), cipher)).0.objects, id, entry, body)
  {
    ChatKeysAreSeparate(prefix, put, id);
    ApplyFrame(s, Op.Put(ConvKey(prefix, put), cipher), entry.objectKey);
    DescribesIsLocal(c, prefix, s.objects, Apply(s, Op.Put(ConvKey(prefix, put), cipher)).0.objects, id, entry, body);
  }

  lemma FromLonger(stored: seq<Summary>, s: Summary, id: string, entry: Entry)
    requires FromList(stored, id, entry)
    ensures FromList(stored + [s], id, entry)
  {
    var t :| t in stored && t.id == id && t.updateTime == entry.updateTime && t.title == entry.title;
    assert t in stored + [s];
  }

  lemma PutConversationFrame(prefix: string, s: Store, id: string, cipher: Bytes, fault: Fault)
    ensures OnlyConversations(prefix, s.objects, Perform(s, Op.Put(ConvKey(prefix, id), cipher), fault).0.objects)
  {
  }

  lemma TakeFrame(c: ChatCodec, prefix: string, w: World, p: Progress, s: Summary, pass: Pass, k: int)
    ensures OnlyConversations(prefix, p.store.objects, Take(c, prefix, w, p, s, pass, k).store.objects)
  {
    if w.detail(pass, k).Got? {
      PutConversationFrame(prefix, p.store, s.id, c.encodeConversation(w.detail(pass, k).body, w.nonce(pass, k)),
                           w.put(pass, k));
    }
  }

  lemma TakeAgrees(c: ChatCodec, prefix: string, w: World, loaded: Index, p: Progress, s: Summary, pass: Pass, k: int)
    requires c.Lawful() && Agrees(c, prefix, loaded, p) && !Take(c, prefix, w, p, s, pass, k).halted
    ensures Agrees(c, prefix, loaded, Take(c, prefix, w, p, s, pass, k))
  {
    if w.detail(pass, k).Got? {
      KeepAgrees(c, prefix, w, loaded, p.(calls := p.calls + [s]), s, w.detail(pass, k).body, pass, k);
    }
  }

  lemma {:induction false} PassAgrees(c: ChatCodec, prefix: string, w: World, loaded: Index, p: Progress,
                                      items: seq<Summary>, pass: Pass)
    requires c.Lawful() && Agrees(c, prefix, loaded, p) && !TakeAll(c, prefix, w, p, items, pass).halted
    ensures Agrees(c, prefix, loaded, TakeAll(c, prefix, w, p, items, pass))
  {
    if items != [] {
      PassAgrees(c, prefix, w, loaded, p, items[..|items| - 1], pass);
      TakeAgrees(c, prefix, w, loaded, TakeAll(c, prefix, w, p, items[..|items| - 1], pass), Last(items), pass,
                 |items| - 1);
    }
  }

  lemma {:induction false} PassFrame(c: ChatCodec, prefix: string, w: World, p: Progress, items: seq<Summary>,
                                     pass: Pass)
    ensures OnlyConversations(prefix, p.store.objects, TakeAll(c, prefix, w, p, items, pass).store.objects)
  {
    if items != [] {
      PassFrame(c, prefix, w, p, items[..|items| - 1], pass);
      TakeFrame(c, prefix, w, TakeAll(c, prefix, w, p, items[..|items| - 1], pass), Last(items), pass, |items| - 1);
    }
  }

  /**
   Wherever a run is cut short, it has touched conversation objects only; if it gets through, the index it is about
   to save is the loaded one overridden on exactly the stored ids, and each of those entries tells the truth.
   */
  lemma FetchedAgrees(c: ChatCodec, prefix: string, w: World, s: Store, loaded: Index, items: seq<Summary>)
    requires c.Lawful()
    ensures OnlyConversations(prefix, s.objects, Fetched(c, prefix, w, s, loaded, items).store.objects)
    ensures !Fetched(c, prefix, w, s, loaded, items).halted ==>
              Agrees(c, prefix, loaded, Fetched(c, prefix, w, s, loaded, items))
  {
    var p := TakeAll(c, prefix, w, Start(s, loaded), items, First);
    PassFrame(c, prefix, w, Start(s, loaded), items, First);
    PassFrame(c, prefix, w, p, p.ledger.failed, Sweep);
    if !Fetched(c, prefix, w, s, loaded, items).halted {
      PassAgrees(c, prefix, w, loaded, Start(s, loaded), items, First);
      PassAgrees(c, prefix, w, loaded, p, p.ledger.failed, Sweep);
    }
  }

  // ---------------------------------------------------------------- answers and where they lead

  datatype Fate = Answered | Refused | Postponed | Missed

  /** What the detail endpoint said of an item: its body, that it cannot be had, or to try later; or simply no body. */
  predicate HasFate(o: Outcome, fate: Fate) {
    match fate
    case Answered => o.Got?
    case Refused => o.Inaccessible?
    case Postponed => o.Transient?
    case Missed => !o.Got?
  }

  /** The items of a pass whose call had this fate, in order. */
  function WithFate(items: seq<Summary>, pass: Pass, detail: (Pass, int) -> Outcome, fate: Fate): seq<Summary> {
    if items == [] then []
    else
      WithFate(items[..|items| - 1], pass, detail, fate)
      + if HasFate(detail(pass, |items| - 1), fate) then [Last(items)] else []
  }

  /** A call that ends the run: a body that could not be stored, or a fatal answer in the first pass. */
  predicate Spoils(w: World, pass: Pass, k: int) {
    (w.detail(pass, k).Got? && !w.put(pass, k).NoFault?) || (w.detail(pass, k).Fatal? && pass.First?)
  }

  /** Some call made for this id was answered with this body. */
  ghost predicate CameFrom(w: World, items: seq<Summary>, pass: Pass, id: string, body: Json) {
    exists k :: 0 <= k < |items| && items[k].id == id && w.detail(pass, k) == Got(body)
  }

  lemma {:induction false} PassHaltsIff(c: ChatCodec, prefix: string, w: World, p: Progress, items: seq<Summary>,
                                        pass: Pass)
    requires !p.halted
    ensures TakeAll(c, prefix, w, p, items, pass).halted <==> exists k :: 0 <= k < |items| && Spoils(w, pass, k)
  {
    if items != [] {
      PassHaltsIff(c, prefix, w, p, items[..|items| - 1], pass);
      if Spoils(w, pass, |items| - 1) {
        assert exists k :: 0 <= k < |items| && Spoils(w, pass, k);
      }
    }
  }

  lemma {:induction false} FirstPassFates(l: Ledger, items: seq<Summary>, detail: (Pass, int) -> Outcome)
    requires forall k :: 0 <= k < |items| ==> !detail(First, k).Fatal?
    ensures EnterAll(l, items, First, detail)
            == Ledger(l.stored + WithFate(items, First, detail, Answered),
                      l.inaccessible + WithFate(items, First, detail, Refused),
                      l.failed + WithFate(items, First, detail, Postponed), l.left)
  {
    if items != [] {
      FirstPassFates(l, items[..|items| - 1], detail);
    }
  }

  lemma {:induction false} SweepFates(l: Ledger, items: seq<Summary>, detail: (Pass, int) -> Outcome)
    ensures EnterAll(l, items, Sweep, detail)
            == Ledger(l.stored + WithFate(items, Sweep, detail, Answered), l.inaccessible, l.failed,
                      l.left + WithFate(items, Sweep, detail, Missed))
  {
    if items != [] {
      SweepFates(l, items[..|items| - 1], detail);
    }
  }

  lemma {:induction false} PassBodies(c: ChatCodec, prefix: string, w: World, p: Progress, items: seq<Summary>,
                                      pass: Pass, id: string)
    requires !TakeAll(c, prefix, w, p, items, pass).halted
    ensures var q := TakeAll(c, prefix, w, p, items, pass);
            id in q.bodies ==>
              CameFrom(w, items, pass, id, q.bodies[id]) || (id in p.bodies && q.bodies[id] == p.bodies[id])
  {
    if items != [] {
      var n := |items| - 1;
      PassBodies(c, prefix, w, p, items[..n], pass, id);
      var before := TakeAll(c, prefix, w, p, items[..n], pass);
      if id in before.bodies && CameFrom(w, items[..n], pass, id, before.bodies[id]) {
        var k :| 0 <= k < n && items[..n][k].id == id && w.detail(pass, k) == Got(before.bodies[id]);
        assert items[k].id == id;
      }
      if w.detail(pass, n).Got? && items[n].id == id {
        assert items[n] == Last(items) && w.detail(pass, n) == Got(w.detail(pass, n).body);
      }
    }
  }

  /**
   A run does what the answers say. It is cut short exactly if a body could not be stored or the first pass met a fatal
   answer. If it gets through, the items answered in either pass are stored, those refused in the first pass are
   inaccessible, those postponed there are the queue that is asked for again, and whatever the sweep missed is left;
   and every body it has recorded under an id is one that a call made for that id was answered with.
   */
  lemma RunFollowsItsAnswers(c: ChatCodec, prefix: string, w: World, s: Store, index: Index, items: seq<Summary>)
    ensures var p := Fetched(c, prefix, w, s, index, items);
            var queue := WithFate(items, First, w.detail, Postponed);
            && (p.halted <==>
                  || (exists k :: 0 <= k < |items| && w.detail(First, k).Fatal?)
                  || (exists k :: 0 <= k < |items| && w.detail(First, k).Got? && !w.put(First, k).NoFault?)
                  || (exists k :: 0 <= k < |queue| && w.detail(Sweep, k).Got? && !w.put(Sweep, k).NoFault?))
            && (!p.halted ==>
                  && p.ledger.stored
                     == WithFate(items, First, w.detail, Answered) + WithFate(queue, Sweep, w.detail, Answered)
                  && p.ledger.inaccessible == WithFate(items, First, w.detail, Refused)
                  && p.ledger.failed == queue && p.calls == items + queue
                  && p.ledger.left == WithFate(queue, Sweep, w.detail, Missed)
                  && forall id :: id in p.bodies ==>
                       CameFrom(w, items, First, id, p.bodies[id]) || CameFrom(w, queue, Sweep, id, p.bodies[id]))
  {
    var p := TakeAll(c, prefix, w, Start(s, index), items, First);
    FirstPassFollows(c, prefix, w, s, index, items);
    SpoilsMeans(w, First, |items|);
    SpoilsMeans(w, Sweep, |p.ledger.failed|);
    if !p.halted {
      PassHaltsIff(c, prefix, w, p, p.ledger.failed, Sweep);
      if !Fetched(c, prefix, w, s, index, items).halted {
        SweepFollows(c, prefix, w, p, p.ledger.failed);
        CallsAreItemsThenQueue(c, prefix, w, s, index, items);
        BodiesComeFromAnswers(c, prefix, w, s, index, items);
      }
    }
  }

  lemma SpoilsMeans(w: World, pass: Pass, n: nat)
    ensures (exists k :: 0 <= k < n && Spoils(w, pass, k)) <==>
              || (pass.First? && exists k :: 0 <= k < n && w.detail(pass, k).Fatal?)
              || (exists k :: 0 <= k < n && w.detail(pass, k).Got? && !w.put(pass, k).NoFault?)
  {
    if k :| 0 <= k < n && w.detail(pass, k).Fatal? && pass.First? {
      assert Spoils(w, pass, k);
    }
    if k :| 0 <= k < n && w.detail(pass, k).Got? && !w.put(pass, k).NoFault? {
      assert Spoils(w, pass, k);
    }
  }

  lemma FirstPassFollows(c: ChatCodec, prefix: string, w: World, s: Store, index: Index, items: seq<Summary>)
    ensures var p := TakeAll(c, prefix, w, Start(s, index), items, First);
            && (p.halted <==> exists k :: 0 <= k < |items| && Spoils(w, First, k))
            && (!p.halted ==>
                  p.ledger == Ledger(WithFate(items, First, w.detail, Answered),
                                     WithFate(items, First, w.detail, Refused),
                                     WithFate(items, First, w.detail, Postponed), []))
  {
    PassHaltsIff(c, prefix, w, Start(s, index), items, First);
    if !TakeAll(c, prefix, w, Start(s, index), items, First).halted {
      forall k | 0 <= k < |items| ensures !w.detail(First, k).Fatal? {
        assert !Spoils(w, First, k);
      }
      PassEntersItsItems(c, prefix, w, Start(s, index), items, First);
      FirstPassFates(Start(s, index).ledger, items, w.detail);
    }
  }

  lemma SweepFollows(c: ChatCodec, prefix: string, w: World, p: Progress, queue: seq<Summary>)
    requires !TakeAll(c, prefix, w, p, queue, Sweep).halted
    ensures TakeAll(c, prefix, w, p, queue, Sweep).ledger
            == Ledger(p.ledger.stored + WithFate(queue, Sweep, w.detail, Answered), p.ledger.inaccessible,
                      p.ledger.failed, p.ledger.left + WithFate(queue, Sweep, w.detail, Missed))
  {
    PassEntersItsItems(c, prefix, w, p, queue, Sweep);
    SweepFates(p.ledger, queue, w.detail);
  }

  lemma BodiesComeFromAnswers(c: ChatCodec, prefix: string, w: World, s: Store, index: Index, items: seq<Summary>)
    requires !Fetched(c, prefix, w, s, index, items).halted
    ensures var p := TakeAll(c, prefix, w, Start(s, index), items, First);
            var q := Fetched(c, prefix, w, s, index, items);
            forall id :: id in q.bodies ==>
              CameFrom(w, items, First, id, q.bodies[id]) || CameFrom(w, p.ledger.failed, Sweep, id, q.bodies[id])
  {
    var p := TakeAll(c, prefix, w, Start(s, index), items, First);
    var q := Fetched(c, prefix, w, s, index, items);
    forall id | id in q.bodies
      ensures CameFrom(w, items, First, id, q.bodies[id]) || CameFrom(w, p.ledger.failed, Sweep, id, q.bodies[id])
    {
      PassBodies(c, prefix, w, p, p.ledger.failed, Sweep, id);
      PassBodies(c, prefix, w, Start(s, index), items, First, id);
    }
  }

  lemma {:induction false} FateOfItem(items: seq<Summary>, pass: Pass, detail: (Pass, int) -> Outcome, fate: Fate,
                                      k: nat)
    requires k < |items| && HasFate(detail(pass, k), fate)
    ensures items[k] in WithFate(items, pass, detail, fate)
  {
    if k < |items| - 1 {
      FateOfItem(items[..|items| - 1], pass, detail, fate, k);
    }
  }

  /** What each answer means for its item, in a run that gets through. */
  lemma EachAnswer(c: ChatCodec, prefix: string, w: World, s: Store, index: Index, items: seq<Summary>, k: nat)
    requires !Fetched(c, prefix, w, s, index, items).halted
    ensures var l := Fetched(c, prefix, w, s, index, items).ledger;
            && (k < |items| ==>
                  match w.detail(First, k)
                  case Got(_) => w.put(First, k).NoFault? && items[k] in l.stored
                  case Inaccessible(_) => items[k] in l.inaccessible
                  case Transient => items[k] in l.failed
                  case Fatal => false)
            && (k < |l.failed| ==>
                  match w.detail(Sweep, k)
                  case Got(_) => w.put(Sweep, k).NoFault? && l.failed[k] in l.stored
                  case _ => l.failed[k] in l.left)
  {
    RunFollowsItsAnswers(c, prefix, w, s, index, items);
    var queue := WithFate(items, First, w.detail, Postponed);
    if k < |items| {
      match w.detail(First, k) {
        case Got(_) => FateOfItem(items, First, w.detail, Answered, k);
        case Inaccessible(_) => FateOfItem(items, First, w.detail, Refused, k);
        case Transient => FateOfItem(items, First, w.detail, Postponed, k);
        case Fatal =>
      }
    }
    if k < |queue| {
      FateOfItem(queue, Sweep, w.detail, if w.detail(Sweep, k).Got? then Answered else Missed, k);
    }
  }

  /** The items that the queue holds are those whose first call was answered with a transient failure. */
  lemma {:induction false} QueuedWerePostponed(items: seq<Summary>, pass: Pass, detail: (Pass, int) -> Outcome,
                                               fate: Fate, j: nat)
    returns (k: nat)
    requires j < |WithFate(items, pass, detail, fate)|
    ensures k < |items| && items[k] == WithFate(items, pass, detail, fate)[j] && HasFate(detail(pass, k), fate)
  {
    var before := WithFate(items[..|items| - 1], pass, detail, fate);
    if j < |before| {
      k := QueuedWerePostponed(items[..|items| - 1], pass, detail, fate, j);
    } else {
      k := |items| - 1;
    }
  }

  lemma {:induction false} FatesKeepIdsDistinct(items: seq<Summary>, pass: Pass, detail: (Pass, int) -> Outcome,
                                                fate: Fate)
    requires DistinctIds(items)
    ensures DistinctIds(WithFate(items, pass, detail, fate))
  {
    if items != [] {
      var before := items[..|items| - 1];
      FatesKeepIdsDistinct(before, pass, detail, fate);
      forall j | 0 <= j < |WithFate(before, pass, detail, fate)|
        ensures WithFate(before, pass, detail, fate)[j].id != Last(items).id
      {
        var k := QueuedWerePostponed(before, pass, detail, fate, j);
        assert items[k] == before[k];
      }
    }
  }

  /**
   What is stored is what was answered. With distinct ids, after a run that gets through, the object under an id decodes
   to the body the detail endpoint sent for that conversation, in whichever pass it did.
   */
  lemma StoredIsTheAnswer(c: ChatCodec, prefix: string, w: World, s: Store, index: Index, items: seq<Summary>,
                          pass: Pass, k: nat)
    requires c.Lawful() && DistinctIds(items) && !Fetched(c, prefix, w, s, index, items).halted
    requires k < if pass.First? then |items| else |Fetched(c, prefix, w, s, index, items).ledger.failed|
    requires w.detail(pass, k).Got?
    ensures var p := Fetched(c, prefix, w, s, index, items);
            var id := (if pass.First? then items[k] else p.ledger.failed[k]).id;
            && id in p.bodies && p.bodies[id] == w.detail(pass, k).body
            && ConvKey(prefix, id) in p.store.objects
            && c.decodeConversation(p.store.objects[ConvKey(prefix, id)].body) == Some(w.detail(pass, k).body)
  {
    var p := Fetched(c, prefix, w, s, index, items);
    RunFollowsItsAnswers(c, prefix, w, s, index, items);
    EachAnswer(c, prefix, w, s, index, items, k);
    FetchedAgrees(c, prefix, w, s, index, items);
    var id := (if pass.First? then items[k] else p.ledger.failed[k]).id;
    OneAnswerEach(w, items, pass, k, id, p.bodies[id]);
  }

  lemma OneAnswerEach(w: World, items: seq<Summary>, pass: Pass, k: nat, id: string, body: Json)
    requires DistinctIds(items)
    requires var queue := WithFate(items, First, w.detail, Postponed);
             && k < (if pass.First? then |items| else |queue|) && w.detail(pass, k).Got?
             && id == (if pass.First? then items[k] else queue[k]).id
             && (CameFrom(w, items, First, id, body) || CameFrom(w, queue, Sweep, id, body))
    ensures w.detail(pass, k) == Got(body)
  {
    var queue := WithFate(items, First, w.detail, Postponed);
    FatesKeepIdsDistinct(items, First, w.detail, Postponed);
    if CameFrom(w, items, First, id, body) {
      var i :| 0 <= i < |items| && items[i].id == id && w.detail(First, i) == Got(body);
      if pass.Sweep? {
        var j := QueuedWerePostponed(items, First, w.detail, Postponed, k);
      }
    } else {
      var i :| 0 <= i < |queue| && queue[i].id == id && w.detail(Sweep, i) == Got(body);
      if pass.First? {
        var j := QueuedWerePostponed(items, First, w.detail, Postponed, i);
      }
    }
  }
}
