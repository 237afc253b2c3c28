/**
 Importing an export: classify every conversation, upload the outdated ones with several puts in flight, merge the
 results into the index as they complete, save it once.
 */
module ImportChats {
  import opened Basics
  import opened Stores
  import opened Keys
  import opened ChatList
  import opened JsonValues
  import opened ChatSync
  import opened ChatWorkload

  // ---------------------------------------------------------------- classification

  datatype Pending = Pending(summary: Summary, value: Json)

  datatype Verdict = Malformed | Current | ToUpload(item: Pending)

  /** The id is the field `id`, or `conversation_id` only when `id` is missing; a non-string id does not count. */
  function IdOf(value: Json): Option<string> {
    var field := if value.Field("id").Some? then value.Field("id") else value.Field("conversation_id");
    if field.Some? then field.value.AsString() else None
  }

  function StringField(value: Json, name: string): Option<string> {
    if value.Field(name).Some? then value.Field(name).value.AsString() else None
  }

  function NumberField(value: Json, name: string): Option<Double> {
    if value.Field(name).Some? then value.Field(name).value.AsNumber() else None
  }

  function SummaryOf(value: Json, id: string): Summary {
    Summary(id, StringField(value, "title"), NumberField(value, "update_time"))
  }

  function Classify(index: Index, value: Json): Verdict {
    match IdOf(value)
    case None => Malformed
    case Some(id) =>
      if Known(index, SummaryOf(value, id)) then Current else ToUpload(Pending(SummaryOf(value, id), value))
  }

  /**
   A conversation counts under its `id` if that is a string, and under its `conversation_id` only if it has no `id` at
   all; without a string there it is malformed. It is current exactly if the index has that id under the same time.
   */
  lemma ClassifyMeans(index: Index, value: Json)
    ensures var fields := if value.Object? then value.fields else map[];
            var field := if "id" in fields then Some(fields["id"])
                         else if "conversation_id" in fields then Some(fields["conversation_id"]) else None;
            var time := if "update_time" in fields && fields["update_time"].Number?
                        then Some(fields["update_time"].n) else None;
            var title := if "title" in fields && fields["title"].String? then Some(fields["title"].s) else None;
            Classify(index, value)
            == if field.None? || !field.value.String? then Malformed
               else if field.value.s in index && index[field.value.s].updateTime == time then Current
               else ToUpload(Pending(Summary(field.value.s, title, time), value))
  {
  }

  function PendingOf(index: Index, values: seq<Json>): seq<Pending> {
    if values == [] then []
    else
      PendingOf(index, values[..|values| - 1]) + Items(Classify(index, Last(values)))
  }

  function Items(v: Verdict): seq<Pending> {
    if v.ToUpload? then [v.item] else []
  }

  function CountMalformed(values: seq<Json>): nat {
    if values == [] then 0 else CountMalformed(values[..|values| - 1]) + if IdOf(Last(values)).None? then 1 else 0
  }

  /** All conversations of the export in order; none when some file cannot be read. */
  function Flatten(files: seq<Option<seq<Json>>>): Option<seq<Json>> {
    if files == [] then Some([])
    else
      match (Flatten(files[..|files| - 1]), Last(files))
      case (Some(before), Some(batch)) => Some(before + batch)
      case _ => None
  }

  /** The pending items of one part of the export after another, in that order. */
  lemma {:induction false} PendingInOrder(index: Index, first: seq<Json>, then_: seq<Json>)
    ensures PendingOf(index, first + then_) == PendingOf(index, first) + PendingOf(index, then_)
  {
    if then_ == [] {
      assert first + then_ == first;
    } else {
      var before := then_[..|then_| - 1];
      PendingInOrder(index, first, before);
      assert (first + then_)[..|first + then_| - 1] == first + before && Last(first + then_) == Last(then_);
      var a, b, d := PendingOf(index, first), PendingOf(index, before), Items(Classify(index, Last(then_)));
      assert (a + b) + d == a + (b + d);
    }
  }

  /** The places of the conversations that have no id. */
  function MalformedAt(values: seq<Json>): set<int> {
    set i | 0 <= i < |values| && IdOf(values[i]).None?
  }

  lemma MalformedAtNext(values: seq<Json>, n: nat)
    requires n < |values|
    ensures MalformedAt(values[..n + 1]) == MalformedAt(values[..n]) + if IdOf(values[n]).None? then {n} else {}
  {
    var before, now := values[..n], values[..n + 1];
    assert forall i :: 0 <= i < n ==> before[i] == now[i] == values[i];
    assert now[n] == values[n];
  }

  lemma {:induction false} CountMalformedMeans(values: seq<Json>, n: nat)
    requires n <= |values|
    ensures CountMalformed(values[..n]) == |MalformedAt(values[..n])|
  {
    if n > 0 {
      CountMalformedMeans(values, n - 1);
      MalformedAtNext(values, n - 1);
      assert values[..n][..n - 1] == values[..n - 1];
    }
  }

  /** The files of an export, read one after another; one unreadable file spoils it. */
  lemma {:induction false} FlattenInOrder(first: seq<Option<seq<Json>>>, then_: seq<Option<seq<Json>>>)
    ensures Flatten(first + then_)
            == if Flatten(first).Some? && Flatten(then_).Some? then Some(Flatten(first).value + Flatten(then_).value)
               else None
  {
    if then_ == [] {
      assert first + then_ == first;
      assert Flatten(first).Some? ==> Flatten(first).value + [] == Flatten(first).value;
    } else {
      var before := then_[..|then_| - 1];
      FlattenInOrder(first, before);
      assert (first + then_)[..|first + then_| - 1] == first + before && Last(first + then_) == Last(then_);
      if Flatten(first).Some? && Flatten(before).Some? && Last(then_).Some? {
        assert (Flatten(first).value + Flatten(before).value) + Last(then_).value
            == Flatten(first).value + (Flatten(before).value + Last(then_).value);
      }
    }
  }

  lemma OneFile(batch: seq<Json>)
    ensures Flatten([Some(batch)]) == Some(batch) && Flatten([None]) == None && Flatten([]) == Some([])
  {
    var one: seq<Option<seq<Json>>> := [Some(batch)];
    assert one[..0] == [] && Last(one) == Some(batch) && [] + batch == batch;
  }

  datatype Scanned = Scanned(pending: seq<Pending>, skipped: nat, malformed: nat)

  lemma ScanOne(index: Index, seen: seq<Json>, batch: seq<Json>, k: nat)
    requires k < |batch|
    ensures PendingOf(index, seen + batch[..k + 1]) == PendingOf(index, seen + batch[..k])
              + Items(Classify(index, batch[k]))
    ensures CountMalformed(seen + batch[..k + 1])
            == CountMalformed(seen + batch[..k]) + if IdOf(batch[k]).None? then 1 else 0
  {
    var now := seen + batch[..k + 1];
    assert now[..|now| - 1] == seen + batch[..k] && Last(now) == batch[k];
  }

  /** One file: `seen` is everything before it. */
  method ScanBatch(ghost seen: seq<Json>, batch: seq<Json>, index: Index, before: Scanned) returns (r: Scanned)
    requires before.pending == PendingOf(index, seen) && before.malformed == CountMalformed(seen)
    requires |before.pending| + before.skipped + before.malformed == |seen|
    ensures r.pending == PendingOf(index, seen + batch) && r.malformed == CountMalformed(seen + batch)
    ensures |r.pending| + r.skipped + r.malformed == |seen + batch|
  {
    var pending, skipped, malformed := before.pending, before.skipped, before.malformed;
    assert seen + batch[..0] == seen;
    for k := 0 to |batch|
      invariant pending == PendingOf(index, seen + batch[..k]) && malformed == CountMalformed(seen + batch[..k])
      invariant |pending| + skipped + malformed == |seen| + k
    {
      var value := batch[k];
      ScanOne(index, seen, batch, k);
      var id := IdOf(value);
      if id.None? {
        malformed := malformed + 1;
      } else {
        var summary := SummaryOf(value, id.value);
        if summary.id in index && index[summary.id].updateTime == summary.updateTime {
          skipped := skipped + 1;
        } else {
          pending := pending + [Pending(summary, value)];
        }
      }
    }
    assert batch[..|batch|] == batch;
    r := Scanned(pending, skipped, malformed);
  }

  method Scan(files: seq<Option<seq<Json>>>, index: Index) returns (r: Option<Scanned>)
    ensures r.Some? <==> Flatten(files).Some?
    ensures r.Some? ==>
              var values := Flatten(files).value;
              && r.value.pending == PendingOf(index, values) && r.value.malformed == CountMalformed(values)
              && |r.value.pending| + r.value.skipped + r.value.malformed == |values|
  {
    var scanned := Scanned([], 0, 0);
    for n := 0 to |files|
      invariant Flatten(files[..n]).Some?
      invariant var values := Flatten(files[..n]).value;
                && scanned.pending == PendingOf(index, values) && scanned.malformed == CountMalformed(values)
                && |scanned.pending| + scanned.skipped + scanned.malformed == |values|
    {
      assert files[..n + 1][..n] == files[..n];
      if files[n].None? {
        UnreadableFile(files, n);
        return None;
      }
      scanned := ScanBatch(Flatten(files[..n]).value, files[n].value, index, scanned);
    }
    assert files[..|files|] == files;
    r := Some(scanned);
  }

  lemma {:induction false} UnreadableFile(files: seq<Option<seq<Json>>>, n: nat)
    requires n < |files| && files[n].None?
    ensures Flatten(files).None?
  {
    if n < |files| - 1 {
      UnreadableFile(files[..|files| - 1], n);
    }
  }

  // ---------------------------------------------------------------- upload

  /** The answers to the put of item `k`, whenever it happens. */
  datatype Uploads = Uploads(put: int -> Fault, nonce: int -> nat, clock: int -> int)

  function ItemEntry(c: ChatCodec, prefix: string, u: Uploads, pending: seq<Pending>, k: nat): Entry
    requires k < |pending|
  {
    EntryFor(c, prefix, pending[k].summary, pending[k].value, u.nonce(k), u.clock(k))
  }

  /** The index after the uploads in `order` have completed one by one; failed ones leave it as it is. */
  function InsertAll(c: ChatCodec, prefix: string, u: Uploads, pending: seq<Pending>, index: Index,
                     order: seq<nat>): Index
    requires forall i :: 0 <= i < |order| ==> order[i] < |pending|
  {
    if order == [] then index
    else
      var before := InsertAll(c, prefix, u, pending, index, order[..|order| - 1]);
      var k := Last(order);
      if u.put(k).NoFault? then before[pending[k].summary.id := ItemEntry(c, prefix, u, pending, k)] else before
  }

  /** A completion order of `n` uploads: each completes once. */
  ghost predicate IsOrder(order: seq<nat>, n: nat) {
    && (forall i :: 0 <= i < |order| ==> order[i] < n)
    && (forall i, j :: 0 <= i < j < |order| ==> order[i] != order[j])
    && (forall k: nat :: k < n ==> k in order)
  }

  ghost predicate DistinctPending(pending: seq<Pending>) {
    forall i, j :: 0 <= i < j < |pending| ==> pending[i].summary.id != pending[j].summary.id
  }

  function Succeeded(u: Uploads, n: nat): set<nat> {
    set k: nat | k < n && u.put(k).NoFault?
  }

  /** The object of item `k` holds the bytes that item was encoded to. */
  ghost predicate Landed(c: ChatCodec, prefix: string, u: Uploads, pending: seq<Pending>, objects: map<string, Object>,
                         k: nat)
    requires k < |pending|
  {
    var key := ConvKey(prefix, pending[k].summary.id);
    key in objects && objects[key].body == c.encodeConversation(pending[k].value, u.nonce(k))
  }

  /** Every started item is in exactly one place: in flight, landed and waiting, or taken up. */
  ghost predicate Tracked(next: nat, inFlight: set<nat>, waiting: set<nat>, order: seq<nat>) {
    && (forall k: nat :: k < next <==> k in inFlight || k in waiting || k in order)
    && (forall k :: k in inFlight ==> k !in waiting && k !in order)
    && (forall k :: k in waiting ==> k !in order)
    && (forall i, j :: 0 <= i < j < |order| ==> order[i] != order[j])
    && |order| + |inFlight| + |waiting| == next
  }

  lemma TrackStart(next: nat, inFlight: set<nat>, waiting: set<nat>, order: seq<nat>)
    requires Tracked(next, inFlight, waiting, order)
    ensures Tracked(next + 1, inFlight + {next}, waiting, order)
  {
  }

  lemma TrackLand(next: nat, inFlight: set<nat>, waiting: set<nat>, order: seq<nat>, k: nat)
    requires Tracked(next, inFlight, waiting, order) && k in inFlight
    ensures Tracked(next, inFlight - {k}, waiting + {k}, order)
  {
  }

  lemma TrackTakeUp(next: nat, inFlight: set<nat>, waiting: set<nat>, order: seq<nat>, k: nat)
    requires Tracked(next, inFlight, waiting, order) && k in waiting
    ensures Tracked(next, inFlight, waiting - {k}, order + [k])
  {
  }

  /** What has been taken up so far, in the index and in the counters. */
  ghost predicate Merged(c: ChatCodec, prefix: string, u: Uploads, pending: seq<Pending>, index: Index, order: seq<nat>,
                         index': Index, imported: nat, failed: nat) {
    && (forall i :: 0 <= i < |order| ==> order[i] < |pending|)
    && index' == InsertAll(c, prefix, u, pending, index, order)
    && imported == |SuccessesIn(u, order)| && imported + failed == |order|
  }

  function SuccessesIn(u: Uploads, order: seq<nat>): set<nat> {
    set k | k in order && u.put(k).NoFault?
  }

  lemma MergeOne(c: ChatCodec, prefix: string, u: Uploads, pending: seq<Pending>, index: Index, order: seq<nat>,
                 index': Index, imported: nat, failed: nat, k: nat)
    requires Merged(c, prefix, u, pending, index, order, index', imported, failed) && k < |pending| && k !in order
    ensures if u.put(k).NoFault?
            then Merged(c, prefix, u, pending, index, order + [k],
                        index'[pending[k].summary.id := ItemEntry(c, prefix, u, pending, k)], imported + 1, failed)
            else Merged(c, prefix, u, pending, index, order + [k], index', imported, failed + 1)
  {
    assert (order + [k])[..|order|] == order && Last(order + [k]) == k;
    CountOne(u, order, k);
  }

  lemma CountOne(u: Uploads, order: seq<nat>, k: nat)
    requires k !in order
    ensures |SuccessesIn(u, order + [k])| == |SuccessesIn(u, order)| + if u.put(k).NoFault? then 1 else 0
  {
    assert SuccessesIn(u, order + [k]) == SuccessesIn(u, order) + if u.put(k).NoFault? then {k} else {};
  }

  /** The store after the puts in `order` have reached it. */
  function PutAll(c: ChatCodec, prefix: string, u: Uploads, pending: seq<Pending>, s: Store, order: seq<nat>): Store
    requires forall i :: 0 <= i < |order| ==> order[i] < |pending|
  {
    if order == [] then s
    else PutOne(c, prefix, u, pending, PutAll(c, prefix, u, pending, s, order[..|order| - 1]), Last(order))
  }

  function PutOne(c: ChatCodec, prefix: string, u: Uploads, pending: seq<Pending>, s: Store, k: nat): Store
    requires k < |pending|
  {
    Perform(s, Op.Put(ConvKey(prefix, pending[k].summary.id), c.encodeConversation(pending[k].value, u.nonce(k))),
            u.put(k)).0
  }

  lemma PutOneFrame(c: ChatCodec, prefix: string, u: Uploads, pending: seq<Pending>, s: Store, k: nat, j: nat)
    requires k < |pending| && j < |pending| && k != j && DistinctPending(pending)
    requires Landed(c, prefix, u, pending, s.objects, k)
    ensures Landed(c, prefix, u, pending, PutOne(c, prefix, u, pending, s, j).objects, k)
  {
    ChatKeysAreSeparate(prefix, pending[k].summary.id, pending[j].summary.id);
  }

  /** Whatever order the puts arrive in, with distinct ids every body that was sent is there in the end. */
  lemma {:induction false} PutAllShows(c: ChatCodec, prefix: string, u: Uploads, pending: seq<Pending>, s: Store,
                                       order: seq<nat>, k: nat)
    requires forall i :: 0 <= i < |order| ==> order[i] < |pending|
    requires DistinctPending(pending) && k in order && !u.put(k).LostRequest?
    ensures Landed(c, prefix, u, pending, PutAll(c, prefix, u, pending, s, order).objects, k)
  {
    if Last(order) != k {
      PutAllShows(c, prefix, u, pending, s, order[..|order| - 1], k);
      PutOneFrame(c, prefix, u, pending, PutAll(c, prefix, u, pending, s, order[..|order| - 1]), k, Last(order));
    }
  }

  lemma {:induction false} PutAllFrame(c: ChatCodec, prefix: string, u: Uploads, pending: seq<Pending>, s: Store,
                                       order: seq<nat>)
    requires forall i :: 0 <= i < |order| ==> order[i] < |pending|
    ensures OnlyConversations(prefix, s.objects, PutAll(c, prefix, u, pending, s, order).objects)
  {
    if order != [] {
      PutAllFrame(c, prefix, u, pending, s, order[..|order| - 1]);
    }
  }

  /** What has been sent so far. */
  ghost predicate Sent(c: ChatCodec, prefix: string, u: Uploads, pending: seq<Pending>, s: Store, s': Store, next: nat,
                       inFlight: set<nat>, order: seq<nat>) {
    && (forall i :: 0 <= i < |order| ==> order[i] < |pending|)
    && (forall i, j :: 0 <= i < j < |order| ==> order[i] != order[j])
    && (forall k: nat :: k in order <==> k < next && k !in inFlight)
    && s' == PutAll(c, prefix, u, pending, s, order)
  }

  lemma SendOne(c: ChatCodec, prefix: string, u: Uploads, pending: seq<Pending>, s: Store, s': Store, next: nat,
                inFlight: set<nat>, order: seq<nat>, k: nat)
    requires Sent(c, prefix, u, pending, s, s', next, inFlight, order) && k in inFlight && k < next <= |pending|
    ensures Sent(c, prefix, u, pending, s, PutOne(c, prefix, u, pending, s', k), next, inFlight - {k}, order + [k])
  {
  }

  lemma AllDone(c: ChatCodec, prefix: string, u: Uploads, pending: seq<Pending>, loaded: Index, s: Store, s': Store,
                sent: seq<nat>, order: seq<nat>, index: Index, imported: nat, failed: nat)
    requires Tracked(|pending|, {}, {}, order) && Sent(c, prefix, u, pending, s, s', |pending|, {}, sent)
    requires Merged(c, prefix, u, pending, loaded, order, index, imported, failed)
    ensures IsOrder(sent, |pending|) && s' == PutAll(c, prefix, u, pending, s, sent)
    ensures IsOrder(order, |pending|) && index == InsertAll(c, prefix, u, pending, loaded, order)
    ensures imported == |Succeeded(u, |pending|)| && imported + failed == |pending|
  {
    assert SuccessesIn(u, order) == Succeeded(u, |pending|);
  }

  ghost predicate ResultsAre(c: ChatCodec, prefix: string, u: Uploads, pending: seq<Pending>,
                             results: map<nat, Result<Entry>>) {
    forall k :: k in results ==>
      k < |pending| && results[k] == if u.put(k).NoFault? then Ok(ItemEntry(c, prefix, u, pending, k)) else Err
  }

  lemma StartOne(c: ChatCodec, prefix: string, u: Uploads, pending: seq<Pending>, s: Store, s': Store, next: nat,
                 inFlight: set<nat>, waiting: set<nat>, sent: seq<nat>, order: seq<nat>)
    requires Tracked(next, inFlight, waiting, order) && Sent(c, prefix, u, pending, s, s', next, inFlight, sent)
    ensures Tracked(next + 1, inFlight + {next}, waiting, order)
    ensures Sent(c, prefix, u, pending, s, s', next + 1, inFlight + {next}, sent)
    ensures |inFlight + {next}| == |inFlight| + 1
  {
    TrackStart(next, inFlight, waiting, order);
  }

  method PutItem(store: InMemoryStore, c: ChatCodec, prefix: string, u: Uploads, pending: seq<Pending>, k: nat)
    returns (entry: Result<Entry>)
    requires k < |pending|
    modifies store
    ensures store.Contents() == PutOne(c, prefix, u, pending, old(store.Contents()), k)
    ensures entry == if u.put(k).NoFault? then Ok(ItemEntry(c, prefix, u, pending, k)) else Err
  {
    entry := StoreConversation(store, c, prefix, pending[k].summary, pending[k].value, u.nonce(k), u.clock(k),
                               u.put(k));
  }

  lemma AddResult(c: ChatCodec, prefix: string, u: Uploads, pending: seq<Pending>, inFlight: set<nat>,
                  results: map<nat, Result<Entry>>, k: nat)
    requires ResultsAre(c, prefix, u, pending, results) && k in inFlight && k !in results && k < |pending|
    ensures var entry := if u.put(k).NoFault? then Ok(ItemEntry(c, prefix, u, pending, k)) else Err;
            && ResultsAre(c, prefix, u, pending, results[k := entry])
            && results[k := entry].Keys == results.Keys + {k}
            && |inFlight - {k}| + |results[k := entry]| == |inFlight| + |results|
  {
  }

  /** The put of one item in flight reaches the store. */
  method Land(store: InMemoryStore, c: ChatCodec, prefix: string, u: Uploads, pending: seq<Pending>, ghost s: Store,
              ghost next: nat, inFlight: set<nat>, results: map<nat, Result<Entry>>, ghost sent: seq<nat>,
                ghost order: seq<nat>)
    returns (inFlight': set<nat>, results': map<nat, Result<Entry>>, ghost sent': seq<nat>)
    requires inFlight != {} && next <= |pending|
    requires Tracked(next, inFlight, results.Keys, order) && ResultsAre(c, prefix, u, pending, results)
    requires Sent(c, prefix, u, pending, s, store.Contents(), next, inFlight, sent)
    modifies store
    ensures inFlight' < inFlight && |inFlight'| + |results'| == |inFlight| + |results|
    ensures Tracked(next, inFlight', results'.Keys, order) && ResultsAre(c, prefix, u, pending, results')
    ensures Sent(c, prefix, u, pending, s, store.Contents(), next, inFlight', sent')
  {
    var k :| k in inFlight;
    TrackLand(next, inFlight, results.Keys, order, k);
    SendOne(c, prefix, u, pending, s, store.Contents(), next, inFlight, sent, k);
    AddResult(c, prefix, u, pending, inFlight, results, k);
    var entry := PutItem(store, c, prefix, u, pending, k);
    inFlight', results', sent' := inFlight - {k}, results[k := entry], sent + [k];
  }

  /** One completed upload is taken up. */
  method TakeUp(c: ChatCodec, prefix: string, u: Uploads, pending: seq<Pending>, ghost loaded: Index, ghost next: nat,
                ghost inFlight: set<nat>, results: map<nat, Result<Entry>>, ghost order: seq<nat>, index: Index,
                  imported: nat, failed: nat)
    returns (results': map<nat, Result<Entry>>, ghost order': seq<nat>, index': Index, imported': nat, failed': nat)
    requires results != map[]
    requires Tracked(next, inFlight, results.Keys, order) && ResultsAre(c, prefix, u, pending, results)
    requires Merged(c, prefix, u, pending, loaded, order, index, imported, failed)
    ensures results'.Keys < results.Keys && |results'| < |results|
    ensures Tracked(next, inFlight, results'.Keys, order') && ResultsAre(c, prefix, u, pending, results')
    ensures Merged(c, prefix, u, pending, loaded, order', index', imported', failed')
  {
    var k :| k in results;
    TrackTakeUp(next, inFlight, results.Keys, order, k);
    MergeOne(c, prefix, u, pending, loaded, order, index, imported, failed, k);
    match results[k] {
      case Ok(entry) => index', imported', failed' := index[pending[k].summary.id := entry], imported + 1, failed;
      case Err => index', imported', failed' := index, imported, failed + 1;
    }
    results', order' := results - {k}, order + [k];
    assert results'.Keys == results.Keys - {k};
  }

  /** The state of the upload loop. */
  datatype Flight = Flight(next: nat, inFlight: set<nat>, results: map<nat, Result<Entry>>, index: Index, imported: nat,
                           failed: nat)

  ghost predicate Flying(c: ChatCodec, prefix: string, u: Uploads, pending: seq<Pending>, concurrency: nat,
                         loaded: Index, s: Store, s': Store, f: Flight, sent: seq<nat>, order: seq<nat>) {
    && f.next <= |pending| && |f.inFlight| + |f.results| <= concurrency
    && Tracked(f.next, f.inFlight, f.results.Keys, order) && ResultsAre(c, prefix, u, pending, f.results)
    && Merged(c, prefix, u, pending, loaded, order, f.index, f.imported, f.failed)
    && Sent(c, prefix, u, pending, s, s', f.next, f.inFlight, sent)
  }

  predicate Landing(f: Flight, n: nat) {
    f.next == n && f.inFlight == {} && f.results == map[]
  }

  predicate Nearer(f: Flight, f': Flight) {
    || f.next < f'.next
    || (f.next == f'.next && f'.inFlight < f.inFlight)
    || (f.next == f'.next && f'.inFlight == f.inFlight && f'.results.Keys < f.results.Keys)
  }

  /**
   One turn of the upload loop: it may start the next item while fewer than `concurrency` are in flight, let the
   put of any item in flight reach the store, or take up any completed one.
   */
  method Advance(store: InMemoryStore, c: ChatCodec, prefix: string, u: Uploads, pending: seq<Pending>,
                 concurrency: nat, ghost loaded: Index, ghost s: Store, f: Flight, ghost sent: seq<nat>,
                   ghost order: seq<nat>)
    returns (f': Flight, ghost sent': seq<nat>, ghost order': seq<nat>)
    requires concurrency >= 1 && !Landing(f, |pending|)
    requires Flying(c, prefix, u, pending, concurrency, loaded, s, store.Contents(), f, sent, order)
    modifies store
    ensures Flying(c, prefix, u, pending, concurrency, loaded, s, store.Contents(), f', sent', order') && Nearer(f, f')
  {
    f', sent', order' := f, sent, order;
    if
    case f.next < |pending| && |f.inFlight| + |f.results| < concurrency =>
      StartOne(c, prefix, u, pending, s, store.Contents(), f.next, f.inFlight, f.results.Keys, sent, order);
      f' := f.(inFlight := f.inFlight + {f.next}, next := f.next + 1);
    case f.inFlight != {} =>
      var inFlight, results;
      inFlight, results, sent' := Land(store, c, prefix, u, pending, s, f.next, f.inFlight, f.results, sent, order);
      f' := f.(inFlight := inFlight, results := results);
    case f.results != map[] =>
      var results, index, imported, failed;
      results, order', index, imported, failed :=
        TakeUp(c, prefix, u, pending, loaded, f.next, f.inFlight, f.results, order, f.index, f.imported, f.failed);
      f' := f.(results := results, index := index, imported := imported, failed := failed);
  }

  /**
   The upload loop. Whatever it picks at each turn, all puts are sent once, the index it returns is some completion
   order's, and the counters are the number of successes and failures. `busiest` is the largest number of uploads that
   were started and not yet taken up at any one time.
   */
  method UploadAll(store: InMemoryStore, c: ChatCodec, prefix: string, u: Uploads, pending: seq<Pending>,
                   concurrency: nat, index: Index)
    returns (index': Index, imported: nat, failed: nat, ghost sent: seq<nat>, ghost order: seq<nat>,
             ghost busiest: nat)
    requires concurrency >= 1
    modifies store
    ensures busiest <= concurrency
    ensures IsOrder(sent, |pending|) && store.Contents() == PutAll(c, prefix, u, pending, old(store.Contents()), sent)
    ensures IsOrder(order, |pending|) && index' == InsertAll(c, prefix, u, pending, index, order)
    ensures imported == |Succeeded(u, |pending|)| && imported + failed == |pending|
  {
    var f := Flight(0, {}, map[], index, 0, 0);
    sent, order, busiest := [], [], 0;
    ghost var s := store.Contents();
    while !Landing(f, |pending|)
      invariant Flying(c, prefix, u, pending, concurrency, index, s, store.Contents(), f, sent, order)
      invariant |f.inFlight| + |f.results| <= busiest <= concurrency
      decreases |pending| - f.next, f.inFlight, f.results.Keys
    {
      f, sent, order := Advance(store, c, prefix, u, pending, concurrency, index, s, f, sent, order);
      busiest := if |f.inFlight| + |f.results| > busiest then |f.inFlight| + |f.results| else busiest;
    }
    index', imported, failed := f.index, f.imported, f.failed;
    AllDone(c, prefix, u, pending, index, s, store.Contents(), sent, order, index', imported, failed);
  }

  /** What an import reports. `Aborted` is an error before any upload, `NotSaved` one after them all. */
  datatype Report =
    | Aborted
    | DryRun(toUpload: nat, skipped: nat, malformed: nat)
    | NotSaved
    | Imported(imported: nat, skipped: nat, failed: nat, malformed: nat)

  /**
   `run`: nothing is written unless every file could be read; every conversation is counted exactly once; failed
   uploads do not keep the index from being saved, but make the import end in an error.
   */
  method Import(store: InMemoryStore, c: ChatCodec, prefix: string, files: seq<Option<seq<Json>>>, concurrency: nat,
                dryRun: bool, up: Answers, u: Uploads, savedAt: int, nonce: nat, save: Fault)
    returns (report: Report, ok: bool, ghost sent: seq<nat>, ghost order: seq<nat>)
    modifies store
    ensures report.Aborted? <==>
              || concurrency == 0 || files == []
              || LoadedIndex(c, prefix, old(store.Contents()), up).None? || Flatten(files).None?
    ensures report.Aborted? || report.DryRun? ==> store.Contents() == old(store.Contents())
    ensures report.DryRun? <==> !report.Aborted? && dryRun
    ensures ok <==> report.DryRun? || (report.Imported? && report.failed == 0)
    ensures report.DryRun? ==>
              var before := LoadedIndex(c, prefix, old(store.Contents()), up).value;
              && report.toUpload + report.skipped + report.malformed == |Flatten(files).value|
              && report.toUpload == |PendingOf(before.index, Flatten(files).value)|
              && report.malformed == CountMalformed(Flatten(files).value)
    ensures report.Imported? ==>
              && report.imported + report.skipped + report.failed + report.malformed == |Flatten(files).value|
              && report.malformed == CountMalformed(Flatten(files).value)
    ensures !report.Aborted? && !report.DryRun? ==>
              var before := LoadedIndex(c, prefix, old(store.Contents()), up).value;
              var pending := PendingOf(before.index, Flatten(files).value);
              && IsOrder(sent, |pending|) && IsOrder(order, |pending|)
              && (report.Imported? ==>
                    report.imported == |Succeeded(u, |pending|)| && report.imported + report.failed == |pending|)
              && var op := SaveOp(c, prefix, InsertAll(c, prefix, u, pending, before.index, order), before.etag,
                                  savedAt, nonce);
                 var outcome := Perform(PutAll(c, prefix, u, pending, old(store.Contents()), sent), op, save);
                 store.Contents() == outcome.0 && (report.Imported? <==> outcome.1.Written?)
  {
    report, ok, sent, order := Aborted, false, [], [];
    if concurrency == 0 || files == [] {
      return;
    }
    var before := LoadIndex(store, c, prefix, up);
    if before.None? {
      return;
    }
    var scanned := Scan(files, before.value.index);
    if scanned.None? {
      return;
    }
    var Scanned(pending, skipped, malformed) := scanned.value;
    if dryRun {
      report, ok := DryRun(|pending|, skipped, malformed), true;
      return;
    }
    var index, imported, failed;
    ghost var busiest;
    index, imported, failed, sent, order, busiest :=
      UploadAll(store, c, prefix, u, pending, concurrency, before.value.index);
    var saved := SaveIndex(store, c, prefix, index, before.value.etag, savedAt, nonce, save);
    report := if saved then Imported(imported, skipped, failed, malformed) else NotSaved;
    ok := saved && failed == 0;
  }

  // ---------------------------------------------------------------- confluence

  /** Two successful uploads under one id record the same entry. */
  ghost predicate NoClash(c: ChatCodec, prefix: string, u: Uploads, pending: seq<Pending>) {
    forall i: nat, j: nat :: i < |pending| && j < |pending| && u.put(i).NoFault? && u.put(j).NoFault?
                             && pending[i].summary.id == pending[j].summary.id ==>
      ItemEntry(c, prefix, u, pending, i) == ItemEntry(c, prefix, u, pending, j)
  }

  /** `k` is a successful upload under `id`. */
  predicate Hit(u: Uploads, pending: seq<Pending>, id: string, k: nat) {
    k < |pending| && u.put(k).NoFault? && pending[k].summary.id == id
  }

  lemma {:induction false} InsertedIsAHit(c: ChatCodec, prefix: string, u: Uploads, pending: seq<Pending>, index: Index,
                                          order: seq<nat>, id: string)
    requires forall i :: 0 <= i < |order| ==> order[i] < |pending|
    ensures var r := InsertAll(c, prefix, u, pending, index, order);
            if exists k :: k in order && Hit(u, pending, id, k)
            then id in r && FromHit(c, prefix, u, pending, order, id, r[id])
            else (id in r <==> id in index) && (id in index ==> r[id] == index[id])
  {
    if order != [] {
      var before, last := order[..|order| - 1], Last(order);
      InsertedIsAHit(c, prefix, u, pending, index, before, id);
      assert last in order && forall k :: k in order <==> k in before || k == last;
      if !Hit(u, pending, id, last) && exists k :: k in before && Hit(u, pending, id, k) {
        var entry := InsertAll(c, prefix, u, pending, index, before)[id];
        var k :| k in before && Hit(u, pending, id, k) && entry == ItemEntry(c, prefix, u, pending, k);
        assert k in order;
      }
    }
  }

  /** The entry is that of some successful upload under `id` among those in `order`. */
  ghost predicate FromHit(c: ChatCodec, prefix: string, u: Uploads, pending: seq<Pending>, order: seq<nat>, id: string,
                          entry: Entry) {
    exists k :: k in order && Hit(u, pending, id, k) && entry == ItemEntry(c, prefix, u, pending, k)
  }

  lemma InsertedEntry(c: ChatCodec, prefix: string, u: Uploads, pending: seq<Pending>, index: Index, order: seq<nat>,
                      id: string)
    requires IsOrder(order, |pending|) && NoClash(c, prefix, u, pending)
    ensures var r := InsertAll(c, prefix, u, pending, index, order);
            && (forall k: nat :: Hit(u, pending, id, k) ==> id in r && r[id] == ItemEntry(c, prefix, u, pending, k))
            && ((forall k: nat :: !Hit(u, pending, id, k)) ==>
                  (id in r <==> id in index) && (id in index ==> r[id] == index[id]))
  {
    InsertedIsAHit(c, prefix, u, pending, index, order, id);
  }

  lemma OrdersAgree(c: ChatCodec, prefix: string, u: Uploads, pending: seq<Pending>, index: Index, a: seq<nat>,
                    b: seq<nat>)
    requires NoClash(c, prefix, u, pending) && IsOrder(a, |pending|) && IsOrder(b, |pending|)
    ensures InsertAll(c, prefix, u, pending, index, a) == InsertAll(c, prefix, u, pending, index, b)
  {
    var x, y := InsertAll(c, prefix, u, pending, index, a), InsertAll(c, prefix, u, pending, index, b);
    forall id ensures (id in x <==> id in y) && (id in x ==> x[id] == y[id]) {
      InsertedEntry(c, prefix, u, pending, index, a, id);
      InsertedEntry(c, prefix, u, pending, index, b, id);
    }
    assert x.Keys == y.Keys;
  }

  function Others(n: nat, except: nat): (r: seq<nat>)
    ensures forall i :: 0 <= i < |r| ==> r[i] < n && r[i] != except
    ensures forall i, j :: 0 <= i < j < |r| ==> r[i] != r[j]
    ensures forall k: nat :: k < n && k != except ==> k in r
  {
    if n == 0 then []
    else
      var r := Others(n - 1, except);
      if n - 1 == except then r
      else
        assert forall k: nat :: k < n && k != except ==> k in r || k == n - 1;
        r + [n - 1]
  }

  /** Some order lets a given successful upload complete last. */
  lemma LastWins(c: ChatCodec, prefix: string, u: Uploads, pending: seq<Pending>, index: Index, k: nat)
    returns (order: seq<nat>)
    requires k < |pending| && u.put(k).NoFault?
    ensures IsOrder(order, |pending|)
    ensures pending[k].summary.id in InsertAll(c, prefix, u, pending, index, order)
    ensures InsertAll(c, prefix, u, pending, index, order)[pending[k].summary.id] == ItemEntry(c, prefix, u, pending, k)
  {
    var others := Others(|pending|, k);
    order := others + [k];
    assert order[..|order| - 1] == others && Last(order) == k;
    forall j: nat | j < |pending| ensures j in order {
      if j == k {
        assert order[|others|] == k;
      } else {
        assert j in others;
      }
    }
  }

  /** Whatever order the uploads complete in, the index comes out the same. */
  ghost predicate Confluent(c: ChatCodec, prefix: string, u: Uploads, pending: seq<Pending>, index: Index) {
    forall a, b :: IsOrder(a, |pending|) && IsOrder(b, |pending|) ==>
      InsertAll(c, prefix, u, pending, index, a) == InsertAll(c, prefix, u, pending, index, b)
  }

  lemma ClashMakesOrderMatter(c: ChatCodec, prefix: string, u: Uploads, pending: seq<Pending>, index: Index, i: nat,
                              j: nat)
    requires i < |pending| && j < |pending| && u.put(i).NoFault? && u.put(j).NoFault?
    requires pending[i].summary.id == pending[j].summary.id
    requires ItemEntry(c, prefix, u, pending, i) != ItemEntry(c, prefix, u, pending, j)
    ensures !Confluent(c, prefix, u, pending, index)
  {
    var a := LastWins(c, prefix, u, pending, index, i);
    var b := LastWins(c, prefix, u, pending, index, j);
    assert InsertAll(c, prefix, u, pending, index, a) != InsertAll(c, prefix, u, pending, index, b);
  }

  /**
   Given the answers of one import, its index does not depend on the order of completion exactly when no two
   successful uploads clash; in particular for distinct ids.
   */
  lemma ConfluentIffNoClash(c: ChatCodec, prefix: string, u: Uploads, pending: seq<Pending>, index: Index)
    ensures Confluent(c, prefix, u, pending, index) <==> NoClash(c, prefix, u, pending)
    ensures DistinctPending(pending) ==> NoClash(c, prefix, u, pending)
  {
    if NoClash(c, prefix, u, pending) {
      forall a, b | IsOrder(a, |pending|) && IsOrder(b, |pending|)
        ensures InsertAll(c, prefix, u, pending, index, a) == InsertAll(c, prefix, u, pending, index, b)
      {
        OrdersAgree(c, prefix, u, pending, index, a, b);
      }
    } else {
      var i: nat, j: nat :| i < |pending| && j < |pending| && u.put(i).NoFault? && u.put(j).NoFault?
                            && pending[i].summary.id == pending[j].summary.id
                            && ItemEntry(c, prefix, u, pending, i) != ItemEntry(c, prefix, u, pending, j);
      ClashMakesOrderMatter(c, prefix, u, pending, index, i, j);
    }
  }

  /**
   Import is confluent whatever the store answers, for every concurrency bound and every order of completion,
   exactly when the ids to be uploaded are distinct.
   */
  lemma ConfluentIffDistinctIds(c: ChatCodec, prefix: string, pending: seq<Pending>, index: Index)
    ensures (forall u :: Confluent(c, prefix, u, pending, index)) <==> DistinctPending(pending)
  {
    if DistinctPending(pending) {
      forall u ensures Confluent(c, prefix, u, pending, index) {
        ConfluentIffNoClash(c, prefix, u, pending, index);
      }
    } else {
      var i, j :| 0 <= i < j < |pending| && pending[i].summary.id == pending[j].summary.id;
      ClashMakesOrderMatter(c, prefix, Uploads(k => NoFault, k => 0, k => k), pending, index, i, j);
    }
  }

  /** An export that lists one conversation twice, under its two id fields. */
  const TWICE: seq<Json> :=
    [Json.Object(map["id" := String("a"), "title" := String("old")]),
     Json.Object(map["conversation_id" := String("a")])]

  /** Both copies are uploaded, and which entry the index keeps is a matter of timing. */
  lemma RepeatedIdIsARace(c: ChatCodec, prefix: string)
    ensures |PendingOf(map[], TWICE)| == 2
    ensures exists u :: !Confluent(c, prefix, u, PendingOf(map[], TWICE), map[])
  {
    var pending := PendingOf(map[], TWICE);
    assert TWICE[..1] == [TWICE[0]] && TWICE[..1][..0] == [];
    assert IdOf(TWICE[0]) == IdOf(TWICE[1]) == Some("a") by {
      assert "id"[0] != "conversation_id"[0] && "id"[0] != "title"[0];
    }
    assert PendingOf(map[], TWICE[..1]) == [Pending(SummaryOf(TWICE[0], "a"), TWICE[0])];
    assert pending == [Pending(SummaryOf(TWICE[0], "a"), TWICE[0]), Pending(SummaryOf(TWICE[1], "a"), TWICE[1])];
    assert pending[0].summary.id == pending[1].summary.id;
    ConfluentIffDistinctIds(c, prefix, pending, map[]);
  }

  /** With distinct ids, each new entry tells the truth about the object that is there when all puts have arrived. */
  lemma ImportedEntriesDescribe(c: ChatCodec, prefix: string, u: Uploads, pending: seq<Pending>, index: Index, s: Store,
                                sent: seq<nat>, order: seq<nat>, k: nat)
    requires c.Lawful() && DistinctPending(pending) && IsOrder(sent, |pending|) && IsOrder(order, |pending|)
    requires k < |pending| && u.put(k).NoFault?
    ensures var id := pending[k].summary.id;
            var r := InsertAll(c, prefix, u, pending, index, order);
            id in r && Describes(c, prefix, PutAll(c, prefix, u, pending, s, sent).objects, id, r[id], pending[k].value)
  {
    ConfluentIffNoClash(c, prefix, u, pending, index);
    assert Hit(u, pending, pending[k].summary.id, k);
    InsertedEntry(c, prefix, u, pending, index, order, pending[k].summary.id);
    PutAllShows(c, prefix, u, pending, s, sent, k);
  }

  // ---------------------------------------------------------------- importing again

  ghost predicate DistinctValues(values: seq<Json>) {
    forall i, j :: 0 <= i < j < |values| && IdOf(values[i]).Some? && IdOf(values[j]).Some? ==>
      IdOf(values[i]) != IdOf(values[j])
  }

  function Failures(u: Uploads, pending: seq<Pending>): seq<Pending> {
    if pending == [] then []
    else
      Failures(u, pending[..|pending| - 1]) + if u.put(|pending| - 1).NoFault? then [] else [Last(pending)]
  }

  /** Every pending item comes from a value of the export that is to be uploaded. */
  ghost predicate ComesFrom(index: Index, values: seq<Json>, item: Pending) {
    exists i :: 0 <= i < |values| && Classify(index, values[i]) == ToUpload(item)
  }

  lemma {:induction false} PendingComesFrom(index: Index, values: seq<Json>, k: nat)
    requires k < |PendingOf(index, values)|
    ensures ComesFrom(index, values, PendingOf(index, values)[k])
  {
    var before := values[..|values| - 1];
    if k < |PendingOf(index, before)| {
      PendingComesFrom(index, before, k);
      var i :| 0 <= i < |before| && Classify(index, before[i]) == ToUpload(PendingOf(index, before)[k]);
      assert values[i] == before[i];
    } else {
      assert Classify(index, values[|values| - 1]) == ToUpload(PendingOf(index, values)[k]);
    }
  }

  lemma {:induction false} DistinctValuesDistinctPending(index: Index, values: seq<Json>)
    requires DistinctValues(values)
    ensures DistinctPending(PendingOf(index, values))
  {
    if values != [] {
      var before := values[..|values| - 1];
      DistinctValuesDistinctPending(index, before);
      forall k | 0 <= k < |PendingOf(index, before)| && IdOf(Last(values)).Some?
        ensures Some(PendingOf(index, before)[k].summary.id) != IdOf(Last(values))
      {
        PendingComesFrom(index, before, k);
      }
    }
  }

  /** An index that took in exactly the successful uploads. */
  ghost predicate TookIn(u: Uploads, pending: seq<Pending>, index: Index, after: Index) {
    && (forall k: nat :: k < |pending| && u.put(k).NoFault? ==> Known(after, pending[k].summary))
    && (forall id :: (forall k: nat :: !Hit(u, pending, id, k)) ==>
          (id in after <==> id in index) && (id in index ==> after[id] == index[id]))
  }

  lemma InsertedIsTakenIn(c: ChatCodec, prefix: string, u: Uploads, pending: seq<Pending>, index: Index,
                          order: seq<nat>)
    requires IsOrder(order, |pending|) && DistinctPending(pending)
    ensures TookIn(u, pending, index, InsertAll(c, prefix, u, pending, index, order))
  {
    var after := InsertAll(c, prefix, u, pending, index, order);
    forall k: nat | k < |pending| && u.put(k).NoFault? ensures Known(after, pending[k].summary) {
      assert Hit(u, pending, pending[k].summary.id, k);
      InsertedEntry(c, prefix, u, pending, index, order, pending[k].summary.id);
    }
    forall id | forall k: nat :: !Hit(u, pending, id, k)
      ensures (id in after <==> id in index) && (id in index ==> after[id] == index[id])
    {
      InsertedIsAHit(c, prefix, u, pending, index, order, id);
    }
  }

  /** A value that was already current stays so, and one whose upload failed is still to be uploaded. */
  lemma NextVerdict(u: Uploads, index: Index, after: Index, values: seq<Json>, i: nat, n: nat)
    requires i < |values| && DistinctValues(values) && n == |PendingOf(index, values[..i])|
    requires n <= |PendingOf(index, values)| && TookIn(u, PendingOf(index, values), index, after)
    requires Classify(index, values[i]).ToUpload? ==>
               n < |PendingOf(index, values)| && PendingOf(index, values)[n] == Classify(index, values[i]).item
    ensures Classify(after, values[i])
            == if Classify(index, values[i]).ToUpload? && u.put(n).NoFault? then Current else Classify(index, values[i])
  {
    var pending := PendingOf(index, values);
    DistinctValuesDistinctPending(index, values);
    match IdOf(values[i]) {
      case None =>
      case Some(id) =>
        forall k: nat | Hit(u, pending, id, k) ensures Classify(index, values[i]).ToUpload? && k == n {
          OnlyItsOwnUpload(index, values, i, k);
        }
    }
  }

  lemma OnlyItsOwnUpload(index: Index, values: seq<Json>, i: nat, k: nat)
    requires i < |values| && DistinctValues(values) && k < |PendingOf(index, values)|
    requires IdOf(values[i]) == Some(PendingOf(index, values)[k].summary.id)
    ensures Classify(index, values[i]) == ToUpload(PendingOf(index, values)[k])
  {
    PendingComesFrom(index, values, k);
    var j :| 0 <= j < |values| && Classify(index, values[j]) == ToUpload(PendingOf(index, values)[k]);
    assert IdOf(values[j]) == IdOf(values[i]);
  }

  lemma {:induction false} PendingGrows(index: Index, values: seq<Json>, i: nat)
    requires i <= |values|
    ensures PendingOf(index, values[..i]) <= PendingOf(index, values)
  {
    if i == |values| {
      assert values[..i] == values;
    } else {
      assert values[..|values| - 1][..i] == values[..i];
      PendingGrows(index, values[..|values| - 1], i);
    }
  }

  lemma PendingStep(index: Index, values: seq<Json>, i: nat)
    requires i < |values|
    ensures PendingOf(index, values[..i + 1]) == PendingOf(index, values[..i]) + Items(Classify(index, values[i]))
    ensures PendingOf(index, values[..i]) + Items(Classify(index, values[i])) <= PendingOf(index, values)
  {
    assert values[..i + 1][..i] == values[..i];
    PendingGrows(index, values, i + 1);
  }

  lemma FailuresStep(u: Uploads, before: seq<Pending>, v: Verdict)
    ensures Failures(u, before + Items(v))
            == Failures(u, before) + if v.ToUpload? && u.put(|before|).NoFault? then [] else Items(v)
  {
    if v.ToUpload? {
      assert (before + [v.item])[..|before|] == before;
    } else {
      assert before + Items(v) == before;
    }
  }

  lemma {:induction false} RemainingUpTo(u: Uploads, index: Index, after: Index, values: seq<Json>, i: nat)
    requires i <= |values| && DistinctValues(values) && TookIn(u, PendingOf(index, values), index, after)
    ensures PendingOf(after, values[..i]) == Failures(u, PendingOf(index, values[..i]))
  {
    if i > 0 {
      RemainingUpTo(u, index, after, values, i - 1);
      RemainingStep(u, index, after, values, i - 1);
    }
  }

  lemma RemainingStep(u: Uploads, index: Index, after: Index, values: seq<Json>, i: nat)
    requires i < |values| && DistinctValues(values) && TookIn(u, PendingOf(index, values), index, after)
    requires PendingOf(after, values[..i]) == Failures(u, PendingOf(index, values[..i]))
    ensures PendingOf(after, values[..i + 1]) == Failures(u, PendingOf(index, values[..i + 1]))
  {
    var before, v := PendingOf(index, values[..i]), Classify(index, values[i]);
    PendingStep(index, values, i);
    calc {
      PendingOf(after, values[..i + 1]);
      { PendingStep(after, values, i); }
      Failures(u, before) + Items(Classify(after, values[i]));
      { NextVerdict(u, index, after, values, i, |before|); }
      Failures(u, before) + if v.ToUpload? && u.put(|before|).NoFault? then [] else Items(v);
      { FailuresStep(u, before, v); }
      Failures(u, PendingOf(index, values[..i + 1]));
    }
  }

  /** Importing the same export again uploads exactly the items that failed the first time, in the same order. */
  lemma ReimportUploadsTheFailures(c: ChatCodec, prefix: string, u: Uploads, values: seq<Json>, index: Index,
                                   order: seq<nat>)
    requires DistinctValues(values) && IsOrder(order, |PendingOf(index, values)|)
    ensures var pending := PendingOf(index, values);
            PendingOf(InsertAll(c, prefix, u, pending, index, order), values) == Failures(u, pending)
  {
    var pending := PendingOf(index, values);
    DistinctValuesDistinctPending(index, values);
    InsertedIsTakenIn(c, prefix, u, pending, index, order);
    RemainingUpTo(u, index, InsertAll(c, prefix, u, pending, index, order), values, |values|);
    assert values[..|values|] == values;
  }

  // ---------------------------------------------------------------- newer and older exports

  lemma {:induction false} PendingIff(index: Index, values: seq<Json>, item: Pending)
    ensures item in PendingOf(index, values)
            <==> exists i :: 0 <= i < |values| && Classify(index, values[i]) == ToUpload(item)
  {
    if values != [] {
      var before := values[..|values| - 1];
      PendingIff(index, before, item);
      assert forall i :: 0 <= i < |before| ==> before[i] == values[i];
      assert item in Items(Classify(index, Last(values))) <==> Classify(index, values[|values| - 1]) == ToUpload(item);
    }
  }

  /**
   An import compares times for equality only. It uploads over an indexed conversation exactly if some copy in the
   export carries another time, be it later or earlier.
   */
  lemma UploadedIffTimeDiffers(index: Index, values: seq<Json>, id: string)
    requires id in index
    ensures (exists item :: item in PendingOf(index, values) && item.summary.id == id)
            <==> exists i :: 0 <= i < |values| && IdOf(values[i]) == Some(id)
                             && NumberField(values[i], "update_time") != index[id].updateTime
  {
    if exists item :: item in PendingOf(index, values) && item.summary.id == id {
      var item :| item in PendingOf(index, values) && item.summary.id == id;
      PendingIff(index, values, item);
    }
    if i :| 0 <= i < |values| && IdOf(values[i]) == Some(id)
            && NumberField(values[i], "update_time") != index[id].updateTime {
      PendingIff(index, values, Pending(SummaryOf(values[i], id), values[i]));
      assert Pending(SummaryOf(values[i], id), values[i]).summary.id == id;
    }
  }

  /** An export of a conversation at time 1. */
  const OLDER: Json := Json.Object(map["id" := String("a"), "update_time" := Number(1)])

  /** It is uploaded over the conversation stored at time 2, and its entry takes the newer one's place. */
  lemma OlderExportReplacesNewer(c: ChatCodec, prefix: string, u: Uploads, newer: Entry)
    requires newer.updateTime == Some(2) && u.put(0).NoFault?
    ensures var pending := PendingOf(map["a" := newer], [OLDER]);
            && |pending| == 1 && pending[0] == Pending(Summary("a", None, Some(1)), OLDER)
            && var after := InsertAll(c, prefix, u, pending, map["a" := newer], [0]);
               "a" in after && after["a"].updateTime == Some(1)
  {
    assert "id" != "title" && "update_time" != "title" && "id" != "update_time" by {
      assert |"id"| == 2 && |"title"| == 5 && |"update_time"| == 11;
    }
    assert [OLDER][..0] == [] && Last([OLDER]) == OLDER;
    assert Classify(map["a" := newer], OLDER) == ToUpload(Pending(Summary("a", None, Some(1)), OLDER));
    var order: seq<nat> := [0];
    assert order[..0] == [] && Last(order) == 0;
  }
}
