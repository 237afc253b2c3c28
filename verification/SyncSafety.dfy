/**
 Any number of chat syncs and imports at work on one store at once, each of which may stop after any request.
 Their bodies are overwritten in place and only the index is guarded, yet the index never leads the bodies
 and never loses another writer's entries.
 */
module SyncSafety {
  import opened Basics
  import opened Stores
  import opened Keys
  import opened ChatList
  import opened JsonValues
  import opened ChatSync

  /** A conversation put that reached the store, kept by an observer under its etag. */
  datatype BodyWrite = BodyWrite(key: string, cipher: Bytes)

  datatype Ack = Ack(id: string, entry: Entry)

  /**
   Where a process stands. `base` and `etag` are the index it loaded, `index` its copy, `acked` the uploads whose
   entries it has yet to insert, and `mine` the ids it has inserted.
   */
  datatype Phase =
    | Idle
    | IndexSeen
    | Working(base: Index, etag: Option<Etag>, index: Index, acked: seq<Ack>, mine: set<string>)
    | Stopped

  /** The next thing a process does; `lost` and `fault` are the transport's part in it. */
  datatype Action =
    | HeadIndex(lost: bool)
    | GetIndex(lost: bool)
    | Upload(summary: Summary, body: Json, nonce: nat, now: int, fault: Fault)
    | Insert(k: nat)
    | Save(savedAt: int, nonce: nat, fault: Fault)

  /** `Other` is a request of anyone else, such as a session run, to keys outside the workload. */
  datatype Event = Act(who: nat, action: Action) | Other(op: Op)

  datatype Saved = Saved(index: Index, mine: set<string>)

  datatype World = World(store: Store, procs: map<nat, Phase>, written: map<Etag, BodyWrite>, saves: seq<Saved>) {
    function At(who: nat): Phase {
      if who in procs then procs[who] else Idle
    }
  }

  ghost predicate IsChatKey(prefix: string, key: string) {
    key == IndexKey(prefix) || exists id :: key == ConvKey(prefix, id)
  }

  ghost function StepUpload(c: ChatCodec, prefix: string, w: World, who: nat, p: Phase, a: Action): World
    requires p.Working? && a.Upload?
  {
    var cipher := c.encodeConversation(a.body, a.nonce);
    var key := ConvKey(prefix, a.summary.id);
    var store := Perform(w.store, Op.Put(key, cipher), a.fault).0;
    var entry := EntryFor(c, prefix, a.summary, a.body, a.nonce, a.now);
    w.(store := store,
       written := if a.fault.LostRequest? then w.written else w.written[store.counter := BodyWrite(key, cipher)],
       procs := w.procs[who := if a.fault.NoFault? then p.(acked := p.acked + [Ack(a.summary.id, entry)]) else p])
  }

  ghost function StepSave(c: ChatCodec, prefix: string, w: World, who: nat, p: Phase, a: Action): World
    requires p.Working? && a.Save?
  {
    var store := Perform(w.store, PutIf(IndexKey(prefix), c.encodeIndex(p.index, a.savedAt, a.nonce), p.etag),
                         a.fault).0;
    w.(store := store, procs := w.procs[who := Stopped],
       saves := if store.counter > w.store.counter then w.saves + [Saved(p.index, p.mine)] else w.saves)
  }

  ghost function StepInsert(w: World, who: nat, p: Phase, k: nat): World
    requires p.Working? && k < |p.acked|
  {
    var ack := p.acked[k];
    w.(procs := w.procs[who := p.(index := p.index[ack.id := ack.entry], acked := p.acked[..k] + p.acked[k + 1..],
                                  mine := p.mine + {ack.id})])
  }

  /** Where loading the index leads. */
  function AfterHead(prefix: string, s: Store, lost: bool): Phase {
    if lost then Stopped
    else if IndexKey(prefix) in s.objects then IndexSeen
    else Working(map[], None, map[], [], {})
  }

  function AfterGet(c: ChatCodec, prefix: string, s: Store, lost: bool): Phase {
    if lost || IndexKey(prefix) !in s.objects then Stopped
    else
      match c.decodeIndex(s.objects[IndexKey(prefix)].body)
      case None => Stopped
      case Some(index) => Working(index, Some(s.objects[IndexKey(prefix)].etag), index, [], {})
  }

  /** One event. An action that does not fit the process's phase does nothing. */
  ghost function Step(c: ChatCodec, prefix: string, w: World, e: Event): World {
    match e
    case Other(op) => if IsChatKey(prefix, op.key) then w else w.(store := Apply(w.store, op).0)
    case Act(who, a) =>
      var p := w.At(who);
      if p.Idle? && a.HeadIndex? then w.(procs := w.procs[who := AfterHead(prefix, w.store, a.lost)])
      else if p.IndexSeen? && a.GetIndex? then w.(procs := w.procs[who := AfterGet(c, prefix, w.store, a.lost)])
      else if p.Working? && a.Upload? then StepUpload(c, prefix, w, who, p, a)
      else if p.Working? && a.Insert? && a.k < |p.acked| then StepInsert(w, who, p, a.k)
      else if p.Working? && a.Save? then StepSave(c, prefix, w, who, p, a)
      else w
  }

  ghost function Exec(c: ChatCodec, prefix: string, w: World, events: seq<Event>): World {
    if events == [] then w else Step(c, prefix, Exec(c, prefix, w, events[..|events| - 1]), Last(events))
  }

  /** Nothing has been synced yet under this prefix; whatever else the store holds is free. */
  ghost predicate Init(prefix: string, w: World) {
    && w.store.Valid() && w.procs == map[] && w.written == map[] && w.saves == []
    && IndexKey(prefix) !in w.store.objects
  }

  // ---------------------------------------------------------------- what an entry is worth

  predicate Decodes(c: ChatCodec, o: Object) {
    c.decodeConversation(o.body).Some?
  }

  /** Some put wrote what the entry records, and the key still holds a readable body from that put or a later one. */
  ghost predicate BackedBy(c: ChatCodec, prefix: string, objects: map<string, Object>, written: map<Etag, BodyWrite>,
                           id: string, entry: Entry, e: Etag) {
    && e in written && written[e].key == entry.objectKey == ConvKey(prefix, id)
    && entry.sha256 == c.sha256(written[e].cipher) && entry.bytes == |written[e].cipher|
    && entry.objectKey in objects && objects[entry.objectKey].etag >= e && Decodes(c, objects[entry.objectKey])
  }

  ghost predicate Backed(c: ChatCodec, prefix: string, objects: map<string, Object>, written: map<Etag, BodyWrite>,
                         id: string, entry: Entry) {
    exists e :: BackedBy(c, prefix, objects, written, id, entry, e)
  }

  ghost predicate AllBacked(c: ChatCodec, prefix: string, objects: map<string, Object>, written: map<Etag, BodyWrite>,
                            index: Index) {
    forall id :: id in index ==> Backed(c, prefix, objects, written, id, index[id])
  }

  /** Conversations are never lost, never replaced by older ones, and never made unreadable. */
  ghost predicate Grown(c: ChatCodec, prefix: string, before: map<string, Object>, after: map<string, Object>) {
    forall id {:trigger ConvKey(prefix, id)} :: ConvKey(prefix, id) in before ==>
      && ConvKey(prefix, id) in after && after[ConvKey(prefix, id)].etag >= before[ConvKey(prefix, id)].etag
      && (Decodes(c, before[ConvKey(prefix, id)]) ==> Decodes(c, after[ConvKey(prefix, id)]))
  }

  ghost predicate Extends(before: map<Etag, BodyWrite>, after: map<Etag, BodyWrite>) {
    forall e :: e in before ==> e in after && after[e] == before[e]
  }

  lemma BackedIsStable(c: ChatCodec, prefix: string, o: map<string, Object>, wr: map<Etag, BodyWrite>, o': map<string,
                       Object>, wr': map<Etag, BodyWrite>, id: string, entry: Entry)
    requires Backed(c, prefix, o, wr, id, entry) && Grown(c, prefix, o, o') && Extends(wr, wr')
    ensures Backed(c, prefix, o', wr', id, entry)
  {
    var e :| BackedBy(c, prefix, o, wr, id, entry, e);
    assert BackedBy(c, prefix, o', wr', id, entry, e);
  }

  lemma AllBackedIsStable(c: ChatCodec, prefix: string, o: map<string, Object>, wr: map<Etag, BodyWrite>,
                          o': map<string, Object>, wr': map<Etag, BodyWrite>, index: Index)
    requires AllBacked(c, prefix, o, wr, index) && Grown(c, prefix, o, o') && Extends(wr, wr')
    ensures AllBacked(c, prefix, o', wr', index)
  {
    forall id | id in index ensures Backed(c, prefix, o', wr', id, index[id]) {
      BackedIsStable(c, prefix, o, wr, o', wr', id, index[id]);
    }
  }

  // ---------------------------------------------------------------- the invariant

  /** The observer's record lies in the past, so the next etag is not in it. */
  ghost predicate InPast(s: Store, written: map<Etag, BodyWrite>) {
    s.Valid() && forall e :: e in written ==> e <= s.counter
  }

  /** One process: everything it may come to save is backed, and differs from what it loaded on its own ids only. */
  ghost predicate PhaseOk(c: ChatCodec, prefix: string, o: map<string, Object>, wr: map<Etag, BodyWrite>, p: Phase) {
    p.Working? ==>
      && AllBacked(c, prefix, o, wr, p.index)
      && (forall k :: 0 <= k < |p.acked| ==> Backed(c, prefix, o, wr, p.acked[k].id, p.acked[k].entry))
      && OverriddenOn(p.base, p.index, p.mine)
  }

  /** `after` is `before` except on `ids`, all of which it has. */
  ghost predicate OverriddenOn(before: Index, after: Index, ids: set<string>) {
    && (forall id :: id in ids ==> id in after)
    && (forall id :: id !in ids ==> (id in after <==> id in before) && (id in before ==> after[id] == before[id]))
  }

  /** The index a store holds. */
  function Durable(c: ChatCodec, prefix: string, s: Store): Option<Index> {
    if IndexKey(prefix) in s.objects then c.decodeIndex(s.objects[IndexKey(prefix)].body) else Some(map[])
  }

  /** While the index keeps the etag a process loaded it under, it is the index the process loaded. */
  ghost predicate BasePinned(c: ChatCodec, prefix: string, s: Store, p: Phase) {
    p.Working? ==>
      && (p.etag.Some? ==> p.etag.value <= s.counter)
      && (s.EtagAt(IndexKey(prefix)) == p.etag ==> Durable(c, prefix, s) == Some(p.base))
  }

  ghost predicate DurableOk(c: ChatCodec, prefix: string, s: Store, written: map<Etag, BodyWrite>, saves: seq<Saved>) {
    var d := Durable(c, prefix, s);
    && d.Some? && AllBacked(c, prefix, s.objects, written, d.value)
    && (IndexKey(prefix) in s.objects <==> saves != [])
    && (saves != [] ==> d.value == Last(saves).index)
  }

  /** Save number `i` starts from the index that save `i - 1` left. */
  ghost predicate SaveFollows(saves: seq<Saved>, i: int)
    requires 0 <= i < |saves|
  {
    OverriddenOn(if i == 0 then map[] else saves[i - 1].index, saves[i].index, saves[i].mine)
  }

  /** What the observer noted under the etag a conversation carries is that conversation's object. */
  ghost predicate Noted(prefix: string, o: map<string, Object>, written: map<Etag, BodyWrite>) {
    forall id {:trigger ConvKey(prefix, id)} :: ConvKey(prefix, id) in o && o[ConvKey(prefix, id)].etag in written ==>
      written[o[ConvKey(prefix, id)].etag] == BodyWrite(ConvKey(prefix, id), o[ConvKey(prefix, id)].body)
  }

  /** Once one put of a conversation has been noted, every later one is. */
  ghost predicate NotedSince(prefix: string, o: map<string, Object>, written: map<Etag, BodyWrite>) {
    forall id, e {:trigger ConvKey(prefix, id), written[e]} ::
      e in written && written[e].key == ConvKey(prefix, id) && ConvKey(prefix, id) in o
        && o[ConvKey(prefix, id)].etag >= e ==>
        o[ConvKey(prefix, id)].etag in written
  }

  ghost predicate Inv(c: ChatCodec, prefix: string, w: World) {
    && InPast(w.store, w.written)
    && Noted(prefix, w.store.objects, w.written) && NotedSince(prefix, w.store.objects, w.written)
    && (forall who :: who in w.procs ==>
          PhaseOk(c, prefix, w.store.objects, w.written, w.procs[who]) && BasePinned(c, prefix, w.store, w.procs[who]))
    && DurableOk(c, prefix, w.store, w.written, w.saves)
    && (forall i :: 0 <= i < |w.saves| ==> SaveFollows(w.saves, i))
  }

  lemma PhaseOkIsStable(c: ChatCodec, prefix: string, o: map<string, Object>, wr: map<Etag, BodyWrite>, o': map<string,
                        Object>, wr': map<Etag, BodyWrite>, p: Phase)
    requires PhaseOk(c, prefix, o, wr, p) && Grown(c, prefix, o, o') && Extends(wr, wr')
    ensures PhaseOk(c, prefix, o', wr', p)
  {
    if p.Working? {
      AllBackedIsStable(c, prefix, o, wr, o', wr', p.index);
      forall k | 0 <= k < |p.acked| ensures Backed(c, prefix, o', wr', p.acked[k].id, p.acked[k].entry) {
        BackedIsStable(c, prefix, o, wr, o', wr', p.acked[k].id, p.acked[k].entry);
      }
    }
  }

  /** The index object is untouched. */
  ghost predicate IndexKept(prefix: string, s: Store, s': Store) {
    && s.counter <= s'.counter
    && (IndexKey(prefix) in s.objects <==> IndexKey(prefix) in s'.objects)
    && (IndexKey(prefix) in s.objects ==> s'.objects[IndexKey(prefix)] == s.objects[IndexKey(prefix)])
  }

  /** A change of the store that leaves the index alone and lets conversations grow keeps everything but the actor. */
  lemma QuietStoreChange(c: ChatCodec, prefix: string, w: World, store: Store, written: map<Etag, BodyWrite>)
    requires Inv(c, prefix, w) && InPast(store, written)
    requires Noted(prefix, store.objects, written) && NotedSince(prefix, store.objects, written)
    requires IndexKept(prefix, w.store, store) && Grown(c, prefix, w.store.objects, store.objects)
              && Extends(w.written, written)
    ensures Inv(c, prefix, w.(store := store, written := written))
  {
    forall who | who in w.procs
      ensures PhaseOk(c, prefix, store.objects, written, w.procs[who]) && BasePinned(c, prefix, store, w.procs[who])
    {
      PhaseOkIsStable(c, prefix, w.store.objects, w.written, store.objects, written, w.procs[who]);
    }
    AllBackedIsStable(c, prefix, w.store.objects, w.written, store.objects, written, Durable(c, prefix, w.store).value);
  }

  lemma SetPhase(c: ChatCodec, prefix: string, w: World, who: nat, p: Phase)
    requires Inv(c, prefix, w)
    requires PhaseOk(c, prefix, w.store.objects, w.written, p) && BasePinned(c, prefix, w.store, p)
    ensures Inv(c, prefix, w.(procs := w.procs[who := p]))
  {
  }

  // ---------------------------------------------------------------- every step keeps it

  lemma ConvKeysAreOwn(prefix: string)
    ensures forall id :: ConvKey(prefix, id) != IndexKey(prefix)
  {
  }

  lemma OtherKeepsInv(c: ChatCodec, prefix: string, w: World, op: Op)
    requires Inv(c, prefix, w)
    ensures Inv(c, prefix, Step(c, prefix, w, Other(op)))
  {
    if !IsChatKey(prefix, op.key) {
      var store := Apply(w.store, op).0;
      ApplyKeepsValid(w.store, op);
      ApplyFrame(w.store, op, IndexKey(prefix));
      forall id ensures SameAt(w.store, store, ConvKey(prefix, id)) {
        ApplyFrame(w.store, op, ConvKey(prefix, id));
      }
      QuietStoreChange(c, prefix, w, store, w.written);
    }
  }

  lemma LoadKeepsInv(c: ChatCodec, prefix: string, w: World, who: nat, a: Action)
    requires Inv(c, prefix, w) && (a.HeadIndex? || a.GetIndex?)
    ensures Inv(c, prefix, Step(c, prefix, w, Act(who, a)))
  {
    if w.At(who).Idle? && a.HeadIndex? {
      SetPhase(c, prefix, w, who, AfterHead(prefix, w.store, a.lost));
    } else if w.At(who).IndexSeen? && a.GetIndex? {
      SetPhase(c, prefix, w, who, AfterGet(c, prefix, w.store, a.lost));
    }
  }

  /** Putting a conversation leaves the index alone and makes that conversation newer. */
  lemma PutGrows(c: ChatCodec, prefix: string, s: Store, id: string, body: Json, nonce: nat, fault: Fault)
    requires c.Lawful() && s.Valid()
    ensures var t := Perform(s, Op.Put(ConvKey(prefix, id), c.encodeConversation(body, nonce)), fault).0;
            t.Valid() && IndexKept(prefix, s, t) && Grown(c, prefix, s.objects, t.objects)
  {
  }

  lemma PutIsNoted(prefix: string, s: Store, id: string, cipher: Bytes, written: map<Etag, BodyWrite>)
    requires InPast(s, written) && Noted(prefix, s.objects, written) && NotedSince(prefix, s.objects, written)
    ensures var t := s.Write(ConvKey(prefix, id), cipher);
            var written' := written[t.counter := BodyWrite(ConvKey(prefix, id), cipher)];
            Noted(prefix, t.objects, written') && NotedSince(prefix, t.objects, written')
  {
  }

  lemma NewUploadIsBacked(c: ChatCodec, prefix: string, s: Store, summary: Summary, body: Json, nonce: nat, now: int,
                          written: map<Etag, BodyWrite>)
    requires c.Lawful()
    ensures var cipher := c.encodeConversation(body, nonce);
            var t := s.Write(ConvKey(prefix, summary.id), cipher);
            Backed(c, prefix, t.objects, written[t.counter := BodyWrite(ConvKey(prefix, summary.id), cipher)],
                   summary.id, EntryFor(c, prefix, summary, body, nonce, now))
  {
    var cipher := c.encodeConversation(body, nonce);
    var t := s.Write(ConvKey(prefix, summary.id), cipher);
    assert BackedBy(c, prefix, t.objects, written[t.counter := BodyWrite(ConvKey(prefix, summary.id), cipher)],
                    summary.id, EntryFor(c, prefix, summary, body, nonce, now), t.counter);
  }

  lemma UploadKeepsInv(c: ChatCodec, prefix: string, w: World, who: nat, a: Action)
    requires c.Lawful() && Inv(c, prefix, w) && a.Upload?
    ensures Inv(c, prefix, Step(c, prefix, w, Act(who, a)))
  {
    var p := w.At(who);
    if p.Working? {
      var v := StepUpload(c, prefix, w, who, p, a);
      PutGrows(c, prefix, w.store, a.summary.id, a.body, a.nonce, a.fault);
      if !a.fault.LostRequest? {
        PutIsNoted(prefix, w.store, a.summary.id, c.encodeConversation(a.body, a.nonce), w.written);
      }
      QuietStoreChange(c, prefix, w, v.store, v.written);
      if a.fault.NoFault? {
        NewUploadIsBacked(c, prefix, w.store, a.summary, a.body, a.nonce, a.now, w.written);
      }
      SetPhase(c, prefix, w.(store := v.store, written := v.written), who, v.procs[who]);
    }
  }

  lemma InsertKeepsInv(c: ChatCodec, prefix: string, w: World, who: nat, k: nat)
    requires Inv(c, prefix, w)
    ensures Inv(c, prefix, Step(c, prefix, w, Act(who, Insert(k))))
  {
    var p := w.At(who);
    if p.Working? && k < |p.acked| {
      SetPhase(c, prefix, w, who, StepInsert(w, who, p, k).procs[who]);
    }
  }

  /** A save that reaches the store replaced exactly the index its process had loaded. */
  lemma SaveReplacesItsBase(c: ChatCodec, prefix: string, w: World, who: nat, p: Phase, a: Action)
    requires c.Lawful() && Inv(c, prefix, w) && who in w.procs && w.procs[who] == p && p.Working? && a.Save?
    requires StepSave(c, prefix, w, who, p, a).store.counter > w.store.counter
    ensures var v := StepSave(c, prefix, w, who, p, a);
            && OverriddenOn(Durable(c, prefix, w.store).value, p.index, p.mine)
            && Durable(c, prefix, v.store) == Some(p.index)
            && v.store == w.store.Write(IndexKey(prefix), c.encodeIndex(p.index, a.savedAt, a.nonce))
  {
  }

  /** Every loaded etag is older than the index just saved. */
  lemma SavedIndexIsNew(c: ChatCodec, prefix: string, s: Store, body: Bytes, p: Phase)
    requires BasePinned(c, prefix, s, p)
    ensures BasePinned(c, prefix, s.Write(IndexKey(prefix), body), p)
  {
  }

  lemma IndexWriteFrame(c: ChatCodec, prefix: string, s: Store, body: Bytes)
    ensures Grown(c, prefix, s.objects, s.Write(IndexKey(prefix), body).objects)
    ensures forall written :: Noted(prefix, s.objects, written) && NotedSince(prefix, s.objects, written) ==>
              var o := s.Write(IndexKey(prefix), body).objects;
              Noted(prefix, o, written) && NotedSince(prefix, o, written)
  {
  }

  lemma SavesFollow(saves: seq<Saved>, last: Saved)
    requires forall i :: 0 <= i < |saves| ==> SaveFollows(saves, i)
    requires OverriddenOn(if saves == [] then map[] else Last(saves).index, last.index, last.mine)
    ensures forall i :: 0 <= i < |saves + [last]| ==> SaveFollows(saves + [last], i)
  {
    forall i | 0 <= i < |saves + [last]| ensures SaveFollows(saves + [last], i) {
      if i < |saves| {
        assert SaveFollows(saves, i);
      }
    }
  }

  lemma SaveKeepsInv(c: ChatCodec, prefix: string, w: World, who: nat, a: Action)
    requires c.Lawful() && Inv(c, prefix, w) && a.Save?
    ensures Inv(c, prefix, Step(c, prefix, w, Act(who, a)))
  {
    var p := w.At(who);
    if p.Working? {
      var v := StepSave(c, prefix, w, who, p, a);
      if v.store.counter > w.store.counter {
        SaveReplacesItsBase(c, prefix, w, who, p, a);
        AppliedSaveKeepsInv(c, prefix, w, p, c.encodeIndex(p.index, a.savedAt, a.nonce));
        SetPhase(c, prefix, w.(store := v.store, saves := v.saves), who, Stopped);
      } else {
        SetPhase(c, prefix, w, who, Stopped);
      }
    }
  }

  lemma AppliedSaveKeepsInv(c: ChatCodec, prefix: string, w: World, p: Phase, body: Bytes)
    requires Inv(c, prefix, w) && p.Working? && PhaseOk(c, prefix, w.store.objects, w.written, p)
    requires c.decodeIndex(body) == Some(p.index)
    requires OverriddenOn(Durable(c, prefix, w.store).value, p.index, p.mine)
    ensures Inv(c, prefix, w.(store := w.store.Write(IndexKey(prefix), body), saves := w.saves
                              + [Saved(p.index, p.mine)]))
  {
    var store := w.store.Write(IndexKey(prefix), body);
    IndexWriteFrame(c, prefix, w.store, body);
    forall who | who in w.procs
      ensures PhaseOk(c, prefix, store.objects, w.written, w.procs[who]) && BasePinned(c, prefix, store, w.procs[who])
    {
      PhaseOkIsStable(c, prefix, w.store.objects, w.written, store.objects, w.written, w.procs[who]);
      SavedIndexIsNew(c, prefix, w.store, body, w.procs[who]);
    }
    AllBackedIsStable(c, prefix, w.store.objects, w.written, store.objects, w.written, p.index);
    SavesFollow(w.saves, Saved(p.index, p.mine));
  }

  lemma StepKeepsInv(c: ChatCodec, prefix: string, w: World, e: Event)
    requires c.Lawful() && Inv(c, prefix, w)
    ensures Inv(c, prefix, Step(c, prefix, w, e))
  {
    match e
    case Other(op) => OtherKeepsInv(c, prefix, w, op);
    case Act(who, a) =>
      match a
      case HeadIndex(_) => LoadKeepsInv(c, prefix, w, who, a);
      case GetIndex(_) => LoadKeepsInv(c, prefix, w, who, a);
      case Upload(_, _, _, _, _) => UploadKeepsInv(c, prefix, w, who, a);
      case Insert(k) => InsertKeepsInv(c, prefix, w, who, k);
      case Save(_, _, _) => SaveKeepsInv(c, prefix, w, who, a);
  }

  lemma {:induction false} ExecKeepsInv(c: ChatCodec, prefix: string, w: World, events: seq<Event>)
    requires c.Lawful() && Init(prefix, w)
    ensures Inv(c, prefix, Exec(c, prefix, w, events))
  {
    if events != [] {
      ExecKeepsInv(c, prefix, w, events[..|events| - 1]);
      StepKeepsInv(c, prefix, Exec(c, prefix, w, events[..|events| - 1]), Last(events));
    }
  }

  // ---------------------------------------------------------------- theorems

  /** The last index saved, or the empty one. */
  function LastSaved(saves: seq<Saved>): Index {
    if saves == [] then map[] else Last(saves).index
  }

  /**
   Crash-safe index. At every moment of every interleaving, wherever any process stopped, the stored index is
   readable, and each of its entries records a put that happened, of a conversation that still exists, can be
   decoded, and is that put's object or a later one. The index may lag the bodies; it never leads or dangles.
   */
  lemma IndexNeverDangles(c: ChatCodec, prefix: string, w: World, events: seq<Event>)
    requires c.Lawful() && Init(prefix, w)
    ensures var v := Exec(c, prefix, w, events);
            && Durable(c, prefix, v.store).Some?
            && AllBacked(c, prefix, v.store.objects, v.written, Durable(c, prefix, v.store).value)
  {
    ExecKeepsInv(c, prefix, w, events);
  }

  /**
   No lost index updates: each saved index is the one saved just before it, overridden on the ids its own writer
   uploaded; so entries never disappear, and the stored index is the last one saved.
   */
  lemma NoLostIndexUpdates(c: ChatCodec, prefix: string, w: World, events: seq<Event>)
    requires c.Lawful() && Init(prefix, w)
    ensures var v := Exec(c, prefix, w, events);
            && (forall i :: 0 <= i < |v.saves| ==> SaveFollows(v.saves, i))
            && Durable(c, prefix, v.store) == Some(LastSaved(v.saves))
  {
    ExecKeepsInv(c, prefix, w, events);
  }

  lemma {:induction false} SavedKeysGrow(saves: seq<Saved>, i: nat, j: nat)
    requires forall k :: 0 <= k < |saves| ==> SaveFollows(saves, k)
    requires i <= j < |saves|
    ensures saves[i].index.Keys <= saves[j].index.Keys
    decreases j
  {
    if i < j {
      SavedKeysGrow(saves, i, j - 1);
      assert SaveFollows(saves, j);
    }
  }

  lemma LaterIndexListsMore(past: seq<Saved>, now: seq<Saved>)
    requires past <= now && forall k :: 0 <= k < |now| ==> SaveFollows(now, k)
    ensures LastSaved(past).Keys <= LastSaved(now).Keys
  {
    if past != [] {
      assert now[|past| - 1] == Last(past);
      SavedKeysGrow(now, |past| - 1, |now| - 1);
    }
  }

  lemma {:induction false} SavesOnlyGrow(c: ChatCodec, prefix: string, w: World, events: seq<Event>, n: nat)
    requires n <= |events|
    ensures Exec(c, prefix, w, events[..n]).saves <= Exec(c, prefix, w, events).saves
  {
    if n == |events| {
      assert events[..n] == events;
    } else {
      assert events[..|events| - 1][..n] == events[..n];
      SavesOnlyGrow(c, prefix, w, events[..|events| - 1], n);
    }
  }

  /** No conversation ever leaves the stored index: what it lists at some moment it lists ever after. */
  lemma EntriesNeverDisappear(c: ChatCodec, prefix: string, w: World, events: seq<Event>, n: nat)
    requires c.Lawful() && Init(prefix, w) && n <= |events|
    ensures var past := Durable(c, prefix, Exec(c, prefix, w, events[..n]).store);
            var now := Durable(c, prefix, Exec(c, prefix, w, events).store);
            past.Some? && now.Some? && past.value.Keys <= now.value.Keys
  {
    NoLostIndexUpdates(c, prefix, w, events[..n]);
    NoLostIndexUpdates(c, prefix, w, events);
    SavesOnlyGrow(c, prefix, w, events, n);
    LaterIndexListsMore(Exec(c, prefix, w, events[..n]).saves, Exec(c, prefix, w, events).saves);
  }

  /**
   The recorded hash is that of the stored body exactly as long as nobody has put the conversation again since, given
   that every encryption yields new bytes and that hashes do not collide on them.
   */
  lemma HashIsRightUntilOverwritten(c: ChatCodec, prefix: string, w: World, events: seq<Event>, id: string,
                                    entry: Entry, e: Etag)
    requires c.Lawful() && Init(prefix, w)
    requires var v := Exec(c, prefix, w, events);
             && BackedBy(c, prefix, v.store.objects, v.written, id, entry, e)
             && (forall i, j :: i in v.written && j in v.written && i != j ==>
                   c.sha256(v.written[i].cipher) != c.sha256(v.written[j].cipher))
    ensures var o := Exec(c, prefix, w, events).store.objects[entry.objectKey];
            entry.sha256 == c.sha256(o.body) <==> o.etag == e
  {
    ExecKeepsInv(c, prefix, w, events);
  }

  /** What a sequential run does with one fetched body is one upload and one insertion of a process here. */
  lemma KeepIsUploadThenInsert(c: ChatCodec, prefix: string, outside: ChatSync.World, w: World, who: nat, p: Progress,
                               s: Summary, body: Json, pass: Pass, k: int)
    requires w.At(who).Working? && w.At(who).acked == [] && w.At(who).index == p.index && w.store == p.store
    requires outside.put(pass, k).NoFault?
    ensures var upload := Upload(s, body, outside.nonce(pass, k), outside.clock(pass, k), NoFault);
            var w' := Step(c, prefix, Step(c, prefix, w, Act(who, upload)), Act(who, Insert(0)));
            var q := Keep(c, prefix, outside, p, s, body, pass, k);
            w'.store == q.store && w'.At(who).Working? && w'.At(who).index == q.index && w'.At(who).acked == []
  {
    var upload := Upload(s, body, outside.nonce(pass, k), outside.clock(pass, k), NoFault);
    var entry := EntryFor(c, prefix, s, body, outside.nonce(pass, k), outside.clock(pass, k));
    assert Step(c, prefix, w, Act(who, upload)).At(who).acked == [Ack(s.id, entry)];
  }

  /** Loading, with nothing lost: the stored index under its etag, or the empty one if there is none. */
  lemma LoadIsLoadIndex(c: ChatCodec, prefix: string, w: World, who: nat)
    requires w.At(who).Idle?
    ensures var w' := Step(c, prefix, Step(c, prefix, w, Act(who, HeadIndex(false))), Act(who, GetIndex(false)));
            var key := IndexKey(prefix);
            && w'.store == w.store && w'.written == w.written && w'.saves == w.saves
            && w'.At(who) == if key !in w.store.objects then Working(map[], None, map[], [], {})
                             else match c.decodeIndex(w.store.objects[key].body)
                                  case None => Stopped
                                  case Some(index) => Working(index, Some(w.store.objects[key].etag), index, [], {})
  {
  }

  /** Without an answer a load ends the process, and an upload leaves nothing to insert. */
  lemma UnansweredRequests(c: ChatCodec, prefix: string, w: World, who: nat, a: Action)
    requires a.Upload? && !a.fault.NoFault?
    ensures w.At(who).Idle? ==> Step(c, prefix, w, Act(who, HeadIndex(true))).At(who) == Stopped
    ensures w.At(who).IndexSeen? ==> Step(c, prefix, w, Act(who, GetIndex(true))).At(who) == Stopped
    ensures Step(c, prefix, w, Act(who, a)).At(who) == w.At(who)
  {
  }

  /** Saving: the process stops, and its index is stored exactly if the index is under the etag it was loaded under. */
  lemma SaveIsSaveIndex(c: ChatCodec, prefix: string, w: World, who: nat, savedAt: int, nonce: nat)
    requires w.At(who).Working?
    ensures var p := w.At(who);
            var w' := Step(c, prefix, w, Act(who, Save(savedAt, nonce, NoFault)));
            var key := IndexKey(prefix);
            var current := if key in w.store.objects then Some(w.store.objects[key].etag) else None;
            && w'.At(who) == Stopped
            && (if current == p.etag
                then w'.store == w.store.Write(key, c.encodeIndex(p.index, savedAt, nonce))
                     && w'.saves == w.saves + [Saved(p.index, p.mine)]
                else w'.store == w.store && w'.saves == w.saves)
  {
  }

  // ---------------------------------------------------------------- the hash may lag

  lemma ExecSnoc(c: ChatCodec, prefix: string, w: World, es: seq<Event>, e: Event)
    ensures Exec(c, prefix, w, es + [e]) == Step(c, prefix, Exec(c, prefix, w, es), e)
  {
  }

  function Put(s: Summary, body: Json, nonce: nat): Action {
    Upload(s, body, nonce, 0, NoFault)
  }

  /** A first run stores a conversation and saves the index. */
  function FirstRun(s: Summary, body: Json): seq<Event> {
    [] + [Act(0, HeadIndex(false))] + [Act(0, Put(s, body, 0))] + [Act(0, Insert(0))] + [Act(0, Save(0, 0, NoFault))]
  }

  /** A second run loads that index, stores a new body, and stops before it saves. */
  function AbortedRun(s: Summary, body: Json, newer: Json): seq<Event> {
    FirstRun(s, body) + [Act(1, HeadIndex(false))] + [Act(1, GetIndex(false))] + [Act(1, Put(s, newer, 1))]
  }

  function EmptyWorld(): World {
    World.World(Store(map[], 0), map[], map[], [])
  }

  /** Process 0 alone is at work on a first index, with this copy of it and these uploads to insert. */
  ghost predicate Ready(prefix: string, w: World, index: Index, acked: seq<Ack>) {
    && w.procs.Keys == {0} && w.procs[0].Working? && w.procs[0].etag == None
    && w.procs[0].index == index && w.procs[0].acked == acked
    && IndexKey(prefix) !in w.store.objects
  }

  lemma FirstLoad(c: ChatCodec, prefix: string)
    ensures Ready(prefix, Step(c, prefix, EmptyWorld(), Act(0, HeadIndex(false))), map[], [])
  {
  }

  lemma FirstUpload(c: ChatCodec, prefix: string, w: World, s: Summary, body: Json)
    requires Ready(prefix, w, map[], [])
    ensures Ready(prefix, Step(c, prefix, w, Act(0, Put(s, body, 0))), map[],
                  [Ack(s.id, EntryFor(c, prefix, s, body, 0, 0))])
  {
    ConvKeysAreOwn(prefix);
  }

  lemma FirstInsert(c: ChatCodec, prefix: string, w: World, ack: Ack)
    requires Ready(prefix, w, map[], [ack])
    ensures Ready(prefix, Step(c, prefix, w, Act(0, Insert(0))), map[ack.id := ack.entry], [])
  {
  }

  lemma FirstSave(c: ChatCodec, prefix: string, w: World, index: Index)
    requires c.Lawful() && Ready(prefix, w, index, [])
    ensures var w' := Step(c, prefix, w, Act(0, Save(0, 0, NoFault)));
            w'.procs.Keys == {0} && Durable(c, prefix, w'.store) == Some(index) && IndexKey(prefix) in w'.store.objects
  {
  }

  lemma FirstRunSteps(c: ChatCodec, prefix: string, w: World, s: Summary, body: Json)
    ensures Exec(c, prefix, w, FirstRun(s, body))
            == Step(c, prefix,
                    Step(c, prefix,
                         Step(c, prefix, Step(c, prefix, w, Act(0, HeadIndex(false))), Act(0, Put(s, body, 0))),
                         Act(0, Insert(0))),
                    Act(0, Save(0, 0, NoFault)))
  {
    var e1, e2, e3, e4 := Act(0, HeadIndex(false)), Act(0, Put(s, body, 0)), Act(0, Insert(0)),
      Act(0, Save(0, 0, NoFault));
    ExecSnoc(c, prefix, w, [], e1);
    ExecSnoc(c, prefix, w, [] + [e1], e2);
    ExecSnoc(c, prefix, w, [] + [e1] + [e2], e3);
    ExecSnoc(c, prefix, w, [] + [e1] + [e2] + [e3], e4);
  }

  lemma FirstRunSaves(c: ChatCodec, prefix: string, s: Summary, body: Json)
    requires c.Lawful()
    ensures var w := Exec(c, prefix, EmptyWorld(), FirstRun(s, body));
            && w.procs.Keys == {0}
            && Durable(c, prefix, w.store) == Some(map[s.id := EntryFor(c, prefix, s, body, 0, 0)])
            && IndexKey(prefix) in w.store.objects
  {
    var entry := EntryFor(c, prefix, s, body, 0, 0);
    FirstRunSteps(c, prefix, EmptyWorld(), s, body);
    FirstLoad(c, prefix);
    var w1 := Step(c, prefix, EmptyWorld(), Act(0, HeadIndex(false)));
    FirstUpload(c, prefix, w1, s, body);
    var w2 := Step(c, prefix, w1, Act(0, Put(s, body, 0)));
    FirstInsert(c, prefix, w2, Ack(s.id, entry));
    FirstSave(c, prefix, Step(c, prefix, w2, Act(0, Insert(0))), map[s.id := entry]);
  }

  lemma SecondLoad(c: ChatCodec, prefix: string, w: World)
    requires w.procs.Keys == {0} && Durable(c, prefix, w.store).Some? && IndexKey(prefix) in w.store.objects
    ensures var w' := Step(c, prefix, Step(c, prefix, w, Act(1, HeadIndex(false))), Act(1, GetIndex(false)));
            w'.store == w.store && w'.At(1).Working?
  {
  }

  lemma SecondUpload(c: ChatCodec, prefix: string, w: World, s: Summary, body: Json)
    requires w.At(1).Working? && IndexKey(prefix) in w.store.objects
    ensures var w' := Step(c, prefix, w, Act(1, Put(s, body, 1)));
            && Durable(c, prefix, w'.store) == Durable(c, prefix, w.store) && ConvKey(prefix, s.id) in w'.store.objects
            && w'.store.objects[ConvKey(prefix, s.id)].body == c.encodeConversation(body, 1)
  {
    ConvKeysAreOwn(prefix);
  }

  /** So after an aborted run the index may record a hash that the stored body no longer has. */
  lemma AbortedRunLeavesStaleHash(c: ChatCodec, prefix: string, s: Summary, body: Json, newer: Json)
    requires c.Lawful() && c.sha256(c.encodeConversation(body, 0)) != c.sha256(c.encodeConversation(newer, 1))
    ensures var w := Exec(c, prefix, EmptyWorld(), AbortedRun(s, body, newer));
            var d := Durable(c, prefix, w.store);
            && Init(prefix, EmptyWorld()) && d.Some? && s.id in d.value && ConvKey(prefix, s.id) in w.store.objects
            && d.value[s.id].sha256 != c.sha256(w.store.objects[ConvKey(prefix, s.id)].body)
  {
    var es, w0 := FirstRun(s, body), EmptyWorld();
    var e1, e2, e3 := Act(1, HeadIndex(false)), Act(1, GetIndex(false)), Act(1, Put(s, newer, 1));
    FirstRunSaves(c, prefix, s, body);
    ExecSnoc(c, prefix, w0, es, e1);
    ExecSnoc(c, prefix, w0, es + [e1], e2);
    ExecSnoc(c, prefix, w0, es + [e1] + [e2], e3);
    SecondLoad(c, prefix, Exec(c, prefix, w0, es));
    SecondUpload(c, prefix, Exec(c, prefix, w0, es + [e1] + [e2]), s, newer);
  }
}
