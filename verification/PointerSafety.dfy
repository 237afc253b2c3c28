/**
 The pointer `latest.json`: whatever runs and seeds do and wherever they stop, a pointer that is there
 resolves to the state its writer saved, and the pointers form one chain. The lock plays no part here.
 */
module PointerSafety {
  import opened Basics
  import opened Stores
  import opened Keys
  import opened Snapshot
  import opened Protocol
  import Hex

  /** What makes a draft resolve wherever its two objects lie. */
  ghost predicate DraftOk(c: Codec, d: Draft) {
    && IsStamp(d.stamp)
    && d.pointer.objectKey == ObjectKey(d.stamp) && d.pointer.signatureKey == SignatureKey(d.stamp)
    && DigestMatches(c, d.pointer.sha256, d.cipher) && SignatureOk(c, d.cipher, d.signature)
    && Open(c, d.cipher) == Some(d.state)
  }

  lemma MadeDraftIsOk(c: Codec, state: StorageState, randomness: nat, now: int)
    requires c.Lawful()
    ensures DraftOk(c, MakeDraft(c, state, randomness, now))
  {
    var d := MakeDraft(c, state, randomness, now);
    Hex.StoredSignatureReadsBack(c.sign(d.cipher));
  }

  /** The draft of a writer that has not yet tried its pointer write. */
  function Pending(ph: Phase): Option<Draft> {
    match ph
    case PutObject(_, d) => Some(d)
    case PutSignature(_, d) => Some(d)
    case SeedHead(d) => Some(d)
    case CasPointer(_, d, _) => Some(d)
    case _ => None
  }

  /** A pointer, the etag it was read under and the state it stands for are those of one commit. */
  ghost predicate Known(commits: seq<Commit>, p: LatestPointer, etag: Etag, state: StorageState) {
    exists i :: 0 <= i < |commits| && commits[i].draft.pointer == p && commits[i].etag == etag
      && commits[i].draft.state == state
  }

  ghost predicate Read(commits: seq<Commit>, p: LatestPointer, etag: Etag, cipher: Option<Bytes>) {
    exists i :: 0 <= i < |commits| && commits[i].draft.pointer == p && commits[i].etag == etag
                && (cipher.Some? ==> commits[i].draft.cipher == cipher.value)
  }

  ghost predicate AuthorOk(commits: seq<Commit>, author: Author, d: Draft) {
    author.ByRun? ==>
      && Known(commits, author.restored.pointer, author.restored.pointerEtag, author.restored.state)
      && StrictlyNewer(author.restored.pointer, d.pointer)
  }

  ghost predicate ObjectUploaded(d: Draft, s: Store) {
    ObjectKey(d.stamp) in s.objects && s.objects[ObjectKey(d.stamp)].body == d.cipher
  }

  ghost predicate PhaseOk(c: Codec, s: Store, commits: seq<Commit>, stamps: map<string, Pid>, pid: Pid, ph: Phase) {
    && (Pending(ph).Some? ==>
          var d := Pending(ph).value;
          && DraftOk(c, d) && d.stamp in stamps && stamps[d.stamp] == pid
          && (forall i :: 0 <= i < |commits| ==> commits[i].draft.stamp != d.stamp))
    && (match ph
        case LoadObject(_, p, e) => Read(commits, p, e, None)
        case LoadSignature(_, p, e, cipher) => Read(commits, p, e, Some(cipher))
        case Working(_, r) => Known(commits, r.pointer, r.pointerEtag, r.state)
        case PutObject(author, d) => AuthorOk(commits, author, d)
        case PutSignature(author, d) => AuthorOk(commits, author, d) && ObjectUploaded(d, s)
        case SeedHead(d) => Uploaded(d, s)
        case CasPointer(author, d, expected) =>
          && AuthorOk(commits, author, d) && Uploaded(d, s)
          && (author.ByRun? ==> expected == Some(author.restored.pointerEtag))
        case Fan(_, d, _, _) => exists i :: 0 <= i < |commits| && commits[i].draft == d
        case _ => true)
  }

  /** The object at `latest.json` is the last commit; etags grow along the history. */
  ghost predicate HistoryOk(c: Codec, s: Store, commits: seq<Commit>) {
    && s.Valid()
    && (if commits == [] then LATEST_KEY !in s.objects
        else LATEST_KEY in s.objects
             && s.objects[LATEST_KEY] == Object(c.pointerBytes(Last(commits).draft.pointer), Last(commits).etag))
    && (forall i, j :: 0 <= i < j < |commits| ==> commits[i].etag < commits[j].etag)
  }

  ghost predicate SnapshotsOk(c: Codec, s: Store, commits: seq<Commit>, stamps: map<string, Pid>) {
    forall i :: 0 <= i < |commits| ==>
      && DraftOk(c, commits[i].draft) && Uploaded(commits[i].draft, s)
      && commits[i].draft.stamp in stamps && stamps[commits[i].draft.stamp] == commits[i].pid
  }

  /** Commit `i` directly succeeds the commit its writer had restored from or looked at. */
  ghost predicate LinkOk(commits: seq<Commit>, i: nat)
    requires i < |commits|
  {
    && commits[i].basis == (if i == 0 then None else Some(commits[i - 1].etag))
    && (commits[i].author.ByRun? ==>
          && i > 0
          && commits[i].author.restored
             == Restored(commits[i - 1].draft.pointer, commits[i - 1].etag, commits[i - 1].draft.state)
          && StrictlyNewer(commits[i - 1].draft.pointer, commits[i].draft.pointer))
  }

  ghost predicate ChainOk(commits: seq<Commit>) {
    && (forall i :: 0 <= i < |commits| ==> LinkOk(commits, i))
    && (forall i, j :: 0 <= i < j < |commits| ==> commits[i].draft.stamp != commits[j].draft.stamp)
  }

  ghost predicate PointerInv(c: Codec, w: World) {
    && HistoryOk(c, w.primary, w.commits)
    && SnapshotsOk(c, w.primary, w.commits, w.stamps)
    && ChainOk(w.commits)
    && (forall p :: p in w.procs ==> PhaseOk(c, w.primary, w.commits, w.stamps, p, w.procs[p].phase))
  }

  /** Requests other than a writer's own three puts leave snapshots and pointer alone. */
  lemma LeavesSnapshotsAlone(c: Codec, p: Process, mirrors: nat, d: Decision, s: Store, stamp: string)
    requires ActionOf(c, p, mirrors, d).OnPrimary? && IsStamp(stamp)
    ensures var s' := Apply(s, ActionOf(c, p, mirrors, d).op).0;
            && (!p.phase.CasPointer? ==> SameAt(s, s', LATEST_KEY))
            && (!p.phase.PutObject? || p.phase.draft.stamp != stamp ==> SameAt(s, s', ObjectKey(stamp)))
            && (!p.phase.PutSignature? || p.phase.draft.stamp != stamp ==> SameAt(s, s', SignatureKey(stamp)))
  {
    var op := ActionOf(c, p, mirrors, d).op;
    var name := if p.job.Run? then p.job.healthName else "";
    ProtocolKeysAreSeparate(stamp, stamp, name);
    if p.phase.Working? {
      WorkloadKeysAreSeparate(op.key, stamp, name);
    }
    if p.phase.PutObject? || p.phase.PutSignature? {
      ProtocolKeysAreSeparate(p.phase.draft.stamp, stamp, name);
      ProtocolKeysAreSeparate(stamp, p.phase.draft.stamp, name);
    }
  }

  /** How a step may change what other processes rely on. */
  ghost predicate PointerMove(c: Codec, w: World, w': World, pid: Pid) {
    && w.procs.Keys == w'.procs.Keys
    && (forall q :: q in w.procs && q != pid ==> w'.procs[q] == w.procs[q])
    && (w'.commits == w.commits
        || (|w'.commits| == |w.commits| + 1 && w'.commits[..|w.commits|] == w.commits
            && Last(w'.commits).draft.stamp in w.stamps && w.stamps[Last(w'.commits).draft.stamp] == pid))
    && (forall t :: t in w.stamps ==> t in w'.stamps && w'.stamps[t] == w.stamps[t])
    && (forall t {:trigger w.stamps[t]} :: t in w.stamps && w.stamps[t] != pid && IsStamp(t) ==>
          SameAt(w.primary, w'.primary, ObjectKey(t)) && SameAt(w.primary, w'.primary, SignatureKey(t)))
  }

  lemma KnowledgeIsKept(commits: seq<Commit>, commits': seq<Commit>, p: LatestPointer, etag: Etag, state: StorageState,
                        cipher: Option<Bytes>)
    requires |commits| <= |commits'| && commits'[..|commits|] == commits
    ensures Known(commits, p, etag, state) ==> Known(commits', p, etag, state)
    ensures Read(commits, p, etag, cipher) ==> Read(commits', p, etag, cipher)
  {
  }

  lemma OthersStayOk(c: Codec, w: World, w': World, pid: Pid, q: Pid)
    requires PointerMove(c, w, w', pid) && q in w.procs && q != pid
    requires PhaseOk(c, w.primary, w.commits, w.stamps, q, w.procs[q].phase)
    ensures PhaseOk(c, w'.primary, w'.commits, w'.stamps, q, w'.procs[q].phase)
  {
    var ph := w.procs[q].phase;
    assert w'.commits[..|w.commits|] == w.commits;
    forall p, e, st, ci
      ensures Known(w.commits, p, e, st) ==> Known(w'.commits, p, e, st)
      ensures Read(w.commits, p, e, ci) ==> Read(w'.commits, p, e, ci)
    {
      KnowledgeIsKept(w.commits, w'.commits, p, e, st, ci);
    }
    if Pending(ph).Some? {
      assert w.stamps[Pending(ph).value.stamp] == q;
    }
    if ph.Fan? {
      var i :| 0 <= i < |w.commits| && w.commits[i].draft == ph.draft;
      assert w'.commits[i].draft == ph.draft;
    }
  }

  lemma Conclude(c: Codec, w: World, w': World, pid: Pid)
    requires PointerInv(c, w) && PointerMove(c, w, w', pid)
    requires HistoryOk(c, w'.primary, w'.commits) && SnapshotsOk(c, w'.primary, w'.commits, w'.stamps)
              && ChainOk(w'.commits)
    requires pid in w.procs ==> PhaseOk(c, w'.primary, w'.commits, w'.stamps, pid, w'.procs[pid].phase)
    ensures PointerInv(c, w')
  {
    forall q | q in w'.procs
      ensures PhaseOk(c, w'.primary, w'.commits, w'.stamps, q, w'.procs[q].phase)
    {
      if q != pid {
        OthersStayOk(c, w, w', pid, q);
      }
    }
  }

  /** The store and the process once a request to the primary has been answered. */
  function Served(c: Codec, s: Store, p: Process, mirrors: nat, ch: Choice, clock: int): (Store, Phase)
    requires ActionOf(c, p, mirrors, ch.decision).OnPrimary?
  {
    var (s', reply) := Perform(s, ActionOf(c, p, mirrors, ch.decision).op, ch.fault);
    (s', Resume(c, p, mirrors, reply, ch.decision, clock))
  }

  predicate Writes(ph: Phase) {
    ph.PutObject? || ph.PutSignature? || ph.CasPointer?
  }

  /** Which snapshot objects a request can change: those of the writer's own draft. */
  lemma ServedFrame(c: Codec, s: Store, p: Process, mirrors: nat, ch: Choice, clock: int)
    requires ActionOf(c, p, mirrors, ch.decision).OnPrimary?
    ensures var s' := Served(c, s, p, mirrors, ch, clock).0;
            && s.counter <= s'.counter && (s.Valid() ==> s'.Valid())
            && (!p.phase.CasPointer? ==> SameAt(s, s', LATEST_KEY))
            && (forall t :: IsStamp(t) && !(Writes(p.phase) && !p.phase.CasPointer? && p.phase.draft.stamp == t) ==>
                  SameAt(s, s', ObjectKey(t)) && SameAt(s, s', SignatureKey(t)))
  {
    LeavesSnapshotsAlone(c, p, mirrors, ch.decision, s, "Z");
    forall t | IsStamp(t) && !(Writes(p.phase) && !p.phase.CasPointer? && p.phase.draft.stamp == t)
      ensures var s' := Apply(s, ActionOf(c, p, mirrors, ch.decision).op).0;
              SameAt(s, s', ObjectKey(t)) && SameAt(s, s', SignatureKey(t))
    {
      LeavesSnapshotsAlone(c, p, mirrors, ch.decision, s, t);
    }
  }

  lemma SnapshotsFrame(c: Codec, s: Store, s': Store, commits: seq<Commit>, stamps: map<string, Pid>)
    requires SnapshotsOk(c, s, commits, stamps)
    requires forall i {:trigger commits[i]} :: 0 <= i < |commits| && IsStamp(commits[i].draft.stamp) ==>
               && SameAt(s, s', ObjectKey(commits[i].draft.stamp))
                 && SameAt(s, s', SignatureKey(commits[i].draft.stamp))
    ensures SnapshotsOk(c, s', commits, stamps)
  {
  }

  /** `get latest.json` returns the last commit's pointer. */
  lemma LoadPointerReads(c: Codec, s: Store, commits: seq<Commit>)
    requires c.Lawful() && HistoryOk(c, s, commits) && LATEST_KEY in s.objects
    ensures commits != [] && c.parsePointer(s.objects[LATEST_KEY].body) == Some(Last(commits).draft.pointer)
    ensures Read(commits, Last(commits).draft.pointer, s.objects[LATEST_KEY].etag, None)
  {
  }

  /** The object a known pointer names is the ciphertext of its commit. */
  lemma LoadObjectReads(c: Codec, s: Store, commits: seq<Commit>, stamps: map<string, Pid>, p: LatestPointer,
                        etag: Etag)
    requires SnapshotsOk(c, s, commits, stamps) && Read(commits, p, etag, None)
    ensures p.objectKey in s.objects && DigestMatches(c, p.sha256, s.objects[p.objectKey].body)
    ensures Read(commits, p, etag, Some(s.objects[p.objectKey].body))
  {
  }

  /** The signature a known pointer names verifies, and the ciphertext opens to the committed state. */
  lemma LoadSignatureReads(c: Codec, s: Store, commits: seq<Commit>, stamps: map<string, Pid>, p: LatestPointer,
                           etag: Etag, cipher: Bytes)
    requires SnapshotsOk(c, s, commits, stamps) && Read(commits, p, etag, Some(cipher))
    ensures p.signatureKey in s.objects && SignatureOk(c, cipher, s.objects[p.signatureKey].body)
    ensures Open(c, cipher).Some? && Known(commits, p, etag, Open(c, cipher).value)
  {
  }

  lemma LoadStep(c: Codec, s: Store, commits: seq<Commit>, stamps: map<string, Pid>, pid: Pid, p: Process, mirrors: nat,
                 ch: Choice, clock: int)
    requires c.Lawful() && HistoryOk(c, s, commits) && SnapshotsOk(c, s, commits, stamps)
    requires PhaseOk(c, s, commits, stamps, pid, p.phase)
    requires p.phase.LoadPointer? || p.phase.LoadObject? || p.phase.LoadSignature?
    ensures PhaseOk(c, s, commits, stamps, pid, Served(c, s, p, mirrors, ch, clock).1)
  {
    match p.phase {
      case LoadPointer(_) => if LATEST_KEY in s.objects { LoadPointerReads(c, s, commits); }
      case LoadObject(_, pointer, etag) => LoadObjectReads(c, s, commits, stamps, pointer, etag);
      case LoadSignature(_, pointer, etag, cipher) => LoadSignatureReads(c, s, commits, stamps, pointer, etag, cipher);
    }
  }

  /** Outside a restore and a seed's `head`, an answered request leads to no phase that relies on the pointer. */
  lemma ResumesElsewhere(c: Codec, p: Process, mirrors: nat, reply: Reply, d: Decision, clock: int)
    requires ActionOf(c, p, mirrors, d).OnPrimary?
    requires !Writes(p.phase) && !p.phase.SeedHead?
    requires !p.phase.LoadPointer? && !p.phase.LoadObject? && !p.phase.LoadSignature?
    ensures var next := Resume(c, p, mirrors, reply, d, clock);
            || next == p.phase
            || next.AcquireGet? || next.AcquirePut? || next.LoadPointer? || next.Health? || next.Done?
  {
  }

  lemma QuietStep(c: Codec, s: Store, commits: seq<Commit>, stamps: map<string, Pid>, pid: Pid, p: Process,
                  mirrors: nat, ch: Choice, clock: int)
    requires c.Lawful() && HistoryOk(c, s, commits) && SnapshotsOk(c, s, commits, stamps)
    requires PhaseOk(c, s, commits, stamps, pid, p.phase) && !Writes(p.phase)
    requires ActionOf(c, p, mirrors, ch.decision).OnPrimary?
    ensures PhaseOk(c, Served(c, s, p, mirrors, ch, clock).0, commits, stamps, pid,
                    Served(c, s, p, mirrors, ch, clock).1)
  {
    if p.phase.LoadPointer? || p.phase.LoadObject? || p.phase.LoadSignature? {
      LoadStep(c, s, commits, stamps, pid, p, mirrors, ch, clock);
    } else if !p.phase.SeedHead? {
      ResumesElsewhere(c, p, mirrors, Perform(s, ActionOf(c, p, mirrors, ch.decision).op, ch.fault).1, ch.decision,
                       clock);
    }
  }

  /** After its own upload the writer's object, or object and signature, are in place. */
  lemma UploadStep(c: Codec, s: Store, commits: seq<Commit>, stamps: map<string, Pid>, pid: Pid, p: Process,
                   mirrors: nat, ch: Choice, clock: int)
    requires PhaseOk(c, s, commits, stamps, pid, p.phase) && (p.phase.PutObject? || p.phase.PutSignature?)
    ensures PhaseOk(c, Served(c, s, p, mirrors, ch, clock).0, commits, stamps, pid,
                    Served(c, s, p, mirrors, ch, clock).1)
  {
    ProtocolKeysAreSeparate(p.phase.draft.stamp, p.phase.draft.stamp, "");
  }

  /** Etags name commits uniquely, so a run whose pointer etag is still current restored from the last commit. */
  lemma RestoredIsLast(c: Codec, s: Store, commits: seq<Commit>, r: Restored)
    requires HistoryOk(c, s, commits) && Known(commits, r.pointer, r.pointerEtag, r.state)
    requires s.EtagAt(LATEST_KEY) == Some(r.pointerEtag)
    ensures commits != [] && r == Restored(Last(commits).draft.pointer, Last(commits).etag, Last(commits).draft.state)
  {
  }

  lemma ChainExtends(commits: seq<Commit>, x: Commit)
    requires ChainOk(commits)
    requires x.basis == if commits == [] then None else Some(Last(commits).etag)
    requires x.author.ByRun? ==>
               && commits != []
               && x.author.restored == Restored(Last(commits).draft.pointer, Last(commits).etag,
                                                Last(commits).draft.state)
               && StrictlyNewer(Last(commits).draft.pointer, x.draft.pointer)
    requires forall i :: 0 <= i < |commits| ==> commits[i].draft.stamp != x.draft.stamp
    ensures ChainOk(commits + [x])
  {
    var commits' := commits + [x];
    forall i | 0 <= i < |commits'| ensures LinkOk(commits', i) {
      if i < |commits| {
        assert LinkOk(commits, i);
      }
    }
  }

  lemma HistoryExtends(c: Codec, s: Store, commits: seq<Commit>, x: Commit)
    requires HistoryOk(c, s, commits) && x.etag == s.counter + 1
    ensures HistoryOk(c, s.Write(LATEST_KEY, c.pointerBytes(x.draft.pointer)), commits + [x])
  {
  }

  lemma SnapshotsExtend(c: Codec, s: Store, commits: seq<Commit>, stamps: map<string, Pid>, x: Commit)
    requires SnapshotsOk(c, s, commits, stamps)
    requires DraftOk(c, x.draft) && Uploaded(x.draft, s) && x.draft.stamp in stamps && stamps[x.draft.stamp] == x.pid
    ensures SnapshotsOk(c, s, commits + [x], stamps)
  {
  }

  /** If a pointer write lands, the new commit directly succeeds the one its writer knew. */
  lemma CommitLands(c: Codec, s: Store, commits: seq<Commit>, stamps: map<string, Pid>, pid: Pid, author: Author,
                    d: Draft, expected: Option<Etag>)
    requires HistoryOk(c, s, commits) && SnapshotsOk(c, s, commits, stamps) && ChainOk(commits)
    requires PhaseOk(c, s, commits, stamps, pid, CasPointer(author, d, expected)) && s.EtagAt(LATEST_KEY) == expected
    ensures var s' := s.Write(LATEST_KEY, c.pointerBytes(d.pointer));
            var commits' := commits + [Commit(d, s.counter + 1, author, pid, expected)];
            HistoryOk(c, s', commits') && SnapshotsOk(c, s', commits', stamps) && ChainOk(commits')
  {
    var s' := s.Write(LATEST_KEY, c.pointerBytes(d.pointer));
    var x := Commit(d, s.counter + 1, author, pid, expected);
    assert Pending(CasPointer(author, d, expected)) == Some(d);
    if author.ByRun? {
      RestoredIsLast(c, s, commits, author.restored);
    }
    ChainExtends(commits, x);
    HistoryExtends(c, s, commits, x);
    forall t ensures SameAt(s, s', ObjectKey(t)) && SameAt(s, s', SignatureKey(t)) {
      ProtocolKeysAreSeparate(t, t, "");
    }
    SnapshotsFrame(c, s, s', commits, stamps);
    SnapshotsExtend(c, s', commits, stamps, x);
  }

  lemma QuietMove(c: Codec, w: World, pid: Pid, op: Op, ch: Choice)
    requires c.Lawful() && PointerInv(c, w) && pid in w.procs && !w.procs[pid].phase.CasPointer?
    requires ActionOf(c, w.procs[pid], |w.mirrors|, ch.decision) == OnPrimary(op)
    ensures var w' := ActOnPrimary(c, w, pid, op, ch);
            && PointerMove(c, w, w', pid) && w'.commits == w.commits && w'.stamps == w.stamps
            && HistoryOk(c, w'.primary, w'.commits) && SnapshotsOk(c, w'.primary, w'.commits, w'.stamps)
  {
    ServedFrame(c, w.primary, w.procs[pid], |w.mirrors|, ch, w.clock);
    SnapshotsFrame(c, w.primary, ActOnPrimary(c, w, pid, op, ch).primary, w.commits, w.stamps);
  }

  lemma QuietPhase(c: Codec, w: World, pid: Pid, op: Op, ch: Choice)
    requires c.Lawful() && PointerInv(c, w) && pid in w.procs && !w.procs[pid].phase.CasPointer?
    requires ActionOf(c, w.procs[pid], |w.mirrors|, ch.decision) == OnPrimary(op)
    ensures var w' := ActOnPrimary(c, w, pid, op, ch);
            PhaseOk(c, w'.primary, w.commits, w.stamps, pid, w'.procs[pid].phase)
  {
    var p := w.procs[pid];
    if p.phase.PutObject? || p.phase.PutSignature? {
      UploadStep(c, w.primary, w.commits, w.stamps, pid, p, |w.mirrors|, ch, w.clock);
    } else {
      QuietStep(c, w.primary, w.commits, w.stamps, pid, p, |w.mirrors|, ch, w.clock);
    }
  }

  lemma QuietKeepsInv(c: Codec, w: World, pid: Pid, op: Op, ch: Choice)
    requires c.Lawful() && PointerInv(c, w) && pid in w.procs && !w.procs[pid].phase.CasPointer?
    requires ActionOf(c, w.procs[pid], |w.mirrors|, ch.decision) == OnPrimary(op)
    ensures PointerInv(c, ActOnPrimary(c, w, pid, op, ch))
  {
    QuietMove(c, w, pid, op, ch);
    QuietPhase(c, w, pid, op, ch);
    Conclude(c, w, ActOnPrimary(c, w, pid, op, ch), pid);
  }

  /** The pointer write adds at most the commit of this writer's own draft, over the pointer it expected. */
  lemma CommitRequest(c: Codec, w: World, pid: Pid, ch: Choice)
    requires pid in w.procs && w.procs[pid].phase.CasPointer?
    ensures var ph := w.procs[pid].phase;
            var w' := ActOnPrimary(c, w, pid, PutIf(LATEST_KEY, c.pointerBytes(ph.draft.pointer), ph.expected), ch);
            && w'.stamps == w.stamps
            && (w'.commits == w.commits ==> w'.primary == w.primary)
            && (w'.commits != w.commits ==>
                  && w.primary.EtagAt(LATEST_KEY) == ph.expected
                  && w'.commits == w.commits + [Commit(ph.draft, w.primary.counter + 1, ph.author, pid, ph.expected)]
                  && w'.primary == w.primary.Write(LATEST_KEY, c.pointerBytes(ph.draft.pointer)))
            && (w'.procs[pid].phase.Fan? ==> w'.commits != w.commits && w'.procs[pid].phase.draft == ph.draft)
            && (w'.procs[pid].phase.Fan? || w'.procs[pid].phase.Release? || w'.procs[pid].phase.Done?)
  {
  }

  lemma CommitMove(c: Codec, w: World, pid: Pid, ch: Choice)
    requires pid in w.procs && w.procs[pid].phase.CasPointer?
    requires w.procs[pid].phase.draft.stamp in w.stamps && w.stamps[w.procs[pid].phase.draft.stamp] == pid
    ensures var ph := w.procs[pid].phase;
            PointerMove(c, w, ActOnPrimary(c, w, pid, PutIf(LATEST_KEY, c.pointerBytes(ph.draft.pointer), ph.expected),
                                           ch), pid)
  {
    CommitRequest(c, w, pid, ch);
    ServedFrame(c, w.primary, w.procs[pid], |w.mirrors|, ch, w.clock);
  }

  lemma CommitNext(c: Codec, w: World, pid: Pid, ch: Choice)
    requires pid in w.procs && w.procs[pid].phase.CasPointer?
    ensures var ph := w.procs[pid].phase;
            var w' := ActOnPrimary(c, w, pid, PutIf(LATEST_KEY, c.pointerBytes(ph.draft.pointer), ph.expected), ch);
            PhaseOk(c, w'.primary, w'.commits, w'.stamps, pid, w'.procs[pid].phase)
  {
    var ph := w.procs[pid].phase;
    var w' := ActOnPrimary(c, w, pid, PutIf(LATEST_KEY, c.pointerBytes(ph.draft.pointer), ph.expected), ch);
    CommitRequest(c, w, pid, ch);
    if w'.procs[pid].phase.Fan? {
      assert w'.commits[|w.commits|].draft == ph.draft;
    }
  }

  lemma CommitResult(c: Codec, w: World, pid: Pid, ch: Choice)
    requires pid in w.procs && w.procs[pid].phase.CasPointer?
    requires HistoryOk(c, w.primary, w.commits) && SnapshotsOk(c, w.primary, w.commits, w.stamps) && ChainOk(w.commits)
    requires PhaseOk(c, w.primary, w.commits, w.stamps, pid, w.procs[pid].phase)
    ensures var ph := w.procs[pid].phase;
            var w' := ActOnPrimary(c, w, pid, PutIf(LATEST_KEY, c.pointerBytes(ph.draft.pointer), ph.expected), ch);
            HistoryOk(c, w'.primary, w'.commits) && SnapshotsOk(c, w'.primary, w'.commits, w'.stamps)
              && ChainOk(w'.commits)
  {
    var ph := w.procs[pid].phase;
    CommitRequest(c, w, pid, ch);
    if w.primary.EtagAt(LATEST_KEY) == ph.expected {
      CommitLands(c, w.primary, w.commits, w.stamps, pid, ph.author, ph.draft, ph.expected);
    }
  }

  lemma CommitKeepsInv(c: Codec, w: World, pid: Pid, op: Op, ch: Choice)
    requires c.Lawful() && PointerInv(c, w) && pid in w.procs && w.procs[pid].phase.CasPointer?
    requires ActionOf(c, w.procs[pid], |w.mirrors|, ch.decision) == OnPrimary(op)
    ensures PointerInv(c, ActOnPrimary(c, w, pid, op, ch))
  {
    assert Pending(w.procs[pid].phase) == Some(w.procs[pid].phase.draft);
    CommitMove(c, w, pid, ch);
    CommitNext(c, w, pid, ch);
    CommitResult(c, w, pid, ch);
    Conclude(c, w, ActOnPrimary(c, w, pid, op, ch), pid);
  }

  /** New drafts come from an exported state: a seed's, or a run's with a pointer newer than the restored one. */
  lemma NewDrafts(c: Codec, p: Process, mirrors: nat, d: Decision, clock: int)
    requires ActionOf(c, p, mirrors, d).Local? && Resume(c, p, mirrors, Failed, d, clock).PutObject?
    ensures d.Export?
    ensures var next := Resume(c, p, mirrors, Failed, d, clock);
            && next.draft == MakeDraft(c, d.state, d.randomness, clock)
            && (next.author.ByRun? ==>
                  && p.phase == Working(next.author.guard, next.author.restored)
                  && StrictlyNewer(p.phase.restored.pointer, next.draft.pointer))
  {
  }

  lemma NewDraftOk(c: Codec, w: World, pid: Pid, next: Phase)
    requires PointerInv(c, w) && pid in w.procs
    requires next.PutObject? && DraftOk(c, next.draft) && next.draft.stamp !in w.stamps
    requires next.author.ByRun? ==>
               w.procs[pid].phase == Working(next.author.guard, next.author.restored)
               && StrictlyNewer(next.author.restored.pointer, next.draft.pointer)
    ensures var stamps' := w.stamps[next.draft.stamp := pid];
            PhaseOk(c, w.primary, w.commits, stamps', pid, next) && SnapshotsOk(c, w.primary, w.commits, stamps')
  {
    assert PhaseOk(c, w.primary, w.commits, w.stamps, pid, w.procs[pid].phase);
  }

  lemma DraftKeepsInv(c: Codec, w: World, pid: Pid, ch: Choice)
    requires c.Lawful() && PointerInv(c, w) && pid in w.procs
    requires ActionOf(c, w.procs[pid], |w.mirrors|, ch.decision).Local?
    requires TakesFreshStamp(c, w, Act(pid, ch))
    requires Resume(c, w.procs[pid], |w.mirrors|, Failed, ch.decision, w.clock).PutObject?
    ensures PointerInv(c, ActLocally(c, w, pid, ch))
  {
    var next := Resume(c, w.procs[pid], |w.mirrors|, Failed, ch.decision, w.clock);
    NewDrafts(c, w.procs[pid], |w.mirrors|, ch.decision, w.clock);
    MadeDraftIsOk(c, ch.decision.state, ch.decision.randomness, w.clock);
    assert next.draft.stamp !in w.stamps;
    NewDraftOk(c, w, pid, next);
    Conclude(c, w, ActLocally(c, w, pid, ch), pid);
  }

  /** Local steps and mirror requests that make no draft move a process within what it already knows. */
  lemma IdleResume(c: Codec, p: Process, mirrors: nat, d: Decision, clock: int)
    requires !ActionOf(c, p, mirrors, d).OnPrimary? && !Resume(c, p, mirrors, Failed, d, clock).PutObject?
    ensures var next := Resume(c, p, mirrors, Failed, d, clock);
            || next == p.phase || next.AcquireHead? || next.Release? || next.Done?
            || (p.phase.Fan? && next.Fan? && next.draft == p.phase.draft)
  {
  }

  lemma IdleKeepsInv(c: Codec, w: World, w': World, pid: Pid, d: Decision)
    requires c.Lawful() && PointerInv(c, w) && pid in w.procs
    requires !ActionOf(c, w.procs[pid], |w.mirrors|, d).OnPrimary?
    requires var next := Resume(c, w.procs[pid], |w.mirrors|, Failed, d, w.clock);
             && !next.PutObject?
             && w'.procs == w.procs[pid := w.procs[pid].(phase := next)]
    requires w'.primary == w.primary && w'.commits == w.commits && w'.stamps == w.stamps
    ensures PointerInv(c, w')
  {
    IdleResume(c, w.procs[pid], |w.mirrors|, d, w.clock);
    assert PhaseOk(c, w.primary, w.commits, w.stamps, pid, w.procs[pid].phase);
    Conclude(c, w, w', pid);
  }

  lemma StepKeepsPointerInv(c: Codec, w: World, e: Event)
    requires c.Lawful() && PointerInv(c, w) && TakesFreshStamp(c, w, e)
    ensures PointerInv(c, Step(c, w, e))
  {
    if e.Act? && e.pid in w.procs {
      var p := w.procs[e.pid];
      match ActionOf(c, p, |w.mirrors|, e.choice.decision) {
        case OnPrimary(op) =>
          if p.phase.CasPointer? {
            CommitKeepsInv(c, w, e.pid, op, e.choice);
          } else {
            QuietKeepsInv(c, w, e.pid, op, e.choice);
          }
        case OnMirror(_, _) => IdleKeepsInv(c, w, Step(c, w, e), e.pid, e.choice.decision);
        case Local =>
          if Resume(c, p, |w.mirrors|, Failed, e.choice.decision, w.clock).PutObject? {
            DraftKeepsInv(c, w, e.pid, e.choice);
          } else {
            IdleKeepsInv(c, w, Step(c, w, e), e.pid, e.choice.decision);
          }
      }
    }
  }

  lemma {:induction false} PointerInvHolds(c: Codec, w: World, es: seq<Event>)
    requires c.Lawful() && Init(w) && FreshStamps(c, w, es)
    ensures PointerInv(c, Exec(c, w, es))
  {
    if es == [] {
      if LATEST_KEY in w.primary.objects {
        WorkloadKeysAreSeparate(LATEST_KEY, "Z", "");
      }
    } else {
      PointerInvHolds(c, w, es[..|es| - 1]);
      StepKeepsPointerInv(c, Exec(c, w, es[..|es| - 1]), Last(es));
    }
  }

  /**
   The pointer always resolves: in every reachable state `latest.json`, when present, is the last pointer
   committed, and following it through the store yields exactly the state its writer saved.
   */
  lemma PointerAlwaysResolves(c: Codec, w0: World, es: seq<Event>)
    requires c.Lawful() && Init(w0) && FreshStamps(c, w0, es)
    requires LATEST_KEY in Exec(c, w0, es).primary.objects
    ensures var w := Exec(c, w0, es);
            && w.commits != []
            && c.parsePointer(w.primary.objects[LATEST_KEY].body) == Some(Last(w.commits).draft.pointer)
            && Resolve(c, w.primary, Last(w.commits).draft.pointer) == Some(Last(w.commits).draft.state)
  {
    PointerInvHolds(c, w0, es);
    var w := Exec(c, w0, es);
    assert w.commits[|w.commits| - 1] == Last(w.commits);
  }

  /** Where a process goes when its request is delivered and answered. */
  function Answered(c: Codec, w: World, p: Process): Phase
    requires ActionOf(c, p, |w.mirrors|, Proceed).OnPrimary?
  {
    Served(c, w.primary, p, |w.mirrors|, Choice(NoFault, Proceed), w.clock).1
  }

  lemma RestoreAdvances(c: Codec, s: Store, commits: seq<Commit>, stamps: map<string, Pid>, pid: Pid, p: Process,
                        mirrors: nat, clock: int)
    requires c.Lawful() && HistoryOk(c, s, commits) && SnapshotsOk(c, s, commits, stamps)
    requires PhaseOk(c, s, commits, stamps, pid, p.phase)
    requires p.phase.LoadPointer? || p.phase.LoadObject? || p.phase.LoadSignature?
    ensures var next := Served(c, s, p, mirrors, Choice(NoFault, Proceed), clock).1;
            && (p.phase.LoadPointer? && commits != [] ==> next.LoadObject?)
            && (p.phase.LoadObject? ==> next.LoadSignature?)
            && (p.phase.LoadSignature? ==> next.Working?)
  {
  }

  /**
   A restore cannot be torn. Its three reads may be spread over any steps of other writers, and the pointer
   may move meanwhile; a restore that has answered all its reads holds the state of one commit, and a read
   that is answered at all finds what it expects.
   */
  lemma RestoreIsConsistent(c: Codec, w0: World, es: seq<Event>, pid: Pid)
    requires c.Lawful() && Init(w0) && FreshStamps(c, w0, es)
    requires pid in Exec(c, w0, es).procs
    ensures var w := Exec(c, w0, es);
            var p := w.procs[pid];
            && (p.phase.LoadPointer? && w.commits != [] ==> Answered(c, w, p).LoadObject?)
            && (p.phase.LoadObject? ==> Answered(c, w, p).LoadSignature?)
            && (p.phase.LoadSignature? ==> Answered(c, w, p).Working?)
            && (p.phase.Working? ==>
                  var r := p.phase.restored; Known(w.commits, r.pointer, r.pointerEtag, r.state))
  {
    PointerInvHolds(c, w0, es);
    var w := Exec(c, w0, es);
    assert PhaseOk(c, w.primary, w.commits, w.stamps, pid, w.procs[pid].phase);
    var p := w.procs[pid];
    if p.phase.LoadPointer? || p.phase.LoadObject? || p.phase.LoadSignature? {
      RestoreAdvances(c, w.primary, w.commits, w.stamps, pid, p, |w.mirrors|, w.clock);
    }
  }

  /**
   No lost updates, with or without the lock: every pointer is written over its direct predecessor, and a
   run writes only over the very pointer it restored from, with a later creation time.
   */
  lemma NoLostUpdates(c: Codec, w0: World, es: seq<Event>, i: nat)
    requires c.Lawful() && Init(w0) && FreshStamps(c, w0, es) && i < |Exec(c, w0, es).commits|
    ensures LinkOk(Exec(c, w0, es).commits, i)
  {
    PointerInvHolds(c, w0, es);
  }

  lemma {:induction false} RunsOnlyMoveForward(commits: seq<Commit>, i: nat, j: nat)
    requires ChainOk(commits) && i < j < |commits|
    requires forall k :: i < k <= j ==> commits[k].author.ByRun?
    ensures commits[i].draft.pointer.createdAt < commits[j].draft.pointer.createdAt
  {
    assert LinkOk(commits, j);
    if i < j - 1 {
      RunsOnlyMoveForward(commits, i, j - 1);
    }
  }

  /** Along any stretch of history without a seed, creation times strictly increase, whatever the clocks do. */
  lemma CreationTimesIncrease(c: Codec, w0: World, es: seq<Event>, i: nat, j: nat)
    requires c.Lawful() && Init(w0) && FreshStamps(c, w0, es)
    requires var commits := Exec(c, w0, es).commits;
             i < j < |commits| && forall k :: i < k <= j ==> commits[k].author.ByRun?
    ensures var commits := Exec(c, w0, es).commits;
            commits[i].draft.pointer.createdAt < commits[j].draft.pointer.createdAt
  {
    PointerInvHolds(c, w0, es);
    RunsOnlyMoveForward(Exec(c, w0, es).commits, i, j);
  }

  lemma {:induction false} CommitsOnlyGrow(c: Codec, w0: World, es: seq<Event>, n: nat)
    requires n <= |es|
    ensures Exec(c, w0, es[..n]).commits <= Exec(c, w0, es).commits
  {
    if n == |es| {
      assert es[..n] == es;
    } else {
      assert es[..|es| - 1][..n] == es[..n];
      CommitsOnlyGrow(c, w0, es[..|es| - 1], n);
    }
  }

  /** A snapshot that a pointer has ever named stays in place, unchanged, through every later step. */
  lemma SnapshotsAreImmutable(c: Codec, w0: World, es: seq<Event>, n: nat, i: nat)
    requires c.Lawful() && Init(w0) && FreshStamps(c, w0, es) && n <= |es|
    requires i < |Exec(c, w0, es[..n]).commits|
    ensures var past := Exec(c, w0, es[..n]);
            var now := Exec(c, w0, es);
            && i < |now.commits| && now.commits[i] == past.commits[i]
            && Uploaded(past.commits[i].draft, now.primary)
            && Resolve(c, now.primary, past.commits[i].draft.pointer) == Some(past.commits[i].draft.state)
  {
    CommitsOnlyGrow(c, w0, es, n);
    PointerInvHolds(c, w0, es);
  }

  /**
   Progress of a run at its pointer write. If nothing goes wrong with the request, it commits exactly when
   the last pointer is still the one the run restored from, however others have interleaved, and goes on to
   report success; otherwise it commits nothing and is on its way to an error.
   */
  lemma RunCommitsIffUnraced(c: Codec, w0: World, es: seq<Event>, pid: Pid)
    requires c.Lawful() && Init(w0) && FreshStamps(c, w0, es)
    requires var w := Exec(c, w0, es);
             pid in w.procs && w.procs[pid].phase.CasPointer? && w.procs[pid].phase.author.ByRun?
    ensures var w := Exec(c, w0, es);
            var ph := w.procs[pid].phase;
            var w' := Step(c, w, Go(pid));
            && pid in w'.procs && w.commits != []
            && (if Last(w.commits).etag == ph.author.restored.pointerEtag
                then |w'.commits| == |w.commits| + 1 && Last(w'.commits).draft == ph.draft
                  && Last(w'.commits).pid == pid
                     && w'.procs[pid].phase == Fan(ph.author, ph.draft, 0, 0)
                else w'.commits == w.commits && w'.procs[pid].phase == Release(ph.author.guard, Errored))
  {
    PointerInvHolds(c, w0, es);
    var w := Exec(c, w0, es);
    assert PhaseOk(c, w.primary, w.commits, w.stamps, pid, w.procs[pid].phase);
    RunCommitsFrom(c, w, pid);
  }

  lemma RunCommitsFrom(c: Codec, w: World, pid: Pid)
    requires pid in w.procs && w.procs[pid].phase.CasPointer? && w.procs[pid].phase.author.ByRun?
    requires HistoryOk(c, w.primary, w.commits) && w.commits != []
    requires w.procs[pid].phase.expected == Some(w.procs[pid].phase.author.restored.pointerEtag)
    ensures var ph := w.procs[pid].phase;
            var w' := Step(c, w, Go(pid));
            && pid in w'.procs
            && (if Last(w.commits).etag == ph.author.restored.pointerEtag
                then |w'.commits| == |w.commits| + 1 && Last(w'.commits).draft == ph.draft
                  && Last(w'.commits).pid == pid
                     && w'.procs[pid].phase == Fan(ph.author, ph.draft, 0, 0)
                else w'.commits == w.commits && w'.procs[pid].phase == Release(ph.author.guard, Errored))
  {
  }
}
