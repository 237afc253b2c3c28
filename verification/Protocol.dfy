/**
 Runs and seeds as a transition system over one primary store and its mirrors. Each step is one store
 request or one local computation of one process, so any two processes interleave between any two
 requests; a process that stops for good is one that is never scheduled again. `leases`, `commits`,
 `stamps` and `doubtful` are observer fields: no process reads them.
 */
module Protocol {
  import opened Basics
  import opened Stores
  import opened Keys
  import opened Snapshot

  type Pid = nat

  datatype Outcome = Saved(version: string) | CanaryFailed | Errored

  datatype Job = Run(runId: string, ttl: nat, healthName: string) | Seed

  datatype Restored = Restored(pointer: LatestPointer, pointerEtag: Etag, state: StorageState)

  datatype Author = ByRun(guard: Etag, restored: Restored) | BySeed

  /** Where a process is, with exactly the values it has read so far. */
  datatype Phase =
    | Start
    | AcquireHead(lock: Lock)
    | AcquireGet(lock: Lock, seen: Etag)
    | AcquirePut(lock: Lock, expected: Option<Etag>)
    | LoadPointer(guard: Etag)
    | LoadObject(guard: Etag, pointer: LatestPointer, pointerEtag: Etag)
    | LoadSignature(guard: Etag, pointer: LatestPointer, pointerEtag: Etag, cipher: Bytes)
    | Working(guard: Etag, restored: Restored)
    | PutObject(author: Author, draft: Draft)
    | PutSignature(author: Author, draft: Draft)
    | SeedHead(draft: Draft)
    | CasPointer(author: Author, draft: Draft, expected: Option<Etag>)
    | Fan(author: Author, draft: Draft, item: nat, mirror: nat)
    | Release(guard: Etag, outcome: Outcome)
    | Health(outcome: Outcome)
    | Done(outcome: Outcome)

  datatype Process = Process(job: Job, phase: Phase)

  /**
   What the world outside the stores does at a step: the browser, the canary, the workloads, encryption randomness.
   */
  datatype Decision =
    | Proceed
    | WorkOnPrimary(op: Op)
    | WorkOnMirror(mirror: nat, key: string, body: Bytes)
    | CanaryRejects
    | GiveUp
    | Export(state: StorageState, randomness: nat)
    | Report(record: Bytes)

  datatype Choice = Choice(fault: Fault, decision: Decision)

  datatype Event = Tick(delta: int) | Act(pid: Pid, choice: Choice)

  datatype Lease = Lease(lock: Lock, owner: Pid)

  datatype Commit = Commit(draft: Draft, etag: Etag, author: Author, pid: Pid, basis: Option<Etag>)

  datatype World = World(
    primary: Store,
    mirrors: seq<Store>,
    clock: int,
    procs: map<Pid, Process>,
    leases: map<Etag, Lease>,   // every lock body ever written, by the etag it got
    commits: seq<Commit>,       // every pointer ever written, oldest first
    stamps: map<string, Pid>,   // every stamp ever taken, by the process that took it
    doubtful: set<Pid>          // processes whose pointer write took effect and lost its answer
  )

  datatype Action = Local | OnPrimary(op: Op) | OnMirror(index: nat, put: Op)

  function FanKey(d: Draft, item: nat): string {
    if item == 0 then ObjectKey(d.stamp) else if item == 1 then SignatureKey(d.stamp) else LATEST_KEY
  }

  function FanBody(c: Codec, d: Draft, item: nat): Bytes {
    if item == 0 then d.cipher else if item == 1 then d.signature else c.pointerBytes(d.pointer)
  }

  /** The request a process makes next. */
  function ActionOf(c: Codec, p: Process, mirrors: nat, d: Decision): Action {
    match p.phase
    case AcquireHead(_) => OnPrimary(Op.Head(LOCK_KEY))
    case AcquireGet(_, _) => OnPrimary(Op.Get(LOCK_KEY))
    case AcquirePut(lock, expected) => OnPrimary(PutIf(LOCK_KEY, c.lockBytes(lock), expected))
    case LoadPointer(_) => OnPrimary(Op.Get(LATEST_KEY))
    case LoadObject(_, pointer, _) => OnPrimary(Op.Get(pointer.objectKey))
    case LoadSignature(_, pointer, _, _) => OnPrimary(Op.Get(pointer.signatureKey))
    case Working(_, _) =>
      if d.WorkOnPrimary? && IsWorkloadKey(d.op.key) then OnPrimary(d.op)
      else if d.WorkOnMirror? && d.mirror < mirrors && IsWorkloadKey(d.key)
      then OnMirror(d.mirror, Op.Put(d.key, d.body))
      else Local
    case PutObject(_, draft) => OnPrimary(Op.Put(ObjectKey(draft.stamp), draft.cipher))
    case PutSignature(_, draft) => OnPrimary(Op.Put(SignatureKey(draft.stamp), draft.signature))
    case SeedHead(_) => OnPrimary(Op.Head(LATEST_KEY))
    case CasPointer(_, draft, expected) => OnPrimary(PutIf(LATEST_KEY, c.pointerBytes(draft.pointer), expected))
    case Fan(_, draft, item, mirror) =>
      if item < 3 && mirror < mirrors
      then OnMirror(mirror, Op.Put(FanKey(draft, item), FanBody(c, draft, item))) else Local
    case Release(guard, _) => OnPrimary(DeleteIf(LOCK_KEY, guard))
    case Health(_) =>
      OnPrimary(Op.Put(HealthKey(if p.job.Run? then p.job.healthName else ""), if d.Report? then d.record else []))
    case _ => Local
  }

  /** The way out of a failed step: a run still releases its lock, a seed just ends. */
  function Abandon(author: Author): Phase {
    match author
    case ByRun(guard, _) => Release(guard, Errored)
    case BySeed => Done(Errored)
  }

  function AfterWork(c: Codec, guard: Etag, r: Restored, d: Decision, clock: int): Phase {
    match d
    case CanaryRejects => Release(guard, CanaryFailed)
    case GiveUp => Release(guard, Errored)
    case Export(state, randomness) =>
      var draft := MakeDraft(c, state, randomness, clock);
      if state.cookies == [] || !StrictlyNewer(r.pointer, draft.pointer) then Release(guard, Errored)
      else PutObject(ByRun(guard, r), draft)
    case _ => Working(guard, r)
  }

  function AfterLogin(c: Codec, d: Decision, clock: int): Phase {
    match d
    case GiveUp => Done(Errored)
    case Export(state, randomness) =>
      if state.cookies == [] then Done(Errored) else PutObject(BySeed, MakeDraft(c, state, randomness, clock))
    case _ => Start
  }

  /** Where a process goes once its request has been answered. */
  function Resume(c: Codec, p: Process, mirrors: nat, reply: Reply, d: Decision, clock: int): Phase {
    match p.phase
    case Start =>
      if p.job.Seed? then AfterLogin(c, d, clock)
      else AcquireHead(Lock(p.job.runId, clock, clock + p.job.ttl))
    case AcquireHead(lock) =>
      (match reply
       case HeadIs(Some(etag)) => AcquireGet(lock, etag)
       case HeadIs(None) => AcquirePut(lock, None)
       case _ => Done(Errored))
    case AcquireGet(lock, seen) =>
      // the etag that `get` returns is not looked at
      if reply.Found? && c.parseLock(reply.body).Some? && c.parseLock(reply.body).value.expiresAt <= lock.createdAt
      then AcquirePut(lock, Some(seen)) else Done(Errored)
    case AcquirePut(_, _) =>
      if reply.Written? then LoadPointer(reply.etag) else Done(Errored)
    case LoadPointer(guard) =>
      if reply.Found? && c.parsePointer(reply.body).Some?
      then LoadObject(guard, c.parsePointer(reply.body).value, reply.etag) else Release(guard, Errored)
    case LoadObject(guard, pointer, etag) =>
      if reply.Found? && DigestMatches(c, pointer.sha256, reply.body)
      then LoadSignature(guard, pointer, etag, reply.body) else Release(guard, Errored)
    case LoadSignature(guard, pointer, etag, cipher) =>
      if reply.Found? && SignatureOk(c, cipher, reply.body) && Open(c, cipher).Some?
      then Working(guard, Restored(pointer, etag, Open(c, cipher).value)) else Release(guard, Errored)
    case Working(guard, restored) => AfterWork(c, guard, restored, d, clock)
    case PutObject(author, draft) =>
      if reply.Written? then PutSignature(author, draft) else Abandon(author)
    case PutSignature(author, draft) =>
      if !reply.Written? then Abandon(author)
      else if author.BySeed? then SeedHead(draft)
      else CasPointer(author, draft, Some(author.restored.pointerEtag))
    case SeedHead(draft) =>
      if reply.HeadIs? then CasPointer(BySeed, draft, reply.current) else Done(Errored)
    case CasPointer(author, draft, _) =>
      if reply.Written? then Fan(author, draft, 0, 0) else Abandon(author)
    case Fan(author, draft, item, mirror) =>
      if item >= 3 then
        (if author.BySeed? then Done(Saved(draft.stamp)) else Release(author.guard, Saved(draft.stamp)))
      else if mirror < mirrors then Fan(author, draft, item, mirror + 1)
      else Fan(author, draft, item + 1, 0)
    case Release(_, outcome) => Health(outcome)
    case Health(outcome) => Done(outcome)
    case Done(outcome) => Done(outcome)
  }

  function ActLocally(c: Codec, w: World, pid: Pid, ch: Choice): World
    requires pid in w.procs
  {
    var p := w.procs[pid];
    var next := Resume(c, p, |w.mirrors|, Failed, ch.decision, w.clock);
    w.(procs := w.procs[pid := p.(phase := next)],
       stamps := if next.PutObject? then w.stamps[next.draft.stamp := pid] else w.stamps)
  }

  function ActOnPrimary(c: Codec, w: World, pid: Pid, op: Op, ch: Choice): World
    requires pid in w.procs
  {
    var p := w.procs[pid];
    var (s, reply) := Perform(w.primary, op, ch.fault);
    var wrote := s.counter > w.primary.counter;
    w.(primary := s,
       procs := w.procs[pid := p.(phase := Resume(c, p, |w.mirrors|, reply, ch.decision, w.clock))],
       leases := if wrote && p.phase.AcquirePut? then w.leases[s.counter := Lease(p.phase.lock, pid)] else w.leases,
       commits := if wrote && p.phase.CasPointer?
                  then w.commits + [Commit(p.phase.draft, s.counter, p.phase.author, pid, p.phase.expected)]
                  else w.commits,
       doubtful := if wrote && p.phase.CasPointer? && ch.fault.LostReply? then w.doubtful + {pid} else w.doubtful)
  }

  function ActOnMirror(c: Codec, w: World, pid: Pid, index: nat, put: Op, ch: Choice): World
    requires pid in w.procs && index < |w.mirrors|
  {
    var p := w.procs[pid];
    w.(mirrors := w.mirrors[index := Perform(w.mirrors[index], put, ch.fault).0],
       procs := w.procs[pid := p.(phase := Resume(c, p, |w.mirrors|, Failed, ch.decision, w.clock))])
  }

  function Step(c: Codec, w: World, e: Event): World {
    match e
    case Tick(delta) => w.(clock := w.clock + delta)
    case Act(pid, ch) =>
      if pid !in w.procs then w
      else
        match ActionOf(c, w.procs[pid], |w.mirrors|, ch.decision)
        case Local => ActLocally(c, w, pid, ch)
        case OnPrimary(op) => ActOnPrimary(c, w, pid, op, ch)
        case OnMirror(index, put) => if index < |w.mirrors| then ActOnMirror(c, w, pid, index, put, ch) else w
  }

  /** A process makes its next step, and nothing goes wrong. */
  function Go(pid: Pid): Event {
    Act(pid, Choice(NoFault, Proceed))
  }

  function Exec(c: Codec, w: World, es: seq<Event>): World {
    if es == [] then w else Step(c, Exec(c, w, es[..|es| - 1]), Last(es))
  }

  /** Nothing has happened yet: the stores hold workload objects at most. */
  ghost predicate Init(w: World) {
    && w.primary.Valid()
    && (forall k :: k in w.primary.objects ==> IsWorkloadKey(k))
    && (forall m, k :: 0 <= m < |w.mirrors| && k in w.mirrors[m].objects ==> IsWorkloadKey(k))
    && (forall p :: p in w.procs ==> w.procs[p].phase == Start)
    && w.leases == map[] && w.commits == [] && w.stamps == map[] && w.doubtful == {}
  }

  /** The hypothesis of one nondecreasing clock; only the lease lock needs it. */
  ghost predicate ClockRunsForward(es: seq<Event>) {
    forall i :: 0 <= i < |es| && es[i].Tick? ==> es[i].delta >= 0
  }

  /**
   The hypothesis that snapshot keys are fresh: a step that takes a one-second stamp takes one that no
   process has taken before.
   */
  ghost predicate TakesFreshStamp(c: Codec, w: World, e: Event) {
    e.Act? && e.pid in w.procs && ActionOf(c, w.procs[e.pid], |w.mirrors|, e.choice.decision).Local? ==>
      var next := Resume(c, w.procs[e.pid], |w.mirrors|, Failed, e.choice.decision, w.clock);
      next.PutObject? ==> next.draft.stamp !in w.stamps
  }

  ghost predicate FreshStamps(c: Codec, w: World, es: seq<Event>) {
    es != [] ==>
      FreshStamps(c, w, es[..|es| - 1]) && TakesFreshStamp(c, Exec(c, w, es[..|es| - 1]), Last(es))
  }

  /** The lock etag a process would release: its acquired and unreleased guard. */
  function Held(ph: Phase): Option<Etag> {
    match ph
    case LoadPointer(guard) => Some(guard)
    case LoadObject(guard, _, _) => Some(guard)
    case LoadSignature(guard, _, _, _) => Some(guard)
    case Working(guard, _) => Some(guard)
    case PutObject(ByRun(guard, _), _) => Some(guard)
    case PutSignature(ByRun(guard, _), _) => Some(guard)
    case CasPointer(ByRun(guard, _), _, _) => Some(guard)
    case Fan(ByRun(guard, _), _, _, _) => Some(guard)
    case Release(guard, _) => Some(guard)
    case _ => None
  }
}
