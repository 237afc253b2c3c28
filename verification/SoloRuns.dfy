/**
 The interleaved protocol and the sequential commands are the same code: stepped on its own and without
 faults, a process of the protocol does what the methods of `RunCommand` do.
 */
module SoloRuns {
  import opened Basics
  import opened Stores
  import opened Keys
  import opened Snapshot
  import opened Protocol
  import opened RunCommand
  import opened LockSafety

  /** The world after `n` further steps of one process. */
  function Again(c: Codec, w: World, pid: Pid, n: nat): (w': World)
    ensures w'.procs.Keys == w.procs.Keys
    decreases n
  {
    if n == 0 then w else Again(c, Step(c, w, Go(pid)), pid, n - 1)
  }

  /** The lock object as `acquire` finds it: none, or a readable one that expired by the time of its own lock. */
  ghost predicate Takeable(c: Codec, s: Store, lock: Lock) {
    LOCK_KEY in s.objects ==>
      var found := c.parseLock(s.objects[LOCK_KEY].body);
      found.Some? && found.value.expiresAt <= lock.createdAt
  }

  lemma AcquireOpens(c: Codec, w: World, pid: Pid, lock: Lock)
    requires pid in w.procs && w.procs[pid].phase == AcquireHead(lock)
    ensures var w' := Step(c, w, Go(pid));
            && w'.primary == w.primary && w'.procs.Keys == w.procs.Keys && w'.leases == w.leases
            && w'.procs[pid].phase == if LOCK_KEY in w.primary.objects
                                      then AcquireGet(lock, w.primary.objects[LOCK_KEY].etag)
                                      else AcquirePut(lock, None)
  {
  }

  lemma AcquireJudges(c: Codec, w: World, pid: Pid, lock: Lock)
    requires pid in w.procs && LOCK_KEY in w.primary.objects
    requires w.procs[pid].phase == AcquireGet(lock, w.primary.objects[LOCK_KEY].etag)
    ensures var w' := Step(c, w, Go(pid));
            && w'.primary == w.primary && w'.procs.Keys == w.procs.Keys && w'.leases == w.leases
            && w'.procs[pid].phase == if Takeable(c, w.primary, lock)
                                      then AcquirePut(lock, w.primary.EtagAt(LOCK_KEY)) else Done(Errored)
  {
  }

  lemma AcquireWrites(c: Codec, w: World, pid: Pid, lock: Lock)
    requires pid in w.procs && w.procs[pid].phase == AcquirePut(lock, w.primary.EtagAt(LOCK_KEY))
    ensures Acquired(c, w, Step(c, w, Go(pid)), pid, lock, true)
  {
  }

  /** What `acquire` leaves behind: its own lock under the guard's etag, or nothing changed and an error. */
  ghost predicate Acquired(c: Codec, w: World, w': World, pid: Pid, lock: Lock, taken: bool) {
    pid in w'.procs &&
    var etag := w.primary.counter + 1;
    if taken
    then w'.primary == Store(w.primary.objects[LOCK_KEY := Object(c.lockBytes(lock), etag)], etag)
      && w'.procs[pid].phase == LoadPointer(etag) && w'.leases == w.leases[etag := Lease(lock, pid)]
    else w'.primary == w.primary && w'.procs[pid].phase == Done(Errored) && w'.leases == w.leases
  }

  lemma AcquireExisting(c: Codec, w: World, pid: Pid, lock: Lock)
    requires pid in w.procs && LOCK_KEY in w.primary.objects
    requires w.procs[pid].phase == AcquireGet(lock, w.primary.objects[LOCK_KEY].etag)
    ensures Acquired(c, w, Step(c, Step(c, w, Go(pid)), Go(pid)), pid, lock, Takeable(c, w.primary, lock))
  {
    var w1 := Step(c, w, Go(pid));
    AcquireJudges(c, w, pid, lock);
    if Takeable(c, w.primary, lock) {
      AcquireWrites(c, w1, pid, lock);
    } else {
      DoneStays(c, w1, pid);
    }
  }

  lemma DoneStays(c: Codec, w: World, pid: Pid)
    requires pid in w.procs && w.procs[pid].phase.Done?
    ensures var w' := Step(c, w, Go(pid));
            && w'.primary == w.primary && w'.procs.Keys == w.procs.Keys && w'.leases == w.leases
            && w'.procs[pid].phase == w.procs[pid].phase
  {
  }

  /**
   Undisturbed, the protocol's steps through `acquire` are what the method does: a process that asks for the lock gets
   it if and only if there is none or a readable one that has expired by the time the process started.
   */
  lemma SoloAcquire(c: Codec, w: World, pid: Pid, lock: Lock)
    requires pid in w.procs && w.procs[pid].phase == AcquireHead(lock)
    ensures var found := LOCK_KEY in w.primary.objects;
            var parsed := if found then c.parseLock(w.primary.objects[LOCK_KEY].body) else None;
            Acquired(c, w, Again(c, w, pid, if found then 3 else 2), pid, lock,
                     !found || (parsed.Some? && parsed.value.expiresAt <= lock.createdAt))
  {
    if LOCK_KEY in w.primary.objects {
      AcquireFound(c, w, pid, lock);
    } else {
      AcquireAbsent(c, w, pid, lock);
    }
  }

  lemma AcquireFound(c: Codec, w: World, pid: Pid, lock: Lock)
    requires pid in w.procs && w.procs[pid].phase == AcquireHead(lock) && LOCK_KEY in w.primary.objects
    ensures Acquired(c, w, Again(c, w, pid, 3), pid, lock, Takeable(c, w.primary, lock))
  {
    var w1 := Step(c, w, Go(pid));
    AcquireOpens(c, w, pid, lock);
    AcquireExisting(c, w1, pid, lock);
    AgainUnfolds(c, w, pid);
    AcquiredFrom(c, w, w1, Step(c, Step(c, w1, Go(pid)), Go(pid)), pid, lock, Takeable(c, w.primary, lock));
  }

  lemma AcquireAbsent(c: Codec, w: World, pid: Pid, lock: Lock)
    requires pid in w.procs && w.procs[pid].phase == AcquireHead(lock) && LOCK_KEY !in w.primary.objects
    ensures Acquired(c, w, Again(c, w, pid, 2), pid, lock, true)
  {
    var w1 := Step(c, w, Go(pid));
    AcquireOpens(c, w, pid, lock);
    AcquireWrites(c, w1, pid, lock);
    AgainUnfolds(c, w, pid);
    AcquiredFrom(c, w, w1, Step(c, w1, Go(pid)), pid, lock, true);
  }

  lemma AcquiredFrom(c: Codec, w: World, w1: World, w': World, pid: Pid, lock: Lock, taken: bool)
    requires w1.primary == w.primary && w1.leases == w.leases && Acquired(c, w1, w', pid, lock, taken)
    ensures Acquired(c, w, w', pid, lock, taken)
  {
  }

  /** A run takes its lock's times from the clock it starts at. */
  lemma SoloStart(c: Codec, w: World, pid: Pid)
    requires pid in w.procs && w.procs[pid].phase.Start? && w.procs[pid].job.Run?
    ensures var job := w.procs[pid].job;
            var w' := Step(c, w, Go(pid));
            && w'.primary == w.primary && w'.procs.Keys == w.procs.Keys
            && w'.procs[pid].phase == AcquireHead(Lock(job.runId, w.clock, w.clock + job.ttl))
  {
  }

  lemma LockObjectStays(c: Codec, w: World, pid: Pid, op: Op, ch: Choice)
    requires LockObjectOk(c, w) && pid in w.procs
    requires ActionOf(c, w.procs[pid], |w.mirrors|, ch.decision) == OnPrimary(op)
    ensures LockObjectOk(c, ActOnPrimary(c, w, pid, op, ch))
  {
    var p := w.procs[pid];
    ApplyKeepsValid(w.primary, op);
    if p.phase.AcquirePut? {
      AcquirePutWrites(c, w, pid, op, ch);
    } else if p.phase.Release? {
      assert SameAt(w.primary, Apply(w.primary, op).0, LOCK_KEY) || LOCK_KEY !in Apply(w.primary, op).0.objects;
    } else {
      LeavesLockAlone(c, p, |w.mirrors|, ch.decision, w.primary);
    }
  }

  lemma AcquirePutWrites(c: Codec, w: World, pid: Pid, op: Op, ch: Choice)
    requires LockObjectOk(c, w) && pid in w.procs && w.procs[pid].phase.AcquirePut?
    requires op == PutIf(LOCK_KEY, c.lockBytes(w.procs[pid].phase.lock), w.procs[pid].phase.expected)
    ensures LockObjectOk(c, ActOnPrimary(c, w, pid, op, ch))
  {
  }

  /** The lock object is always one that some process wrote, under the etag that write got; no clock is needed. */
  lemma {:induction false} LockObjectIsALease(c: Codec, w0: World, es: seq<Event>)
    requires Init(w0)
    ensures LockObjectOk(c, Exec(c, w0, es))
  {
    if es == [] {
      assert forall k :: k in w0.primary.objects ==> IsWorkloadKey(k);
      WorkloadLockKey();
    } else {
      var before := es[..|es| - 1];
      LockObjectIsALease(c, w0, before);
      var w, e := Exec(c, w0, before), Last(es);
      if e.Act? && e.pid in w.procs {
        match ActionOf(c, w.procs[e.pid], |w.mirrors|, e.choice.decision) {
          case OnPrimary(op) => LockObjectStays(c, w, e.pid, op, e.choice);
          case _ =>
        }
      }
    }
  }

  lemma WorkloadLockKey()
    ensures !IsWorkloadKey(LOCK_KEY)
  {
    if IsWorkloadKey(LOCK_KEY) {
      WorkloadKeysAreSeparate(LOCK_KEY, "Z", "");
    }
  }

  /**
   Leases decide. In every reachable state, whatever the clock has done, a process that asks for the lock and is not
   disturbed ends up holding a guard if and only if there is no lock object or the lease it stands for ends no later
   than the process's own lock was made. The guard is then the etag of its own lock.
   */
  lemma LeaseDecides(c: Codec, w0: World, es: seq<Event>, pid: Pid, lock: Lock)
    requires c.Lawful() && Init(w0)
    requires var w := Exec(c, w0, es); pid in w.procs && w.procs[pid].phase == AcquireHead(lock)
    ensures var w := Exec(c, w0, es);
            var held := w.primary.EtagAt(LOCK_KEY);
            && (held.Some? ==> held.value in w.leases)
            && var w' := Again(c, w, pid, if held.Some? then 3 else 2);
               && pid in w'.procs
               && (Held(w'.procs[pid].phase).Some?
                   <==> (held.Some? ==> w.leases[held.value].lock.expiresAt <= lock.createdAt))
               && (Held(w'.procs[pid].phase).Some? ==>
                     var guard := Held(w'.procs[pid].phase).value;
                     && w'.primary.EtagAt(LOCK_KEY) == Some(guard) && guard > w.primary.counter
                     && guard in w'.leases && w'.leases[guard] == Lease(lock, pid))
               && (Held(w'.procs[pid].phase).None? ==> w'.primary == w.primary)
  {
    var w := Exec(c, w0, es);
    LockObjectIsALease(c, w0, es);
    SoloAcquire(c, w, pid, lock);
    if LOCK_KEY in w.primary.objects {
      var lease := w.leases[w.primary.objects[LOCK_KEY].etag].lock;
      assert c.parseLock(c.lockBytes(lease)) == Some(lease);
    }
  }

  lemma AgainUnfolds(c: Codec, w: World, pid: Pid)
    ensures Again(c, w, pid, 2) == Step(c, Step(c, w, Go(pid)), Go(pid))
    ensures Again(c, w, pid, 3) == Step(c, Step(c, Step(c, w, Go(pid)), Go(pid)), Go(pid))
    ensures Again(c, w, pid, 4) == Step(c, Again(c, w, pid, 3), Go(pid))
  {
  }

  /** One read of a restore, answered. */
  lemma ReadStep(c: Codec, w: World, pid: Pid)
    requires pid in w.procs
    requires var ph := w.procs[pid].phase; ph.LoadPointer? || ph.LoadObject? || ph.LoadSignature?
    ensures var w' := Step(c, w, Go(pid));
            var p := w.procs[pid];
            && w'.primary == w.primary && w'.procs.Keys == w.procs.Keys
            && w'.procs[pid].phase
               == Resume(c, p, |w.mirrors|, Apply(w.primary, ActionOf(c, p, |w.mirrors|, Proceed).op).1, Proceed,
                         w.clock)
  {
  }

  /** Undisturbed, the protocol's three reads get through exactly when `restore` does; else the run goes to release. */
  lemma SoloRestore(c: Codec, w: World, pid: Pid, guard: Etag)
    requires pid in w.procs && w.procs[pid].phase == LoadPointer(guard)
    ensures match Restorable(c, w.primary)
            case Some(r) => StandsAt(w, Again(c, w, pid, 3), pid, Working(guard, r))
            case None =>
              (exists n {:trigger Again(c, w, pid, n)} ::
                 1 <= n <= 3 && StandsAt(w, Again(c, w, pid, n), pid, Release(guard, Errored)))
  {
    AgainUnfolds(c, w, pid);
    ReadStep(c, w, pid);
    var w1 := Step(c, w, Go(pid));
    assert w1 == Again(c, w, pid, 1);
    if w1.procs[pid].phase.LoadObject? {
      SoloLoads(c, w1, pid, guard);
      var p := w1.procs[pid].phase;
      assert Again(c, w, pid, 2) == Step(c, w1, Go(pid));
    }
  }

  /** The process stands at this point, and the primary is as it was. */
  ghost predicate StandsAt(w: World, w': World, pid: Pid, phase: Phase) {
    pid in w'.procs && w'.procs[pid].phase == phase && w'.primary == w.primary
  }

  /** The reads of the snapshot and of its signature. */
  lemma SoloLoads(c: Codec, w: World, pid: Pid, guard: Etag)
    requires pid in w.procs && w.procs[pid].phase.LoadObject? && w.procs[pid].phase.guard == guard
    ensures var ph := w.procs[pid].phase;
            var w1 := Step(c, w, Go(pid));
            var w2 := Step(c, w1, Go(pid));
            match Resolve(c, w.primary, ph.pointer)
            case Some(state) => StandsAt(w, w2, pid, Working(guard, Restored(ph.pointer, ph.pointerEtag, state)))
            case None => StandsAt(w, w1, pid, Release(guard, Errored)) || StandsAt(w, w2, pid, Release(guard, Errored))
  {
    ReadStep(c, w, pid);
    var w1 := Step(c, w, Go(pid));
    if w1.procs[pid].phase.LoadSignature? {
      ReadStep(c, w1, pid);
    }
  }

  /** Undisturbed, the protocol's three writes are what `save` leaves behind. */
  lemma SoloSave(c: Codec, w: World, pid: Pid, guard: Etag, prev: Restored, d: Draft)
    requires pid in w.procs && w.procs[pid].phase == PutObject(ByRun(guard, prev), d)
    ensures var w' := Again(c, w, pid, 3);
            if w.primary.EtagAt(LATEST_KEY) == Some(prev.pointerEtag)
            then w'.primary == Publish(c, w.primary, d) && w'.procs[pid].phase == Fan(ByRun(guard, prev), d, 0, 0)
            else w'.primary == Upload(w.primary, d) && w'.procs[pid].phase == Release(guard, Errored)
  {
    UploadKeepsPointer(w.primary, d);
    var w1 := Step(c, w, Go(pid));
    assert w1.procs[pid].phase == PutSignature(ByRun(guard, prev), d);
    var w2 := Step(c, w1, Go(pid));
    assert w2.primary == Upload(w.primary, d);
    assert w2.procs[pid].phase == CasPointer(ByRun(guard, prev), d, Some(prev.pointerEtag));
    var w3 := Step(c, w2, Go(pid));
    assert Again(c, w, pid, 3) == Again(c, w1, pid, 2) == Again(c, w2, pid, 1) == w3;
  }

  /**
   Each thing the outside world can do while a run holds its session: a workload request is served and the run goes on;
   a failed canary or stage sends it to release; an exported state is saved only if it has cookies and the clock is past
   the restored pointer.
   */
  lemma SoloWork(c: Codec, w: World, pid: Pid, guard: Etag, r: Restored, d: Decision)
    requires pid in w.procs && w.procs[pid].phase == Working(guard, r)
    ensures var w' := Step(c, w, Act(pid, Choice(NoFault, d)));
            && pid in w'.procs
            && w'.procs[pid].phase
               == (match d
                   case CanaryRejects => Release(guard, CanaryFailed)
                   case GiveUp => Release(guard, Errored)
                   case Export(state, randomness) =>
                     if state.cookies != [] && w.clock > r.pointer.createdAt
                     then PutObject(ByRun(guard, r), MakeDraft(c, state, randomness, w.clock))
                     else Release(guard, Errored)
                   case _ => Working(guard, r))
            && w'.primary
               == (if d.WorkOnPrimary? && IsWorkloadKey(d.op.key) then Apply(w.primary, d.op).0 else w.primary)
            && w'.mirrors
               == (if d.WorkOnMirror? && d.mirror < |w.mirrors| && IsWorkloadKey(d.key)
                   then w.mirrors[d.mirror := w.mirrors[d.mirror].Write(d.key, d.body)] else w.mirrors)
  {
  }

  /** The end of a run: its lock goes if it is still its own, its record is written, and its outcome stands. */
  lemma SoloEnd(c: Codec, w: World, pid: Pid, guard: Etag, outcome: Outcome, record: Bytes)
    requires pid in w.procs && w.procs[pid].job.Run? && w.procs[pid].phase == Release(guard, outcome)
    ensures var w' := Step(c, Step(c, w, Go(pid)), Act(pid, Choice(NoFault, Report(record))));
            var own := w.primary.EtagAt(LOCK_KEY) == Some(guard);
            var rest := if own then w.primary.objects - {LOCK_KEY} else w.primary.objects;
            && pid in w'.procs && w'.procs[pid].phase == Done(outcome)
            && w'.primary.objects
               == rest[HealthKey(w.procs[pid].job.healthName) := Object(record, w.primary.counter + 1)]
  {
    var w1 := Step(c, w, Go(pid));
    assert w1.procs[pid].phase == Health(outcome) && w1.procs[pid].job == w.procs[pid].job;
    assert w1.primary.counter == w.primary.counter;
    assert LOCK_KEY !in w.primary.objects ==> w.primary.objects - {LOCK_KEY} == w.primary.objects;
  }

  /** Undisturbed, a seed publishes what the browser shows, unless that has no cookies. */
  lemma SoloSeed(c: Codec, w: World, pid: Pid, state: StorageState, randomness: nat)
    requires pid in w.procs && w.procs[pid] == Process(Seed, Start)
    ensures var d := MakeDraft(c, state, randomness, w.clock);
            var w1 := Step(c, w, Act(pid, Choice(NoFault, Export(state, randomness))));
            if state.cookies == [] then StandsAt(w, w1, pid, Done(Errored))
            else var w' := Again(c, w1, pid, 4);
                 && pid in w'.procs && w'.primary == Publish(c, w.primary, d)
                 && w'.procs[pid].phase == Fan(BySeed, d, 0, 0)
    ensures StandsAt(w, Step(c, w, Act(pid, Choice(NoFault, GiveUp))), pid, Done(Errored))
  {
    var d := MakeDraft(c, state, randomness, w.clock);
    var w1 := Step(c, w, Act(pid, Choice(NoFault, Export(state, randomness))));
    if state.cookies != [] {
      assert StandsAt(w, w1, pid, PutObject(BySeed, d));
      SeedUploads(c, w1, pid, d);
      var w3 := Step(c, Step(c, w1, Go(pid)), Go(pid));
      SeedPublishes(c, w3, pid, d);
      AgainUnfolds(c, w1, pid);
    }
  }

  lemma SeedUploads(c: Codec, w: World, pid: Pid, d: Draft)
    requires pid in w.procs && w.procs[pid].phase == PutObject(BySeed, d)
    ensures var w' := Step(c, Step(c, w, Go(pid)), Go(pid));
            pid in w'.procs && w'.primary == Upload(w.primary, d) && w'.procs[pid].phase == SeedHead(d)
  {
    var w1 := Step(c, w, Go(pid));
    assert w1.procs[pid].phase == PutSignature(BySeed, d);
  }

  lemma SeedPublishes(c: Codec, w: World, pid: Pid, d: Draft)
    requires pid in w.procs && w.procs[pid].phase == SeedHead(d)
    ensures var w' := Step(c, Step(c, w, Go(pid)), Go(pid));
            && pid in w'.procs && w'.primary == w.primary.Write(LATEST_KEY, c.pointerBytes(d.pointer))
            && w'.procs[pid].phase == Fan(BySeed, d, 0, 0)
  {
    var w1 := Step(c, w, Go(pid));
    assert w1.procs[pid].phase == CasPointer(BySeed, d, w.primary.EtagAt(LATEST_KEY)) && w1.primary == w.primary;
  }

  /**
   A request without an answer ends the stage it belongs to: whoever holds the lock goes to give it back, anyone else is
   done. Giving the lock back and recording the outcome are tried once, whatever becomes of them.
   */
  lemma UnansweredRequest(c: Codec, p: Process, mirrors: nat, d: Decision, clock: int)
    requires ActionOf(c, p, mirrors, d).OnPrimary? && !p.phase.Working?
    ensures Resume(c, p, mirrors, Failed, d, clock)
            == match p.phase
               case Release(_, outcome) => Health(outcome)
               case Health(outcome) => Done(outcome)
               case _ => if Held(p.phase).Some? then Release(Held(p.phase).value, Errored) else Done(Errored)
  {
  }

  // ---------------------------------------------------------------- fan-out

  /** What becomes of the fan-out requests: which ones never arrive, and which ones lose their answers. */
  datatype Weather = Weather(down: (int, int) -> bool, unheard: (int, int) -> bool)

  function FanFault(weather: Weather, mirror: int, item: int): Fault {
    if weather.down(mirror, item) then LostRequest else if weather.unheard(mirror, item) then LostReply else NoFault
  }

  /** How much of the fan-out is still to come. */
  function FanLeft(ph: Phase, mirrors: nat): nat {
    if ph.Fan? && ph.item <= 3 && ph.mirror <= mirrors then (3 - ph.item) * (mirrors + 1) + (mirrors - ph.mirror) + 1
    else 0
  }

  /** One process steps through its fan-out, in any weather. */
  function FanOut(c: Codec, w: World, pid: Pid, weather: Weather): World
    requires pid in w.procs
    decreases FanLeft(w.procs[pid].phase, |w.mirrors|)
  {
    var ph := w.procs[pid].phase;
    if FanLeft(ph, |w.mirrors|) == 0 then w
    else
      FanShrinks(c, w, pid, FanFault(weather, ph.mirror, ph.item));
      FanOut(c, FanStep(c, w, pid, FanFault(weather, ph.mirror, ph.item)), pid, weather)
  }

  function FanStep(c: Codec, w: World, pid: Pid, fault: Fault): World {
    Step(c, w, Act(pid, Choice(fault, Proceed)))
  }

  lemma FanShrinks(c: Codec, w: World, pid: Pid, fault: Fault)
    requires pid in w.procs && FanLeft(w.procs[pid].phase, |w.mirrors|) > 0
    ensures var w' := FanStep(c, w, pid, fault);
            && pid in w'.procs && |w'.mirrors| == |w.mirrors|
            && FanLeft(w'.procs[pid].phase, |w'.mirrors|) < FanLeft(w.procs[pid].phase, |w.mirrors|)
  {
  }

  /** How far the fan-out has got: mirrors before this one have this item too. */
  ghost predicate FannedSoFar(c: Codec, before: seq<Store>, now: seq<Store>, d: Draft, down: (int, int) -> bool,
                              item: nat, mirror: nat) {
    && |now| == |before|
    && forall i :: 0 <= i < |before| ==>
         now[i] == Fanned(c, before[i], d, i, down, if i < mirror then item + 1 else item)
  }

  lemma FanSends(c: Codec, w: World, pid: Pid, author: Author, d: Draft, item: nat, mirror: nat, before: seq<Store>,
                 weather: Weather)
    requires pid in w.procs && w.procs[pid].phase == Fan(author, d, item, mirror) && item < 3 && mirror < |w.mirrors|
    requires FannedSoFar(c, before, w.mirrors, d, weather.down, item, mirror)
    ensures var w' := FanStep(c, w, pid, FanFault(weather, mirror, item));
            && StandsAt(w, w', pid, Fan(author, d, item, mirror + 1))
            && FannedSoFar(c, before, w'.mirrors, d, weather.down, item, mirror + 1)
  {
    var fault := FanFault(weather, mirror, item);
    var put := Op.Put(FanKey(d, item), FanBody(c, d, item));
    var w' := FanStep(c, w, pid, fault);
    assert w'.mirrors == w.mirrors[mirror := Perform(w.mirrors[mirror], put, fault).0];
  }

  /**
   Alone, a process that has published goes through all its fan-out requests to its `Saved` end. Every mirror then has
   each item whose request arrived, heard of or not, and is otherwise as it was (`Mirrored`).
   */
  lemma SoloFan(c: Codec, w: World, pid: Pid, author: Author, d: Draft, weather: Weather)
    requires pid in w.procs && w.procs[pid].phase == Fan(author, d, 0, 0)
    ensures var w' := FanOut(c, w, pid, weather);
            && StandsAt(w, w', pid, if author.ByRun? then Release(author.guard, Saved(d.stamp))
                                    else Done(Saved(d.stamp)))
            && |w'.mirrors| == |w.mirrors|
            && forall i :: 0 <= i < |w.mirrors| ==>
                 Mirrored(w.mirrors[i], w'.mirrors[i], d.stamp, d.cipher, d.signature, c.pointerBytes(d.pointer), i,
                          weather.down)
  {
    FanGoesThrough(c, w, pid, author, d, 0, 0, w.mirrors, weather);
    var w' := FanOut(c, w, pid, weather);
    forall i | 0 <= i < |w.mirrors|
      ensures Mirrored(w.mirrors[i], w'.mirrors[i], d.stamp, d.cipher, d.signature, c.pointerBytes(d.pointer), i,
                       weather.down)
    {
      FannedHolds(c, w.mirrors[i], d, i, weather.down);
    }
  }

  lemma {:induction false} FanGoesThrough(c: Codec, w: World, pid: Pid, author: Author, d: Draft, item: nat,
                                          mirror: nat, before: seq<Store>, weather: Weather)
    requires pid in w.procs && w.procs[pid].phase == Fan(author, d, item, mirror) && item <= 3 && mirror <= |w.mirrors|
    requires FannedSoFar(c, before, w.mirrors, d, weather.down, item, mirror) && (item == 3 ==> mirror == 0)
    ensures var w' := FanOut(c, w, pid, weather);
            && StandsAt(w, w', pid, if author.ByRun? then Release(author.guard, Saved(d.stamp))
                                    else Done(Saved(d.stamp)))
            && FannedSoFar(c, before, w'.mirrors, d, weather.down, 3, 0)
    decreases FanLeft(w.procs[pid].phase, |w.mirrors|)
  {
    var fault := FanFault(weather, mirror, item);
    var w1 := FanStep(c, w, pid, fault);
    FanShrinks(c, w, pid, fault);
    if item < 3 && mirror < |w.mirrors| {
      FanSends(c, w, pid, author, d, item, mirror, before, weather);
      FanGoesThrough(c, w1, pid, author, d, item, mirror + 1, before, weather);
    } else if item < 3 {
      assert w1.mirrors == w.mirrors && StandsAt(w, w1, pid, Fan(author, d, item + 1, 0));
      FanGoesThrough(c, w1, pid, author, d, item + 1, 0, before, weather);
    }
  }
}
