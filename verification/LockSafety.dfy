/** The lease lock: at most one unexpired guard, for any interleaving, crashes and lost answers included. */
module LockSafety {
  import opened Basics
  import opened Stores
  import opened Keys
  import opened Snapshot
  import opened Protocol

  function LockEtag(w: World): Option<Etag> {
    w.primary.EtagAt(LOCK_KEY)
  }

  /** What a process at one point of `acquire`, or holding a guard, can rely on. */
  ghost predicate PhaseOk(w: World, pid: Pid)
    requires pid in w.procs
  {
    var ph := w.procs[pid].phase;
    && (Held(ph).Some? ==>
          var g := Held(ph).value;
          && g in w.leases && w.leases[g].owner == pid
          && (LockEtag(w) == Some(g) || w.leases[g].lock.expiresAt <= w.clock))
    && (match ph
        case AcquireHead(lock) => lock.createdAt <= w.clock
        case AcquireGet(lock, seen) => lock.createdAt <= w.clock && seen <= w.primary.counter
        case AcquirePut(lock, Some(seen)) =>
          && lock.createdAt <= w.clock && seen <= w.primary.counter
          && (LockEtag(w) == Some(seen) ==>
                seen in w.leases && w.leases[seen].lock.expiresAt <= lock.createdAt)
        case AcquirePut(lock, None) => lock.createdAt <= w.clock
        case _ => true)
  }

  ghost predicate LockObjectOk(c: Codec, w: World) {
    && w.primary.Valid()
    && (LOCK_KEY in w.primary.objects ==>
          var o := w.primary.objects[LOCK_KEY];
          o.etag in w.leases && o.body == c.lockBytes(w.leases[o.etag].lock))
    && (forall e :: e in w.leases ==> e <= w.primary.counter)
  }

  ghost predicate LockInv(c: Codec, w: World) {
    && LockObjectOk(c, w)
    && (forall p :: p in w.procs ==> PhaseOk(w, p))
  }

  /**
   How one step of `pid` may change the lock object: a lock that is there stays, unless its own holder
   deletes it or it has expired; a lock that appears carries a new etag.
   */
  ghost predicate LockMove(w: World, w': World, pid: Pid) {
    && w.primary.counter <= w'.primary.counter && w.clock <= w'.clock
    && w.procs.Keys == w'.procs.Keys
    && (forall q :: q in w.procs && q != pid ==> w'.procs[q] == w.procs[q])
    && (forall e :: e in w.leases ==> e in w'.leases && w'.leases[e] == w.leases[e])
    && (LockEtag(w') != LockEtag(w) ==>
          && (LockEtag(w').Some? ==> LockEtag(w').value > w.primary.counter)
          && (LockEtag(w).Some? ==>
                var g := LockEtag(w).value;
                g in w.leases && (w.leases[g].owner == pid || w.leases[g].lock.expiresAt <= w.clock)))
  }

  lemma Conclude(c: Codec, w: World, w': World, pid: Pid)
    requires LockInv(c, w) && LockMove(w, w', pid) && LockObjectOk(c, w')
    requires pid in w.procs ==> PhaseOk(w', pid)
    ensures LockInv(c, w')
  {
  }

  lemma LockKeyIsSeparate(stamp: string, name: string, key: string)
    ensures LOCK_KEY !in {LATEST_KEY, ObjectKey(stamp), SignatureKey(stamp), HealthKey(name)}
    ensures IsWorkloadKey(key) ==> key != LOCK_KEY
  {
  }

  /** Only a write or delete of a key can change it. */
  lemma UnwrittenKeyStays(s: Store, op: Op, key: string)
    requires op.key != key || op.Head? || op.Get?
    ensures SameAt(s, Apply(s, op).0, key)
  {
  }

  /** A process that is neither taking nor releasing the lock at most reads it. */
  lemma ReadsLockAtMost(c: Codec, p: Process, mirrors: nat, d: Decision)
    requires !p.phase.AcquirePut? && !p.phase.Release?
    requires ActionOf(c, p, mirrors, d).OnPrimary?
    ensures var op := ActionOf(c, p, mirrors, d).op; op.key != LOCK_KEY || op.Head? || op.Get?
  {
    match p.phase {
      case Working(_, _) => LockKeyIsSeparate("", "", d.op.key);
      case PutObject(_, draft) => LockKeyIsSeparate(draft.stamp, "", "");
      case PutSignature(_, draft) => LockKeyIsSeparate(draft.stamp, "", "");
      case CasPointer(_, _, _) => LockKeyIsSeparate("", "", "");
      case Health(_) => LockKeyIsSeparate("", if p.job.Run? then p.job.healthName else "", "");
      case _ =>
    }
  }

  lemma LeavesLockAlone(c: Codec, p: Process, mirrors: nat, d: Decision, s: Store)
    requires !p.phase.AcquirePut? && !p.phase.Release?
    requires ActionOf(c, p, mirrors, d).OnPrimary?
    ensures var s' := Apply(s, ActionOf(c, p, mirrors, d).op).0;
            s'.EtagAt(LOCK_KEY) == s.EtagAt(LOCK_KEY) && SameAt(s, s', LOCK_KEY)
  {
    ReadsLockAtMost(c, p, mirrors, d);
    UnwrittenKeyStays(s, ActionOf(c, p, mirrors, d).op, LOCK_KEY);
  }

  lemma AcquireHeadStep(c: Codec, w: World, pid: Pid, ch: Choice)
    requires c.Lawful() && LockInv(c, w) && pid in w.procs && w.procs[pid].phase.AcquireHead?
    ensures var w' := ActOnPrimary(c, w, pid, Op.Head(LOCK_KEY), ch);
            LockMove(w, w', pid) && LockObjectOk(c, w') && PhaseOk(w', pid)
  {
    assert PhaseOk(w, pid);
  }

  /** If the lock still carries the etag `head` saw, the body `get` returned is the one under that etag. */
  lemma AcquireGetStep(c: Codec, w: World, pid: Pid, ch: Choice)
    requires c.Lawful() && LockInv(c, w) && pid in w.procs && w.procs[pid].phase.AcquireGet?
    ensures var w' := ActOnPrimary(c, w, pid, Op.Get(LOCK_KEY), ch);
            LockMove(w, w', pid) && LockObjectOk(c, w') && PhaseOk(w', pid)
  {
    assert PhaseOk(w, pid);
  }

  lemma AcquirePutMove(c: Codec, w: World, pid: Pid, ch: Choice)
    requires c.Lawful() && LockObjectOk(c, w) && pid in w.procs && w.procs[pid].phase.AcquirePut? && PhaseOk(w, pid)
    ensures var ph := w.procs[pid].phase;
            var w' := ActOnPrimary(c, w, pid, PutIf(LOCK_KEY, c.lockBytes(ph.lock), ph.expected), ch);
            LockMove(w, w', pid) && LockObjectOk(c, w')
  {
  }

  lemma AcquirePutStep(c: Codec, w: World, pid: Pid, ch: Choice)
    requires c.Lawful() && LockObjectOk(c, w) && pid in w.procs && w.procs[pid].phase.AcquirePut?
    ensures var ph := w.procs[pid].phase;
            var w' := ActOnPrimary(c, w, pid, PutIf(LOCK_KEY, c.lockBytes(ph.lock), ph.expected), ch);
            PhaseOk(w', pid)
  {
  }

  lemma ReleaseStep(c: Codec, w: World, pid: Pid, ch: Choice)
    requires c.Lawful() && LockInv(c, w) && pid in w.procs && w.procs[pid].phase.Release?
    ensures var w' := ActOnPrimary(c, w, pid, DeleteIf(LOCK_KEY, w.procs[pid].phase.guard), ch);
            LockMove(w, w', pid) && LockObjectOk(c, w') && PhaseOk(w', pid)
  {
    assert PhaseOk(w, pid);
  }

  /** Past `acquire`, a step keeps its guard, or gives it up. */
  lemma GuardIsKept(c: Codec, p: Process, mirrors: nat, reply: Reply, d: Decision, clock: int)
    requires !p.phase.AcquireHead? && !p.phase.AcquireGet? && !p.phase.AcquirePut?
    ensures var next := Resume(c, p, mirrors, reply, d, clock);
            && Held(next) in {None, Held(p.phase)}
            && (next.AcquireHead? ==> next.lock.createdAt == clock)
            && !next.AcquireGet? && !next.AcquirePut?
  {
  }

  lemma OtherStep(c: Codec, w: World, pid: Pid, ch: Choice)
    requires c.Lawful() && LockInv(c, w) && pid in w.procs
    requires var ph := w.procs[pid].phase; !ph.AcquireHead? && !ph.AcquireGet? && !ph.AcquirePut? && !ph.Release?
    requires ActionOf(c, w.procs[pid], |w.mirrors|, ch.decision).OnPrimary?
    ensures var w' := ActOnPrimary(c, w, pid, ActionOf(c, w.procs[pid], |w.mirrors|, ch.decision).op, ch);
            LockMove(w, w', pid) && LockObjectOk(c, w') && PhaseOk(w', pid)
  {
    assert PhaseOk(w, pid);
    var op := ActionOf(c, w.procs[pid], |w.mirrors|, ch.decision).op;
    LeavesLockAlone(c, w.procs[pid], |w.mirrors|, ch.decision, w.primary);
    ApplyKeepsValid(w.primary, op);
    GuardIsKept(c, w.procs[pid], |w.mirrors|, Perform(w.primary, op, ch.fault).1, ch.decision, w.clock);
  }

  lemma AwayFromPrimary(c: Codec, w: World, w': World, pid: Pid, d: Decision)
    requires c.Lawful() && LockInv(c, w) && pid in w.procs
    requires !ActionOf(c, w.procs[pid], |w.mirrors|, d).OnPrimary?
    requires w'.primary == w.primary && w'.clock == w.clock && w'.leases == w.leases
    requires w'.procs == w.procs[pid := w.procs[pid].(phase := Resume(c, w.procs[pid], |w.mirrors|, Failed, d,
                                                                      w.clock))]
    ensures LockMove(w, w', pid) && LockObjectOk(c, w') && PhaseOk(w', pid)
  {
    assert PhaseOk(w, pid);
    GuardIsKept(c, w.procs[pid], |w.mirrors|, Failed, d, w.clock);
  }

  lemma RequestKeepsLockInv(c: Codec, w: World, pid: Pid, op: Op, ch: Choice)
    requires c.Lawful() && LockInv(c, w) && pid in w.procs
    requires ActionOf(c, w.procs[pid], |w.mirrors|, ch.decision) == OnPrimary(op)
    ensures var w' := ActOnPrimary(c, w, pid, op, ch); LockMove(w, w', pid) && LockInv(c, w')
  {
    match w.procs[pid].phase {
      case AcquireHead(_) => AcquireHeadStep(c, w, pid, ch);
      case AcquireGet(_, _) => AcquireGetStep(c, w, pid, ch);
      case AcquirePut(_, _) =>
        assert PhaseOk(w, pid);
        AcquirePutMove(c, w, pid, ch);
        AcquirePutStep(c, w, pid, ch);
      case Release(_, _) => ReleaseStep(c, w, pid, ch);
      case _ => OtherStep(c, w, pid, ch);
    }
    Conclude(c, w, ActOnPrimary(c, w, pid, op, ch), pid);
  }

  lemma StepKeepsLockInv(c: Codec, w: World, e: Event)
    requires c.Lawful() && LockInv(c, w) && ClockRunsForward([e])
    ensures LockInv(c, Step(c, w, e))
    ensures LockMove(w, Step(c, w, e), if e.Act? then e.pid else 0)
  {
    assert [e][0] == e;
    var w' := Step(c, w, e);
    if e.Act? && e.pid in w.procs {
      match ActionOf(c, w.procs[e.pid], |w.mirrors|, e.choice.decision) {
        case OnPrimary(op) => RequestKeepsLockInv(c, w, e.pid, op, e.choice);
        case _ =>
          AwayFromPrimary(c, w, w', e.pid, e.choice.decision);
          Conclude(c, w, w', e.pid);
      }
    } else {
      forall q | q in w.procs ensures PhaseOk(w', q) {
        assert PhaseOk(w, q);
      }
    }
  }

  lemma {:induction false} LockInvHolds(c: Codec, w: World, es: seq<Event>)
    requires c.Lawful() && Init(w) && ClockRunsForward(es)
    ensures LockInv(c, Exec(c, w, es))
  {
    if es == [] {
      LockKeyIsSeparate("", "", LOCK_KEY);
    } else {
      LockInvHolds(c, w, es[..|es| - 1]);
      StepKeepsLockInv(c, Exec(c, w, es[..|es| - 1]), Last(es));
    }
  }

  /** A guard that is held and whose lease has not run out on the shared clock. */
  ghost predicate Live(w: World, pid: Pid) {
    && pid in w.procs && Held(w.procs[pid].phase).Some?
    && var g := Held(w.procs[pid].phase).value; g in w.leases && w.leases[g].lock.expiresAt > w.clock
  }

  /**
   Lease mutual exclusion: in every reachable state at most one process holds an acquired, unreleased
   and unexpired guard, and the lock object in the store is that process's own.
   */
  lemma MutualExclusion(c: Codec, w0: World, es: seq<Event>, p: Pid, q: Pid)
    requires c.Lawful() && Init(w0) && ClockRunsForward(es)
    requires Live(Exec(c, w0, es), p)
    ensures Live(Exec(c, w0, es), q) ==> q == p
    ensures LockEtag(Exec(c, w0, es)) == Held(Exec(c, w0, es).procs[p].phase)
  {
    LockInvHolds(c, w0, es);
    var w := Exec(c, w0, es);
    assert PhaseOk(w, p);
    if Live(w, q) {
      assert PhaseOk(w, q);
    }
  }

  /** Every guard a process holds is one whose lock body that same process wrote. */
  lemma GuardsAreGenuine(c: Codec, w0: World, es: seq<Event>, p: Pid)
    requires c.Lawful() && Init(w0) && ClockRunsForward(es)
    requires p in Exec(c, w0, es).procs && Held(Exec(c, w0, es).procs[p].phase).Some?
    ensures var w := Exec(c, w0, es);
            var g := Held(w.procs[p].phase).value;
            g in w.leases && w.leases[g].owner == p
  {
    LockInvHolds(c, w0, es);
    assert PhaseOk(Exec(c, w0, es), p);
  }

  /**
   A lock never vanishes or changes hands early: whenever a step removes or replaces the lock object, the
   step is its own writer's, or the lock it removed had expired by then.
   */
  lemma LockChangesHandsOnlyWhenDue(c: Codec, w0: World, es: seq<Event>, pid: Pid, ch: Choice)
    requires c.Lawful() && Init(w0) && ClockRunsForward(es)
    requires var w := Exec(c, w0, es); LockEtag(w).Some? && LockEtag(Step(c, w, Act(pid, ch))) != LockEtag(w)
    ensures var w := Exec(c, w0, es);
            var g := LockEtag(w).value;
            g in w.leases && (w.leases[g].owner == pid || w.leases[g].lock.expiresAt <= w.clock)
  {
    LockInvHolds(c, w0, es);
    StepKeepsLockInv(c, Exec(c, w0, es), Act(pid, ch));
  }

  /** A release by a holder whose lock has been taken over leaves the successor's lock untouched. */
  lemma StaleReleaseIsHarmless(c: Codec, w0: World, es: seq<Event>, pid: Pid, ch: Choice)
    requires c.Lawful() && Init(w0) && ClockRunsForward(es)
    requires var w := Exec(c, w0, es);
             pid in w.procs && w.procs[pid].phase.Release? && LOCK_KEY in w.primary.objects
             && LockEtag(w).value in w.leases && w.leases[LockEtag(w).value].owner != pid
    ensures var w := Exec(c, w0, es);
            Step(c, w, Act(pid, ch)).primary == w.primary
  {
    LockInvHolds(c, w0, es);
    assert PhaseOk(Exec(c, w0, es), pid);
  }

  /**
   A takeover overwrites exactly the lock it judged. The etag comes from `head` and the body from a later
   `get`, yet if the conditional write lands, the body it replaced is one whose expiry the writer checked.
   */
  lemma TakeoverReplacesTheLockItJudged(c: Codec, w0: World, es: seq<Event>, pid: Pid, fault: Fault)
    requires c.Lawful() && Init(w0) && ClockRunsForward(es)
    requires var w := Exec(c, w0, es);
             pid in w.procs && w.procs[pid].phase.AcquirePut? && LOCK_KEY in w.primary.objects
    ensures var w := Exec(c, w0, es);
            var w' := Step(c, w, Act(pid, Choice(fault, Proceed)));
            LockEtag(w') != LockEtag(w) ==>
              && c.parseLock(w.primary.objects[LOCK_KEY].body).Some?
              && c.parseLock(w.primary.objects[LOCK_KEY].body).value.expiresAt <= w.procs[pid].phase.lock.createdAt
              && c.parseLock(w'.primary.objects[LOCK_KEY].body) == Some(w.procs[pid].phase.lock)
  {
    LockInvHolds(c, w0, es);
    assert PhaseOk(Exec(c, w0, es), pid);
  }
}
