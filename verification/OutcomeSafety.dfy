/** What a process's outcome says about the pointer: who reports `Saved`, and who has committed. */
module OutcomeSafety {
  import opened Basics
  import opened Stores
  import opened Keys
  import opened Snapshot
  import opened Protocol

  /** The process has passed its pointer write, and with this version if it saved. */
  function SavedAs(ph: Phase): Option<string> {
    match ph
    case Fan(_, d, _, _) => Some(d.stamp)
    case Release(_, Saved(v)) => Some(v)
    case Health(Saved(v)) => Some(v)
    case Done(Saved(v)) => Some(v)
    case _ => None
  }

  predicate Ended(ph: Phase) {
    ph.Release? || ph.Health? || ph.Done?
  }

  ghost predicate CommittedBy(commits: seq<Commit>, pid: Pid, i: int) {
    0 <= i < |commits| && commits[i].pid == pid
  }

  ghost predicate PhaseOk(w: World, pid: Pid)
    requires pid in w.procs
  {
    var ph := w.procs[pid].phase;
    && (pid in w.doubtful ==> Ended(ph) && SavedAs(ph).None? && exists i :: CommittedBy(w.commits, pid, i))
    && (SavedAs(ph).Some? ==>
          exists i :: CommittedBy(w.commits, pid, i) && w.commits[i].draft.stamp == SavedAs(ph).value)
    && (SavedAs(ph).None? && pid !in w.doubtful ==> forall i :: !CommittedBy(w.commits, pid, i))
  }

  ghost predicate OutcomeInv(w: World) {
    && (forall i, j :: 0 <= i < j < |w.commits| ==> w.commits[i].pid != w.commits[j].pid)
    && (forall p :: p in w.procs ==> PhaseOk(w, p))
  }

  /** A process other than the one that steps keeps its commits, and its doubts. */
  lemma OthersStayOk(w: World, w': World, pid: Pid, q: Pid)
    requires q in w.procs && q != pid && PhaseOk(w, q)
    requires w'.procs.Keys == w.procs.Keys && w'.procs[q] == w.procs[q]
    requires w.commits <= w'.commits && (forall i :: |w.commits| <= i < |w'.commits| ==> w'.commits[i].pid == pid)
    requires q in w'.doubtful <==> q in w.doubtful
    ensures PhaseOk(w', q)
  {
    assert forall i :: 0 <= i < |w.commits| ==> w'.commits[i] == w.commits[i];
    if SavedAs(w.procs[q].phase).Some? {
      var i :| CommittedBy(w.commits, q, i) && w.commits[i].draft.stamp == SavedAs(w.procs[q].phase).value;
      assert CommittedBy(w'.commits, q, i);
    } else if q in w.doubtful {
      var i :| CommittedBy(w.commits, q, i);
      assert CommittedBy(w'.commits, q, i);
    } else {
      forall i ensures !CommittedBy(w'.commits, q, i) {
        assert !CommittedBy(w.commits, q, i);
      }
    }
  }

  /** Away from the pointer write, a process neither gains nor loses its claim to have saved. */
  lemma ClaimsAreKept(c: Codec, p: Process, mirrors: nat, reply: Reply, d: Decision, clock: int)
    requires !p.phase.CasPointer?
    ensures var next := Resume(c, p, mirrors, reply, d, clock);
            SavedAs(next) == SavedAs(p.phase) && (Ended(p.phase) ==> Ended(next))
  {
  }

  lemma PlainStepKeepsInv(c: Codec, w: World, w': World, pid: Pid, reply: Reply, d: Decision)
    requires OutcomeInv(w) && pid in w.procs && !w.procs[pid].phase.CasPointer?
    requires w'.commits == w.commits && w'.doubtful == w.doubtful
    requires w'.procs == w.procs[pid := w.procs[pid].(phase := Resume(c, w.procs[pid], |w.mirrors|, reply, d, w.clock))]
    ensures OutcomeInv(w')
  {
    ClaimsAreKept(c, w.procs[pid], |w.mirrors|, reply, d, w.clock);
    assert PhaseOk(w, pid);
    forall q | q in w'.procs ensures PhaseOk(w', q) {
      if q != pid {
        OthersStayOk(w, w', pid, q);
      }
    }
  }

  lemma CommitKeepsInv(c: Codec, w: World, pid: Pid, op: Op, ch: Choice)
    requires OutcomeInv(w) && pid in w.procs && w.procs[pid].phase.CasPointer?
    requires ActionOf(c, w.procs[pid], |w.mirrors|, ch.decision) == OnPrimary(op)
    ensures OutcomeInv(ActOnPrimary(c, w, pid, op, ch))
  {
    var w' := ActOnPrimary(c, w, pid, op, ch);
    assert PhaseOk(w, pid);
    forall i | 0 <= i < |w.commits| ensures w.commits[i].pid != pid && w'.commits[i] == w.commits[i] {
      assert !CommittedBy(w.commits, pid, i);
    }
    if w'.commits != w.commits {
      assert CommittedBy(w'.commits, pid, |w.commits|);
    }
    forall q | q in w'.procs ensures PhaseOk(w', q) {
      if q != pid {
        OthersStayOk(w, w', pid, q);
      }
    }
  }

  lemma StepKeepsOutcomeInv(c: Codec, w: World, e: Event)
    requires OutcomeInv(w)
    ensures OutcomeInv(Step(c, w, e))
  {
    if e.Act? && e.pid in w.procs {
      var p := w.procs[e.pid];
      match ActionOf(c, p, |w.mirrors|, e.choice.decision) {
        case OnPrimary(op) =>
          if p.phase.CasPointer? {
            CommitKeepsInv(c, w, e.pid, op, e.choice);
          } else {
            PlainStepKeepsInv(c, w, Step(c, w, e), e.pid, Perform(w.primary, op, e.choice.fault).1, e.choice.decision);
          }
        case OnMirror(index, _) =>
          if index < |w.mirrors| {
            PlainStepKeepsInv(c, w, Step(c, w, e), e.pid, Failed, e.choice.decision);
          }
        case Local => PlainStepKeepsInv(c, w, Step(c, w, e), e.pid, Failed, e.choice.decision);
      }
    } else {
      forall q | q in w.procs ensures PhaseOk(Step(c, w, e), q) {
        assert PhaseOk(w, q);
      }
    }
  }

  lemma {:induction false} OutcomeInvHolds(c: Codec, w: World, es: seq<Event>)
    requires Init(w)
    ensures OutcomeInv(Exec(c, w, es))
  {
    if es != [] {
      OutcomeInvHolds(c, w, es[..|es| - 1]);
      StepKeepsOutcomeInv(c, Exec(c, w, es[..|es| - 1]), Last(es));
    }
  }

  /** The doubtful processes are those that lost the answer to their own pointer write, and no others. */
  lemma {:induction false} UnheardIsALostPointerAnswer(c: Codec, w0: World, es: seq<Event>, pid: Pid)
    requires Init(w0) && pid in Exec(c, w0, es).doubtful
    ensures exists n :: 0 <= n < |es| && LosesPointerAnswer(Exec(c, w0, es[..n]), es[n], pid)
  {
    var before, e := es[..|es| - 1], Last(es);
    if pid in Exec(c, w0, before).doubtful {
      UnheardIsALostPointerAnswer(c, w0, before, pid);
      var n :| 0 <= n < |before| && LosesPointerAnswer(Exec(c, w0, before[..n]), before[n], pid);
      assert before[..n] == es[..n] && before[n] == es[n];
    } else {
      assert LosesPointerAnswer(Exec(c, w0, before), es[|es| - 1], pid);
    }
  }

  predicate LosesPointerAnswer(w: World, e: Event, pid: Pid) {
    && e.Act? && e.pid == pid && e.choice.fault.LostReply?
    && pid in w.procs && w.procs[pid].phase.CasPointer?
  }

  /**
   The outcome is truthful, whatever requests and answers are lost on the way. A process that has ended has
   committed a pointer exactly if it reports `Saved`, or if the one answer it lost was that of its own pointer
   write after the write took effect, in which case it reports an error. So a failed canary, a failed
   workload, empty cookies, a rollback check and a lost race all leave the pointer to others. No process
   commits twice.
   */
  lemma CommittedIffSavedOrUnheard(c: Codec, w0: World, es: seq<Event>, pid: Pid)
    requires Init(w0)
    requires var w := Exec(c, w0, es); pid in w.procs && w.procs[pid].phase.Done?
    ensures var w := Exec(c, w0, es);
            (exists i :: CommittedBy(w.commits, pid, i)) <==> w.procs[pid].phase.outcome.Saved? || pid in w.doubtful
    ensures var w := Exec(c, w0, es);
            pid in w.doubtful ==> !w.procs[pid].phase.outcome.Saved?
    ensures var w := Exec(c, w0, es);
            forall i, j :: CommittedBy(w.commits, pid, i) && CommittedBy(w.commits, pid, j) ==>
              i == j && (pid !in w.doubtful ==> w.procs[pid].phase.outcome == Saved(w.commits[i].draft.stamp))
  {
    OutcomeInvHolds(c, w0, es);
    assert PhaseOk(Exec(c, w0, es), pid);
  }
}
