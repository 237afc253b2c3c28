/** Mirrors: written by best-effort fan-out only, any put may fail, and still they never lie. */
module MirrorSafety {
  import opened Basics
  import opened Stores
  import opened Keys
  import opened Snapshot
  import opened Protocol
  import opened PointerSafety

  /** Some commit has this stamp, and its object or signature (`item` 0 or 1) is this body. */
  ghost predicate OfCommit(commits: seq<Commit>, stamp: string, item: nat, body: Bytes) {
    exists i :: 0 <= i < |commits| && commits[i].draft.stamp == stamp
                && body == (if item == 0 then commits[i].draft.cipher else commits[i].draft.signature)
  }

  ghost predicate IsPointerOf(c: Codec, commits: seq<Commit>, body: Bytes, i: int) {
    0 <= i < |commits| && body == c.pointerBytes(commits[i].draft.pointer)
  }

  ghost predicate MirrorOk(c: Codec, commits: seq<Commit>, m: Store) {
    && (LATEST_KEY in m.objects ==> exists i :: IsPointerOf(c, commits, m.objects[LATEST_KEY].body, i))
    && (forall t {:trigger ObjectKey(t)} :: IsStamp(t) && ObjectKey(t) in m.objects ==>
          OfCommit(commits, t, 0, m.objects[ObjectKey(t)].body))
    && (forall t {:trigger SignatureKey(t)} :: IsStamp(t) && SignatureKey(t) in m.objects ==>
          OfCommit(commits, t, 1, m.objects[SignatureKey(t)].body))
  }

  ghost predicate MirrorInv(c: Codec, w: World) {
    forall m :: 0 <= m < |w.mirrors| ==> MirrorOk(c, w.commits, w.mirrors[m])
  }

  lemma MoreCommitsStayOk(c: Codec, commits: seq<Commit>, commits': seq<Commit>, m: Store)
    requires MirrorOk(c, commits, m) && commits <= commits'
    ensures MirrorOk(c, commits', m)
  {
    assert forall i :: 0 <= i < |commits| ==> commits'[i] == commits[i];
    if LATEST_KEY in m.objects {
      var i :| IsPointerOf(c, commits, m.objects[LATEST_KEY].body, i);
      assert IsPointerOf(c, commits', m.objects[LATEST_KEY].body, i);
    }
    forall t, item, body | OfCommit(commits, t, item, body)
      ensures OfCommit(commits', t, item, body)
    {
      var i :| 0 <= i < |commits| && commits[i].draft.stamp == t
               && body == (if item == 0 then commits[i].draft.cipher else commits[i].draft.signature);
      assert commits'[i].draft.stamp == t;
    }
  }

  /** A workload's own mirror writes do not touch the snapshot layout. */
  lemma WorkloadPutStaysOk(c: Codec, commits: seq<Commit>, m: Store, key: string, body: Bytes)
    requires MirrorOk(c, commits, m) && IsWorkloadKey(key)
    ensures MirrorOk(c, commits, m.Write(key, body))
  {
    WorkloadKeysAreSeparate(key, "Z", "");
    forall t | IsStamp(t) ensures key != ObjectKey(t) && key != SignatureKey(t) {
      WorkloadKeysAreSeparate(key, t, "");
    }
  }

  /** Fanning out one of the three objects of a committed draft. */
  lemma FanPutStaysOk(c: Codec, commits: seq<Commit>, m: Store, i: nat, item: nat)
    requires MirrorOk(c, commits, m) && i < |commits|
    ensures var d := commits[i].draft;
            MirrorOk(c, commits, m.Write(FanKey(d, item), FanBody(c, d, item)))
  {
    var d := commits[i].draft;
    var m' := m.Write(FanKey(d, item), FanBody(c, d, item));
    forall t
      ensures ObjectKey(t) !in {LATEST_KEY, SignatureKey(d.stamp)}
      ensures SignatureKey(t) !in {LATEST_KEY, ObjectKey(d.stamp)}
      ensures (ObjectKey(t) == ObjectKey(d.stamp) <==> t == d.stamp)
                && (SignatureKey(t) == SignatureKey(d.stamp) <==> t == d.stamp)
    {
      ProtocolKeysAreSeparate(t, d.stamp, "");
      ProtocolKeysAreSeparate(d.stamp, t, "");
    }
    assert IsPointerOf(c, commits, c.pointerBytes(d.pointer), i);
    assert OfCommit(commits, d.stamp, 0, d.cipher) && OfCommit(commits, d.stamp, 1, d.signature);
  }

  lemma MirrorPutKeepsInv(c: Codec, w: World, pid: Pid, index: nat, put: Op, ch: Choice)
    requires PointerInv(c, w) && MirrorInv(c, w) && pid in w.procs && index < |w.mirrors|
    requires ActionOf(c, w.procs[pid], |w.mirrors|, ch.decision) == OnMirror(index, put)
    ensures MirrorInv(c, ActOnMirror(c, w, pid, index, put, ch))
  {
    var ph := w.procs[pid].phase;
    assert put.Put? && Apply(w.mirrors[index], put).0 == w.mirrors[index].Write(put.key, put.body);
    if ph.Working? {
      WorkloadPutStaysOk(c, w.commits, w.mirrors[index], put.key, put.body);
    } else {
      assert PointerSafety.PhaseOk(c, w.primary, w.commits, w.stamps, pid, ph);
      var i :| 0 <= i < |w.commits| && w.commits[i].draft == ph.draft;
      FanPutStaysOk(c, w.commits, w.mirrors[index], i, ph.item);
    }
  }

  lemma StepKeepsMirrorInv(c: Codec, w: World, e: Event)
    requires PointerInv(c, w) && MirrorInv(c, w)
    ensures MirrorInv(c, Step(c, w, e))
  {
    if e.Act? && e.pid in w.procs {
      match ActionOf(c, w.procs[e.pid], |w.mirrors|, e.choice.decision) {
        case OnMirror(index, put) =>
          if index < |w.mirrors| {
            MirrorPutKeepsInv(c, w, e.pid, index, put, e.choice);
          }
        case _ =>
          var w' := Step(c, w, e);
          assert w'.mirrors == w.mirrors && w.commits <= w'.commits;
          forall m | 0 <= m < |w.mirrors| ensures MirrorOk(c, w'.commits, w'.mirrors[m]) {
            MoreCommitsStayOk(c, w.commits, w'.commits, w.mirrors[m]);
          }
      }
    }
  }

  lemma {:induction false} MirrorInvHolds(c: Codec, w: World, es: seq<Event>)
    requires c.Lawful() && Init(w) && FreshStamps(c, w, es)
    ensures MirrorInv(c, Exec(c, w, es))
  {
    if es == [] {
      forall m, t | 0 <= m < |w.mirrors| && IsStamp(t)
        ensures LATEST_KEY !in w.mirrors[m].objects
        ensures ObjectKey(t) !in w.mirrors[m].objects && SignatureKey(t) !in w.mirrors[m].objects
      {
        forall k | k in w.mirrors[m].objects ensures k !in {LATEST_KEY, ObjectKey(t), SignatureKey(t)} {
          WorkloadKeysAreSeparate(k, t, "");
        }
      }
      assert IsStamp("Z");
    } else {
      MirrorInvHolds(c, w, es[..|es| - 1]);
      PointerInvHolds(c, w, es[..|es| - 1]);
      StepKeepsMirrorInv(c, Exec(c, w, es[..|es| - 1]), Last(es));
    }
  }

  /** Stamps name commits uniquely, so an object on a mirror is the one of the commit in question. */
  lemma MirrorObjectIs(c: Codec, commits: seq<Commit>, m: Store, i: nat)
    requires ChainOk(commits) && MirrorOk(c, commits, m) && i < |commits| && DraftOk(c, commits[i].draft)
    ensures var d := commits[i].draft;
            && (ObjectKey(d.stamp) in m.objects ==> m.objects[ObjectKey(d.stamp)].body == d.cipher)
            && (SignatureKey(d.stamp) in m.objects ==> m.objects[SignatureKey(d.stamp)].body == d.signature)
  {
  }

  /**
   Mirror safety, for any mirrors and any pattern of failed puts: a mirror's `latest.json`, when present, is
   a pointer the primary really held at some time, and following it on that mirror yields the state its
   writer saved exactly when both the snapshot and the signature have arrived there.
   */
  lemma MirrorsNeverLie(c: Codec, w0: World, es: seq<Event>, m: nat)
    requires c.Lawful() && Init(w0) && FreshStamps(c, w0, es)
    requires var w := Exec(c, w0, es); m < |w.mirrors| && LATEST_KEY in w.mirrors[m].objects
    ensures var w := Exec(c, w0, es);
            var mirror := w.mirrors[m];
            exists i :: 0 <= i < |w.commits|
              && var d := w.commits[i].draft;
                 && c.parsePointer(mirror.objects[LATEST_KEY].body) == Some(d.pointer)
                 && Resolve(c, mirror, d.pointer)
                    == (if d.pointer.objectKey in mirror.objects && d.pointer.signatureKey in mirror.objects
                        then Some(d.state) else None)
  {
    PointerInvHolds(c, w0, es);
    MirrorInvHolds(c, w0, es);
    var w := Exec(c, w0, es);
    var mirror := w.mirrors[m];
    var i :| IsPointerOf(c, w.commits, mirror.objects[LATEST_KEY].body, i);
    assert DraftOk(c, w.commits[i].draft);
    MirrorObjectIs(c, w.commits, mirror, i);
  }
}
