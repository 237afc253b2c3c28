/** Two hypotheses of the safety theorems are needed: runs in which one of them fails and safety with it. */
module Hypotheses {
  import opened Basics
  import opened Stores
  import opened Keys
  import opened Snapshot
  import opened Protocol
  import LockSafety

  lemma ExecSnoc(c: Codec, w: World, es: seq<Event>, e: Event)
    ensures Exec(c, w, es + [e]) == Step(c, Exec(c, w, es), e)
  {
  }

  /** Two processes, numbered 0 and 1. */
  function Pair(job0: Job, ph0: Phase, job1: Job, ph1: Phase): map<Pid, Process> {
    map[0 := Process(job0, ph0), 1 := Process(job1, ph1)]
  }

  function Empty(procs: map<Pid, Process>): World {
    World(Store(map[], 0), [], 0, procs, map[], [], map[], {})
  }

  function Login(pid: Pid, s: StorageState, randomness: nat): Event {
    Act(pid, Choice(NoFault, Export(s, randomness)))
  }

  /** Two seeds take their stamp within the same second; the second overwrites the first one's uploads. */
  function SameSecond(s: StorageState, r0: nat, r1: nat): seq<Event> {
    [] + [Login(0, s, r0)] + [Login(1, s, r1)] + [Go(0)] + [Go(1)] + [Go(0)] + [Go(1)] + [Go(0)] + [Go(0)]
  }

  function Seeds(ph0: Phase, ph1: Phase): map<Pid, Process> {
    Pair(Seed, ph0, Seed, ph1)
  }

  /** Both seeds hold a draft under one stamp and have sent nothing yet. */
  function BothDrafted(c: Codec, s: StorageState, r0: nat, r1: nat): World {
    var d0, d1 := MakeDraft(c, s, r0, 0), MakeDraft(c, s, r1, 0);
    World(Store(map[], 0), [], 0, Seeds(PutObject(BySeed, d0), PutObject(BySeed, d1)), map[], [], map[d0.stamp := 1],
          {})
  }

  lemma SeedsDraft(c: Codec, s: StorageState, r0: nat, r1: nat)
    requires s.cookies != []
    ensures Step(c, Step(c, Empty(Seeds(Start, Start)), Login(0, s, r0)), Login(1, s, r1)) == BothDrafted(c, s, r0, r1)
  {
  }

  /** An upload by either seed, whatever is stored so far. */
  lemma SeedUploads(c: Codec, w: World, pid: Pid, d: Draft, signing: bool)
    requires pid in w.procs
    requires w.procs[pid] == Process(Seed, if signing then PutSignature(BySeed, d) else PutObject(BySeed, d))
    ensures Step(c, w, Go(pid))
            == w.(primary := w.primary.Write(if signing then SignatureKey(d.stamp) else ObjectKey(d.stamp),
                                             if signing then d.signature else d.cipher),
                  procs := w.procs[pid := Process(Seed, if signing then SeedHead(d) else PutSignature(BySeed, d))])
  {
  }

  lemma SeedLooks(c: Codec, w: World, pid: Pid, d: Draft)
    requires pid in w.procs && w.procs[pid] == Process(Seed, SeedHead(d))
    ensures Step(c, w, Go(pid))
            == w.(procs := w.procs[pid := Process(Seed, CasPointer(BySeed, d, w.primary.EtagAt(LATEST_KEY)))])
  {
  }

  lemma SeedCommits(c: Codec, w: World, pid: Pid, d: Draft)
    requires pid in w.procs && w.procs[pid] == Process(Seed, CasPointer(BySeed, d, None))
              && LATEST_KEY !in w.primary.objects
    ensures Step(c, w, Go(pid)).primary == w.primary.Write(LATEST_KEY, c.pointerBytes(d.pointer))
  {
  }

  /** Every upload of both seeds, in turn. */
  function Uploads(c: Codec, w: World): World {
    Step(c, Step(c, Step(c, Step(c, w, Go(0)), Go(1)), Go(0)), Go(1))
  }

  lemma SeedsOverwrite(c: Codec, s: StorageState, r0: nat, r1: nat)
    ensures var d0, d1 := MakeDraft(c, s, r0, 0), MakeDraft(c, s, r1, 0);
            var w := Uploads(c, BothDrafted(c, s, r0, r1));
            && w.procs == Seeds(SeedHead(d0), SeedHead(d1))
            && w.primary.objects.Keys == {ObjectKey(d0.stamp), SignatureKey(d0.stamp)}
            && w.primary.objects[ObjectKey(d0.stamp)].body == d1.cipher
  {
    var d0, d1 := MakeDraft(c, s, r0, 0), MakeDraft(c, s, r1, 0);
    var w0 := BothDrafted(c, s, r0, r1);
    SeedUploads(c, w0, 0, d0, false);
    var w1 := Step(c, w0, Go(0));
    SeedUploads(c, w1, 1, d1, false);
    var w2 := Step(c, w1, Go(1));
    SeedUploads(c, w2, 0, d0, true);
    var w3 := Step(c, w2, Go(0));
    SeedUploads(c, w3, 1, d1, true);
    ProtocolKeysAreSeparate(d0.stamp, d0.stamp, "");
  }

  lemma SameSecondRun(c: Codec, s: StorageState, r0: nat, r1: nat)
    requires s.cookies != []
    ensures Exec(c, Empty(Seeds(Start, Start)), SameSecond(s, r0, r1))
            == Step(c, Step(c, Uploads(c, BothDrafted(c, s, r0, r1)), Go(0)), Go(0))
  {
    var w0 := Empty(Seeds(Start, Start));
    SeedsDraft(c, s, r0, r1);
    var es := [];
    ExecSnoc(c, w0, es, Login(0, s, r0));
    es := es + [Login(0, s, r0)];
    ExecSnoc(c, w0, es, Login(1, s, r1));
    es := es + [Login(1, s, r1)];
    ExecSnoc(c, w0, es, Go(0));
    es := es + [Go(0)];
    ExecSnoc(c, w0, es, Go(1));
    es := es + [Go(1)];
    ExecSnoc(c, w0, es, Go(0));
    es := es + [Go(0)];
    ExecSnoc(c, w0, es, Go(1));
    es := es + [Go(1)];
    ExecSnoc(c, w0, es, Go(0));
    es := es + [Go(0)];
    ExecSnoc(c, w0, es, Go(0));
  }

  lemma OverwrittenPointer(c: Codec, s: StorageState, r0: nat, r1: nat)
    ensures var d0 := MakeDraft(c, s, r0, 0);
            var w := Step(c, Step(c, Uploads(c, BothDrafted(c, s, r0, r1)), Go(0)), Go(0)).primary;
            && LATEST_KEY in w.objects && w.objects[LATEST_KEY].body == c.pointerBytes(d0.pointer)
            && ObjectKey(d0.stamp) in w.objects && w.objects[ObjectKey(d0.stamp)].body == MakeDraft(c, s, r1, 0).cipher
  {
    var d0 := MakeDraft(c, s, r0, 0);
    SeedsOverwrite(c, s, r0, r1);
    var w6 := Uploads(c, BothDrafted(c, s, r0, r1));
    ProtocolKeysAreSeparate(d0.stamp, d0.stamp, "");
    SeedLooks(c, w6, 0, d0);
    SeedCommits(c, Step(c, w6, Go(0)), 0, d0);
  }

  /**
   Snapshot keys must be fresh: if two encryptions of one state have different digests, two seeds that
   share a one-second stamp leave a pointer that does not resolve.
   */
  lemma StampsMustBeFresh(c: Codec, s: StorageState, r0: nat, r1: nat)
    requires c.Lawful() && s.cookies != []
    requires c.sha256(c.encrypt(c.compress(s), r0)) != c.sha256(c.encrypt(c.compress(s), r1))
    ensures var w0 := Empty(Seeds(Start, Start));
            var w := Exec(c, w0, SameSecond(s, r0, r1));
            var p := MakeDraft(c, s, r0, 0).pointer;
            && Init(w0) && LATEST_KEY in w.primary.objects
            && c.parsePointer(w.primary.objects[LATEST_KEY].body) == Some(p)
            && Resolve(c, w.primary, p) == None
  {
    SameSecondRun(c, s, r0, r1);
    OverwrittenPointer(c, s, r0, r1);
  }

  /** The second run takes over the expired lock of the first; then the clock is set back. */
  function ClockSetBack(): seq<Event> {
    [] + [Go(0)] + [Go(0)] + [Go(0)] + [Tick(5)] + [Go(1)] + [Go(1)] + [Go(1)] + [Go(1)] + [Tick(-5)]
  }

  function Runs(ph0: Phase, ph1: Phase): map<Pid, Process> {
    Pair(Run("a", 5, "a"), ph0, Run("b", 5, "b"), ph1)
  }

  const L0 := Lock("a", 0, 5)
  const L1 := Lock("b", 5, 10)

  function FirstHolds(c: Codec, clock: int): World {
    World(Store(map[LOCK_KEY := Object(c.lockBytes(L0), 1)], 1), [], clock, Runs(LoadPointer(1), Start),
          map[1 := Lease(L0, 0)], [], map[], {})
  }

  lemma FirstAcquires(c: Codec)
    ensures var w := Step(c, Step(c, Empty(Runs(Start, Start)), Go(0)), Go(0));
            && w == Empty(Runs(AcquirePut(L0, None), Start))
            && Step(c, w, Go(0)) == FirstHolds(c, 0)
  {
  }

  lemma SecondJudges(c: Codec)
    requires c.Lawful()
    ensures Step(c, Step(c, Step(c, FirstHolds(c, 5), Go(1)), Go(1)), Go(1))
            == FirstHolds(c, 5).(procs := Runs(LoadPointer(1), AcquirePut(L1, Some(1))))
  {
    var w1 := Step(c, FirstHolds(c, 5), Go(1));
    assert w1.procs == Runs(LoadPointer(1), AcquireHead(L1));
    var w2 := Step(c, w1, Go(1));
    assert w2.procs == Runs(LoadPointer(1), AcquireGet(L1, 1));
    assert c.parseLock(c.lockBytes(L0)) == Some(L0);
    assert Step(c, w2, Go(1)).procs == Runs(LoadPointer(1), AcquirePut(L1, Some(1)));
  }

  lemma SecondTakesOver(c: Codec)
    ensures var w := Step(c, Step(c, FirstHolds(c, 5).(procs := Runs(LoadPointer(1), AcquirePut(L1, Some(1)))), Go(1)),
                          Tick(-5));
            LockSafety.Live(w, 0) && LockSafety.Live(w, 1)
  {
  }

  /** The clock must not run backwards: set back, it revives a lease that has been taken over. */
  lemma ClockMustNotRunBackwards(c: Codec)
    requires c.Lawful()
    ensures var w0 := Empty(Runs(Start, Start));
            var w := Exec(c, w0, ClockSetBack());
            Init(w0) && LockSafety.Live(w, 0) && LockSafety.Live(w, 1)
  {
    var w0 := Empty(Runs(Start, Start));
    FirstAcquires(c);
    SecondJudges(c);
    SecondTakesOver(c);
    var es := [];
    ExecSnoc(c, w0, es, Go(0));
    es := es + [Go(0)];
    ExecSnoc(c, w0, es, Go(0));
    es := es + [Go(0)];
    ExecSnoc(c, w0, es, Go(0));
    es := es + [Go(0)];
    ExecSnoc(c, w0, es, Tick(5));
    es := es + [Tick(5)];
    assert Exec(c, w0, es) == FirstHolds(c, 5);
    ExecSnoc(c, w0, es, Go(1));
    es := es + [Go(1)];
    ExecSnoc(c, w0, es, Go(1));
    es := es + [Go(1)];
    ExecSnoc(c, w0, es, Go(1));
    es := es + [Go(1)];
    ExecSnoc(c, w0, es, Go(1));
    es := es + [Go(1)];
    ExecSnoc(c, w0, es, Tick(-5));
  }
}
