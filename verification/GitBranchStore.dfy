/** `GitBranchStore` itself: one clone and its working tree, while other clones push to the same remote. */
module GitBranchStores {
  import opened Basics
  import opened GitBranch
  import Stores

  /** The remote repository, and the commit objects of all clones. */
  class Remote {
    var tip: Option<Sha>
    var commits: map<Sha, Commit>
    var next: Sha
    ghost var log: seq<Sha>

    constructor ()
      ensures tip == None && commits == map[] && next == 0 && log == []
    {
      tip, commits, next, log := None, map[], 0, [];
    }

    /** Other clones push these trees, one commit each. */
    method Advance(rivals: seq<Tree>)
      modifies this
      ensures World(tip, commits, next, map[], log) == Advanced(old(World(tip, commits, next, map[], log)), rivals)
    {
      for i := 0 to |rivals|
        invariant World(tip, commits, next, map[], log)
                  == Advanced(old(World(tip, commits, next, map[], log)), rivals[..i])
      {
        assert rivals[..i + 1][..i] == rivals[..i];
        commits := commits[next := Commit(tip, rivals[i])];
        tip, log, next := Some(next), log + [next], next + 1;
      }
      assert rivals[..|rivals|] == rivals;
    }
  }

  function Advanced(w: World, rivals: seq<Tree>): World {
    if rivals == [] then w
    else
      var before := Advanced(w, rivals[..|rivals| - 1]);
      before.(commits := before.commits[before.next := Commit(before.tip, Last(rivals))], tip := Some(before.next),
              log := before.log + [before.next], next := before.next + 1)
  }

  lemma {:induction false} AdvancedKeepsClones(w: World, clones: map<Pid, Clone>, rivals: seq<Tree>)
    ensures Advanced(w.(clones := clones), rivals) == Advanced(w, rivals).(clones := clones)
  {
    if rivals != [] {
      AdvancedKeepsClones(w, clones, rivals[..|rivals| - 1]);
    }
  }

  /** One whole operation of clone 0: the protocol's two steps, with rival pushes landing in between. */
  function Operate(w: World, r: Request, reachable: bool, rivals: seq<Tree>, fault: Stores.Fault): World {
    var begun := Step(w, Begin(0, r, reachable));
    if 0 in begun.clones && begun.clones[0].work.Pushing? then Step(Advanced(begun, rivals), Push(0, fault)) else begun
  }

  /** A commit on top of `head`, waiting to be pushed, and then pushed. */
  function CommitThenPush(w: World, head: Option<Sha>, tree: Tree, r: Request, rivals: seq<Tree>,
                          fault: Stores.Fault): World {
    var k := Clone(Some(w.next), Pushing(r, w.next, head), NoAnswer, true);
    var staged := World(w.tip, w.commits[w.next := Commit(head, tree)], w.next + 1, map[0 := k], w.log);
    PushStep(Advanced(staged, rivals).(clones := map[0 := k]), 0, fault)
  }

  lemma OperateUnfolds(w: World, k: Clone, r: Request, reachable: bool, rivals: seq<Tree>, fault: Stores.Fault)
    requires w.clones == map[0 := k] && k.work.Idle?
    ensures var reset := reachable && w.tip.Some?;
            var head := Fetched(w, k.head, reachable);
            Operate(w, r, reachable, rivals, fault)
            == match Decide(TreeOf(w.commits, head), head, reset, r)
               case Reply(answer) => w.(clones := map[0 := Clone(head, Idle, answer, k.ahead && !reset)])
               case Stage(tree) => CommitThenPush(w, head, tree, r, rivals, fault)
  {
    var head := Fetched(w, k.head, reachable);
    match Decide(TreeOf(w.commits, head), head, reachable && w.tip.Some?, r) {
      case Reply(answer) =>
        assert w.clones[0 := Clone(head, Idle, answer, k.ahead && !(reachable && w.tip.Some?))]
            == map[0 := Clone(head, Idle, answer, k.ahead && !(reachable && w.tip.Some?))];
      case Stage(tree) =>
        var k' := Clone(Some(w.next), Pushing(r, w.next, head), NoAnswer, true);
        var begun := Step(w, Begin(0, r, reachable));
        assert begun.clones == map[0 := k'];
        AdvancedKeepsClones(begun, map[0 := k'], rivals);
    }
  }

  /**
   The conditional put is compare-and-swap on the branch: it succeeds if and only if the key is absent
   (create) or the branch is at the etag (update), and then the remote holds the new body and nothing else
   has changed.
   */
  ghost predicate IsCas(w: World, key: string, body: Bytes, expected: Option<Sha>) {
    var w' := Operate(w, PutIf(key, body, expected), true, [], Stores.NoFault);
    && 0 in w'.clones
    && (w'.clones[0].answer.Written? <==>
          !BadKey(key) && if expected.None? then key !in View(w) else w.tip == expected)
    && View(w') == if w'.clones[0].answer.Written? then View(w)[key := body] else View(w)
  }

  /** The put that repeats what the clone already has, under the clone's own head: there is nothing to commit. */
  predicate RepeatsOwnHead(w: World, k: Clone, key: string, body: Bytes, expected: Option<Sha>) {
    var tree := TreeOf(w.commits, k.head);
    expected == k.head && key in tree && tree[key] == body
  }

  lemma PresentBranchIsCas(w: World, k: Clone, key: string, body: Bytes, expected: Option<Sha>)
    requires Inv(w) && w.clones == map[0 := k] && k.work.Idle? && (w.tip.Some? || k.head.None?)
    ensures IsCas(w, key, body, expected)
  {
    OperateUnfolds(w, k, PutIf(key, body, expected), true, [], Stores.NoFault);
    if w.log != [] {
      assert ChildOfPrevious(w.commits, w.log, |w.log| - 1);
    }
  }

  lemma StuckPutIsCasIff(w: World, k: Clone, key: string, body: Bytes, expected: Option<Sha>)
    requires Inv(w) && w.clones == map[0 := k] && k.work.Idle? && w.tip.None? && k.head.Some?
    ensures IsCas(w, key, body, expected)
            <==> BadKey(key) || (expected.Some? && !RepeatsOwnHead(w, k, key, body, expected))
  {
    OperateUnfolds(w, k, PutIf(key, body, expected), true, [], Stores.NoFault);
  }

  /**
   With the remote reachable and no rival in between, a conditional put is exactly compare-and-swap on the
   branch, except in one state: the branch does not exist although the clone has a commit. There a create-only
   put under a good key is refused, and an update that repeats the clone's own commit is answered as written;
   every other conditional put is compare-and-swap there too.
   */
  lemma ReachableRemoteIsExactCasIff(w: World, k: Clone, key: string, body: Bytes, expected: Option<Sha>)
    requires Inv(w) && w.clones == map[0 := k] && k.work.Idle?
    ensures IsCas(w, key, body, expected) <==>
              || w.tip.Some? || k.head.None? || BadKey(key)
              || (expected.Some? && !RepeatsOwnHead(w, k, key, body, expected))
  {
    if w.tip.Some? || k.head.None? {
      PresentBranchIsCas(w, k, key, body, expected);
    } else {
      StuckPutIsCasIff(w, k, key, body, expected);
    }
  }

  // ---------------------------------------------------------------- every operation of one clone

  /** The branch exists, or neither it nor a commit of the clone does. */
  ghost predicate InStep(w: World, k: Clone) {
    Inv(w) && w.clones == map[0 := k] && k.work.Idle? && (w.tip.Some? || k.head.None?)
  }

  /**
   With the remote reachable and no rival, every operation answers from what the remote branch holds and does to it what
   it says. A read gives the body and the branch head, or fails if the key is absent; `head` gives the branch head
   exactly for a key that is there; neither changes anything.
   */
  lemma ReachableReads(w: World, k: Clone, key: string)
    requires InStep(w, k)
    ensures var get := Operate(w, Request.Get(key), true, [], Stores.NoFault);
            && 0 in get.clones && get.tip == w.tip && View(get) == View(w)
            && get.clones[0].answer
               == if !BadKey(key) && key in View(w) then Content(View(w)[key], w.tip.value) else Failed
    ensures var head := Operate(w, Request.Head(key), true, [], Stores.NoFault);
            && 0 in head.clones && head.tip == w.tip && View(head) == View(w)
            && head.clones[0].answer
               == if w.tip.None? then HeadIs(None)
                  else if BadKey(key) then Failed
                  else if key in View(w) then HeadIs(w.tip) else HeadIs(None)
  {
    OperateUnfolds(w, k, Request.Get(key), true, [], Stores.NoFault);
    OperateUnfolds(w, k, Request.Head(key), true, [], Stores.NoFault);
    if w.tip.Some? {
      HeadTree(w);
    }
  }

  /** A put under a good key leaves its body there, changes nothing else, and answers with the new branch head. */
  lemma ReachablePut(w: World, k: Clone, key: string, body: Bytes)
    requires InStep(w, k)
    ensures var put := Operate(w, Request.Put(key, body), true, [], Stores.NoFault);
            && 0 in put.clones
            && View(put) == (if BadKey(key) then View(w) else View(w)[key := body])
            && (if BadKey(key) then put.clones[0].answer == Failed && put.tip == w.tip
                else put.tip.Some? && put.clones[0].answer == Written(put.tip.value))
  {
    OperateUnfolds(w, k, Request.Put(key, body), true, [], Stores.NoFault);
    SameTreeIff(View(w), key, body);
    if w.tip.Some? {
      HeadTree(w);
    }
  }

  lemma SameTreeIff(tree: Tree, key: string, body: Bytes)
    ensures tree[key := body] == tree <==> key in tree && tree[key] == body
  {
    assert key in tree[key := body] && tree[key := body][key] == body;
  }

  /** A delete succeeds if and only if the branch is at its etag, and then the key is gone and all else is there. */
  lemma ReachableDelete(w: World, k: Clone, key: string, etag: Sha)
    requires InStep(w, k)
    ensures var delete := Operate(w, DeleteIf(key, etag), true, [], Stores.NoFault);
            && 0 in delete.clones
            && delete.clones[0].answer == (if !BadKey(key) && w.tip == Some(etag) then Removed else Failed)
            && View(delete) == if !BadKey(key) && w.tip == Some(etag) then View(w) - {key} else View(w)
  {
    OperateUnfolds(w, k, DeleteIf(key, etag), true, [], Stores.NoFault);
    if w.tip.Some? {
      HeadTree(w);
    }
    assert key !in View(w) ==> View(w) - {key} == View(w);
  }

  /**
   With the remote out of reach nothing at the remote changes. Reads and checks are made against the clone's own tree,
   `head` sees nothing at all, and a write or delete succeeds only if there is nothing to push.
   */
  lemma OutOfReach(w: World, k: Clone, r: Request)
    requires Inv(w) && w.clones == map[0 := k] && k.work.Idle?
    ensures var w' := Operate(w, r, false, [], Stores.LostRequest);
            var own := TreeOf(w.commits, k.head);
            && 0 in w'.clones && w'.tip == w.tip && View(w') == View(w)
            && w'.clones[0].answer
               == match r
                  case Get(key) =>
                    if !BadKey(key) && k.head.Some? && key in own then Content(own[key], k.head.value) else Failed
                  case Head(_) => HeadIs(None)
                  case Put(key, body) =>
                    if !BadKey(key) && k.head.Some? && key in own && own[key] == body then Written(k.head.value)
                    else Failed
                  case PutIf(key, body, expected) =>
                    if !BadKey(key) && k.head.Some? && expected == k.head && key in own && own[key] == body
                    then Written(k.head.value) else Failed
                  case DeleteIf(key, etag) =>
                    if !BadKey(key) && k.head == Some(etag) && key !in own then Removed else Failed
  {
    OperateUnfolds(w, k, r, false, [], Stores.LostRequest);
    assert w.clones[0] == k;
    if w.tip.Some? {
      HeadTree(w);
    }
    if r.Put? || r.PutIf? {
      SameTreeIff(TreeOf(w.commits, k.head), r.key, r.body);
    }
  }

  // ---------------------------------------------------------------- several operations of one clone

  /** The clone's uploads, one after the other, with the remote reachable and no rival. */
  function Uploads(w: World, puts: seq<(string, Bytes)>): World {
    if puts == [] then w
    else
      Operate(Uploads(w, puts[..|puts| - 1]), Request.Put(Last(puts).0, Last(puts).1), true, [], Stores.NoFault)
  }

  /** Every upload finds its key already holding its body. */
  predicate AllThere(view: Tree, puts: seq<(string, Bytes)>) {
    forall i :: 0 <= i < |puts| ==> puts[i].0 in view && view[puts[i].0] == puts[i].1
  }

  /** One clone, at rest, on a branch that exists. */
  ghost predicate AtRest(w: World) {
    Inv(w) && w.tip.Some? && w.clones.Keys == {0} && w.clones[0].work.Idle?
  }

  /** Uploads that change nothing at the remote leave its head; all others move it to a commit that is new. */
  ghost predicate Moved(w: World, w': World, there: bool) {
    && AtRest(w') && w.next <= w'.next
    && if there then w'.tip == w.tip && View(w') == View(w) else w'.tip.value >= w.next
  }

  lemma UploadMovesHead(w: World, key: string, body: Bytes)
    requires AtRest(w) && !BadKey(key)
    ensures var w' := Operate(w, Request.Put(key, body), true, [], Stores.NoFault);
            Moved(w, w', key in View(w) && View(w)[key] == body)
  {
    var r := Request.Put(key, body);
    assert w.clones == map[0 := w.clones[0]];
    BeginKeepsInv(w, 0, r, true);
    var begun := Step(w, Begin(0, r, true));
    OperateUnfolds(w, w.clones[0], r, true, [], Stores.NoFault);
    if begun.clones[0].work.Pushing? {
      PushKeepsInv(begun, 0, Stores.NoFault);
    }
    HeadTree(w);
    assert key in View(w) && View(w)[key] == body ==> View(w)[key := body] == View(w);
  }

  lemma HeadTree(w: World)
    requires Inv(w) && w.tip.Some?
    ensures w.tip.value in w.commits && w.tip.value < w.next
  {
    assert ChildOfPrevious(w.commits, w.log, |w.log| - 1);
  }

  lemma {:induction false} UploadsMoveHead(w: World, puts: seq<(string, Bytes)>)
    requires AtRest(w) && forall i :: 0 <= i < |puts| ==> !BadKey(puts[i].0)
    ensures Moved(w, Uploads(w, puts), AllThere(View(w), puts))
  {
    if puts != [] {
      var before, last := puts[..|puts| - 1], Last(puts);
      UploadsMoveHead(w, before);
      UploadMovesHead(Uploads(w, before), last.0, last.1);
      MovedTwice(w, Uploads(w, before), Uploads(w, puts), before, last);
      assert puts == before + [last];
    }
  }

  lemma MovedTwice(w: World, w1: World, w2: World, puts: seq<(string, Bytes)>, last: (string, Bytes))
    requires Moved(w, w1, AllThere(View(w), puts)) && Moved(w1, w2, last.0 in View(w1) && View(w1)[last.0] == last.1)
    ensures Moved(w, w2, AllThere(View(w), puts + [last]))
  {
    var all := puts + [last];
    assert all[|puts|] == last && forall i :: 0 <= i < |puts| ==> all[i] == puts[i];
  }

  lemma UpdateUnderEtag(w: World, key: string, body: Bytes, etag: Sha)
    requires AtRest(w) && !BadKey(key)
    ensures var w' := Operate(w, PutIf(key, body, Some(etag)), true, [], Stores.NoFault);
            0 in w'.clones && (w'.clones[0].answer.Written? <==> w.tip == Some(etag))
  {
    assert w.clones == map[0 := w.clones[0]];
    PresentBranchIsCas(w, w.clones[0], key, body, Some(etag));
    assert IsCas(w, key, body, Some(etag));
  }

  /**
   A branch as primary makes no progress. A run remembers the branch head as the pointer's etag, uploads its
   snapshot and signature, and then writes the pointer under that etag; the chats workload does the same with
   bodies and index. With no one else at work, that last write succeeds exactly when every upload found its key
   already holding its body, that is, when the uploads changed nothing.
   */
  lemma OwnUploadsDefeatTheWriteIffNew(w: World, puts: seq<(string, Bytes)>, key: string, body: Bytes)
    requires AtRest(w) && !BadKey(key) && forall i :: 0 <= i < |puts| ==> !BadKey(puts[i].0)
    ensures var w' := Operate(Uploads(w, puts), PutIf(key, body, w.tip), true, [], Stores.NoFault);
            0 in w'.clones && (w'.clones[0].answer.Written? <==> AllThere(View(w), puts))
  {
    HeadTree(w);
    UploadsMoveHead(w, puts);
    UpdateUnderEtag(Uploads(w, puts), key, body, w.tip.value);
  }

  /** If a rival pushes in between, a write that had something to push fails and leaves the rival's tree. */
  lemma RivalsWin(w: World, k: Clone, r: Request, reachable: bool, rivals: seq<Tree>, fault: Stores.Fault)
    requires Inv(w) && w.clones == map[0 := k] && k.work.Idle? && rivals != []
    requires 0 in Step(w, Begin(0, r, reachable)).clones && Step(w, Begin(0, r, reachable)).clones[0].work.Pushing?
    ensures var w' := Operate(w, r, reachable, rivals, fault);
            0 in w'.clones && w'.clones[0].answer == Failed && View(w') == Last(rivals)
  {
    var begun := Step(w, Begin(0, r, reachable));
    BeginKeepsInv(w, 0, r, reachable);
    assert CloneOk(begun.commits, begun.log, begun.clones[0]);
    AdvancedTip(begun, rivals);
  }

  lemma {:induction false} AdvancedTip(w: World, rivals: seq<Tree>)
    requires CommitsOk(w.commits, w.next)
    ensures var w' := Advanced(w, rivals);
            && w'.next == w.next + |rivals| && w'.clones == w.clones
            && (rivals != [] ==> w'.tip == Some(w'.next - 1) && View(w') == Last(rivals))
  {
    if rivals != [] {
      AdvancedTip(w, rivals[..|rivals| - 1]);
    }
  }

  /** What happens to the network and the remote during one operation. */
  datatype Weather = Weather(reachable: bool, rivals: seq<Tree>, push: Stores.Fault)

  class GitBranchStore {
    const remote: Remote
    var head: Option<Sha>
    ghost var ahead: bool

    constructor (remote: Remote)
      ensures this.remote == remote && head == None && !ahead
    {
      this.remote := remote;
      head, ahead := None, false;
    }

    /** The protocol state in which this clone is clone 0 and has just answered. */
    ghost function Model(answer: Answer): World
      reads this, remote
    {
      World(remote.tip, remote.commits, remote.next, map[0 := Clone(head, Idle, answer, ahead)], remote.log)
    }

    function WorkingTree(): Tree
      reads this, remote
    {
      TreeOf(remote.commits, head)
    }

    method FetchAndReset(reachable: bool) returns (exists_: bool)
      modifies this
      ensures exists_ == (reachable && remote.tip.Some?)
      ensures head == if reachable && remote.tip.Some? then remote.tip else old(head)
      ensures head == Fetched(old(Model(NoAnswer)), old(head), reachable)
      ensures ahead == (old(ahead) && !exists_)
    {
      if !reachable || remote.tip.None? {
        return false;
      }
      head, ahead := remote.tip, false;
      exists_ := true;
    }

    /** `git push --force-with-lease`: moves the remote branch exactly if it still is where the lease says. */
    method PushUnderLease(lease: Option<Sha>, sha: Sha, ghost r: Request, push: Stores.Fault) returns (ok: bool)
      requires head == Some(sha) && ahead
      modifies remote`tip, remote`log, this`ahead
      ensures var k := Clone(Some(sha), Pushing(r, sha, lease), NoAnswer, true);
              var done := PushStep(old(Model(NoAnswer)).(clones := map[0 := k]), 0, push);
              Model(done.clones[0].answer) == done && (ok <==> done.clones[0].answer != Failed)
      ensures var lands := old(remote.tip) == lease && !push.LostRequest?;
              && remote.tip == (if lands then Some(sha) else old(remote.tip))
              && (ok <==> lands && !push.LostReply?)
    {
      if remote.tip == lease && !push.LostRequest? {
        remote.tip := Some(sha);
        remote.log := remote.log + [sha];
        ahead := false;
        ok := !push.LostReply?;
      } else {
        ok := false;
      }
    }

    /** `commit_and_push`: commit the working tree `tree` on top of HEAD and push it under a lease on the old HEAD. */
    method CommitAndPush(tree: Tree, ghost r: Request, w: Weather) returns (pushed: Option<Result<Sha>>)
      modifies this, remote
      ensures pushed.None? <==> tree == old(WorkingTree())
      ensures pushed.None? ==> unchanged(this) && unchanged(remote)
      ensures pushed.Some? ==>
                var done := CommitThenPush(old(Model(NoAnswer)), old(head), tree, r, w.rivals, w.push);
                && Model(done.clones[0].answer) == done
                && (pushed.value.Ok? <==> done.clones[0].answer != Failed)
                && (pushed.value.Ok? ==> pushed.value.value == old(remote.next))
    {
      if tree == WorkingTree() {
        return None;
      }
      var lease, sha := head, remote.next;
      remote.commits := remote.commits[sha := Commit(lease, tree)];
      remote.next := sha + 1;
      head, ahead := Some(sha), true;
      ghost var k := Clone(Some(sha), Pushing(r, sha, lease), NoAnswer, true);
      ghost var bare := World(remote.tip, remote.commits, remote.next, map[], remote.log);
      AdvancedKeepsClones(bare, map[0 := k], w.rivals);
      remote.Advance(w.rivals);
      ghost var raced := Advanced(bare, w.rivals);
      assert Model(NoAnswer).(clones := map[0 := k]) == raced.(clones := map[0 := k]);
      var ok := PushUnderLease(lease, sha, r, w.push);
      pushed := Some(if ok then Ok(sha) else Err);
    }

    /** The end of both puts: push a commit, or answer with the current HEAD when there is nothing to commit. */
    method CommitOrHead(tree: Tree, ghost r: Request, w: Weather) returns (sha: Result<Sha>)
      requires r.Put? || r.PutIf?
      modifies this, remote
      ensures Model(if sha.Ok? then Written(sha.value) else Failed)
              == if tree == old(WorkingTree()) then old(Model(if head.Some? then Written(head.value) else Failed))
                 else CommitThenPush(old(Model(NoAnswer)), old(head), tree, r, w.rivals, w.push)
    {
      var pushed := CommitAndPush(tree, r, w);
      sha := Answered(pushed);
    }

    method Put(key: string, body: Bytes, w: Weather) returns (r: Result<Sha>)
      modifies this, remote
      ensures Model(if r.Ok? then Written(r.value) else Failed)
              == Operate(old(Model(NoAnswer)), Request.Put(key, body), w.reachable, w.rivals, w.push)
    {
      OperateUnfolds(Model(NoAnswer), Clone(head, Idle, NoAnswer, ahead), Request.Put(key, body), w.reachable, w.rivals,
                     w.push);
      var _ := FetchAndReset(w.reachable);
      if BadKey(key) {
        return Err;
      }
      var tree := WorkingTree()[key := body];
      r := CommitOrHead(tree, Request.Put(key, body), w);
    }

    method PutIfUnmodified(key: string, body: Bytes, expected: Option<Sha>, w: Weather) returns (r: Result<Sha>)
      modifies this, remote
      ensures Model(if r.Ok? then Written(r.value) else Failed)
              == Operate(old(Model(NoAnswer)), PutIf(key, body, expected), w.reachable, w.rivals, w.push)
    {
      OperateUnfolds(Model(NoAnswer), Clone(head, Idle, NoAnswer, ahead), PutIf(key, body, expected), w.reachable,
                     w.rivals, w.push);
      var _ := FetchAndReset(w.reachable);
      if BadKey(key) {
        return Err;
      }
      if expected.None? && key in WorkingTree() {
        return Err;
      }
      if expected.Some? && head.None? {
        return Err;
      }
      if expected.Some? && expected.value != head.value {
        return Err;
      }
      var tree := WorkingTree()[key := body];
      r := CommitOrHead(tree, PutIf(key, body, expected), w);
    }

    method Get(key: string, w: Weather) returns (r: Result<(Bytes, Sha)>)
      modifies this
      ensures Model(if r.Ok? then Content(r.value.0, r.value.1) else Failed)
              == Operate(old(Model(NoAnswer)), Request.Get(key), w.reachable, w.rivals, w.push)
    {
      OperateUnfolds(Model(NoAnswer), Clone(head, Idle, NoAnswer, ahead), Request.Get(key), w.reachable, w.rivals,
                     w.push);
      var _ := FetchAndReset(w.reachable);
      if BadKey(key) || key !in WorkingTree() || head.None? {
        return Err;
      }
      r := Ok((WorkingTree()[key], head.value));
    }

    method Head(key: string, w: Weather) returns (r: Result<Option<Sha>>)
      modifies this
      ensures Model(if r.Ok? then HeadIs(r.value) else Failed)
              == Operate(old(Model(NoAnswer)), Request.Head(key), w.reachable, w.rivals, w.push)
    {
      OperateUnfolds(Model(NoAnswer), Clone(head, Idle, NoAnswer, ahead), Request.Head(key), w.reachable, w.rivals,
                     w.push);
      var exists_ := FetchAndReset(w.reachable);
      if !exists_ {
        return Ok(None);
      }
      if BadKey(key) {
        return Err;
      }
      r := Ok(if key in WorkingTree() then head else None);
    }

    method DeleteIfMatch(key: string, etag: Sha, w: Weather) returns (ok: bool)
      modifies this, remote
      ensures Model(if ok then Removed else Failed)
              == Operate(old(Model(NoAnswer)), DeleteIf(key, etag), w.reachable, w.rivals, w.push)
    {
      OperateUnfolds(Model(NoAnswer), Clone(head, Idle, NoAnswer, ahead), DeleteIf(key, etag), w.reachable, w.rivals,
                     w.push);
      var _ := FetchAndReset(w.reachable);
      if head != Some(etag) || BadKey(key) {
        return false;
      }
      if key !in WorkingTree() {
        return true;
      }
      var pushed := CommitAndPush(WorkingTree() - {key}, DeleteIf(key, etag), w);
      ok := pushed.Some? && pushed.value.Ok?;
    }

    /** The answer of a put: with nothing to commit, the current HEAD, if there is one. */
    function Answered(pushed: Option<Result<Sha>>): Result<Sha>
      reads this
    {
      match pushed
      case Some(r) => r
      case None => if head.Some? then Ok(head.value) else Err
    }
  }
}
