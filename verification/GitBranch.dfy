/**
 A git branch as a compare-and-swap store. The remote holds one ref; each clone has a local HEAD that is
 stale after a failed fetch and ahead after a failed push. An etag is the branch head, not a property of a
 key. An operation is two steps, fetch-and-commit and push, and other clones may push in between.
 */
module GitBranch {
  import opened Basics
  import Stores

  type Pid = nat

  /** Commit names are fresh numbers. */
  type Sha = nat

  type Tree = map<string, Bytes>

  datatype Commit = Commit(parent: Option<Sha>, tree: Tree)

  datatype Request =
    | Get(key: string)
    | Head(key: string)
    | Put(key: string, body: Bytes)
    | PutIf(key: string, body: Bytes, expected: Option<Sha>)
    | DeleteIf(key: string, etag: Sha)

  datatype Answer =
    | NoAnswer
    | Content(body: Bytes, etag: Sha)
    | HeadIs(current: Option<Sha>)
    | Written(etag: Sha)
    | Removed
    | Failed

  /** A commit made locally and waiting to be pushed under a lease on the old head. */
  datatype Work = Idle | Pushing(request: Request, commit: Sha, lease: Option<Sha>)

  /** `ahead` is an observer: HEAD is a commit that the remote has not accepted. */
  datatype Clone = Clone(head: Option<Sha>, work: Work, answer: Answer, ahead: bool)

  datatype World = World(
    tip: Option<Sha>,
    commits: map<Sha, Commit>,
    next: Sha,
    clones: map<Pid, Clone>,
    log: seq<Sha>              // every commit the remote branch has pointed to, oldest first
  )

  datatype Event =
    | Begin(pid: Pid, request: Request, reachable: bool)
    | Push(pid: Pid, fault: Stores.Fault)

  predicate BadKey(key: string) {
    (exists i :: 0 <= i < |key| - 1 && key[i] == '.' && key[i + 1] == '.') || (key != [] && key[0] == '/')
  }

  /** A key is refused exactly if it contains two dots in a row or starts with a slash. */
  lemma BadKeyMeans(key: string)
    ensures BadKey(key) <==> (exists a, b :: key == a + ".." + b) || (exists b :: key == "/" + b)
  {
    if i :| 0 <= i < |key| - 1 && key[i] == '.' && key[i + 1] == '.' {
      assert key == key[..i] + ".." + key[i + 2..];
    }
    if key != [] && key[0] == '/' {
      assert key == "/" + key[1..];
    }
    if a, b :| key == a + ".." + b {
      assert key[|a|] == '.' && key[|a| + 1] == '.';
    }
    if b :| key == "/" + b {
      assert key[0] == '/';
    }
  }

  function TreeOf(commits: map<Sha, Commit>, head: Option<Sha>): Tree {
    if head.Some? && head.value in commits then commits[head.value].tree else map[]
  }

  /** What the remote branch holds: the store a client sees. */
  function View(w: World): Tree {
    TreeOf(w.commits, w.tip)
  }

  datatype Verdict = Reply(answer: Answer) | Stage(tree: Tree)

  /** `commit_and_push` with nothing to commit answers with the local head. */
  function StageOrReply(tree: Tree, tree': Tree, head: Option<Sha>): Verdict {
    if tree' != tree then Stage(tree')
    else match head
         case Some(sha) => Reply(Written(sha))
         case None => Reply(Failed)
  }

  /** What an operation decides from the working tree it finds after fetching. */
  function Decide(tree: Tree, head: Option<Sha>, exists_: bool, r: Request): Verdict {
    match r
    case Get(key) =>
      if BadKey(key) || key !in tree || head.None? then Reply(Failed) else Reply(Content(tree[key], head.value))
    case Head(key) =>
      if !exists_ then Reply(HeadIs(None))
      else if BadKey(key) then Reply(Failed)
      else Reply(HeadIs(if key in tree then head else None))
    case Put(key, body) =>
      if BadKey(key) then Reply(Failed) else StageOrReply(tree, tree[key := body], head)
    case PutIf(key, body, expected) =>
      if BadKey(key) then Reply(Failed)
      else
        (match expected
         case None => if key in tree then Reply(Failed) else StageOrReply(tree, tree[key := body], head)
         case Some(etag) => if head != Some(etag) then Reply(Failed) else StageOrReply(tree, tree[key := body], head))
    case DeleteIf(key, etag) =>
      if head != Some(etag) || BadKey(key) then Reply(Failed)
      else if key !in tree then Reply(Removed)
      else Stage(tree - {key})
  }

  /** `fetch_and_reset`: HEAD becomes the remote head, if the remote is reachable and has the branch. */
  function Fetched(w: World, head: Option<Sha>, reachable: bool): Option<Sha> {
    if reachable && w.tip.Some? then w.tip else head
  }

  function BeginStep(w: World, pid: Pid, r: Request, reachable: bool): World
    requires pid in w.clones
  {
    var k := w.clones[pid];
    var reset := reachable && w.tip.Some?;
    var head := Fetched(w, k.head, reachable);
    match Decide(TreeOf(w.commits, head), head, reset, r)
    case Reply(answer) => w.(clones := w.clones[pid := Clone(head, Idle, answer, k.ahead && !reset)])
    case Stage(tree) =>
      w.(commits := w.commits[w.next := Commit(head, tree)], next := w.next + 1,
         clones := w.clones[pid := Clone(Some(w.next), Pushing(r, w.next, head), NoAnswer, true)])
  }

  /**
   A push under a lease is accepted exactly when the remote head is the leased one; with no lease, when there is no
   branch.
   */
  function PushStep(w: World, pid: Pid, fault: Stores.Fault): World
    requires pid in w.clones && w.clones[pid].work.Pushing?
  {
    var k := w.clones[pid];
    var lands := w.tip == k.work.lease && !fault.LostRequest?;
    var answer :=
      if !lands || fault.LostReply? then Failed
      else if k.work.request.DeleteIf? then Removed else Written(k.work.commit);
    var w' := w.(clones := w.clones[pid := Clone(k.head, Idle, answer, !lands)]);
    if lands then w'.(tip := Some(k.work.commit), log := w.log + [k.work.commit]) else w'
  }

  function Step(w: World, e: Event): World {
    if e.pid !in w.clones then w
    else match e
         case Begin(pid, r, reachable) => if w.clones[pid].work.Idle? then BeginStep(w, pid, r, reachable) else w
         case Push(pid, fault) => if w.clones[pid].work.Pushing? then PushStep(w, pid, fault) else w
  }

  function Exec(w: World, es: seq<Event>): World {
    if es == [] then w else Step(Exec(w, es[..|es| - 1]), Last(es))
  }

  // ---------------------------------------------------------------- invariant

  /** What a waiting commit changes, and what its request had checked in the leased tree. */
  ghost predicate EditOk(base: Tree, lease: Option<Sha>, r: Request, tree: Tree) {
    match r
    case Put(key, body) => tree == base[key := body]
    case PutIf(key, body, expected) =>
      tree == base[key := body] && (if expected.None? then key !in base else lease == expected)
    case DeleteIf(key, etag) => tree == base - {key} && key in base && lease == Some(etag)
    case _ => false
  }

  ghost predicate CloneOk(commits: map<Sha, Commit>, log: seq<Sha>, k: Clone) {
    && (k.head.Some? ==> k.head.value in commits && (k.ahead <==> k.head.value !in log))
    && (k.head.None? ==> !k.ahead)
    && (k.work.Pushing? ==>
          && k.head == Some(k.work.commit) && k.ahead
          && commits[k.work.commit].parent == k.work.lease
          && EditOk(TreeOf(commits, k.work.lease), k.work.lease, k.work.request, commits[k.work.commit].tree))
  }

  ghost predicate CommitsOk(commits: map<Sha, Commit>, next: Sha) {
    forall s :: s in commits ==>
      s < next && (commits[s].parent.Some? ==> commits[s].parent.value in commits && commits[s].parent.value < s)
  }

  ghost predicate ChildOfPrevious(commits: map<Sha, Commit>, log: seq<Sha>, i: nat)
    requires i < |log|
  {
    log[i] in commits && commits[log[i]].parent == if i == 0 then None else Some(log[i - 1])
  }

  /** The branch is one line of commits, each the child of the one before. */
  ghost predicate LogOk(tip: Option<Sha>, commits: map<Sha, Commit>, log: seq<Sha>) {
    && tip == (if log == [] then None else Some(Last(log)))
    && (forall i :: 0 <= i < |log| ==> ChildOfPrevious(commits, log, i))
    && (forall i, j :: 0 <= i < j < |log| ==> log[i] < log[j])
  }

  ghost predicate ClonesOk(commits: map<Sha, Commit>, log: seq<Sha>, clones: map<Pid, Clone>) {
    && (forall p :: p in clones ==> CloneOk(commits, log, clones[p]))
    && (forall p, q :: p in clones && q in clones && p != q && clones[p].ahead && clones[q].ahead ==>
          clones[p].head != clones[q].head)
  }

  ghost predicate Inv(w: World) {
    CommitsOk(w.commits, w.next) && LogOk(w.tip, w.commits, w.log) && ClonesOk(w.commits, w.log, w.clones)
  }

  /** Any branch history and any clones of it, with no operation under way. */
  ghost predicate Init(w: World) {
    Inv(w) && forall p :: p in w.clones ==> w.clones[p].work.Idle?
  }

  lemma StagedEditIsOk(tree: Tree, head: Option<Sha>, exists_: bool, r: Request)
    requires Decide(tree, head, exists_, r).Stage?
    ensures EditOk(tree, head, r, Decide(tree, head, exists_, r).tree)
  {
  }

  /** A fetch, possibly failed: the clone stands on a remote commit or where it was. */
  lemma FetchKeepsInv(w: World, pid: Pid, reachable: bool, answer: Answer)
    requires Inv(w) && pid in w.clones && w.clones[pid].work.Idle?
    ensures var k := w.clones[pid];
            ClonesOk(w.commits, w.log, w.clones[pid := Clone(Fetched(w, k.head, reachable), Idle, answer,
                                                             k.ahead && !(reachable && w.tip.Some?))])
  {
    assert CloneOk(w.commits, w.log, w.clones[pid]);
    if w.log != [] {
      assert ChildOfPrevious(w.commits, w.log, |w.log| - 1);
    }
  }

  lemma NewCommitKeepsLog(w: World, node: Commit)
    requires Inv(w) && (node.parent.Some? ==> node.parent.value in w.commits)
    ensures var commits' := w.commits[w.next := node];
            && CommitsOk(commits', w.next + 1) && LogOk(w.tip, commits', w.log) && w.next !in w.log
  {
    var commits' := w.commits[w.next := node];
    forall i | 0 <= i < |w.log| ensures ChildOfPrevious(commits', w.log, i) && w.log[i] != w.next {
      assert ChildOfPrevious(w.commits, w.log, i);
    }
  }

  lemma NewCommitKeepsClone(w: World, node: Commit, k: Clone)
    requires CommitsOk(w.commits, w.next) && CloneOk(w.commits, w.log, k)
    ensures CloneOk(w.commits[w.next := node], w.log, k)
  {
  }

  /** A local commit on top of HEAD, under a fresh name. */
  lemma CommitKeepsInv(w: World, pid: Pid, r: Request, tree: Tree)
    requires Inv(w) && pid in w.clones && w.clones[pid].work.Idle?
    requires EditOk(TreeOf(w.commits, w.clones[pid].head), w.clones[pid].head, r, tree)
    ensures var head := w.clones[pid].head;
            var commits' := w.commits[w.next := Commit(head, tree)];
            && CommitsOk(commits', w.next + 1) && LogOk(w.tip, commits', w.log)
            && ClonesOk(commits', w.log, w.clones[pid := Clone(Some(w.next), Pushing(r, w.next, head), NoAnswer, true)])
  {
    var head := w.clones[pid].head;
    var node := Commit(head, tree);
    var k := Clone(Some(w.next), Pushing(r, w.next, head), NoAnswer, true);
    assert CloneOk(w.commits, w.log, w.clones[pid]);
    NewCommitKeepsLog(w, node);
    forall p | p in w.clones ensures CloneOk(w.commits[w.next := node], w.log, w.clones[p]) {
      NewCommitKeepsClone(w, node, w.clones[p]);
    }
    assert TreeOf(w.commits[w.next := node], head) == TreeOf(w.commits, head);
    assert CloneOk(w.commits[w.next := node], w.log, k);
  }

  lemma BeginKeepsInv(w: World, pid: Pid, r: Request, reachable: bool)
    requires Inv(w) && pid in w.clones && w.clones[pid].work.Idle?
    ensures Inv(BeginStep(w, pid, r, reachable))
  {
    var k := w.clones[pid];
    var reset := reachable && w.tip.Some?;
    var head := Fetched(w, k.head, reachable);
    match Decide(TreeOf(w.commits, head), head, reset, r) {
      case Reply(answer) => FetchKeepsInv(w, pid, reachable, answer);
      case Stage(tree) =>
        FetchKeepsInv(w, pid, reachable, NoAnswer);
        StagedEditIsOk(TreeOf(w.commits, head), head, reset, r);
        var fetched := w.(clones := w.clones[pid := Clone(head, Idle, NoAnswer, k.ahead && !reset)]);
        CommitKeepsInv(fetched, pid, r, tree);
        assert fetched.clones[pid := Clone(Some(w.next), Pushing(r, w.next, head), NoAnswer, true)]
            == w.clones[pid := Clone(Some(w.next), Pushing(r, w.next, head), NoAnswer, true)];
    }
  }

  /** Appending a commit whose parent is the tip keeps the branch one line. */
  lemma LogExtends(tip: Option<Sha>, commits: map<Sha, Commit>, next: Sha, log: seq<Sha>, sha: Sha)
    requires CommitsOk(commits, next) && LogOk(tip, commits, log)
    requires sha in commits && commits[sha].parent == tip
    ensures LogOk(Some(sha), commits, log + [sha])
  {
    var log' := log + [sha];
    assert Last(log') == sha;
    if log != [] {
      assert log[|log| - 1] == Last(log) && Last(log) < sha;
    }
    forall i | 0 <= i < |log'| ensures ChildOfPrevious(commits, log', i) {
      if i < |log| {
        assert ChildOfPrevious(commits, log, i);
      }
    }
  }

  lemma PushKeepsInv(w: World, pid: Pid, fault: Stores.Fault)
    requires Inv(w) && pid in w.clones && w.clones[pid].work.Pushing?
    ensures Inv(PushStep(w, pid, fault))
  {
    var w' := PushStep(w, pid, fault);
    var k := w.clones[pid];
    assert CloneOk(w.commits, w.log, k);
    if w'.tip != w.tip || w'.log != w.log {
      LogExtends(w.tip, w.commits, w.next, w.log, k.work.commit);
    }
    forall p | p in w.clones && p != pid ensures CloneOk(w.commits, w'.log, w.clones[p]) {
      assert CloneOk(w.commits, w.log, w.clones[p]);
    }
    assert CloneOk(w.commits, w'.log, w'.clones[pid]) by {
      assert k.work.commit in w.log + [k.work.commit];
    }
  }

  lemma {:induction false} InvHolds(w: World, es: seq<Event>)
    requires Init(w)
    ensures Inv(Exec(w, es))
  {
    if es != [] {
      InvHolds(w, es[..|es| - 1]);
      var before := Exec(w, es[..|es| - 1]);
      var e := Last(es);
      if e.pid in before.clones {
        match e {
          case Begin(pid, r, reachable) =>
            if before.clones[pid].work.Idle? {
              BeginKeepsInv(before, pid, r, reachable);
            }
          case Push(pid, fault) =>
            if before.clones[pid].work.Pushing? {
              PushKeepsInv(before, pid, fault);
            }
        }
      }
    }
  }

  // ---------------------------------------------------------------- theorems

  lemma {:induction false} LogOnlyGrows(w: World, es: seq<Event>, n: nat)
    requires n <= |es|
    ensures Exec(w, es[..n]).log <= Exec(w, es).log
    ensures Exec(w, es).clones.Keys == Exec(w, es[..n]).clones.Keys
  {
    if n == |es| {
      assert es[..n] == es;
    } else {
      assert es[..|es| - 1][..n] == es[..n];
      LogOnlyGrows(w, es[..|es| - 1], n);
    }
  }

  /** Commits are immutable objects. */
  lemma {:induction false} CommitsAreImmutable(w: World, es: seq<Event>, n: nat, sha: Sha)
    requires Init(w) && n <= |es| && sha in Exec(w, es[..n]).commits
    ensures sha in Exec(w, es).commits && Exec(w, es).commits[sha] == Exec(w, es[..n]).commits[sha]
  {
    if n == |es| {
      assert es[..n] == es;
    } else {
      assert es[..|es| - 1][..n] == es[..n];
      CommitsAreImmutable(w, es[..|es| - 1], n, sha);
      InvHolds(w, es[..|es| - 1]);
    }
  }

  /**
   The branch history only grows, under any interleaving of clones with stale or advanced heads and failed
   fetches and pushes: no commit the branch has pointed to is ever dropped, and each is the child of the one
   the branch pointed to before it.
   */
  lemma HistoryOnlyGrows(w0: World, es: seq<Event>, n: nat)
    requires Init(w0) && n <= |es|
    ensures var past, now := Exec(w0, es[..n]), Exec(w0, es);
            && past.log <= now.log
            && now.tip == (if now.log == [] then None else Some(Last(now.log)))
            && (forall i :: 0 <= i < |now.log| ==> ChildOfPrevious(now.commits, now.log, i))
            && (forall s :: s in past.commits ==> s in now.commits && now.commits[s] == past.commits[s])
  {
    LogOnlyGrows(w0, es, n);
    InvHolds(w0, es);
    forall s | s in Exec(w0, es[..n]).commits
      ensures s in Exec(w0, es).commits && Exec(w0, es).commits[s] == Exec(w0, es[..n]).commits[s]
    {
      CommitsAreImmutable(w0, es, n, s);
    }
  }

  /** What a request that changes one key does to a plain map from keys to bodies. */
  function Edit(view: Tree, r: Request): Tree {
    match r
    case Put(key, body) => view[key := body]
    case PutIf(key, body, _) => view[key := body]
    case DeleteIf(key, _) => view - {key}
    case _ => view
  }

  /**
   A push that lands is a success of the per-key contract: it changes exactly its own key of what the remote
   holds at that moment; a create-only write found the key absent; an update or delete under an etag found
   the whole branch exactly at that etag. A push that does not land changes nothing.
   */
  lemma LandedPushIsPerKeySuccess(w0: World, es: seq<Event>, pid: Pid, fault: Stores.Fault)
    requires Init(w0)
    requires var w := Exec(w0, es); pid in w.clones && w.clones[pid].work.Pushing?
    ensures var w := Exec(w0, es);
            var r := w.clones[pid].work.request;
            var w' := Step(w, Push(pid, fault));
            && (w'.log == w.log ==> w'.tip == w.tip && View(w') == View(w))
            && (w'.log != w.log ==>
                  && w'.log == w.log + [w.clones[pid].work.commit]
                  && View(w') == Edit(View(w), r)
                  && (r.PutIf? && r.expected.None? ==> r.key !in View(w))
                  && (r.PutIf? && r.expected.Some? ==> w.tip == r.expected)
                  && (r.DeleteIf? ==> w.tip == Some(r.etag) && r.key in View(w)))
  {
    InvHolds(w0, es);
    var w := Exec(w0, es);
    assert CloneOk(w.commits, w.log, w.clones[pid]);
  }

  /** A client that answers a `get` with this body under this etag read it from that very commit. */
  lemma ContentIsGenuine(w0: World, es: seq<Event>, pid: Pid, key: string, reachable: bool)
    requires Init(w0)
    requires var w := Exec(w0, es); pid in w.clones && w.clones[pid].work.Idle?
    requires Step(Exec(w0, es), Begin(pid, Get(key), reachable)).clones[pid].answer.Content?
    ensures var w := Exec(w0, es);
            var a := Step(w, Begin(pid, Get(key), reachable)).clones[pid].answer;
            a.etag in w.commits && key in w.commits[a.etag].tree && w.commits[a.etag].tree[key] == a.body
  {
  }

  /**
   Read, modify, write loses nothing. If a `get` answered with a body and an etag, and much later a
   conditional put under that etag lands, then at the moment it lands the remote still holds that body.
   */
  lemma ReadModifyWriteIsSafe(w0: World, es: seq<Event>, n: nat, reader: Pid, key: string, reachable: bool, writer: Pid,
                              fault: Stores.Fault)
    requires Init(w0) && n <= |es|
    requires var past := Exec(w0, es[..n]); reader in past.clones && past.clones[reader].work.Idle?
    requires Step(Exec(w0, es[..n]), Begin(reader, Get(key), reachable)).clones[reader].answer.Content?
    requires var now := Exec(w0, es); writer in now.clones && now.clones[writer].work.Pushing?
    requires var r := Exec(w0, es).clones[writer].work.request;
             var a := Step(Exec(w0, es[..n]), Begin(reader, Get(key), reachable)).clones[reader].answer;
             r.PutIf? && r.key == key && r.expected == Some(a.etag)
    requires Step(Exec(w0, es), Push(writer, fault)).log != Exec(w0, es).log
    ensures var a := Step(Exec(w0, es[..n]), Begin(reader, Get(key), reachable)).clones[reader].answer;
            var view := View(Exec(w0, es));
            key in view && view[key] == a.body
  {
    ContentIsGenuine(w0, es[..n], reader, key, reachable);
    var a := Step(Exec(w0, es[..n]), Begin(reader, Get(key), reachable)).clones[reader].answer;
    CommitsAreImmutable(w0, es, n, a.etag);
    LandedPushIsPerKeySuccess(w0, es, writer, fault);
  }

  /** One etag, one winner: no two commits of the branch were pushed over the same head. */
  lemma OneWinnerPerEtag(w0: World, es: seq<Event>, i: nat, j: nat)
    requires Init(w0) && i < j < |Exec(w0, es).log|
    ensures var w := Exec(w0, es);
            && w.log[i] in w.commits && w.log[j] in w.commits
            && w.commits[w.log[i]].parent != w.commits[w.log[j]].parent
  {
    InvHolds(w0, es);
    var w := Exec(w0, es);
    assert ChildOfPrevious(w.commits, w.log, i) && ChildOfPrevious(w.commits, w.log, j);
  }

  /**
   A write that finds nothing to commit answers without pushing. That answer is honest, its etag being a
   commit the remote branch has pointed to and that holds the body, exactly when the clone was not ahead of
   the remote or has just been reset by a successful fetch.
   */
  lemma EmptyCommitIsHonestIffNotAhead(w0: World, es: seq<Event>, pid: Pid, r: Request, reachable: bool)
    requires Init(w0) && (r.Put? || r.PutIf?)
    requires var w := Exec(w0, es); pid in w.clones && w.clones[pid].work.Idle?
    requires Step(Exec(w0, es), Begin(pid, r, reachable)).clones[pid].answer.Written?
    ensures var w := Exec(w0, es);
            var sha := Step(w, Begin(pid, r, reachable)).clones[pid].answer.etag;
            (sha in w.log && sha in w.commits && r.key in w.commits[sha].tree && w.commits[sha].tree[r.key] == r.body)
            <==> !w.clones[pid].ahead || (reachable && w.tip.Some?)
  {
    InvHolds(w0, es);
    var w := Exec(w0, es);
    assert CloneOk(w.commits, w.log, w.clones[pid]);
    if w.log != [] {
      assert ChildOfPrevious(w.commits, w.log, |w.log| - 1);
    }
  }

  /** A clone of a branch that does not exist yet. */
  const NEW_BRANCH := World(None, map[], 0, map[0 := Clone(None, Idle, NoAnswer, false)], [])

  /** The case the condition shuts out: a push is lost, the same put is repeated while the remote is unreachable. */
  lemma RepeatedPutCanLie(body: Bytes)
    ensures Init(NEW_BRANCH)
    ensures var es := [Begin(0, Put("k", body), true), Push(0, Stores.LostRequest), Begin(0, Put("k", body), false)];
            0 in Exec(NEW_BRANCH, es).clones && Exec(NEW_BRANCH, es).clones[0].answer == Written(0)
              && Exec(NEW_BRANCH, es).log == []
  {
    var e1, e2, e3 := Begin(0, Put("k", body), true), Push(0, Stores.LostRequest), Begin(0, Put("k", body), false);
    var w1 := Step(NEW_BRANCH, e1);
    var none: Tree := map[];
    assert |"k"| == 1 && "k"[0] == 'k' && "k" in none["k" := body];
    assert w1.clones[0].work == Pushing(Put("k", body), 0, None);
    var w2 := Step(w1, e2);
    assert TreeOf(w2.commits, w2.clones[0].head) == map["k" := body];
    assert [e1, e2, e3][..2] == [e1, e2] && [e1, e2][..1] == [e1] && [e1][..0] == [];
    assert Exec(NEW_BRANCH, [e1]) == w1;
    assert Exec(NEW_BRANCH, [e1, e2]) == w2;
  }

  /** The branch does not exist and this clone has a commit: what a lost first push leaves behind. */
  ghost predicate Stuck(w: World, pid: Pid) {
    w.tip.None? && pid in w.clones && w.clones[pid].head.Some?
  }

  /**
   A stuck clone stays stuck. Its lease names a commit that the missing branch cannot be at, so as long as no
   other clone creates the branch, nothing it tries ever lands, in any weather.
   */
  lemma {:induction false} StuckCloneStaysStuck(w: World, es: seq<Event>, pid: Pid)
    requires Stuck(w, pid)
    requires w.clones[pid].work.Pushing? ==> w.clones[pid].work.lease.Some?
    requires forall i :: 0 <= i < |es| ==> es[i].pid == pid
    ensures var w' := Exec(w, es);
            && Stuck(w', pid) && w'.log == w.log
            && (w'.clones[pid].work.Pushing? ==> w'.clones[pid].work.lease.Some?)
  {
    if es != [] {
      StuckCloneStaysStuck(w, es[..|es| - 1], pid);
    }
  }

  /** The run that gets stuck: the first push to a new branch is lost; from then on the branch is never created. */
  lemma LostFirstPushSticks(body: Bytes, es: seq<Event>)
    requires forall i :: 0 <= i < |es| ==> es[i].pid == 0
    ensures var first := [Begin(0, Put("k", body), true), Push(0, Stores.LostRequest)];
            Exec(Exec(NEW_BRANCH, first), es).log == []
  {
    var e1, e2 := Begin(0, Put("k", body), true), Push(0, Stores.LostRequest);
    var w1 := Step(NEW_BRANCH, e1);
    var none: Tree := map[];
    assert |"k"| == 1 && "k"[0] == 'k' && "k" in none["k" := body];
    assert w1.clones[0].work == Pushing(Put("k", body), 0, None);
    assert [e1, e2][..1] == [e1] && [e1][..0] == [];
    assert Exec(NEW_BRANCH, [e1]) == w1;
    assert Exec(NEW_BRANCH, [e1, e2]) == Step(w1, e2);
    StuckCloneStaysStuck(Exec(NEW_BRANCH, [e1, e2]), es, 0);
  }
}
