/** Which conversations to fetch: the paged walk over the list endpoint, and what it amounts to on the flat list. */
module ChatList {
  import opened Basics

  datatype Summary = Summary(id: string, title: Option<string>, updateTime: Option<Double>)

  /** What the index records of a stored conversation. */
  datatype Entry = Entry(updateTime: Option<Double>, title: Option<string>, objectKey: string, sha256: string,
                         bytes: nat, storedAt: int)

  type Index = map<string, Entry>

  predicate Known(index: Index, s: Summary) {
    s.id in index && index[s.id].updateTime == s.updateTime
  }

  function Outdated(index: Index, list: seq<Summary>): seq<Summary> {
    if list == [] then []
    else Outdated(index, list[..|list| - 1]) + if Known(index, Last(list)) then [] else [Last(list)]
  }

  /** The `stop` items before position `n` are all known. */
  ghost predicate WindowEndsAt(index: Index, list: seq<Summary>, stop: nat, n: nat) {
    stop <= n <= |list| && forall i :: n - stop <= i < n ==> Known(index, list[i])
  }

  /** Where the walk is over: at the end of the first window of known items, or at the end of the list. */
  ghost predicate StopsAt(index: Index, list: seq<Summary>, stop: nat, n: nat) {
    && n <= |list|
    && (WindowEndsAt(index, list, stop, n) || n == |list|)
    && (forall m :: 0 <= m < n ==> !WindowEndsAt(index, list, stop, m))
  }

  /** What a walk over the whole list at once would find. */
  ghost predicate IsFlatScan(index: Index, list: seq<Summary>, stop: nat, found: seq<Summary>) {
    exists n: nat :: StopsAt(index, list, stop, n) && found == Outdated(index, list[..n])
  }

  /** The server: it returns exact slices of one list, or fails on some calls. */
  datatype Server = Server(list: seq<Summary>, fails: int -> bool) {
    function Page(offset: nat, limit: nat): (page: seq<Summary>)
      ensures |page| <= limit
      ensures offset <= |list| ==> offset + |page| <= |list| && page == list[offset..offset + |page|]
      ensures |page| < limit ==> offset + |page| >= |list|
    {
      if offset >= |list| then []
      else if offset + limit >= |list| then list[offset..]
      else list[offset..offset + limit]
    }
  }

  function AtLeastOne(n: nat): nat {
    if n == 0 then 1 else n
  }

  lemma AtLeastOneMeans(n: nat)
    ensures AtLeastOne(n) >= 1 && (n >= 1 ==> AtLeastOne(n) == n) && AtLeastOne(0) == 1
  {
  }

  /** One item of the walk: it counts as known, closing the window or not, or it is to be fetched. */
  method ScanItem(ghost list: seq<Summary>, ghost at: nat, summary: Summary, index: Index, stopAfter: nat, run: nat,
                  fetched: seq<Summary>)
    returns (stopped: bool, consecutiveKnown: nat, toFetch: seq<Summary>)
    requires at < |list| && summary == list[at] && Walked(index, list, stopAfter, at, run, fetched)
    ensures !stopped ==> Walked(index, list, stopAfter, at + 1, consecutiveKnown, toFetch)
    ensures stopped ==> StopsAt(index, list, stopAfter, at + 1) && toFetch == Outdated(index, list[..at + 1])
  {
    WalkedOn(index, list, stopAfter, at, run, fetched);
    if Known(index, summary) {
      consecutiveKnown, toFetch := run + 1, fetched;
      stopped := consecutiveKnown >= stopAfter;
    } else {
      stopped, consecutiveKnown, toFetch := false, 0, fetched + [summary];
    }
  }

  /** One page of the walk: take up the items after `offset`, stopping inside the page when the window closes. */
  method ScanPage(ghost list: seq<Summary>, ghost offset: nat, page: seq<Summary>, index: Index, stopAfter: nat,
                  run: nat, fetched: seq<Summary>)
    returns (stopped: bool, consecutiveKnown: nat, toFetch: seq<Summary>, ghost n: nat)
    requires offset + |page| <= |list| && page == list[offset..offset + |page|]
    requires Walked(index, list, stopAfter, offset, run, fetched)
    ensures !stopped ==> Walked(index, list, stopAfter, offset + |page|, consecutiveKnown, toFetch)
    ensures stopped ==>
              && offset < n <= offset + |page| && StopsAt(index, list, stopAfter, n)
              && toFetch == Outdated(index, list[..n])
  {
    stopped, consecutiveKnown, toFetch, n := false, run, fetched, 0;
    for k := 0 to |page|
      invariant !stopped && Walked(index, list, stopAfter, offset + k, consecutiveKnown, toFetch)
    {
      stopped, consecutiveKnown, toFetch :=
        ScanItem(list, offset + k, page[k], index, stopAfter, consecutiveKnown, toFetch);
      if stopped {
        n := offset + k + 1;
        return;
      }
    }
  }

  /**
   `collect_outdated`: the outdated items up to the stopping point of the flat list, whatever the page size,
   with no more list calls than pages begin before that point, and one more to see the end.
   */
  method CollectOutdated(server: Server, index: Index, pageLimit: nat, stopAfterKnown: nat)
    returns (r: Result<seq<Summary>>, ghost calls: nat, ghost n: nat)
    ensures r.Ok? ==> IsFlatScan(index, server.list, AtLeastOne(stopAfterKnown), r.value)
    ensures r.Ok? ==> StopsAt(index, server.list, AtLeastOne(stopAfterKnown), n)
                      && r.value == Outdated(index, server.list[..n])
                      && PagesBefore(calls, AtLeastOne(pageLimit), n)
    ensures r.Ok? <==> forall i :: 0 <= i < calls ==> !server.fails(i)
    ensures PagesBefore(calls, AtLeastOne(pageLimit), |server.list|)
  {
    var limit, stopAfter := AtLeastOne(pageLimit), AtLeastOne(stopAfterKnown);
    var toFetch: seq<Summary> := [];
    var offset, consecutiveKnown, call := 0, 0, 0;
    calls, n := 0, 0;
    while true
      invariant calls == call && PagesBefore(calls + 1, limit, offset) && offset <= |server.list|
      invariant forall i :: 0 <= i < calls ==> !server.fails(i)
      invariant Walked(index, server.list, stopAfter, offset, consecutiveKnown, toFetch)
      decreases |server.list| - offset
    {
      calls := calls + 1;
      if server.fails(call) {
        return Err, calls, 0;
      }
      call := call + 1;
      var page := server.Page(offset, limit);
      if page == [] {
        WalkedAll(index, server.list, stopAfter, offset, consecutiveKnown, toFetch);
        return Ok(toFetch), calls, offset;
      }
      var stopped;
      stopped, consecutiveKnown, toFetch, n :=
        ScanPage(server.list, offset, page, index, stopAfter, consecutiveKnown, toFetch);
      if stopped {
        StoppedPages(calls, limit, offset);
        return Ok(toFetch), calls, n;
      }
      if |page| < limit {
        WalkedAll(index, server.list, stopAfter, offset + |page|, consecutiveKnown, toFetch);
        StoppedPages(calls, limit, offset);
        return Ok(toFetch), calls, offset + |page|;
      }
      NextPage(calls, limit, offset);
      offset := offset + limit;
    }
  }

  lemma StoppedPages(calls: nat, limit: nat, offset: nat)
    requires PagesBefore(calls, limit, offset)
    ensures forall m: nat :: offset <= m ==> PagesBefore(calls, limit, m)
  {
  }

  lemma NextPage(calls: nat, limit: nat, offset: nat)
    requires PagesBefore(calls, limit, offset)
    ensures PagesBefore(calls + 1, limit, offset + limit)
  {
  }

  /** The last of `calls` pages of size `limit` starts no later than position `n`. */
  predicate PagesBefore(calls: nat, limit: nat, n: nat) {
    1 <= calls && (calls - 1) * limit <= n
  }

  /** Progress of the walk: `at` items seen, the last `run` of them known, no window closed yet. */
  ghost predicate Walked(index: Index, list: seq<Summary>, stop: nat, at: nat, run: nat, toFetch: seq<Summary>) {
    && run <= at <= |list| && run < stop
    && toFetch == Outdated(index, list[..at])
    && (forall i :: at - run <= i < at ==> Known(index, list[i]))
    && (run < at ==> !Known(index, list[at - run - 1]))
    && (forall m :: 0 <= m <= at ==> !WindowEndsAt(index, list, stop, m))
  }

  /** Taking up one more item: either the walk goes on, or the window closes right after it. */
  lemma WalkedOn(index: Index, list: seq<Summary>, stop: nat, at: nat, run: nat, toFetch: seq<Summary>)
    requires Walked(index, list, stop, at, run, toFetch) && at < |list|
    ensures !Known(index, list[at]) ==> Walked(index, list, stop, at + 1, 0, toFetch + [list[at]])
    ensures Known(index, list[at]) && run + 1 < stop ==> Walked(index, list, stop, at + 1, run + 1, toFetch)
    ensures Known(index, list[at]) && run + 1 >= stop
            ==> WindowEndsAt(index, list, stop, at + 1) && StopsAt(index, list, stop, at + 1)
                && toFetch == Outdated(index, list[..at + 1])
  {
    assert list[..at + 1][..at] == list[..at] && Last(list[..at + 1]) == list[at];
    if !Known(index, list[at]) || run + 1 < stop {
      assert !WindowEndsAt(index, list, stop, at + 1);
    }
  }

  lemma WalkedAll(index: Index, list: seq<Summary>, stop: nat, at: nat, run: nat, toFetch: seq<Summary>)
    requires Walked(index, list, stop, at, run, toFetch) && at == |list|
    ensures StopsAt(index, list, stop, at) && toFetch == Outdated(index, list[..at])
  {
  }

  /** The stopping point is unique, so the outcome of the walk depends on the list, the index and `stop` only. */
  lemma StopIsUnique(index: Index, list: seq<Summary>, stop: nat, n: nat, m: nat)
    requires StopsAt(index, list, stop, n) && StopsAt(index, list, stop, m)
    ensures n == m
  {
  }

  lemma {:induction false} OutdatedMembers(index: Index, list: seq<Summary>, s: Summary)
    ensures s in Outdated(index, list) <==> s in list && !Known(index, s)
  {
    if list != [] {
      OutdatedMembers(index, list[..|list| - 1], s);
      assert list == list[..|list| - 1] + [Last(list)];
    }
  }

  /** Of a longer list the outdated items are those of its parts, in order; one item is outdated unless indexed so. */
  lemma {:induction false} OutdatedInOrder(index: Index, first: seq<Summary>, then_: seq<Summary>, s: Summary)
    ensures Outdated(index, first + then_) == Outdated(index, first) + Outdated(index, then_)
    ensures Outdated(index, [s]) == if s.id in index && index[s.id].updateTime == s.updateTime then [] else [s]
  {
    assert [s][..0] == [];
    if then_ == [] {
      assert first + then_ == first;
    } else {
      var before := then_[..|then_| - 1];
      OutdatedInOrder(index, first, before, s);
      assert (first + then_)[..|first + then_| - 1] == first + before;
    }
  }

  ghost predicate DistinctIds(list: seq<Summary>) {
    forall i, j :: 0 <= i < j < |list| ==> list[i].id != list[j].id
  }

  /** `after` is `before` with the entries of the ids in `stored` brought up to date with the list. */
  ghost predicate UpdatedOn(before: Index, after: Index, list: seq<Summary>, stored: set<string>) {
    && (forall s :: s in list && s.id in stored ==> Known(after, s))
    && (forall id :: id !in stored ==> (id in after <==> id in before) && (id in before ==> after[id] == before[id]))
  }

  /**
   Re-running reaches a fixpoint. If a run stored some of the items it had to fetch, the next walk over the
   same list stops no later and fetches only items the first run had to fetch and did not store.
   */
  lemma NextRunFetchesOnlyLeftovers(before: Index, after: Index, list: seq<Summary>, stop: nat, n: nat, m: nat,
                                    stored: set<string>)
    requires DistinctIds(list) && 1 <= stop
    requires StopsAt(before, list, stop, n) && StopsAt(after, list, stop, m)
    requires UpdatedOn(before, after, list[..n], stored)
    requires forall id :: id in stored ==> exists s :: s in Outdated(before, list[..n]) && s.id == id
    ensures m <= n
    ensures forall s :: s in Outdated(after, list[..m]) ==> s in Outdated(before, list[..n]) && s.id !in stored
    ensures (forall s :: s in Outdated(before, list[..n]) ==> s.id in stored) ==> Outdated(after, list[..m]) == []
  {
    forall i | 0 <= i < n && Known(before, list[i]) ensures Known(after, list[i]) {
      if list[i].id in stored {
        assert list[i] in list[..n];
      }
    }
    assert WindowEndsAt(before, list, stop, n) ==> WindowEndsAt(after, list, stop, n);
    forall s | s in Outdated(after, list[..m])
      ensures s in Outdated(before, list[..n]) && s.id !in stored
    {
      OutdatedMembers(after, list[..m], s);
      OutdatedMembers(before, list[..n], s);
      var i :| 0 <= i < m && list[..m][i] == s;
      assert list[i] == s && s in list[..n] by {
        assert list[..n][i] == s;
      }
    }
    if Outdated(after, list[..m]) != [] {
      assert Outdated(after, list[..m])[0] in Outdated(after, list[..m]);
    }
  }

  /**
   An item that is not up to date is fetched by a walk exactly when no window of known items ends before it:
   the promise that a failed item is left for the next run is kept only as far as the early stop allows.
   */
  lemma FetchedIffNoWindowBefore(index: Index, list: seq<Summary>, stop: nat, m: nat, i: nat)
    requires DistinctIds(list) && StopsAt(index, list, stop, m) && i < |list| && !Known(index, list[i])
    ensures list[i] in Outdated(index, list[..m]) <==> forall k :: 0 <= k <= i ==> !WindowEndsAt(index, list, stop, k)
  {
    OutdatedMembers(index, list[..m], list[i]);
    if i < m {
      assert list[..m][i] == list[i];
    }
    if list[i] in list[..m] {
      var j :| 0 <= j < m && list[..m][j] == list[i];
      assert list[j].id == list[i].id;
    }
  }

  /** The excluded case: of two new items the first is stored and the second fails; the next run stops before it. */
  lemma EarlyStopCanHideALeftover(entry: Entry)
    requires entry.updateTime == None
    ensures var list := [Summary("a", None, None), Summary("b", None, None)];
            var after: Index := map["a" := entry];
            && StopsAt(map[], list, 1, 2) && Outdated(map[], list[..2]) == list
            && StopsAt(after, list, 1, 1) && Outdated(after, list[..1]) == [] && !Known(after, list[1])
  {
    var a, b := Summary("a", None, None), Summary("b", None, None);
    var after: Index := map["a" := entry];
    assert [a, b][..2] == [a, b] && [a, b][..1] == [a] && [a][..0] == [];
    assert !Known(map[], [a, b][0]) && !Known(map[], [a, b][1]) && Known(after, [a, b][0]);
    assert "a"[0] == 'a' && "b"[0] == 'b';
    assert WindowEndsAt(after, [a, b], 1, 1);
    assert Outdated(map[], [a]) == [a];
  }
}
