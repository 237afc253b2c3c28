/** The release store's operations over GitHub's assets, any API call of which may fail or lose its answer. */
module ReleaseStore {
  import opened Basics
  import opened Stores
  import opened GithubRelease
  import opened Keys

  datatype Asset = Asset(id: nat, route: Route, body: Bytes)

  datatype Hub = Hub(releases: set<Tag>, assets: seq<Asset>, nextId: nat) {
    /** Asset ids are never reused, and assets live in releases that exist. */
    ghost predicate Valid() {
      && (forall i, j :: 0 <= i < j < |assets| ==> assets[i].id != assets[j].id)
      && (forall a :: a in assets ==> a.id < nextId && a.route.tag in releases)
    }
  }

  function InRelease(assets: seq<Asset>, tag: Tag): seq<Asset> {
    if assets == [] then []
    else InRelease(assets[..|assets| - 1], tag) + if Last(assets).route.tag == tag then [Last(assets)] else []
  }

  /** The first asset of that name in that release: what `get` and `head` find. */
  function Find(assets: seq<Asset>, route: Route): Option<Asset> {
    if assets == [] then None
    else
      var found := Find(assets[..|assets| - 1], route);
      if found.Some? then found else if Last(assets).route == route then Some(Last(assets)) else None
  }

  function Without(assets: seq<Asset>, ids: set<nat>): seq<Asset> {
    if assets == [] then []
    else Without(assets[..|assets| - 1], ids) + if Last(assets).id in ids then [] else [Last(assets)]
  }

  /** The ids of the assets of that name in that release. */
  function IdsAt(assets: seq<Asset>, route: Route): set<nat> {
    set a | a in assets && a.route == route :: a.id
  }

  /** What a key holds. */
  function Lookup(h: Hub, key: string): Option<Asset> {
    Find(h.assets, RouteOf(key))
  }

  // ---------------------------------------------------------------- facts about lists of assets

  lemma {:induction false} FindMeans(assets: seq<Asset>, route: Route)
    ensures var found := Find(assets, route);
            if found.Some? then found.value in assets && found.value.route == route
            else forall a :: a in assets ==> a.route != route
  {
    if assets != [] {
      FindMeans(assets[..|assets| - 1], route);
      assert assets == assets[..|assets| - 1] + [Last(assets)];
    }
  }

  lemma {:induction false} WithoutMembers(assets: seq<Asset>, ids: set<nat>, a: Asset)
    ensures a in Without(assets, ids) <==> a in assets && a.id !in ids
  {
    if assets != [] {
      WithoutMembers(assets[..|assets| - 1], ids, a);
      assert assets == assets[..|assets| - 1] + [Last(assets)];
    }
  }

  /** Removing assets of other names does not change what is found. */
  lemma {:induction false} FindSkips(assets: seq<Asset>, ids: set<nat>, route: Route)
    requires forall a :: a in assets && a.route == route ==> a.id !in ids
    ensures Find(Without(assets, ids), route) == Find(assets, route)
  {
    if assets != [] {
      var before := assets[..|assets| - 1];
      assert Last(assets) in assets && forall a :: a in before ==> a in assets;
      FindSkips(before, ids, route);
      var kept := Without(before, ids);
      if Last(assets).id !in ids {
        assert (kept + [Last(assets)])[..|kept|] == kept;
      } else {
        assert Without(assets, ids) == kept;
      }
    }
  }

  lemma {:induction false} WithoutTwice(assets: seq<Asset>, a: set<nat>, b: set<nat>)
    ensures Without(Without(assets, a), b) == Without(assets, a + b)
  {
    if assets != [] {
      var before := assets[..|assets| - 1];
      WithoutTwice(before, a, b);
      var kept := Without(before, a);
      if Last(assets).id !in a {
        assert (kept + [Last(assets)])[..|kept|] == kept;
      } else {
        assert Without(assets, a) == kept;
      }
    }
  }

  lemma {:induction false} WithoutNone(assets: seq<Asset>, ids: set<nat>)
    requires forall i :: 0 <= i < |assets| ==> assets[i].id !in ids
    ensures Without(assets, ids) == assets
  {
    if assets != [] {
      WithoutNone(assets[..|assets| - 1], ids);
    }
  }

  /** An asset keeps its id to itself. */
  lemma IdsTellRoutes(h: Hub, a: Asset, route: Route)
    requires h.Valid() && a in h.assets && a.id in IdsAt(h.assets, route)
    ensures a.route == route
  {
  }

  // ---------------------------------------------------------------- put, on values

  /** Some of the old assets under the route are gone, and perhaps the new one is there. */
  function Replaced(h: Hub, route: Route, gone: set<nat>, uploaded: Option<Bytes>): Hub {
    var assets := Without(h.assets, gone);
    match uploaded
    case None => h.(releases := h.releases + {route.tag}, assets := assets)
    case Some(body) =>
      Hub(h.releases + {route.tag}, assets + [Asset(h.nextId, route, body)], h.nextId + 1)
  }

  lemma FindAppended(assets: seq<Asset>, a: Asset, route: Route)
    ensures Find(assets + [a], route)
            == if Find(assets, route).Some? then Find(assets, route) else if a.route == route then Some(a) else None
  {
  }

  /** Whatever part of a put took effect, it concerns only its own release and name. */
  lemma ReplacedElsewhere(h: Hub, route: Route, gone: set<nat>, uploaded: Option<Bytes>, other: Route)
    requires h.Valid() && gone <= IdsAt(h.assets, route) && other != route
    ensures Find(Replaced(h, route, gone, uploaded).assets, other) == Find(h.assets, other)
  {
    forall a | a in h.assets && a.route == other ensures a.id !in gone {
      if a.id in gone {
        IdsTellRoutes(h, a, route);
        assert false;
      }
    }
    FindSkips(h.assets, gone, other);
    if uploaded.Some? {
      FindAppended(Without(h.assets, gone), Asset(h.nextId, route, uploaded.value), other);
    }
  }

  /** After a whole put, exactly one asset of that name is left, and it is the new one. */
  lemma ReplacedHere(h: Hub, route: Route, body: Bytes)
    requires h.Valid()
    ensures var h' := Replaced(h, route, IdsAt(h.assets, route), Some(body));
            && Find(h'.assets, route) == Some(Asset(h.nextId, route, body))
            && IdsAt(h'.assets, route) == {h.nextId}
  {
    var kept := Without(h.assets, IdsAt(h.assets, route));
    forall a | a in kept ensures a.route != route {
      WithoutMembers(h.assets, IdsAt(h.assets, route), a);
    }
    FindMeans(kept, route);
    var added := Asset(h.nextId, route, body);
    FindAppended(kept, added, route);
    assert added in kept + [added] && forall a :: a in kept + [added] <==> a in kept || a == added;
  }

  lemma ReplacedIsValid(h: Hub, route: Route, gone: set<nat>, uploaded: Option<Bytes>)
    requires h.Valid()
    ensures Replaced(h, route, gone, uploaded).Valid()
  {
    WithoutIsValid(h.assets, gone);
    var kept := Without(h.assets, gone);
    forall i | 0 <= i < |kept| ensures kept[i] in h.assets {
      WithoutMembers(h.assets, gone, kept[i]);
    }
  }

  lemma {:induction false} WithoutIsValid(assets: seq<Asset>, ids: set<nat>)
    requires forall i, j :: 0 <= i < j < |assets| ==> assets[i].id != assets[j].id
    ensures var r := Without(assets, ids); forall i, j :: 0 <= i < j < |r| ==> r[i].id != r[j].id
  {
    if assets != [] {
      var before := assets[..|assets| - 1];
      WithoutIsValid(before, ids);
      var kept := Without(before, ids);
      forall i | 0 <= i < |kept| ensures kept[i].id != Last(assets).id {
        WithoutMembers(before, ids, kept[i]);
      }
    }
  }

  // ---------------------------------------------------------------- the refinement

  /** No two of these keys share an asset. */
  ghost predicate Separated(keys: set<string>) {
    forall a, b :: a in keys && b in keys && RouteOf(a) == RouteOf(b) ==> a == b
  }

  /** All pointer, snapshot and health keys together, and all other keys without underscore, are separated. */
  lemma PlainKeysAreSeparated(keys: set<string>)
    requires forall k :: k in keys ==> !Misc(k) || '_' !in k
    ensures Separated(keys)
  {
    forall a, b | a in keys && b in keys && RouteOf(a) == RouteOf(b) ensures a == b {
      RouteIsInjective(a, b);
    }
  }

  /** The index and the conversations under one prefix are separated when no two ids agree up to `/` and `_`. */
  lemma ChatKeysAreSeparated(prefix: string, ids: set<string>)
    requires forall a, b :: a in ids && b in ids && Flat(a) == Flat(b) ==> a == b
    ensures Separated({IndexKey(prefix)} + set id | id in ids :: ConvKey(prefix, id))
  {
    var keys := {IndexKey(prefix)} + set id | id in ids :: ConvKey(prefix, id);
    forall a, b | a in keys && b in keys && RouteOf(a) == RouteOf(b) ensures a == b {
      if a != IndexKey(prefix) && b != IndexKey(prefix) {
        var x :| x in ids && a == ConvKey(prefix, x);
        var y :| y in ids && b == ConvKey(prefix, y);
        ChatRoutesStayApart(prefix, x, y);
      } else if a != b {
        var x :| x in ids && ConvKey(prefix, x) in {a, b};
        ChatRoutesStayApart(prefix, x, x);
      }
    }
  }

  /** The store as a map over some keys. */
  function Contents(h: Hub, keys: set<string>): map<string, Bytes> {
    map k | k in keys && Lookup(h, k).Some? :: Lookup(h, k).value.body
  }

  /** If every other key keeps its asset, the map changes at one key. */
  lemma OneKeyChanges(h: Hub, h': Hub, keys: set<string>, key: string)
    requires key in keys && forall k :: k in keys && k != key ==> Lookup(h', k) == Lookup(h, k)
    ensures Contents(h', keys) == match Lookup(h', key)
                                  case Some(a) => Contents(h, keys)[key := a.body]
                                  case None => Contents(h, keys) - {key}
    ensures Lookup(h', key) == Lookup(h, key) ==> Contents(h', keys) == Contents(h, keys)
  {
  }

  /** A put that gets through is the put of a map. */
  lemma PutIsMapPut(h: Hub, keys: set<string>, key: string, body: Bytes)
    requires h.Valid() && Separated(keys) && key in keys
    ensures var h' := Replaced(h, RouteOf(key), IdsAt(h.assets, RouteOf(key)), Some(body));
            Contents(h', keys) == Contents(h, keys)[key := body]
  {
    var h' := Replaced(h, RouteOf(key), IdsAt(h.assets, RouteOf(key)), Some(body));
    ReplacedHere(h, RouteOf(key), body);
    OthersKept(h, keys, key, IdsAt(h.assets, RouteOf(key)), Some(body));
    OneKeyChanges(h, h', keys, key);
  }

  /** Whatever part of a put or delete takes effect, every other separated key keeps its asset. */
  lemma OthersKept(h: Hub, keys: set<string>, key: string, gone: set<nat>, uploaded: Option<Bytes>)
    requires h.Valid() && Separated(keys) && key in keys && gone <= IdsAt(h.assets, RouteOf(key))
    ensures forall k :: k in keys && k != key ==> Lookup(Replaced(h, RouteOf(key), gone, uploaded), k) == Lookup(h, k)
  {
    forall k | k in keys && k != key
      ensures Lookup(Replaced(h, RouteOf(key), gone, uploaded), k) == Lookup(h, k)
    {
      ReplacedElsewhere(h, RouteOf(key), gone, uploaded, RouteOf(k));
    }
  }

  /**
   What a put that fails half-way may leave under its key: an old asset, nothing, or the new body; never a mixture.
   */
  lemma BrokenPut(h: Hub, route: Route, gone: set<nat>, uploaded: Option<Bytes>)
    requires h.Valid() && gone <= IdsAt(h.assets, route)
    ensures var found := Find(Replaced(h, route, gone, uploaded).assets, route);
            && (found.Some? ==> (found.value in h.assets && found.value.id !in gone)
                                || (uploaded.Some? && found.value == Asset(h.nextId, route, uploaded.value)))
            && (gone == IdsAt(h.assets, route) && uploaded.None? ==> found == None)
  {
    var kept := Without(h.assets, gone);
    FindMeans(kept, route);
    if Find(kept, route).Some? {
      WithoutMembers(h.assets, gone, Find(kept, route).value);
    }
    if uploaded.Some? {
      FindAppended(kept, Asset(h.nextId, route, uploaded.value), route);
    }
  }

  ghost predicate OnePerName(h: Hub) {
    forall a, b :: a in h.assets && b in h.assets && a.route == b.route ==> a.id == b.id
  }

  /** How far a put got: not at all, or some old assets gone, or all of them and the new one there. */
  ghost predicate PutOutcome(h: Hub, h': Hub, route: Route, body: Bytes, gone: set<nat>, uploaded: Option<Bytes>) {
    && gone <= IdsAt(h.assets, route)
    && (uploaded.Some? ==> uploaded.value == body && gone == IdsAt(h.assets, route))
    && (h' == h || h' == Replaced(h, route, gone, uploaded))
  }

  /** However far a put gets, there is never a second asset of one name. */
  lemma PutKeepsOnePerName(h: Hub, h': Hub, route: Route, body: Bytes, gone: set<nat>, uploaded: Option<Bytes>)
    requires OnePerName(h) && PutOutcome(h, h', route, body, gone, uploaded)
    ensures OnePerName(h')
  {
    if h' == Replaced(h, route, gone, uploaded) {
      forall a | a in Without(h.assets, gone) ensures a in h.assets && (uploaded.Some? ==> a.route != route) {
        WithoutMembers(h.assets, gone, a);
      }
    }
  }

  /**
   A put that breaks off changes at most its own key of the map, which may then be absent, hold the new body, or
   hold what it held before.
   */
  lemma BrokenPutIsLocal(h: Hub, h': Hub, keys: set<string>, key: string, body: Bytes, gone: set<nat>,
                         uploaded: Option<Bytes>)
    requires h.Valid() && OnePerName(h) && Separated(keys) && key in keys
    requires PutOutcome(h, h', RouteOf(key), body, gone, uploaded)
    ensures Contents(h', keys) in {Contents(h, keys) - {key}, Contents(h, keys)[key := body], Contents(h, keys)}
  {
    if h' != h {
      OthersKept(h, keys, key, gone, uploaded);
      OneKeyChanges(h, h', keys, key);
      OwnKeyAfterPut(h, key, gone, uploaded, body);
    }
  }

  lemma OwnKeyAfterPut(h: Hub, key: string, gone: set<nat>, uploaded: Option<Bytes>, body: Bytes)
    requires h.Valid() && OnePerName(h) && PutOutcome(h, Replaced(h, RouteOf(key), gone, uploaded), RouteOf(key), body,
                                                      gone, uploaded)
    ensures var found := Lookup(Replaced(h, RouteOf(key), gone, uploaded), key);
            found == None || found == Lookup(h, key) || found.value.body == body
  {
    BrokenPut(h, RouteOf(key), gone, uploaded);
    FindMeans(h.assets, RouteOf(key));
    FindMeans(Replaced(h, RouteOf(key), gone, uploaded).assets, RouteOf(key));
    if Lookup(Replaced(h, RouteOf(key), gone, uploaded), key).Some? {
      SameIdSameAsset(h, Lookup(Replaced(h, RouteOf(key), gone, uploaded), key).value);
    }
  }

  lemma SameIdSameAsset(h: Hub, a: Asset)
    requires h.Valid()
    ensures forall b :: a in h.assets && b in h.assets && a.id == b.id ==> a == b
  {
  }

  function Dropped(h: Hub, id: nat): Hub {
    h.(assets := Without(h.assets, {id}))
  }

  /** A delete of what a key holds is the delete of a map. */
  lemma DeleteIsMapDelete(h: Hub, keys: set<string>, key: string)
    requires h.Valid() && OnePerName(h) && Separated(keys) && key in keys && Lookup(h, key).Some?
    ensures var h' := Dropped(h, Lookup(h, key).value.id);
            Contents(h', keys) == Contents(h, keys) - {key} && h'.Valid() && OnePerName(h')
  {
    var route, id := RouteOf(key), Lookup(h, key).value.id;
    var h' := Dropped(h, id);
    OnlyIdOfName(h, key);
    DeletedIsReplaced(h, route, {id});
    OthersKept(h, keys, key, {id}, None);
    BrokenPut(h, route, {id}, None);
    OneKeyChanges(h, h', keys, key);
    ReplacedIsValid(h, route, {id}, None);
    PutKeepsOnePerName(h, h', route, [], {id}, None);
  }

  lemma OnlyIdOfName(h: Hub, key: string)
    requires OnePerName(h) && Lookup(h, key).Some?
    ensures IdsAt(h.assets, RouteOf(key)) == {Lookup(h, key).value.id}
    ensures Lookup(h, key).value in h.assets && Lookup(h, key).value.route == RouteOf(key)
  {
    FindMeans(h.assets, RouteOf(key));
  }

  lemma DeletedIsReplaced(h: Hub, route: Route, gone: set<nat>)
    requires h.Valid() && exists a :: a in h.assets && a.route == route
    ensures h.(assets := Without(h.assets, gone)) == Replaced(h, route, gone, None)
  {
    assert h.releases + {route.tag} == h.releases;
  }

  /** Keys that share an asset overwrite each other. */
  lemma SharedAssetIsOverwritten(h: Hub, key: string, other: string, body: Bytes)
    requires h.Valid() && RouteOf(key) == RouteOf(other)
    ensures var found := Lookup(Replaced(h, RouteOf(key), IdsAt(h.assets, RouteOf(key)), Some(body)), other);
            found.Some? && found.value.body == body
  {
    ReplacedHere(h, RouteOf(key), body);
  }

  /** Two such keys. */
  lemma NotesCollide()
    ensures "notes/a" != "notes_a" && RouteOf("notes/a") == RouteOf("notes_a")
  {
    assert "notes/a"[5] == '/' && "notes_a"[5] == '_';
    assert "notes/a"[0] == 'n' && "notes_a"[0] == 'n';
    assert Flat("notes/a") == Flat("notes_a");
    RoutesMeetIff("notes/a", "notes_a");
  }

  // ---------------------------------------------------------------- listing

  lemma {:induction false} InReleaseMembers(assets: seq<Asset>, tag: Tag, a: Asset)
    ensures a in InRelease(assets, tag) <==> a in assets && a.route.tag == tag
  {
    if assets != [] {
      InReleaseMembers(assets[..|assets| - 1], tag, a);
      assert assets == assets[..|assets| - 1] + [Last(assets)];
    }
  }

  lemma {:induction false} FindInRelease(assets: seq<Asset>, route: Route)
    ensures Find(InRelease(assets, route.tag), route) == Find(assets, route)
  {
    if assets != [] {
      var before := assets[..|assets| - 1];
      FindInRelease(before, route);
      if Last(assets).route.tag == route.tag {
        FindAppended(InRelease(before, route.tag), Last(assets), route);
      } else {
        assert InRelease(assets, route.tag) == InRelease(before, route.tag);
      }
    }
  }

  lemma NothingGone(assets: seq<Asset>)
    ensures Without(assets, {}) == assets
  {
  }

  /** Listing a release shows exactly the ids under each of its names. */
  lemma ListedIds(assets: seq<Asset>, route: Route)
    ensures IdsAt(InRelease(assets, route.tag), route) == IdsAt(assets, route)
  {
    forall a ensures a in InRelease(assets, route.tag) && a.route == route <==> a in assets && a.route == route {
      InReleaseMembers(assets, route.tag, a);
    }
  }

  lemma IdsOfNext(list: seq<Asset>, route: Route, k: nat)
    requires k < |list|
    ensures IdsAt(list[..k + 1], route) == IdsAt(list[..k], route) + if list[k].route == route then {list[k].id} else {}
  {
  }

  /** A listed asset that has not been deleted yet is still there, and is one of its name. */
  lemma ListedIsThere(h: Hub, list: seq<Asset>, route: Route, k: nat, gone: set<nat>)
    requires h.Valid() && list == InRelease(h.assets, route.tag) && k < |list| && list[k].route.name == route.name
    requires gone == IdsAt(list[..k], route)
    ensures list[k].route == route && list[k].id in IdsAt(h.assets, route)
    ensures exists i :: 0 <= i < |Without(h.assets, gone)| && Without(h.assets, gone)[i].id == list[k].id
  {
    InReleaseMembers(h.assets, route.tag, list[k]);
    ListedAreDistinct(h.assets, route.tag);
    WithoutMembers(h.assets, gone, list[k]);
    var i :| 0 <= i < |Without(h.assets, gone)| && Without(h.assets, gone)[i] == list[k];
  }

  lemma {:induction false} ListedAreDistinct(assets: seq<Asset>, tag: Tag)
    requires forall i, j :: 0 <= i < j < |assets| ==> assets[i].id != assets[j].id
    ensures var r := InRelease(assets, tag); forall i, j :: 0 <= i < j < |r| ==> r[i].id != r[j].id
  {
    if assets != [] {
      var before := assets[..|assets| - 1];
      ListedAreDistinct(before, tag);
      var listed := InRelease(before, tag);
      forall i | 0 <= i < |listed| ensures listed[i].id != Last(assets).id {
        InReleaseMembers(before, tag, listed[i]);
      }
    }
  }

  /** Looking a key up needs its release only, and finds nothing if that does not exist. */
  lemma LookupByListing(h: Hub, key: string)
    requires h.Valid()
    ensures Lookup(h, key) == Find(InRelease(h.assets, RouteOf(key).tag), RouteOf(key))
    ensures RouteOf(key).tag !in h.releases ==> Lookup(h, key) == None
  {
    FindInRelease(h.assets, RouteOf(key));
    FindMeans(h.assets, RouteOf(key));
  }

  const PER_PAGE := 100

  /** The assets endpoint: page numbers start at 1. */
  function PageOf(list: seq<Asset>, page: nat): (r: seq<Asset>)
    requires page >= 1
    ensures |r| <= PER_PAGE
    ensures (page - 1) * PER_PAGE <= |list| ==>
              && (page - 1) * PER_PAGE + |r| <= |list|
              && list[..(page - 1) * PER_PAGE] + r == list[..(page - 1) * PER_PAGE + |r|]
              && (|r| < PER_PAGE ==> (page - 1) * PER_PAGE + |r| == |list|)
  {
    var from := (page - 1) * PER_PAGE;
    if from >= |list| then []
    else if from + PER_PAGE >= |list| then list[from..]
    else list[from..from + PER_PAGE]
  }

  lemma NothingReplaced(h: Hub, route: Route)
    ensures Replaced(h, route, {}, None) == h.(releases := h.releases + {route.tag})
  {
    NothingGone(h.assets);
  }

  /** Creating the release first makes no difference to what a put amounts to. */
  lemma ReplacedInPrepared(h: Hub, route: Route, gone: set<nat>, uploaded: Option<Bytes>)
    ensures Replaced(h.(releases := h.releases + {route.tag}), route, gone, uploaded)
              == Replaced(h, route, gone, uploaded)
  {
  }

  // ---------------------------------------------------------------- the store

  class GithubReleaseStore {
    var hub: Hub
    /** API calls made so far; call number `i` suffers `fault(i)`. */
    var calls: nat
    const fault: int -> Fault

    constructor (hub: Hub, fault: int -> Fault)
      ensures this.hub == hub && this.fault == fault && calls == 0
    {
      this.hub, this.fault, calls := hub, fault, 0;
    }

    /** No API call since number `from` has failed. */
    ghost predicate Smooth(from: nat)
      reads this
    {
      from <= calls && forall i :: from <= i < calls ==> fault(i).NoFault?
    }

    method ReleaseByTag(tag: Tag) returns (r: Result<bool>)
      modifies this`calls
      ensures calls == old(calls) + 1
      ensures r == if fault(old(calls)).NoFault? then Ok(tag in hub.releases) else Err
    {
      r := if fault(calls).NoFault? then Ok(tag in hub.releases) else Err;
      calls := calls + 1;
    }

    method EnsureRelease(tag: Tag) returns (ok: bool)
      modifies this
      ensures old(calls) < calls && (ok <==> Smooth(old(calls)))
      ensures hub == old(hub) || hub == old(hub).(releases := old(hub).releases + {tag})
      ensures ok ==> hub == old(hub).(releases := old(hub).releases + {tag})
    {
      var existing := ReleaseByTag(tag);
      if existing.Err? {
        return false;
      }
      if existing.value {
        assert hub.releases + {tag} == hub.releases;
        return true;
      }
      var f := fault(calls);
      calls := calls + 1;
      if !f.LostRequest? {
        hub := hub.(releases := hub.releases + {tag});
      }
      ok := f.NoFault?;
    }

    /** The page loop sees every asset of the release, in one call per full page and one more. */
    method ListAssets(tag: Tag) returns (r: Result<seq<Asset>>)
      modifies this`calls
      ensures old(calls) < calls && (r.Ok? <==> Smooth(old(calls)))
      ensures r.Ok? ==> r.value == InRelease(hub.assets, tag) && calls - old(calls) == |r.value| / PER_PAGE + 1
    {
      ghost var list := InRelease(hub.assets, tag);
      var all: seq<Asset> := [];
      var page := 1;
      while true
        invariant page >= 1 && calls == old(calls) + page - 1 && Smooth(old(calls))
        invariant |all| == (page - 1) * PER_PAGE <= |list| && all == list[..|all|]
        decreases |list| - |all|
      {
        var f := fault(calls);
        calls := calls + 1;
        if !f.NoFault? {
          return Err;
        }
        var batch := PageOf(InRelease(hub.assets, tag), page);
        all := all + batch;
        if |batch| < PER_PAGE {
          break;
        }
        page := page + 1;
      }
      assert list[..|list|] == list;
      r := Ok(all);
    }

    method DeleteAsset(id: nat) returns (ok: bool)
      modifies this
      ensures calls == old(calls) + 1
      ensures hub == if fault(old(calls)).LostRequest? then old(hub) else Dropped(old(hub), id)
      ensures ok <==>
                && fault(old(calls)).NoFault?
                && exists i :: 0 <= i < |old(hub).assets| && old(hub).assets[i].id == id
    {
      var f := fault(calls);
      calls := calls + 1;
      ok := f.NoFault? && exists i | 0 <= i < |hub.assets| :: hub.assets[i].id == id;
      if !f.LostRequest? {
        hub := hub.(assets := Without(hub.assets, {id}));
      }
    }

    method UploadAsset(route: Route, body: Bytes) returns (r: Result<nat>)
      modifies this
      ensures calls == old(calls) + 1
      ensures r == if fault(old(calls)).NoFault? then Ok(old(hub).nextId) else Err
      ensures hub == if fault(old(calls)).LostRequest? then old(hub)
                     else Hub(old(hub).releases, old(hub).assets + [Asset(old(hub).nextId, route, body)],
                              old(hub).nextId + 1)
    {
      var f := fault(calls);
      calls := calls + 1;
      var id := hub.nextId;
      if !f.LostRequest? {
        hub := Hub(hub.releases, hub.assets + [Asset(id, route, body)], id + 1);
      }
      r := if f.NoFault? then Ok(id) else Err;
    }

    /** One asset of the delete loop; `gone` are the ids deleted before it. */
    method DeleteNext(ghost h: Hub, ghost list: seq<Asset>, route: Route, ghost k: nat, asset: Asset,
                      ghost gone: set<nat>)
      returns (ok: bool, ghost gone': set<nat>)
      requires h.Valid() && list == InRelease(h.assets, route.tag) && k < |list| && asset == list[k]
      requires gone == IdsAt(list[..k], route) && hub == h.(assets := Without(h.assets, gone))
      modifies this
      ensures old(calls) <= calls && (ok <==> Smooth(old(calls)))
      ensures hub == h.(assets := Without(h.assets, gone'))
      ensures gone' == gone || gone' == IdsAt(list[..k + 1], route)
      ensures ok ==> gone' == IdsAt(list[..k + 1], route)
    {
      IdsOfNext(list, route, k);
      ok, gone' := true, gone;
      if asset.route.name == route.name {
        ListedIsThere(h, list, route, k, gone);
        WithoutTwice(h.assets, gone, {asset.id});
        gone' := if fault(calls).LostRequest? then gone else gone + {asset.id};
        ok := DeleteAsset(asset.id);
      }
    }

    lemma IdsOfPrefix(list: seq<Asset>, route: Route, k: nat)
      requires k <= |list|
      ensures IdsAt(list[..k], route) <= IdsAt(list, route)
    {
    }

    /** The delete loop of a put: every listed asset of that name goes, unless a call fails on the way. */
    method DeleteNamed(list: seq<Asset>, route: Route) returns (ok: bool, ghost gone: set<nat>)
      requires hub.Valid() && list == InRelease(hub.assets, route.tag)
      modifies this
      ensures old(calls) <= calls && (ok <==> Smooth(old(calls)))
      ensures gone <= IdsAt(old(hub).assets, route) && hub == old(hub).(assets := Without(old(hub).assets, gone))
      ensures ok ==> gone == IdsAt(old(hub).assets, route)
    {
      ghost var h := hub;
      gone := {};
      NothingGone(h.assets);
      ListedIds(h.assets, route);
      for k := 0 to |list|
        invariant old(calls) <= calls && Smooth(old(calls))
        invariant gone == IdsAt(list[..k], route)
        invariant hub == h.(assets := Without(h.assets, gone))
      {
        IdsOfPrefix(list, route, k);
        IdsOfPrefix(list, route, k + 1);
        ok, gone := DeleteNext(h, list, route, k, list[k], gone);
        if !ok {
          return;
        }
      }
      assert list[..|list|] == list;
      ok := true;
    }

    /** Everything a put does before it deletes. */
    method ListForPut(tag: Tag) returns (r: Result<seq<Asset>>)
      modifies this
      ensures old(calls) < calls && (r.Ok? <==> Smooth(old(calls)))
      ensures hub == old(hub) || hub == old(hub).(releases := old(hub).releases + {tag})
      ensures r.Ok? ==> hub == old(hub).(releases := old(hub).releases + {tag}) && r.value == InRelease(hub.assets, tag)
    {
      var ok := EnsureRelease(tag);
      if !ok {
        return Err;
      }
      r := ListAssets(tag);
    }

    /** The second half of a put: delete the listed assets of that name, then upload the new one. */
    method ReplaceListed(list: seq<Asset>, route: Route, body: Bytes)
      returns (r: Result<nat>, ghost gone: set<nat>, ghost uploaded: Option<Bytes>)
      requires hub.Valid() && route.tag in hub.releases && list == InRelease(hub.assets, route.tag)
      modifies this
      ensures old(calls) <= calls && (r.Ok? <==> Smooth(old(calls)))
      ensures PutOutcome(old(hub), hub, route, body, gone, uploaded) && hub == Replaced(old(hub), route, gone, uploaded)
      ensures r.Ok? ==> r.value == old(hub).nextId && uploaded.Some?
      ensures hub.Valid()
    {
      ghost var h := hub;
      assert h.releases + {route.tag} == h.releases;
      var ok;
      ok, gone := DeleteNamed(list, route);
      uploaded := None;
      ReplacedIsValid(h, route, gone, None);
      if !ok {
        return Err, gone, uploaded;
      }
      ReplacedIsValid(h, route, gone, Some(body));
      uploaded := if fault(calls).LostRequest? then None else Some(body);
      r := UploadAsset(route, body);
    }

    /**
     `put`. It succeeds exactly when none of its API calls fails, and then the new asset is the only one of its name.
     If it fails, the old assets of that name may be gone, or the new one may be there unreported.
     */
    method Put(key: string, body: Bytes) returns (r: Result<nat>, ghost gone: set<nat>, ghost uploaded: Option<Bytes>)
      requires hub.Valid()
      modifies this
      ensures hub.Valid() && old(calls) < calls && (r.Ok? <==> Smooth(old(calls)))
      ensures PutOutcome(old(hub), hub, RouteOf(key), body, gone, uploaded)
      ensures r.Ok? ==>
                && r.value == old(hub).nextId && uploaded.Some?
                && hub == Replaced(old(hub), RouteOf(key), gone, uploaded)
      ensures r.Ok? ==>
                forall keys :: Separated(keys) && key in keys ==>
                  Contents(hub, keys) == Contents(old(hub), keys)[key := body]
    {
      var route := RouteOf(key);
      gone, uploaded := {}, None;
      NothingReplaced(hub, route);
      ReplacedIsValid(hub, route, {}, None);
      var list := ListForPut(route.tag);
      if list.Err? {
        return Err, gone, uploaded;
      }
      r, gone, uploaded := ReplaceListed(list.value, route, body);
      ReplacedInPrepared(old(hub), route, gone, uploaded);
      forall keys | r.Ok? && Separated(keys) && key in keys
        ensures Contents(hub, keys) == Contents(old(hub), keys)[key := body]
      {
        PutIsMapPut(old(hub), keys, key, body);
      }
    }

    /** The look-up that `get`, `head` and `delete_if_match` begin with: release, assets, first asset of the name. */
    method Locate(key: string) returns (r: Result<Option<Asset>>)
      requires hub.Valid()
      modifies this`calls
      ensures old(calls) < calls && (r.Ok? <==> Smooth(old(calls)))
      ensures r.Ok? ==> r.value == Lookup(hub, key)
    {
      var tag := RouteOf(key).tag;
      LookupByListing(hub, key);
      var release := ReleaseByTag(tag);
      if release.Err? {
        return Err;
      }
      if !release.value {
        return Ok(None);
      }
      var list := ListAssets(tag);
      if list.Err? {
        return Err;
      }
      r := Ok(Find(list.value, RouteOf(key)));
    }

    /** `head`: the id of what the key holds. */
    method Head(key: string) returns (r: Result<Option<nat>>)
      requires hub.Valid()
      modifies this`calls
      ensures old(calls) < calls && (r.Ok? <==> Smooth(old(calls)))
      ensures r.Ok? ==> r.value == match Lookup(hub, key) case Some(a) => Some(a.id) case None => None
      ensures r.Ok? ==> forall keys :: key in keys ==> (r.value.Some? <==> key in Contents(hub, keys))
    {
      var found := Locate(key);
      if found.Err? {
        return Err;
      }
      r := Ok(if found.value.Some? then Some(found.value.value.id) else None);
    }

    /** `get`: the asset a key holds; an absent key is an error. */
    method Get(key: string) returns (r: Result<Asset>)
      requires hub.Valid()
      modifies this`calls
      ensures old(calls) < calls && (r.Ok? <==> Smooth(old(calls)) && Lookup(hub, key).Some?)
      ensures r.Ok? ==> Lookup(hub, key) == Some(r.value)
      ensures r.Ok? ==>
                forall keys :: key in keys ==>
                  key in Contents(hub, keys) && Contents(hub, keys)[key] == r.value.body
    {
      var found := Locate(key);
      if found.Err? || found.value.None? {
        return Err;
      }
      var f := fault(calls);
      calls := calls + 1;
      r := if f.NoFault? then Ok(found.value.value) else Err;
    }

    /** `delete_if_match`: nothing to do for an absent key, an error on another etag, else the asset goes. */
    method DeleteIfMatch(key: string, etag: nat) returns (ok: bool)
      requires hub.Valid()
      modifies this
      ensures old(calls) < calls
      ensures ok <==> Smooth(old(calls)) && (Lookup(old(hub), key).Some? ==> Lookup(old(hub), key).value.id == etag)
      ensures hub == old(hub) || (Lookup(old(hub), key).Some? && Lookup(old(hub), key).value.id == etag
                                  && hub == Dropped(old(hub), etag))
      ensures ok && Lookup(old(hub), key).Some? ==> hub == Dropped(old(hub), etag)
    {
      var target := Locate(key);
      if target.Err? {
        return false;
      }
      if target.value.None? {
        return true;
      }
      if target.value.value.id != etag {
        return false;
      }
      FindMeans(hub.assets, RouteOf(key));
      ok := DeleteAsset(etag);
    }
  }
}
