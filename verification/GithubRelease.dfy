/**
 GitHub releases as a mirror: keys are routed to a release and an asset name, a put deletes the assets of that name
 and uploads a new one. There is no transaction, so a put that fails half-way may leave the key absent.
 */
module GithubRelease {
  import opened Basics
  import opened Keys

  // ---------------------------------------------------------------- routing

  /** The four releases, tagged `repossess-latest`, `-snapshots`, `-health` and `-misc`. */
  datatype Tag = LatestTag | SnapshotsTag | HealthTag | MiscTag

  datatype Route = Route(tag: Tag, name: string)

  const SNAPSHOTS := "snapshots/"
  const HEALTH := "health/"

  predicate Misc(key: string) {
    key != LATEST_KEY && !(SNAPSHOTS <= key) && !(HEALTH <= key)
  }

  function Flat(key: string): (r: string)
    ensures |r| == |key| && forall i :: 0 <= i < |key| ==> r[i] == if key[i] == '/' then '_' else key[i]
  {
    if key == "" then "" else Flat(key[..|key| - 1]) + [if Last(key) == '/' then '_' else Last(key)]
  }

  function RouteOf(key: string): Route {
    if key == LATEST_KEY then Route(LatestTag, LATEST_KEY)
    else if SNAPSHOTS <= key then Route(SnapshotsTag, key[|SNAPSHOTS|..])
    else if HEALTH <= key then Route(HealthTag, key[|HEALTH|..])
    else Route(MiscTag, Flat(key))
  }

  /** Where each kind of key goes. */
  lemma RouteMeans(stamp: string, name: string)
    ensures RouteOf("latest.json") == Route(LatestTag, "latest.json") && LATEST_KEY == "latest.json"
    ensures RouteOf(ObjectKey(stamp)) == Route(SnapshotsTag, stamp + ".zst.age")
    ensures RouteOf(SignatureKey(stamp)) == Route(SnapshotsTag, stamp + ".zst.age.sig")
    ensures RouteOf(HealthKey(name)) == Route(HealthTag, name + ".json")
    ensures RouteOf(LOCK_KEY) == Route(MiscTag, "lock.json")
  {
    ProtocolKeysAreSeparate(stamp, stamp, name);
    assert ObjectKey(stamp) == SNAPSHOTS + (stamp + ".zst.age");
    assert SignatureKey(stamp) == SNAPSHOTS + (stamp + ".zst.age.sig");
    assert HealthKey(name) == HEALTH + (name + ".json");
    assert HealthKey(name)[0] == 'h' && SNAPSHOTS[0] == 's';
    assert LOCK_KEY[0] == 'l' && HEALTH[0] == 'h' && Flat(LOCK_KEY) == LOCK_KEY;
  }

  lemma {:induction false} FlatJoined(a: string, b: string)
    ensures Flat(a + b) == Flat(a) + Flat(b)
  {
  }

  lemma FlatIndexName()
    ensures Flat("index.json.age") == "index.json.age"
  {
  }

  lemma FlatConvName()
    ensures Flat("conv/") == "conv_" && Flat(".json.zst.age") == ".json.zst.age"
  {
  }

  /** The objects of the chats keep their names, with every slash turned into an underscore. */
  lemma IndexRouteMeans(prefix: string)
    requires Misc(IndexKey(prefix))
    ensures RouteOf(IndexKey(prefix)) == Route(MiscTag, Flat(prefix) + "index.json.age")
  {
    FlatJoined(prefix, "index.json.age");
    FlatIndexName();
  }

  lemma ConvRouteMeans(prefix: string, id: string)
    requires Misc(ConvKey(prefix, id))
    ensures RouteOf(ConvKey(prefix, id)) == Route(MiscTag, Flat(prefix) + "conv_" + Flat(id) + ".json.zst.age")
  {
    FlatJoined(prefix + "conv/" + id, ".json.zst.age");
    FlatJoined(prefix + "conv/", id);
    FlatJoined(prefix, "conv/");
    FlatConvName();
  }

  /** Two keys share an asset exactly when they are equal, or both miscellaneous and equal up to `/` and `_`. */
  lemma RoutesMeetIff(a: string, b: string)
    ensures RouteOf(a) == RouteOf(b) <==> a == b || (Misc(a) && Misc(b) && Flat(a) == Flat(b))
  {
  }

  /**
   Pointer, snapshot and health keys never meet another key, nor do miscellaneous keys without underscore meet each
   other.
   */
  lemma RouteIsInjective(a: string, b: string)
    requires !Misc(a) || !Misc(b) || ('_' !in a && '_' !in b)
    ensures RouteOf(a) == RouteOf(b) <==> a == b
  {
  }

  /** A key that some other key can overwrite: it has a slash, or an underscore that may turn into one. */
  predicate Ambiguous(key: string) {
    Misc(key) && ('/' in key || exists i :: 0 <= i < |key| && key[i] == '_' && Misc(key[i := '/']))
  }

  /** Turning an underscore into a slash leaves the miscellaneous keys in two places only. */
  ghost predicate AtSpot(key: string, i: nat) {
    || (i == 9 && |key| >= 9 && key[..9] == "snapshots")
    || (i == 6 && |key| >= 6 && key[..6] == "health")
  }

  lemma SlashSpots(key: string, i: nat)
    requires i < |key| && Misc(key) && forall j :: 0 <= j < |key| ==> key[j] != '/'
    ensures Misc(key[i := '/']) || AtSpot(key, i)
  {
    var other := key[i := '/'];
    assert other != LATEST_KEY by {
      assert other[i] == '/' && forall j :: 0 <= j < |LATEST_KEY| ==> LATEST_KEY[j] != '/';
    }
    if SNAPSHOTS <= other {
      assert other[9] == SNAPSHOTS[9] == '/';
      assert key[..9] == other[..9] == SNAPSHOTS[..9];
    } else if HEALTH <= other {
      assert other[6] == HEALTH[6] == '/';
      assert key[..6] == other[..6] == HEALTH[..6];
    }
  }

  lemma SpotsDiffer(key: string, i: nat)
    requires AtSpot(key, i) && |key| > 0
    ensures if i == 9 then key[0] == 's' else i == 6 && key[0] == 'h'
  {
  }

  lemma FlatIsMisc(key: string)
    requires Misc(key)
    ensures Misc(Flat(key))
  {
  }

  lemma FlatIsStable(key: string)
    ensures Flat(Flat(key)) == Flat(key)
  {
  }

  lemma AmbiguousCollides(key: string)
    requires Ambiguous(key)
    ensures exists other :: other != key && RouteOf(other) == RouteOf(key)
  {
    if '/' in key {
      var i :| 0 <= i < |key| && key[i] == '/';
      FlatIsMisc(key);
      FlatIsStable(key);
      assert Flat(key)[i] != key[i];
      RoutesMeetIff(Flat(key), key);
    } else {
      var i :| 0 <= i < |key| && key[i] == '_' && Misc(key[i := '/']);
      var other := key[i := '/'];
      assert Flat(other) == Flat(key) && other[i] != key[i];
      RoutesMeetIff(other, key);
    }
  }

  /** With one changed place at such a spot, the other key would be a snapshot or health key. */
  lemma OneChangeIsNotEnough(key: string, other: string, i: nat)
    requires i < |key| == |other| && other[i] == '/' && AtSpot(key, i)
    ensures (forall j :: 0 <= j < |key| && j != i ==> other[j] == key[j]) ==> !Misc(other)
  {
  }

  lemma CollidingIsAmbiguous(key: string, other: string)
    requires other != key && Misc(key) && Misc(other) && Flat(other) == Flat(key)
    ensures Ambiguous(key)
  {
    if '/' !in key {
      assert |other| == |Flat(other)| == |key|;
      var i :| 0 <= i < |key| && other[i] != key[i];
      assert Flat(other)[i] == Flat(key)[i];
      assert key[i] == '_' && other[i] == '/';
      SlashSpots(key, i);
      if AtSpot(key, i) {
        OneChangeIsNotEnough(key, other, i);
        var j :| 0 <= j < |key| && j != i && other[j] != key[j];
        assert Flat(other)[j] == Flat(key)[j];
        SlashSpots(key, j);
        SpotsDiffer(key, i);
        if AtSpot(key, j) {
          SpotsDiffer(key, j);
        }
        assert key[j] == '_' && Misc(key[j := '/']);
      }
    }
  }

  /** A key can be overwritten by a put to some other key exactly when it is ambiguous. */
  lemma CollidesIffAmbiguous(key: string)
    ensures (exists other :: other != key && RouteOf(other) == RouteOf(key)) <==> Ambiguous(key)
  {
    if exists other :: other != key && RouteOf(other) == RouteOf(key) {
      var other :| other != key && RouteOf(other) == RouteOf(key);
      RoutesMeetIff(other, key);
      CollidingIsAmbiguous(key, other);
    }
    if Ambiguous(key) {
      AmbiguousCollides(key);
    }
  }

  /**
   Mirrored chats stay apart under every prefix: the index never shares an asset with a conversation, and two
   conversations share one only if their ids agree up to `/` and `_`.
   */
  lemma ChatRoutesStayApart(prefix: string, id: string, other: string)
    ensures RouteOf(IndexKey(prefix)) != RouteOf(ConvKey(prefix, id))
    ensures RouteOf(ConvKey(prefix, id)) == RouteOf(ConvKey(prefix, other)) ==> Flat(id) == Flat(other)
  {
    RoutesMeetIff(IndexKey(prefix), ConvKey(prefix, id));
    RoutesMeetIff(ConvKey(prefix, id), ConvKey(prefix, other));
    ChatKeysAreSeparate(prefix, id, other);
    var n := |prefix|;
    assert IndexKey(prefix)[n] == 'i' && ConvKey(prefix, id)[n] == 'c';
    assert Flat(IndexKey(prefix))[n] == 'i' && Flat(ConvKey(prefix, id))[n] == 'c';
    FlatConvKey(prefix, id);
    FlatConvKey(prefix, other);
  }

  lemma FlatConvKey(prefix: string, id: string)
    ensures var flat := Flat(ConvKey(prefix, id));
            |flat| == |prefix| + |id| + 18 && flat[|prefix| + 5..|flat| - 13] == Flat(id)
  {
    var key := ConvKey(prefix, id);
    var flat := Flat(key);
    forall i | 0 <= i < |id| ensures flat[|prefix| + 5 + i] == Flat(id)[i] {
      assert key[|prefix| + 5 + i] == id[i];
    }
  }
}
