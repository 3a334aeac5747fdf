/**
 * The interpreter-settings reconciler run at the end of `start`
 * (`update_zeppelin_interpreter`). After `interpreter.json` is parsed, its
 * `interpreterSettings` object maps each setting id to an entry with a
 * `group` tag and a `properties` object of string values. Reconciliation
 * points the `hive` entries at the discovered HiveServer2 and the `phoenix`
 * entries at the discovered HBase ZooKeeper quorum, and touches nothing else.
 */
module Interpreter {

  /** One entry of `interpreterSettings`. */
  datatype Setting = Setting(group: string, properties: map<string, string>)

  /** The parsed `interpreterSettings` object, keyed by setting id. */
  type Settings = map<string, Setting>

  /**
   * The discovered endpoints, as the service parameters resolve them. An
   * empty string stands for a value Python treats as false (unset or "").
   */
  datatype Topology = Topology(
    hiveServerHost: string,
    hiveServerPort: string,
    zookeeperZnodeParent: string,
    hbaseZookeeperQuorum: string)

  const HiveGroup := "hive"
  const PhoenixGroup := "phoenix"
  const HiveUrlKey := "hive.hiveserver2.url"
  const PhoenixUrlKey := "phoenix.jdbc.url"
  const HiveScheme := "jdbc:hive2://"
  const PhoenixScheme := "jdbc:phoenix:"

  function HiveUrl(t: Topology): string {
    HiveScheme + t.hiveServerHost + ":" + t.hiveServerPort
  }

  function PhoenixUrl(t: Topology): string {
    PhoenixScheme + t.hbaseZookeeperQuorum + ":" + t.zookeeperZnodeParent
  }

  predicate HiveKnown(t: Topology) {
    t.hiveServerHost != ""
  }

  predicate PhoenixKnown(t: Topology) {
    t.zookeeperZnodeParent != "" && t.hbaseZookeeperQuorum != ""
  }

  /**
   * The properties reconciliation owes an entry of the given group: the
   * HiveServer2 URL for a hive entry once the host is known, the Phoenix
   * JDBC URL for a phoenix entry once both the quorum and the root znode are
   * known, and nothing otherwise.
   */
  function Owed(group: string, t: Topology): map<string, string> {
    if group == HiveGroup && HiveKnown(t) then map[HiveUrlKey := HiveUrl(t)]
    else if group == PhoenixGroup && PhoenixKnown(t) then map[PhoenixUrlKey := PhoenixUrl(t)]
    else map[]
  }

  /**
   * At most one of the two URL keys is owed: the hive one exactly to a hive
   * entry once the host is known, the phoenix one exactly to a phoenix entry
   * once the quorum and the root znode are known.
   */
  lemma OwedTargets(group: string, t: Topology)
    ensures var owed := Owed(group, t);
      && owed.Keys <= {HiveUrlKey, PhoenixUrlKey}
      && |owed.Keys| <= 1
      && (HiveUrlKey in owed <==> group == HiveGroup && HiveKnown(t))
      && (PhoenixUrlKey in owed <==> group == PhoenixGroup && PhoenixKnown(t))
  {
    assert HiveUrlKey != PhoenixUrlKey by { assert HiveUrlKey[0] != PhoenixUrlKey[0]; }
    assert HiveGroup != PhoenixGroup by { assert HiveGroup[0] != PhoenixGroup[0]; }
  }

  /** The document reconciliation must produce: every entry with its owed properties written over it. */
  function Reconciled(settings: Settings, t: Topology): (r: Settings)
    ensures r.Keys == settings.Keys
    ensures forall id :: id in settings ==> r[id].group == settings[id].group
  {
    map id | id in settings :: Patched(settings[id], t)
  }

  function Patched(s: Setting, t: Topology): Setting {
    s.(properties := s.properties + Owed(s.group, t))
  }

  /**
   * The loop of `update_zeppelin_interpreter`: visit every setting id once
   * and patch at most one property of its entry.
   */
  method ReconcileSettings(settings: Settings, t: Topology) returns (updated: Settings)
    ensures updated == Reconciled(settings, t)
  {
    updated := settings;
    var pending := settings.Keys;
    while pending != {}
      invariant pending <= settings.Keys
      invariant updated.Keys == settings.Keys
      invariant forall id :: id in pending ==> updated[id] == settings[id]
      invariant forall id :: id in settings && id !in pending ==> updated[id] == Patched(settings[id], t)
      decreases pending
    {
      var id :| id in pending;
      var notebook := updated[id];
      var properties := notebook.properties;
      if notebook.group == HiveGroup && t.hiveServerHost != "" {
        properties := properties[HiveUrlKey := HiveUrl(t)];
      } else if notebook.group == PhoenixGroup && t.zookeeperZnodeParent != "" && t.hbaseZookeeperQuorum != "" {
        properties := properties[PhoenixUrlKey := PhoenixUrl(t)];
      }
      assert notebook == settings[id];
      assert properties == notebook.properties + Owed(notebook.group, t);
      ghost var previous := updated;
      updated := updated[id := notebook.(properties := properties)];
      assert updated[id] == Patched(settings[id], t);
      assert forall other :: other in previous && other != id ==> updated[other] == previous[other];
      pending := pending - {id};
    }
  }

  /** A hive entry gets the HiveServer2 URL, added if absent, once the host is known. */
  lemma ReconcileSetsHiveUrl(settings: Settings, t: Topology, id: string)
    requires id in settings && settings[id].group == HiveGroup && HiveKnown(t)
    ensures Reconciled(settings, t)[id].properties == settings[id].properties[HiveUrlKey := HiveUrl(t)]
    ensures Reconciled(settings, t)[id].properties[HiveUrlKey] == HiveScheme + t.hiveServerHost + ":" + t.hiveServerPort
  {
    var s := settings[id];
    assert Owed(s.group, t) == map[HiveUrlKey := HiveUrl(t)];
    assert s.properties + map[HiveUrlKey := HiveUrl(t)] == s.properties[HiveUrlKey := HiveUrl(t)];
  }

  /** A phoenix entry gets the Phoenix JDBC URL once both the quorum and the root znode are known. */
  lemma ReconcileSetsPhoenixUrl(settings: Settings, t: Topology, id: string)
    requires id in settings && settings[id].group == PhoenixGroup && PhoenixKnown(t)
    ensures Reconciled(settings, t)[id].properties == settings[id].properties[PhoenixUrlKey := PhoenixUrl(t)]
    ensures Reconciled(settings, t)[id].properties[PhoenixUrlKey] == PhoenixScheme + t.hbaseZookeeperQuorum + ":" + t.zookeeperZnodeParent
  {
    var s := settings[id];
    assert HiveGroup != PhoenixGroup by { assert HiveGroup[0] != PhoenixGroup[0]; }
    assert Owed(s.group, t) == map[PhoenixUrlKey := PhoenixUrl(t)];
    assert s.properties + map[PhoenixUrlKey := PhoenixUrl(t)] == s.properties[PhoenixUrlKey := PhoenixUrl(t)];
  }

  /**
   * Nothing but the one targeted property changes: no property is dropped,
   * at most one key is added, and every other value is kept.
   */
  lemma ReconcileKeepsOtherProperties(settings: Settings, t: Topology, id: string, key: string)
    requires id in settings && key in settings[id].properties
    requires key !in Owed(settings[id].group, t)
    ensures var after := Reconciled(settings, t)[id].properties;
      key in after && after[key] == settings[id].properties[key]
  {
  }

  lemma ReconcileAddsAtMostTheTarget(settings: Settings, t: Topology, id: string)
    requires id in settings
    ensures var before := settings[id].properties;
      var after := Reconciled(settings, t)[id].properties;
      before.Keys <= after.Keys && |after.Keys - before.Keys| <= 1
      && after.Keys - before.Keys <= {HiveUrlKey, PhoenixUrlKey}
  {
    var before := settings[id].properties;
    var after := Reconciled(settings, t)[id].properties;
    var owed := Owed(settings[id].group, t);
    assert after.Keys == before.Keys + owed.Keys;
    if owed == map[] {
      assert after.Keys - before.Keys == {};
    } else if HiveUrlKey in owed {
      assert owed.Keys == {HiveUrlKey};
      assert after.Keys - before.Keys <= {HiveUrlKey};
    } else {
      assert owed.Keys == {PhoenixUrlKey};
      assert after.Keys - before.Keys <= {PhoenixUrlKey};
    }
  }

  /** Entries of any other group, and entries whose topology values are missing, are left as they were. */
  lemma ReconcileLeavesUntargetedEntries(settings: Settings, t: Topology, id: string)
    requires id in settings
    requires var g := settings[id].group;
      (g != HiveGroup && g != PhoenixGroup)
      || (g == HiveGroup && !HiveKnown(t))
      || (g == PhoenixGroup && !PhoenixKnown(t))
    ensures Reconciled(settings, t)[id] == settings[id]
  {
    var s := settings[id];
    assert Owed(s.group, t) == map[];
    assert s.properties + map[] == s.properties;
  }

  /** Reconciling a reconciled document changes nothing: both writes depend on the topology alone. */
  lemma ReconcileIdempotent(settings: Settings, t: Topology)
    ensures Reconciled(Reconciled(settings, t), t) == Reconciled(settings, t)
  {
    var once := Reconciled(settings, t);
    forall id | id in once
      ensures Reconciled(once, t)[id] == once[id]
    {
      var s := settings[id];
      var owed := Owed(s.group, t);
      assert once[id].group == s.group;
      assert (s.properties + owed) + owed == s.properties + owed;
    }
  }

  /**
   * A document with a hive entry "1" carrying an old URL and an entry "2" of
   * another group: with HiveServer2 at h1:10000 only entry "1" changes.
   */
  lemma ReconcileHiveExample()
    ensures var doc := map["1" := Setting("hive", map["hive.hiveserver2.url" := "old"]),
                           "2" := Setting("other", map["x" := "y"])];
      var t := Topology("h1", "10000", "", "");
      var r := Reconciled(doc, t);
      r["1"].properties["hive.hiveserver2.url"] == "jdbc:hive2://h1:10000"
      && r["2"] == doc["2"] && r.Keys == {"1", "2"}
  {
    var doc := map["1" := Setting("hive", map["hive.hiveserver2.url" := "old"]),
                   "2" := Setting("other", map["x" := "y"])];
    var t := Topology("h1", "10000", "", "");
    ReconcileSetsHiveUrl(doc, t, "1");
    ReconcileLeavesUntargetedEntries(doc, t, "2");
  }

  /** The position of the first ':' in `s`, or |s| when there is none. */
  function FirstColon(s: string): (i: nat)
    ensures i <= |s|
    ensures i < |s| ==> s[i] == ':'
    ensures ':' !in s[..i]
  {
    if s == [] then 0
    else if s[0] == ':' then 0
    else
      var i := 1 + FirstColon(s[1..]);
      assert s[..i] == [s[0]] + s[1..][..i - 1];
      i
  }

  lemma {:induction false} FirstColonAfterPlainPrefix(a: string, rest: string)
    requires ':' !in a
    requires |rest| > 0 && rest[0] == ':'
    ensures FirstColon(a + rest) == |a|
    decreases |a|
  {
    if a == [] {
      assert a + rest == rest;
    } else {
      assert (a + rest)[1..] == a[1..] + rest;
      assert a[0] in a;
      assert forall x :: x in a[1..] ==> x in a;
      FirstColonAfterPlainPrefix(a[1..], rest);
    }
  }

  /** Splitting "a:b" at its first colon is unambiguous when `a` has none. */
  lemma SplitAtFirstColon(a: string, b: string, c: string, d: string)
    requires ':' !in a && ':' !in c
    requires a + ":" + b == c + ":" + d
    ensures a == c && b == d
  {
    var s := a + ":" + b;
    assert s == a + (":" + b) && s == c + (":" + d);
    FirstColonAfterPlainPrefix(a, ":" + b);
    FirstColonAfterPlainPrefix(c, ":" + d);
    assert a == s[..|a|] == c;
    assert b == s[|a| + 1..] == d;
  }

  /** A HiveServer2 URL names its host and port unambiguously when hosts carry no ':'. */
  lemma HiveUrlDeterminesEndpoint(t1: Topology, t2: Topology)
    requires ':' !in t1.hiveServerHost && ':' !in t2.hiveServerHost
    requires HiveUrl(t1) == HiveUrl(t2)
    ensures t1.hiveServerHost == t2.hiveServerHost && t1.hiveServerPort == t2.hiveServerPort
  {
    var scheme := HiveScheme;
    assert HiveUrl(t1)[|scheme|..] == t1.hiveServerHost + ":" + t1.hiveServerPort;
    assert HiveUrl(t2)[|scheme|..] == t2.hiveServerHost + ":" + t2.hiveServerPort;
    SplitAtFirstColon(t1.hiveServerHost, t1.hiveServerPort, t2.hiveServerHost, t2.hiveServerPort);
  }

  /** A Phoenix URL names its quorum and root znode unambiguously when quorums carry no ':'. */
  lemma PhoenixUrlDeterminesEndpoint(t1: Topology, t2: Topology)
    requires ':' !in t1.hbaseZookeeperQuorum && ':' !in t2.hbaseZookeeperQuorum
    requires PhoenixUrl(t1) == PhoenixUrl(t2)
    ensures t1.hbaseZookeeperQuorum == t2.hbaseZookeeperQuorum
    ensures t1.zookeeperZnodeParent == t2.zookeeperZnodeParent
  {
    var scheme := PhoenixScheme;
    assert PhoenixUrl(t1)[|scheme|..] == t1.hbaseZookeeperQuorum + ":" + t1.zookeeperZnodeParent;
    assert PhoenixUrl(t2)[|scheme|..] == t2.hbaseZookeeperQuorum + ":" + t2.zookeeperZnodeParent;
    SplitAtFirstColon(t1.hbaseZookeeperQuorum, t1.zookeeperZnodeParent,
                      t2.hbaseZookeeperQuorum, t2.zookeeperZnodeParent);
  }
}
