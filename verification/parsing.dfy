/**
 `parsePluginData` (OctoPrintPowerPlugins.py lines 12-62): rebuilding the plug
 registry from the settings of the supported power plugins.

 Parsing is modelled in two steps. `Discover` lists the records the three loops of
 the source build, in the order they build them, and stops at the first `KeyError`
 (a missing key the source looks up unguarded). `BuildRegistry` then assigns each
 record to the registry under its id, as line 26, 48 or 62 does; a registry that
 was being filled when the error struck keeps what was assigned before it.
 */
module Parsing {
  import opened Wrappers
  import opened OrderedMaps
  import opened Plugs
  import opened Settings
  import opened Records

  /**
   The records parsing has built so far, in the order it built them, and the
   `KeyError` that ended it early, if one did.
   */
  datatype Discovery = Discovery(plugs: seq<Plug>, raised: Option<KeyError>)

  /** What one entry adds to the discovery. */
  function Found(r: EntryOutcome): Discovery
  {
    match r
    case Err(err) => Discovery([], Some(err))
    case Ok(None) => Discovery([], None)
    case Ok(Some(plug)) => Discovery([plug], None)
  }

  /** `a`, then `b` unless `a` was ended by a `KeyError`. */
  function Then(a: Discovery, b: Discovery): Discovery
  {
    if a.raised.Some? then a else Discovery(a.plugs + b.plugs, b.raised)
  }

  /** The single-plug loop (lines 16-26), from row `i` of its table on. */
  function DiscoverSinglePlugs(data: PluginData, i: nat): (d: Discovery)
    requires i <= |SinglePlugTable|
    ensures forall p :: p in d.plugs ==> exists k :: i <= k < |SinglePlugTable| && SinglePlugEntry(data, k) == Ok(Some(p))
    ensures forall p :: p in d.plugs ==> WellFormedPlug(p)
    ensures d.raised.Some? ==> d.raised.value == KeyError("ip")
    decreases |SinglePlugTable| - i
  {
    if i == |SinglePlugTable| then Discovery([], None)
    else Then(Found(SinglePlugEntry(data, i)), DiscoverSinglePlugs(data, i + 1))
  }

  /**
   The loop over a list of entries, given what each entry yields: records are
   kept in entry order, and the first `KeyError` ends the loop.
   */
  function DiscoverAll(outcomes: seq<EntryOutcome>): (d: Discovery)
    ensures forall p :: p in d.plugs ==> Ok(Some(p)) in outcomes
    ensures d.raised.Some? ==> Err(d.raised.value) in outcomes
  {
    if |outcomes| == 0 then Discovery([], None)
    else Then(Found(outcomes[0]), DiscoverAll(outcomes[1..]))
  }

  /** What each `arrSmartplugs` entry yields. */
  function SmartplugOutcomes(lp: ListPlugin, entries: seq<Entry>): (r: seq<EntryOutcome>)
    requires lp in ListPluginTable
    ensures |r| == |entries|
    ensures forall j :: 0 <= j < |entries| ==> r[j] == SmartplugEntry(lp, entries[j])
  {
    seq(|entries|, j requires 0 <= j < |entries| => SmartplugEntry(lp, entries[j]))
  }

  /** The loop over one list plugin's `arrSmartplugs` (lines 38-48). */
  function DiscoverSmartplugs(lp: ListPlugin, entries: seq<Entry>): (d: Discovery)
    requires lp in ListPluginTable
    ensures forall p :: p in d.plugs ==> WellFormedPlug(p) && PluginOf(p) == lp.id
    ensures d.raised.Some? ==> d.raised.value.key in ["ip", "label"] + lp.additional
    ensures forall p :: p in d.plugs ==> exists j :: 0 <= j < |entries| && SmartplugEntry(lp, entries[j]) == Ok(Some(p))
    ensures d.raised.Some? ==> exists j :: 0 <= j < |entries| && SmartplugEntry(lp, entries[j]) == Err(d.raised.value)
  {
    DiscoverAll(SmartplugOutcomes(lp, entries))
  }

  /** One row of the list-plugin table (lines 37-48): read only when the plugin and its `arrSmartplugs` are configured. */
  function DiscoverListPlugin(data: PluginData, lp: ListPlugin): (d: Discovery)
    requires lp in ListPluginTable
    ensures (lp.id !in data || "arrSmartplugs" !in data[lp.id].lists) ==> d == Discovery([], None)
    ensures lp.id in data && "arrSmartplugs" in data[lp.id].lists ==> d == DiscoverSmartplugs(lp, data[lp.id].lists["arrSmartplugs"])
  {
    if lp.id in data && "arrSmartplugs" in data[lp.id].lists then
      DiscoverSmartplugs(lp, data[lp.id].lists["arrSmartplugs"])
    else
      Discovery([], None)
  }

  /** The list-plugin loop (lines 29-48), from row `i` of its table on. */
  function DiscoverListPlugins(data: PluginData, i: nat): (d: Discovery)
    requires i <= |ListPluginTable|
    ensures forall p :: p in d.plugs ==> WellFormedPlug(p) && PluginOf(p) in ListPluginIds()
    ensures d.raised.Some? ==> d.raised.value.key in ["ip", "label", "idx", "username", "password"]
    decreases |ListPluginTable| - i
  {
    if i == |ListPluginTable| then Discovery([], None)
    else
      ListPluginAdditionalFresh(ListPluginTable[i]);
      Then(DiscoverListPlugin(data, ListPluginTable[i]), DiscoverListPlugins(data, i + 1))
  }

  /** What each `arrRelays` entry yields. */
  function RelayOutcomes(entries: seq<Entry>): (r: seq<EntryOutcome>)
    ensures |r| == |entries|
    ensures forall j :: 0 <= j < |entries| ==> r[j] == RelayEntry(entries[j])
  {
    seq(|entries|, j requires 0 <= j < |entries| => RelayEntry(entries[j]))
  }

  /** The loop over `tasmota_mqtt`'s `arrRelays` (lines 54-62). */
  function DiscoverRelays(entries: seq<Entry>): (d: Discovery)
    ensures forall p :: p in d.plugs ==> WellFormedPlug(p) && PluginOf(p) == MqttPluginId
    ensures d.raised.Some? ==> d.raised.value.key in ["topic", "relayN"]
    ensures forall p :: p in d.plugs ==> exists j :: 0 <= j < |entries| && RelayEntry(entries[j]) == Ok(Some(p))
    ensures d.raised.Some? ==> exists j :: 0 <= j < |entries| && RelayEntry(entries[j]) == Err(d.raised.value)
  {
    DiscoverAll(RelayOutcomes(entries))
  }

  /** The `tasmota_mqtt` block (lines 51-62): a configured `tasmota_mqtt` must have `arrRelays`. */
  function DiscoverMqtt(data: PluginData): (d: Discovery)
    ensures MqttPluginId !in data ==> d == Discovery([], None)
    ensures MqttPluginId in data && "arrRelays" !in data[MqttPluginId].lists ==> d == Discovery([], Some(KeyError("arrRelays")))
    ensures MqttPluginId in data && "arrRelays" in data[MqttPluginId].lists ==> d == DiscoverRelays(data[MqttPluginId].lists["arrRelays"])
    ensures forall p :: p in d.plugs ==> WellFormedPlug(p) && PluginOf(p) == MqttPluginId
    ensures d.raised.Some? ==> d.raised.value.key in ["arrRelays", "topic", "relayN"]
  {
    if MqttPluginId !in data then Discovery([], None)
    else if "arrRelays" !in data[MqttPluginId].lists then Discovery([], Some(KeyError("arrRelays")))
    else DiscoverRelays(data[MqttPluginId].lists["arrRelays"])
  }

  /**
   The keys `parsePluginData` reads without first testing for them: `ip` of
   `mystromswitch` (line 21), the fields of a list-plugin item (lines 39 and 47),
   `arrRelays` (line 54) and the fields of a relay (line 55).
   */
  const UnguardedKeys: seq<string> := ["ip", "label", "idx", "username", "password", "arrRelays", "topic", "relayN"]

  /** Every record `parsePluginData` builds, in the order it builds them, up to the first `KeyError`. */
  function Discover(data: PluginData): (d: Discovery)
    ensures forall p :: p in d.plugs ==> WellFormedPlug(p)
    ensures d.raised.Some? ==> d.raised.value.key in UnguardedKeys
  {
    Then(DiscoverSinglePlugs(data, 0), Then(DiscoverListPlugins(data, 0), DiscoverMqtt(data)))
  }


  /** Sequencing discoveries is associative. */
  lemma ThenAssociative(a: Discovery, b: Discovery, c: Discovery)
    ensures Then(Then(a, b), c) == Then(a, Then(b, c))
  {
    assert (a.plugs + b.plugs) + c.plugs == a.plugs + (b.plugs + c.plugs);
  }

  /** The empty discovery is neutral on the left. */
  lemma ThenEmpty(a: Discovery)
    ensures Then(Discovery([], None), a) == a
  {
    assert [] + a.plugs == a.plugs;
  }

  /** The loop over two lists of entries is the loop over the first, then over the second unless the first raised. */
  lemma {:induction false} DiscoverAllAppend(a: seq<EntryOutcome>, b: seq<EntryOutcome>)
    ensures DiscoverAll(a + b) == Then(DiscoverAll(a), DiscoverAll(b))
    decreases |a|
  {
    if |a| == 0 {
      assert a + b == b;
      ThenEmpty(DiscoverAll(b));
    } else {
      assert (a + b)[1..] == a[1..] + b;
      DiscoverAllAppend(a[1..], b);
      ThenAssociative(Found(a[0]), DiscoverAll(a[1..]), DiscoverAll(b));
    }
  }

  /**
   The loop raises exactly when some entry raises, and then it raises the first
   entry's `KeyError`.
   */
  lemma {:induction false} DiscoverAllRaises(outcomes: seq<EntryOutcome>)
    ensures DiscoverAll(outcomes).raised.None? <==> forall j :: 0 <= j < |outcomes| ==> outcomes[j].Ok?
    ensures DiscoverAll(outcomes).raised.Some? ==>
              exists j :: 0 <= j < |outcomes| && outcomes[j] == Err(DiscoverAll(outcomes).raised.value)
                          && forall i :: 0 <= i < j ==> outcomes[i].Ok?
  {
    if |outcomes| > 0 {
      var rest := outcomes[1..];
      DiscoverAllRaises(rest);
      assert forall j :: 1 <= j < |outcomes| ==> outcomes[j] == rest[j - 1];
      if outcomes[0].Ok? && DiscoverAll(rest).raised.Some? {
        var j :| 0 <= j < |rest| && rest[j] == Err(DiscoverAll(rest).raised.value)
                 && forall i :: 0 <= i < j ==> rest[i].Ok?;
        assert outcomes[j + 1] == rest[j];
      }
    }
  }

  /** Every record an entry yields before the first `KeyError` is kept. */
  lemma {:induction false} DiscoverAllKeeps(outcomes: seq<EntryOutcome>, j: int)
    requires 0 <= j < |outcomes|
    requires forall i :: 0 <= i <= j ==> outcomes[i].Ok?
    requires outcomes[j].value.Some?
    ensures outcomes[j].value.value in DiscoverAll(outcomes).plugs
  {
    if j > 0 {
      var rest := outcomes[1..];
      assert forall i :: 0 <= i <= j - 1 ==> rest[i] == outcomes[i + 1];
      DiscoverAllKeeps(rest, j - 1);
    }
  }

  /** With no `KeyError`, each configured list plugin's loop ran to its end and every record it built was kept. */
  lemma {:induction false} ListPluginsInclude(data: PluginData, i: nat, k: nat)
    requires i <= k < |ListPluginTable|
    requires DiscoverListPlugins(data, i).raised.None?
    ensures DiscoverListPlugin(data, ListPluginTable[k]).raised.None?
    ensures forall p :: p in DiscoverListPlugin(data, ListPluginTable[k]).plugs ==> p in DiscoverListPlugins(data, i).plugs
    decreases k - i
  {
    if i < k {
      ListPluginsInclude(data, i + 1, k);
    }
  }

  /**
   When parsing raised no `KeyError`, every entry of a configured list plugin was
   looked at, and each that yields a record had it discovered (lines 37-48).
   */
  lemma SmartplugDiscovered(data: PluginData, lp: ListPlugin, j: int)
    requires Discover(data).raised.None?
    requires lp in ListPluginTable && lp.id in data && "arrSmartplugs" in data[lp.id].lists
    requires 0 <= j < |data[lp.id].lists["arrSmartplugs"]|
    ensures SmartplugEntry(lp, data[lp.id].lists["arrSmartplugs"][j]).Ok?
    ensures var r := SmartplugEntry(lp, data[lp.id].lists["arrSmartplugs"][j]);
      r.value.Some? ==> r.value.value in Discover(data).plugs
  {
    var entries := data[lp.id].lists["arrSmartplugs"];
    var k :| 0 <= k < |ListPluginTable| && ListPluginTable[k] == lp;
    ListPluginsInclude(data, 0, k);
    var outcomes := SmartplugOutcomes(lp, entries);
    DiscoverAllRaises(outcomes);
    assert outcomes[j] == SmartplugEntry(lp, entries[j]);
    if outcomes[j].Ok? && outcomes[j].value.Some? {
      DiscoverAllKeeps(outcomes, j);
    }
  }

  /**
   When parsing raised no `KeyError` and `tasmota_mqtt` is configured, every relay
   was looked at, and each that yields a record had it discovered (lines 51-62).
   */
  lemma RelayDiscovered(data: PluginData, j: int)
    requires Discover(data).raised.None?
    requires MqttPluginId in data
    ensures "arrRelays" in data[MqttPluginId].lists
    ensures 0 <= j < |data[MqttPluginId].lists["arrRelays"]| ==>
      && RelayEntry(data[MqttPluginId].lists["arrRelays"][j]).Ok?
      && var r := RelayEntry(data[MqttPluginId].lists["arrRelays"][j]);
         r.value.Some? ==> r.value.value in Discover(data).plugs
  {
    if 0 <= j < |data[MqttPluginId].lists["arrRelays"]| {
      var outcomes := RelayOutcomes(data[MqttPluginId].lists["arrRelays"]);
      DiscoverAllRaises(outcomes);
      if outcomes[j].Ok? && outcomes[j].value.Some? {
        DiscoverAllKeeps(outcomes, j);
      }
    }
  }

  /** The first row of the single-plug table never raises. */
  lemma PsuControlNeverRaises(data: PluginData)
    ensures SinglePlugEntry(data, 0).Ok?
  {
  }

  /** A record the single-plug loop builds is discovered. */
  lemma SinglePlugKept(data: PluginData, k: nat)
    requires k < |SinglePlugTable|
    requires SinglePlugEntry(data, k).Ok? && SinglePlugEntry(data, k).value.Some?
    ensures SinglePlugEntry(data, k).value.value in Discover(data).plugs
  {
    PsuControlNeverRaises(data);
    var p := SinglePlugEntry(data, k).value.value;
    assert p in DiscoverSinglePlugs(data, k).plugs;
    if k == 1 {
      assert DiscoverSinglePlugs(data, 0).plugs == Found(SinglePlugEntry(data, 0)).plugs + DiscoverSinglePlugs(data, 1).plugs;
    }
  }

  /** Only its own row builds records of a single-plug plugin. */
  lemma DiscoveredSinglePlug(data: PluginData, k: nat, p: Plug)
    requires k < |SinglePlugTable|
    requires p in Discover(data).plugs && HasPluginFirst(p) && PluginOf(p) == SinglePlugTable[k].0
    ensures SinglePlugEntry(data, k) == Ok(Some(p))
  {
    SinglePlugKeys();
    ListPluginIdsDistinct();
    assert p in DiscoverSinglePlugs(data, 0).plugs;
  }

  /** Some item of `lp`'s configured `arrSmartplugs` yields `p` (lines 37-48). */
  predicate SmartplugYields(data: PluginData, lp: ListPlugin, p: Plug)
    requires lp in ListPluginTable
  {
    && lp.id in data && "arrSmartplugs" in data[lp.id].lists
    && var entries := data[lp.id].lists["arrSmartplugs"];
       exists j :: 0 <= j < |entries| && SmartplugEntry(lp, entries[j]) == Ok(Some(p))
  }

  /** Some item of `lp`'s configured `arrSmartplugs` raises `err` (lines 39 and 47). */
  predicate SmartplugRaises(data: PluginData, lp: ListPlugin, err: KeyError)
    requires lp in ListPluginTable
  {
    && lp.id in data && "arrSmartplugs" in data[lp.id].lists
    && var entries := data[lp.id].lists["arrSmartplugs"];
       exists j :: 0 <= j < |entries| && SmartplugEntry(lp, entries[j]) == Err(err)
  }

  /** Some item of the configured `tasmota_mqtt`'s `arrRelays` yields `p` (lines 51-62). */
  predicate RelayYields(data: PluginData, p: Plug)
  {
    && MqttPluginId in data && "arrRelays" in data[MqttPluginId].lists
    && var entries := data[MqttPluginId].lists["arrRelays"];
       exists j :: 0 <= j < |entries| && RelayEntry(entries[j]) == Ok(Some(p))
  }

  /** The configured `tasmota_mqtt` raises `err`: it lacks `arrRelays` (line 54), or one of its relays raises it (line 55). */
  predicate MqttRaises(data: PluginData, err: KeyError)
  {
    && MqttPluginId in data
    && if "arrRelays" !in data[MqttPluginId].lists then err == KeyError("arrRelays")
       else
         var entries := data[MqttPluginId].lists["arrRelays"];
         exists j :: 0 <= j < |entries| && RelayEntry(entries[j]) == Err(err)
  }

  /** What the list-plugin loop from row `i` on builds or raises comes from the items of those rows. */
  lemma {:induction false} ListPluginsFrom(data: PluginData, i: nat)
    requires i <= |ListPluginTable|
    ensures forall p :: p in DiscoverListPlugins(data, i).plugs ==>
              exists k :: i <= k < |ListPluginTable| && SmartplugYields(data, ListPluginTable[k], p)
    ensures DiscoverListPlugins(data, i).raised.Some? ==>
              exists k :: i <= k < |ListPluginTable| && SmartplugRaises(data, ListPluginTable[k], DiscoverListPlugins(data, i).raised.value)
    decreases |ListPluginTable| - i
  {
    if i < |ListPluginTable| {
      ListPluginsFrom(data, i + 1);
      var lp := ListPluginTable[i];
      var a := DiscoverListPlugin(data, lp);
      var rest := DiscoverListPlugins(data, i + 1);
      assert DiscoverListPlugins(data, i) == Then(a, rest);
      forall p | p in DiscoverListPlugins(data, i).plugs
        ensures exists k :: i <= k < |ListPluginTable| && SmartplugYields(data, ListPluginTable[k], p)
      {
        if p in a.plugs {
          assert SmartplugYields(data, ListPluginTable[i], p);
        } else {
          var k :| i + 1 <= k < |ListPluginTable| && SmartplugYields(data, ListPluginTable[k], p);
        }
      }
      if a.raised.Some? {
        assert SmartplugRaises(data, ListPluginTable[i], a.raised.value);
      }
    }
  }

  /** The single-plug loop raises only at a configured `mystromswitch` without `ip` (line 21). */
  lemma SinglePlugsRaise(data: PluginData)
    requires DiscoverSinglePlugs(data, 0).raised.Some?
    ensures "mystromswitch" in data && "ip" !in data["mystromswitch"].values
    ensures DiscoverSinglePlugs(data, 0).raised.value == KeyError("ip")
  {
    PsuControlNeverRaises(data);
    assert DiscoverSinglePlugs(data, 2) == Discovery([], None);
    assert SinglePlugEntry(data, 1).Err?;
  }

  /** A discovered record of a list plugin was built by the list-plugin loop. */
  lemma InListPlugins(data: PluginData, p: Plug)
    requires p in Discover(data).plugs && HasPluginFirst(p) && PluginOf(p) in ListPluginIds()
    ensures p in DiscoverListPlugins(data, 0).plugs
  {
    SinglePlugKeys();
    ListPluginIdsDistinct();
    assert p !in DiscoverSinglePlugs(data, 0).plugs;
    assert p !in DiscoverMqtt(data).plugs;
  }

  /** Only its own row of the table builds records of a list plugin. */
  lemma RowOfListPlugin(data: PluginData, lp: ListPlugin, other: ListPlugin, p: Plug)
    requires lp in ListPluginTable && other in ListPluginTable
    requires HasPluginFirst(p) && PluginOf(p) == lp.id
    requires SmartplugYields(data, other, p)
    ensures other == lp
  {
    var entries := data[other.id].lists["arrSmartplugs"];
    var j :| 0 <= j < |entries| && SmartplugEntry(other, entries[j]) == Ok(Some(p));
    ListPluginIdInjective(lp, other);
  }

  /** No two rows of the list-plugin table share a plugin key. */
  lemma ListPluginIdInjective(a: ListPlugin, b: ListPlugin)
    requires a in ListPluginTable && b in ListPluginTable && a.id == b.id
    ensures a == b
  {
    ListPluginIdsDistinct();
    var lo := ListPluginIds();
    var i :| 0 <= i < |ListPluginTable| && ListPluginTable[i] == a;
    var k :| 0 <= k < |ListPluginTable| && ListPluginTable[k] == b;
    assert lo[i] == a.id && lo[k] == b.id;
  }

  /**
   A discovered record of a list plugin is the record one item of that plugin's
   configured `arrSmartplugs` builds (lines 37-48).
   */
  lemma DiscoveredSmartplug(data: PluginData, lp: ListPlugin, p: Plug)
    requires lp in ListPluginTable
    requires p in Discover(data).plugs && HasPluginFirst(p) && PluginOf(p) == lp.id
    ensures SmartplugYields(data, lp, p)
  {
    var i :| 0 <= i < |ListPluginTable| && ListPluginTable[i] == lp;
    assert ListPluginIds()[i] == lp.id;
    InListPlugins(data, p);
    ListPluginsFrom(data, 0);
    var k :| 0 <= k < |ListPluginTable| && SmartplugYields(data, ListPluginTable[k], p);
    RowOfListPlugin(data, lp, ListPluginTable[k], p);
  }

  /** A discovered Tasmota MQTT record is the record one relay of the configured `arrRelays` builds (lines 51-62). */
  lemma DiscoveredRelay(data: PluginData, p: Plug)
    requires p in Discover(data).plugs && HasPluginFirst(p) && PluginOf(p) == MqttPluginId
    ensures RelayYields(data, p)
  {
    SinglePlugKeys();
    ListPluginIdsDistinct();
    assert p !in DiscoverSinglePlugs(data, 0).plugs;
    assert p !in DiscoverListPlugins(data, 0).plugs;
    assert p in DiscoverMqtt(data).plugs;
  }

  /**
   Parsing raises only where the source reads a key without a guard: a configured
   `mystromswitch` without `ip` (line 21), an item of a configured list plugin
   (lines 39 and 47), or the configured `tasmota_mqtt` (lines 54-55).
   */
  lemma DiscoverRaisedFrom(data: PluginData)
    requires Discover(data).raised.Some?
    ensures var err := Discover(data).raised.value;
      || ("mystromswitch" in data && "ip" !in data["mystromswitch"].values && err == KeyError("ip"))
      || (exists lp :: lp in ListPluginTable && SmartplugRaises(data, lp, err))
      || MqttRaises(data, err)
  {
    var single := DiscoverSinglePlugs(data, 0);
    var lists := DiscoverListPlugins(data, 0);
    if single.raised.Some? {
      SinglePlugsRaise(data);
    } else if lists.raised.Some? {
      ListPluginsFrom(data, 0);
      var k :| 0 <= k < |ListPluginTable| && SmartplugRaises(data, ListPluginTable[k], lists.raised.value);
      assert ListPluginTable[k] in ListPluginTable;
    }
  }

  /** The id of each discovered record, in discovery order. */
  function Ids(ps: seq<Plug>): (ids: seq<string>)
    ensures |ids| == |ps|
    ensures forall i :: 0 <= i < |ps| ==> ids[i] == CreatePlugId(ps[i])
  {
    seq(|ps|, i requires 0 <= i < |ps| => CreatePlugId(ps[i]))
  }

  /** Each record paired with its id, as lines 26, 48 and 62 assign it. */
  function Keyed(ps: seq<Plug>): (r: Registry)
    ensures Keys(r) == Ids(ps)
    ensures forall i :: 0 <= i < |ps| ==> r[i] == (CreatePlugId(ps[i]), ps[i])
  {
    seq(|ps|, i requires 0 <= i < |ps| => (CreatePlugId(ps[i]), ps[i]))
  }

  /** The registry parsing leaves behind, and the `KeyError` it raised, if any. */
  datatype Parsed = Parsed(plugs: Registry, raised: Option<KeyError>)

  /**
   `parsePluginData` (lines 12-62): the registry starts empty and every discovered
   record is assigned under its id, in discovery order.
   */
  function BuildRegistry(data: PluginData): (r: Parsed)
    ensures UniqueKeys(r.plugs)
    ensures forall e :: e in r.plugs ==> e.0 == CreatePlugId(e.1) && e.1 in Discover(data).plugs
    ensures forall e :: e in r.plugs ==> WellFormedPlug(e.1)
    ensures r.raised == Discover(data).raised
  {
    var d := Discover(data);
    KeyedRegistry(d.plugs);
    Parsed(PutAll([], Keyed(d.plugs)), d.raised)
  }

  /** Assigning well-formed records under their ids gives a registry of exactly those records. */
  lemma KeyedRegistry(ps: seq<Plug>)
    requires forall p :: p in ps ==> WellFormedPlug(p)
    ensures UniqueKeys(PutAll([], Keyed(ps)))
    ensures forall e :: e in PutAll([], Keyed(ps)) ==> e.0 == CreatePlugId(e.1) && e.1 in ps && WellFormedPlug(e.1)
  {
    forall e | e in PutAll([], Keyed(ps))
      ensures e.0 == CreatePlugId(e.1) && e.1 in ps
    {
      assert e in Keyed(ps);
    }
  }

  /** The registry's ids are exactly the ids of the discovered records. */
  lemma RegistryKeys(data: PluginData, id: string)
    ensures id in Keys(BuildRegistry(data).plugs) <==> id in Ids(Discover(data).plugs)
  {
    PutAllKeys([], Keyed(Discover(data).plugs));
  }

  /**
   Under each id the registry holds the last discovered record with that id:
   a later record with the same id replaces the earlier one's value.
   */
  lemma RegistryLastWins(data: PluginData, id: string)
    requires id in Keys(BuildRegistry(data).plugs)
    ensures var ps := Discover(data).plugs;
      exists i :: 0 <= i < |ps| && Get(BuildRegistry(data).plugs, id) == Some(ps[i]) && CreatePlugId(ps[i]) == id
                  && forall j :: i < j < |ps| ==> CreatePlugId(ps[j]) != id
  {
    RegistryKeys(data, id);
    KeyedLastWins(Discover(data).plugs, id);
  }

  lemma KeyedLastWins(ps: seq<Plug>, id: string)
    requires id in Ids(ps)
    ensures exists i :: 0 <= i < |ps| && Get(PutAll([], Keyed(ps)), id) == Some(ps[i]) && CreatePlugId(ps[i]) == id
                        && forall j :: i < j < |ps| ==> CreatePlugId(ps[j]) != id
  {
    var keyed := Keyed(ps);
    PutAllGet([], keyed, id);
    var v := LastValue(keyed, id).value;
    var i :| 0 <= i < |keyed| && keyed[i] == (id, v) && forall j :: i < j < |keyed| ==> keyed[j].0 != id;
    assert forall j :: i < j < |ps| ==> CreatePlugId(ps[j]) == keyed[j].0;
    assert v == ps[i];
  }

  /**
   Ids keep the position of their first discovery: of two registered ids, the one
   discovered first comes first, whatever replaced its value later.
   */
  lemma RegistryOrder(data: PluginData, a: string, b: string)
    requires a in Keys(BuildRegistry(data).plugs) && b in Keys(BuildRegistry(data).plugs)
    ensures var keys, ids := Keys(BuildRegistry(data).plugs), Ids(Discover(data).plugs);
      IndexOf(keys, a) < IndexOf(keys, b) <==> IndexOf(ids, a) < IndexOf(ids, b)
  {
    RegistryKeys(data, a);
    RegistryKeys(data, b);
    PutAllKeys([], Keyed(Discover(data).plugs));
    AddNewOrder(Ids(Discover(data).plugs), a, b);
  }

  /** A discovered record's id is registered. */
  lemma DiscoveredRegistered(data: PluginData, p: Plug)
    requires p in Discover(data).plugs
    ensures CreatePlugId(p) in Keys(BuildRegistry(data).plugs)
  {
    var ps := Discover(data).plugs;
    var i :| 0 <= i < |ps| && ps[i] == p;
    assert Ids(ps)[i] == CreatePlugId(p);
    RegistryKeys(data, CreatePlugId(p));
  }

  /**
   A single-plug plugin is registered, under its own plugin key, exactly when its
   row of the table builds a record (lines 16-26), whatever the rest of parsing does.
   */
  lemma SinglePlugRegistered(data: PluginData, k: nat)
    requires k < |SinglePlugTable|
    ensures var id, r := SinglePlugTable[k].0, SinglePlugEntry(data, k);
      Get(BuildRegistry(data).plugs, id) == if r.Ok? && r.value.Some? then Some(r.value.value) else None
  {
    var id := SinglePlugTable[k].0;
    var r := SinglePlugEntry(data, k);
    var reg := BuildRegistry(data).plugs;
    var ps := Discover(data).plugs;
    SinglePlugKeys();
    KindHasNoSlash(id);
    IdKindOfPrefix(id, "");
    assert id + "" == id;
    if id in Keys(reg) {
      RegistryLastWins(data, id);
      var i :| 0 <= i < |ps| && Get(reg, id) == Some(ps[i]) && CreatePlugId(ps[i]) == id;
      KindOfId(ps[i]);
      DiscoveredSinglePlug(data, k, ps[i]);
    } else if r.Ok? && r.value.Some? {
      SinglePlugKept(data, k);
      SinglePlugId(id, SinglePlugTable[k].1);
      DiscoveredRegistered(data, r.value.value);
    }
  }

  /** A `psucontrol` record is registered under `psucontrol` iff the plugin is configured (lines 16-26). */
  lemma PsuControlRegistered(data: PluginData)
    ensures Get(BuildRegistry(data).plugs, "psucontrol")
         == if "psucontrol" in data then Some(SinglePlugRecord("psucontrol", "PSU Control")) else None
  {
    SinglePlugRegistered(data, 0);
  }

  /**
   A `mystromswitch` record is registered under `mystromswitch` iff the plugin is
   configured with a non-empty `ip`; a configured plugin without `ip` raises.
   */
  lemma MystromRegistered(data: PluginData)
    ensures Get(BuildRegistry(data).plugs, "mystromswitch")
         == if "mystromswitch" in data && "ip" in data["mystromswitch"].values && Truthy(data["mystromswitch"].values["ip"])
            then Some(SinglePlugRecord("mystromswitch", "MyStrom Switch"))
            else None
    ensures "mystromswitch" in data && "ip" !in data["mystromswitch"].values ==>
              BuildRegistry(data).raised == Some(KeyError("ip"))
  {
    SinglePlugRegistered(data, 1);
    PsuControlNeverRaises(data);
  }

  /**
   When parsing raised no `KeyError`, every list-plugin entry with non-empty `ip`
   and `label` has its record registered under the id `plugin/label/ip[/extras]`.
   */
  lemma SmartplugRegistered(data: PluginData, lp: ListPlugin, j: int)
    requires Discover(data).raised.None?
    requires lp in ListPluginTable && lp.id in data && "arrSmartplugs" in data[lp.id].lists
    requires 0 <= j < |data[lp.id].lists["arrSmartplugs"]|
    ensures var e := data[lp.id].lists["arrSmartplugs"][j];
      "ip" in e && Truthy(e["ip"]) && "label" in e && Truthy(e["label"]) ==>
        && (forall k :: k in lp.additional ==> k in e)
        && Join("/", [lp.id, e["label"], e["ip"]] + ValuesOf(lp.additional, e)) in Keys(BuildRegistry(data).plugs)
    ensures forall r :: r in BuildRegistry(data).plugs && PluginOf(r.1) == lp.id ==> SmartplugYields(data, lp, r.1)
  {
    forall r | r in BuildRegistry(data).plugs && PluginOf(r.1) == lp.id
      ensures SmartplugYields(data, lp, r.1)
    {
      DiscoveredSmartplug(data, lp, r.1);
    }
    var e := data[lp.id].lists["arrSmartplugs"][j];
    SmartplugDiscovered(data, lp, j);
    var r := SmartplugEntry(lp, e);
    if r.value.Some? {
      SmartplugId(lp, e);
      DiscoveredRegistered(data, r.value.value);
    }
  }

  /**
   When parsing raised no `KeyError`, every relay with non-empty `topic` and
   `relayN` has its record registered under `tasmota_mqtt/relayN/relayN`.
   */
  lemma RelayRegistered(data: PluginData, j: int)
    requires Discover(data).raised.None?
    requires MqttPluginId in data
    ensures "arrRelays" in data[MqttPluginId].lists
    ensures 0 <= j < |data[MqttPluginId].lists["arrRelays"]| ==>
      var e := data[MqttPluginId].lists["arrRelays"][j];
      "topic" in e && Truthy(e["topic"]) && "relayN" in e && e["relayN"] != "" ==>
        MqttPluginId + "/" + e["relayN"] + "/" + e["relayN"] in Keys(BuildRegistry(data).plugs)
    ensures forall r :: r in BuildRegistry(data).plugs && PluginOf(r.1) == MqttPluginId ==> RelayYields(data, r.1)
  {
    forall r | r in BuildRegistry(data).plugs && PluginOf(r.1) == MqttPluginId
      ensures RelayYields(data, r.1)
    {
      DiscoveredRelay(data, r.1);
    }
    RelayDiscovered(data, j);
    if 0 <= j < |data[MqttPluginId].lists["arrRelays"]| {
      var e := data[MqttPluginId].lists["arrRelays"][j];
      var r := RelayEntry(e);
      if r.value.Some? {
        RelayId(e["topic"], e["relayN"]);
        DiscoveredRegistered(data, r.value.value);
      }
    }
  }

  /** Where a record's plugin comes in the order parsing visits the plugins (-1 for none). */
  function Rank(p: Plug): int
  {
    if HasPluginFirst(p) then IndexOf(PluginKeys, PluginOf(p)) else -1
  }

  /** Every record's rank lies in `lo..hi`. */
  predicate RankedWithin(ps: seq<Plug>, lo: int, hi: int)
  {
    forall p :: p in ps ==> lo <= Rank(p) <= hi
  }

  /** The records come in the order of their plugins. */
  predicate RankSorted(ps: seq<Plug>)
  {
    forall i, j :: 0 <= i < j < |ps| ==> Rank(ps[i]) <= Rank(ps[j])
  }

  /** A discovery sorted by plugin, with every plugin's rank in `lo..hi`. */
  predicate Ordered(d: Discovery, lo: int, hi: int)
  {
    RankSorted(d.plugs) && RankedWithin(d.plugs, lo, hi)
  }

  lemma PluginKeysDistinct()
    ensures NoDuplicates(PluginKeys)
    ensures PluginKeys == Keys(SinglePlugTable) + ListPluginIds() + [MqttPluginId]
  {
    SinglePlugKeys();
    assert ListPluginIds() == ["tplinksmartplug", "orvibos20", "wemoswitch", "tuyasmartplug", "domoticz", "tasmota"];
  }

  /** The ranks of the table rows: single plugs 0-1, list plugins 2-7, `tasmota_mqtt` 8. */
  lemma PluginRank(k: nat)
    requires k < |PluginKeys|
    ensures IndexOf(PluginKeys, PluginKeys[k]) == k
    ensures k < |SinglePlugTable| ==> PluginKeys[k] == SinglePlugTable[k].0
    ensures |SinglePlugTable| <= k < |SinglePlugTable| + |ListPluginTable| ==> PluginKeys[k] == ListPluginTable[k - 2].id
    ensures k == |PluginKeys| - 1 ==> PluginKeys[k] == MqttPluginId
  {
    PluginKeysDistinct();
    IndexOfUnique(PluginKeys, PluginKeys[k], k);
  }

  /** Sequencing two sorted discoveries whose ranks do not overlap stays sorted. */
  lemma ThenSorted(a: Discovery, b: Discovery, lo: int, mid: int, hi: int)
    requires Ordered(a, lo, mid) && Ordered(b, mid, hi) && lo <= mid <= hi
    ensures Ordered(Then(a, b), lo, hi)
  {
    if a.raised.None? {
      var c := a.plugs + b.plugs;
      forall i, j | 0 <= i < j < |c|
        ensures Rank(c[i]) <= Rank(c[j])
      {
        if j < |a.plugs| {
          assert c[i] == a.plugs[i] && c[j] == a.plugs[j];
        } else if i >= |a.plugs| {
          assert c[i] == b.plugs[i - |a.plugs|] && c[j] == b.plugs[j - |a.plugs|];
        } else {
          assert c[i] in a.plugs && c[j] in b.plugs;
        }
      }
      forall p | p in c
        ensures lo <= Rank(p) <= hi
      {
        assert p in a.plugs || p in b.plugs;
      }
    }
  }

  lemma {:induction false} SinglePlugsSorted(data: PluginData, i: nat)
    requires i <= |SinglePlugTable|
    ensures Ordered(DiscoverSinglePlugs(data, i), i, 1)
    decreases |SinglePlugTable| - i
  {
    if i < |SinglePlugTable| {
      SinglePlugsSorted(data, i + 1);
      SinglePlugRowSorted(data, i);
      ThenSorted(Found(SinglePlugEntry(data, i)), DiscoverSinglePlugs(data, i + 1), i, i, 1);
    }
  }

  lemma SinglePlugRowSorted(data: PluginData, i: nat)
    requires i < |SinglePlugTable|
    ensures Ordered(Found(SinglePlugEntry(data, i)), i, i)
  {
    PluginRank(i);
  }

  lemma ListPluginRowSorted(data: PluginData, k: nat)
    requires k < |ListPluginTable|
    ensures Ordered(DiscoverListPlugin(data, ListPluginTable[k]), k + 2, k + 2)
  {
    var ps := DiscoverListPlugin(data, ListPluginTable[k]).plugs;
    PluginRank(k + 2);
    forall p | p in ps
      ensures Rank(p) == k + 2
    {
      RankOf(p, k + 2);
    }
    SameRankSorted(ps, k + 2);
  }

  lemma RankOf(p: Plug, k: nat)
    requires k < |PluginKeys|
    requires HasPluginFirst(p) && PluginOf(p) == PluginKeys[k]
    ensures Rank(p) == k
  {
    PluginRank(k);
  }

  lemma SameRankSorted(ps: seq<Plug>, r: int)
    requires RankedWithin(ps, r, r)
    ensures RankSorted(ps)
  {
    forall i, j | 0 <= i < j < |ps|
      ensures Rank(ps[i]) <= Rank(ps[j])
    {
      assert ps[i] in ps && ps[j] in ps;
    }
  }

  /** The discoveries of `rows`, one after another, each unless an earlier one raised. */
  function ThenAll(rows: seq<Discovery>): Discovery
  {
    if |rows| == 0 then Discovery([], None) else Then(rows[0], ThenAll(rows[1..]))
  }

  /** What each row of the list-plugin table discovers, from row `i` on. */
  function ListPluginRows(data: PluginData, i: nat): (rows: seq<Discovery>)
    requires i <= |ListPluginTable|
    ensures |rows| == |ListPluginTable| - i
  {
    seq(|ListPluginTable| - i, k requires 0 <= k < |ListPluginTable| - i => DiscoverListPlugin(data, ListPluginTable[i + k]))
  }

  /** The list-plugin loop is its rows' discoveries one after another. */
  lemma {:induction false} ListPluginsAsRows(data: PluginData, i: nat)
    requires i <= |ListPluginTable|
    ensures DiscoverListPlugins(data, i) == ThenAll(ListPluginRows(data, i))
    decreases |ListPluginTable| - i
  {
    if i < |ListPluginTable| {
      ListPluginsAsRows(data, i + 1);
      assert ListPluginRows(data, i)[1..] == ListPluginRows(data, i + 1);
    }
  }

  /** Discoveries of ranks `lo`, `lo + 1`, ... in turn are sorted within `lo..lo + |rows| - 1`. */
  lemma {:induction false} ThenAllSorted(rows: seq<Discovery>, lo: int)
    requires forall k :: 0 <= k < |rows| ==> Ordered(rows[k], lo + k, lo + k)
    ensures Ordered(ThenAll(rows), lo, lo + |rows| - 1)
    decreases |rows|
  {
    if |rows| > 0 {
      var hi := lo + |rows| - 1;
      ThenAllSorted(rows[1..], lo + 1);
      var rest := ThenAll(rows[1..]);
      assert RankedWithin(rest.plugs, lo, hi);
      ThenSorted(rows[0], rest, lo, lo, hi);
    }
  }

  /** The list plugins' records come in table order. */
  lemma ListPluginsSorted(data: PluginData)
    ensures Ordered(DiscoverListPlugins(data, 0), 2, 7)
  {
    var rows := ListPluginRows(data, 0);
    ListPluginsAsRows(data, 0);
    forall k | 0 <= k < |rows|
      ensures Ordered(rows[k], 2 + k, 2 + k)
    {
      ListPluginRowSorted(data, k);
    }
    ThenAllSorted(rows, 2);
  }

  lemma MqttSorted(data: PluginData)
    ensures Ordered(DiscoverMqtt(data), 8, 8)
  {
    var ps := DiscoverMqtt(data).plugs;
    PluginRank(8);
    forall p | p in ps
      ensures Rank(p) == 8
    {
      RankOf(p, 8);
    }
    SameRankSorted(ps, 8);
  }

  /**
   Records are discovered plugin by plugin: the single-plug table, then the
   list-plugin table in order, then `tasmota_mqtt`.
   */
  lemma DiscoverSorted(data: PluginData)
    ensures RankSorted(Discover(data).plugs)
  {
    SinglePlugsSorted(data, 0);
    ListPluginsSorted(data);
    MqttSorted(data);
    ThenSorted(DiscoverListPlugins(data, 0), DiscoverMqtt(data), 2, 8, 8);
    ThenSorted(DiscoverSinglePlugs(data, 0), Then(DiscoverListPlugins(data, 0), DiscoverMqtt(data)), 0, 2, 8);
  }

  /**
   The registry lists its records plugin by plugin, in the order parsing visits the
   plugins (lines 16-62); within a plugin, ids keep their first discovery's place.
   */
  lemma RegistrySorted(data: PluginData)
    ensures var reg := BuildRegistry(data).plugs;
      forall i, j :: 0 <= i < j < |reg| ==> Rank(reg[i].1) <= Rank(reg[j].1)
  {
    var reg := BuildRegistry(data).plugs;
    forall i, j | 0 <= i < j < |reg|
      ensures Rank(reg[i].1) <= Rank(reg[j].1)
    {
      RegistryPairSorted(data, i, j);
    }
  }

  lemma RegistryPairSorted(data: PluginData, i: int, j: int)
    requires 0 <= i < j < |BuildRegistry(data).plugs|
    ensures Rank(BuildRegistry(data).plugs[i].1) <= Rank(BuildRegistry(data).plugs[j].1)
  {
    var reg := BuildRegistry(data).plugs;
    var ps := Discover(data).plugs;
    var ia, ib := FirstDiscoveries(data, i, j);
    DiscoverSorted(data);
    assert reg[i] in reg && reg[j] in reg;
    SameIdSameRank(reg[i].1, ps[ia]);
    SameIdSameRank(reg[j].1, ps[ib]);
  }

  /** The first discoveries of two registered ids come in the registry's order. */
  lemma FirstDiscoveries(data: PluginData, i: int, j: int) returns (ia: int, ib: int)
    requires 0 <= i < j < |BuildRegistry(data).plugs|
    ensures 0 <= ia < ib < |Discover(data).plugs|
    ensures CreatePlugId(Discover(data).plugs[ia]) == BuildRegistry(data).plugs[i].0
    ensures CreatePlugId(Discover(data).plugs[ib]) == BuildRegistry(data).plugs[j].0
  {
    var reg := BuildRegistry(data).plugs;
    var ids := Ids(Discover(data).plugs);
    var a, b := reg[i].0, reg[j].0;
    KeyIndex(reg, i);
    KeyIndex(reg, j);
    RegistryOrder(data, a, b);
    RegistryKeys(data, a);
    RegistryKeys(data, b);
    ia, ib := IndexOf(ids, a), IndexOf(ids, b);
  }

  /** In a map with unique keys, a key's first position is its position. */
  lemma KeyIndex(m: Registry, i: int)
    requires UniqueKeys(m) && 0 <= i < |m|
    ensures IndexOf(Keys(m), m[i].0) == i
  {
    IndexOfUnique(Keys(m), m[i].0, i);
  }

  /** Records with the same id belong to the same plugin. */
  lemma SameIdSameRank(p: Plug, q: Plug)
    requires WellFormedPlug(p) && WellFormedPlug(q)
    requires CreatePlugId(p) == CreatePlugId(q)
    ensures Rank(p) == Rank(q)
  {
    KindOfId(p);
    KindOfId(q);
  }
}
