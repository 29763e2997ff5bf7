/**
 The record each supported power plugin's settings yield in `parsePluginData`
 (OctoPrintPowerPlugins.py lines 16-62): the fixed plugin tables, which entries
 yield a record, the record's fields in order, and the `KeyError` an entry
 missing a looked-up key raises.
 */
module Records {
  import opened Wrappers
  import opened OrderedMaps
  import opened Plugs
  import opened Settings

  /** Plugins that control a single plug: plugin key and plugin name (lines 16-19). */
  const SinglePlugTable: OrderedMap<string, string> := [
    ("psucontrol", "PSU Control"),
    ("mystromswitch", "MyStrom Switch")
  ]

  /** A plugin that keeps a list of plugs under `arrSmartplugs` (lines 29-36). */
  datatype ListPlugin = ListPlugin(id: string, name: string, additional: seq<string>)

  const ListPluginTable: seq<ListPlugin> := [
    ListPlugin("tplinksmartplug", "TP-Link Smartplug", []),
    ListPlugin("orvibos20", "Orvibo S20", []),
    ListPlugin("wemoswitch", "Wemo Switch", []),
    ListPlugin("tuyasmartplug", "Tuya Smartplug", []),
    ListPlugin("domoticz", "Domoticz", ["idx"]),
    ListPlugin("tasmota", "Tasmota", ["idx", "username", "password"])
  ]

  /** The plugin with its own settings dialect (lines 51-53). */
  const MqttPluginId := "tasmota_mqtt"
  const MqttPluginName := "Tasmota MQTT"

  /** The plugin keys of the list-plugin table, in table order. */
  function ListPluginIds(): (ids: seq<string>)
    ensures |ids| == |ListPluginTable|
    ensures forall i :: 0 <= i < |ids| ==> ids[i] == ListPluginTable[i].id
  {
    seq(|ListPluginTable|, i requires 0 <= i < |ListPluginTable| => ListPluginTable[i].id)
  }

  /** The fields, in order, of a record that parsing builds for a plugin of this kind. */
  function RecordFieldNames(kind: string): Option<seq<string>>
  {
    var i := IndexOf(ListPluginIds(), kind);
    if kind in Keys(SinglePlugTable) then Some(["plugin", "name"])
    else if kind == MqttPluginId then Some(["plugin", "name", "topic", "relayN"])
    else if i >= 0 then Some(["plugin", "name", "label", "ip"] + ListPluginTable[i].additional)
    else None
  }

  /** A record of the shape parsing gives its plugin kind. */
  predicate WellFormedPlug(plug: Plug)
  {
    HasPluginFirst(plug) && RecordFieldNames(plug[0].1) == Some(Keys(plug))
  }

  /** The plugin key a record belongs to. */
  function PluginOf(plug: Plug): string
    requires HasPluginFirst(plug)
  {
    plug[0].1
  }

  /** Every plugin key parsing knows, in the order parsing visits the plugins. */
  const PluginKeys: seq<string> := [
    "psucontrol", "mystromswitch",
    "tplinksmartplug", "orvibos20", "wemoswitch", "tuyasmartplug", "domoticz", "tasmota",
    "tasmota_mqtt"
  ]

  /** Only the known plugins have a record shape. */
  lemma RecordKinds(kind: string)
    requires RecordFieldNames(kind).Some?
    ensures kind in PluginKeys
  {
    SinglePlugKeys();
    if kind !in Keys(SinglePlugTable) && kind != MqttPluginId {
      var i := IndexOf(ListPluginIds(), kind);
      assert ListPluginTable[i].id == kind;
    }
  }

  /** No plugin key contains `/`. */
  lemma KindHasNoSlash(kind: string)
    requires kind in PluginKeys
    ensures '/' !in kind
  {
  }

  lemma SinglePlugKeys()
    ensures Keys(SinglePlugTable) == ["psucontrol", "mystromswitch"]
  {
  }

  lemma ListPluginIdsDistinct()
    ensures NoDuplicates(ListPluginIds())
    ensures forall id :: id in ListPluginIds() ==> id !in Keys(SinglePlugTable) && id != MqttPluginId
  {
    SinglePlugKeys();
    assert ListPluginIds() == ["tplinksmartplug", "orvibos20", "wemoswitch", "tuyasmartplug", "domoticz", "tasmota"];
  }

  /** Each list-plugin row describes its own records. */
  lemma ListPluginRecordFields(lp: ListPlugin)
    requires lp in ListPluginTable
    ensures RecordFieldNames(lp.id) == Some(["plugin", "name", "label", "ip"] + lp.additional)
  {
    var ids := ListPluginIds();
    var j :| 0 <= j < |ListPluginTable| && ListPluginTable[j] == lp;
    ListPluginIdsDistinct();
    assert ids[j] == lp.id;
    IndexOfUnique(ids, lp.id, j);
  }

  /** What one configured entry contributes: a record, nothing, or the KeyError that ends parsing. */
  type EntryOutcome = Result<Option<Plug>, KeyError>

  /** A single-plug record (lines 22-25). */
  function SinglePlugRecord(id: string, name: string): Plug
  {
    [("plugin", id), ("name", name)]
  }

  /**
   One row of the single-plug table (lines 20-26): the plugin must be configured,
   and `mystromswitch` must also have a non-empty `ip`.
   */
  function SinglePlugEntry(data: PluginData, i: nat): (r: EntryOutcome)
    requires i < |SinglePlugTable|
    ensures r.Ok? && r.value.Some? ==> r.value.value == SinglePlugRecord(SinglePlugTable[i].0, SinglePlugTable[i].1)
    ensures r.Ok? && r.value.Some? ==> WellFormedPlug(r.value.value)
    ensures r.Err? <==> SinglePlugTable[i].0 == "mystromswitch" && "mystromswitch" in data && "ip" !in data["mystromswitch"].values
    ensures r.Err? ==> r.error == KeyError("ip")
  {
    var (id, name) := SinglePlugTable[i];
    SinglePlugRecordShape(i);
    if id !in data then Ok(None)
    else if id != "mystromswitch" then Ok(Some(SinglePlugRecord(id, name)))
    else if "ip" !in data[id].values then Err(KeyError("ip"))
    else if Truthy(data[id].values["ip"]) then Ok(Some(SinglePlugRecord(id, name)))
    else Ok(None)
  }

  /** The first key of `keys` that is not `present`. */
  function FirstMissing(keys: seq<string>, present: set<string>): (k: string)
    requires exists k :: k in keys && k !in present
    ensures k in keys && k !in present
    ensures forall j :: 0 <= j < IndexOf(keys, k) ==> keys[j] in present
  {
    if keys[0] !in present then keys[0] else FirstMissing(keys[1..], present)
  }

  /** The pairs `(key, source[key])` for the keys in order. */
  function Pairs(keys: seq<string>, source: Entry): (ps: seq<(string, string)>)
    requires forall k :: k in keys ==> k in source
    ensures Keys(ps) == keys
    ensures forall i :: 0 <= i < |ps| ==> ps[i] == (keys[i], source[keys[i]])
  {
    seq(|keys|, i requires 0 <= i < |keys| => (keys[i], source[keys[i]]))
  }

  /**
   Assigning each of `keys` in turn from `source` into the record (lines 46-47):
   a `KeyError` for the first of them that `source` lacks, otherwise the record
   with every key assigned.
   */
  function CopyFields(plug: Plug, keys: seq<string>, source: Entry): (r: Result<Plug, KeyError>)
    ensures r.Ok? <==> forall k :: k in keys ==> k in source
    ensures r.Err? ==> r.error.key in keys && r.error.key !in source
    ensures r.Err? ==> forall j :: 0 <= j < IndexOf(keys, r.error.key) ==> keys[j] in source
    ensures r.Ok? ==> Keys(r.value) == AddNew(Keys(plug), keys)
    ensures r.Ok? ==> forall k :: k in keys ==> Get(r.value, k) == Some(source[k])
    ensures r.Ok? ==> forall k :: k !in keys ==> Get(r.value, k) == Get(plug, k)
  {
    if forall k :: k in keys ==> k in source then
      CopiedKeys(plug, keys, source);
      CopiedValues(plug, keys, source);
      KeptValues(plug, keys, source);
      Ok(PutAll(plug, Pairs(keys, source)))
    else
      Err(KeyError(FirstMissing(keys, source.Keys)))
  }

  lemma CopiedKeys(plug: Plug, keys: seq<string>, source: Entry)
    requires forall k :: k in keys ==> k in source
    ensures Keys(PutAll(plug, Pairs(keys, source))) == AddNew(Keys(plug), keys)
  {
    PutAllKeys(plug, Pairs(keys, source));
  }

  lemma CopiedValues(plug: Plug, keys: seq<string>, source: Entry)
    requires forall k :: k in keys ==> k in source
    ensures forall k :: k in keys ==> Get(PutAll(plug, Pairs(keys, source)), k) == Some(source[k])
  {
    var ps := Pairs(keys, source);
    forall k | k in keys
      ensures Get(PutAll(plug, ps), k) == Some(source[k])
    {
      PutAllGet(plug, ps, k);
      var v := LastValue(ps, k).value;
      var i :| 0 <= i < |ps| && ps[i] == (k, v);
      assert keys[i] == k;
    }
  }

  lemma KeptValues(plug: Plug, keys: seq<string>, source: Entry)
    requires forall k :: k in keys ==> k in source
    ensures forall k :: k !in keys ==> Get(PutAll(plug, Pairs(keys, source)), k) == Get(plug, k)
  {
    var ps := Pairs(keys, source);
    forall k | k !in keys
      ensures Get(PutAll(plug, ps), k) == Get(plug, k)
    {
      PutAllGet(plug, ps, k);
    }
  }

  /** How record names are formatted: the text, then the plugin name in parentheses. */
  function Label(text: string, pluginName: string): string
  {
    text + " (" + pluginName + ")"
  }

  /** The four fields every list-plugin record starts with (lines 40-45). */
  function SmartplugBase(lp: ListPlugin, labelValue: string, ip: string): Plug
  {
    [("plugin", lp.id), ("name", Label(labelValue, lp.name)), ("label", labelValue), ("ip", ip)]
  }

  /** The record of a list-plugin entry that passed the `ip`/`label` test (lines 40-47). */
  function SmartplugRecord(lp: ListPlugin, e: Entry): Result<Plug, KeyError>
    requires "ip" in e && "label" in e
  {
    CopyFields(SmartplugBase(lp, e["label"], e["ip"]), lp.additional, e)
  }

  /**
   One item of a list plugin's `arrSmartplugs` (lines 39-48). The test at line 39
   short-circuits: an empty `ip` skips the item before `label` is read, and an
   empty `label` skips it before any extra field is read.
   */
  function SmartplugEntry(lp: ListPlugin, e: Entry): (r: EntryOutcome)
    requires lp in ListPluginTable
    ensures r.Err? ==> r.error.key in ["ip", "label"] + lp.additional && r.error.key !in e
    ensures r.Err? <==>
              || "ip" !in e
              || (Truthy(e["ip"]) && "label" !in e)
              || (Truthy(e["ip"]) && "label" in e && Truthy(e["label"]) && exists k :: k in lp.additional && k !in e)
    ensures r.Err? && "ip" !in e ==> r.error.key == "ip"
    ensures r.Err? && "ip" in e && "label" !in e ==> r.error.key == "label"
    ensures r.Err? && "ip" in e && "label" in e ==>
              && r.error.key in lp.additional
              && forall j :: 0 <= j < IndexOf(lp.additional, r.error.key) ==> lp.additional[j] in e
    ensures r.Ok? && r.value.Some? <==>
              && "ip" in e && Truthy(e["ip"]) && "label" in e && Truthy(e["label"])
              && forall k :: k in lp.additional ==> k in e
    ensures r.Ok? && r.value.Some? ==>
              var plug := r.value.value;
              && WellFormedPlug(plug) && PluginOf(plug) == lp.id
              && Get(plug, "name") == Some(Label(e["label"], lp.name))
              && Get(plug, "label") == Some(e["label"])
              && Get(plug, "ip") == Some(e["ip"])
              && forall k :: k in lp.additional ==> Get(plug, k) == Some(e[k])
  {
    if "ip" !in e then Err(KeyError("ip"))
    else if !Truthy(e["ip"]) then Ok(None)
    else if "label" !in e then Err(KeyError("label"))
    else if !Truthy(e["label"]) then Ok(None)
    else
      match SmartplugRecord(lp, e)
      case Err(err) => Err(err)
      case Ok(plug) =>
        SmartplugRecordShape(lp, e);
        Ok(Some(plug))
  }

  /** The record of a relay that passed the `topic`/`relayN` test (lines 56-61). */
  function RelayRecord(topic: string, relayN: string): Plug
  {
    [
      ("plugin", MqttPluginId),
      ("name", Label(topic + "/" + relayN, MqttPluginName)),
      ("topic", relayN),
      ("relayN", relayN)
    ]
  }

  /**
   One item of `tasmota_mqtt`'s `arrRelays` (lines 55-62): `topic` must be non-empty
   and `relayN` must not be the empty string. The test short-circuits: an empty
   `topic` skips the item before `relayN` is read.
   */
  function RelayEntry(e: Entry): (r: EntryOutcome)
    ensures r.Err? ==> r.error.key in ["topic", "relayN"] && r.error.key !in e
    ensures r.Err? <==> "topic" !in e || (Truthy(e["topic"]) && "relayN" !in e)
    ensures r.Err? && "topic" !in e ==> r.error.key == "topic"
    ensures r.Err? && "topic" in e ==> r.error.key == "relayN"
    ensures r.Ok? && r.value.Some? <==> "topic" in e && Truthy(e["topic"]) && "relayN" in e && e["relayN"] != ""
    ensures r.Ok? && r.value.Some? ==>
              var plug := r.value.value;
              && WellFormedPlug(plug) && PluginOf(plug) == MqttPluginId
              && Get(plug, "name") == Some(e["topic"] + "/" + e["relayN"] + " (Tasmota MQTT)")
              && Get(plug, "topic") == Some(e["relayN"])
              && Get(plug, "relayN") == Some(e["relayN"])
  {
    if "topic" !in e then Err(KeyError("topic"))
    else if !Truthy(e["topic"]) then Ok(None)
    else if "relayN" !in e then Err(KeyError("relayN"))
    else if e["relayN"] == "" then Ok(None)
    else
      RelayRecordShape(e["topic"], e["relayN"]);
      Ok(Some(RelayRecord(e["topic"], e["relayN"])))
  }

  lemma SinglePlugRecordShape(i: nat)
    requires i < |SinglePlugTable|
    ensures WellFormedPlug(SinglePlugRecord(SinglePlugTable[i].0, SinglePlugTable[i].1))
  {
    SinglePlugKeys();
    var plug := SinglePlugRecord(SinglePlugTable[i].0, SinglePlugTable[i].1);
    assert Keys(plug) == ["plugin", "name"];
  }

  lemma SmartplugBaseShape(lp: ListPlugin, labelValue: string, ip: string)
    ensures var base := SmartplugBase(lp, labelValue, ip);
      && Keys(base) == ["plugin", "name", "label", "ip"]
      && Get(base, "plugin") == Some(lp.id)
      && Get(base, "name") == Some(Label(labelValue, lp.name))
      && Get(base, "label") == Some(labelValue)
      && Get(base, "ip") == Some(ip)
  {
    var base := SmartplugBase(lp, labelValue, ip);
    assert Keys(base) == ["plugin", "name", "label", "ip"];
    GetAt(base, 0);
    GetAt(base, 1);
    GetAt(base, 2);
    GetAt(base, 3);
  }

  lemma SmartplugRecordShape(lp: ListPlugin, e: Entry)
    requires lp in ListPluginTable
    requires "ip" in e && "label" in e && SmartplugRecord(lp, e).Ok?
    ensures var plug := SmartplugRecord(lp, e).value;
      && WellFormedPlug(plug) && PluginOf(plug) == lp.id
      && Get(plug, "name") == Some(Label(e["label"], lp.name))
      && Get(plug, "label") == Some(e["label"])
      && Get(plug, "ip") == Some(e["ip"])
  {
    var plug := SmartplugRecord(lp, e).value;
    SmartplugBaseShape(lp, e["label"], e["ip"]);
    SmartplugRecordKeys(lp, e);
    ListPluginRecordFields(lp);
    GetAt(plug, 0);
  }

  /** A built list-plugin record has the four base fields, then the extra fields in table order, each once. */
  lemma SmartplugRecordKeys(lp: ListPlugin, e: Entry)
    requires lp in ListPluginTable
    requires "ip" in e && "label" in e && SmartplugRecord(lp, e).Ok?
    ensures Keys(SmartplugRecord(lp, e).value) == ["plugin", "name", "label", "ip"] + lp.additional
    ensures UniqueKeys(SmartplugRecord(lp, e).value)
  {
    SmartplugBaseShape(lp, e["label"], e["ip"]);
    ListPluginAdditionalFresh(lp);
    AddNewFresh(["plugin", "name", "label", "ip"], lp.additional);
  }

  /** The extra fields of a list plugin are distinct and differ from the fields every record has. */
  lemma ListPluginAdditionalFresh(lp: ListPlugin)
    requires lp in ListPluginTable
    ensures NoDuplicates(lp.additional)
    ensures forall k :: k in lp.additional ==> k !in ["plugin", "name", "label", "ip"]
    ensures forall k :: k in lp.additional ==> k in ["idx", "username", "password"]
    ensures NoDuplicates(["plugin", "name", "label", "ip"] + lp.additional)
  {
    if lp == ListPluginTable[5] {
      assert ["plugin", "name", "label", "ip"] + lp.additional
          == ["plugin", "name", "label", "ip", "idx", "username", "password"];
    } else if lp == ListPluginTable[4] {
      assert ["plugin", "name", "label", "ip"] + lp.additional == ["plugin", "name", "label", "ip", "idx"];
    } else {
      assert lp.additional == [];
      assert ["plugin", "name", "label", "ip"] + lp.additional == ["plugin", "name", "label", "ip"];
    }
  }

  lemma RelayRecordShape(topic: string, relayN: string)
    ensures var plug := RelayRecord(topic, relayN);
      && WellFormedPlug(plug) && PluginOf(plug) == MqttPluginId
      && Get(plug, "name") == Some(topic + "/" + relayN + " (Tasmota MQTT)")
      && Get(plug, "topic") == Some(relayN)
      && Get(plug, "relayN") == Some(relayN)
  {
    var plug := RelayRecord(topic, relayN);
    RelayRecordKeys(topic, relayN);
    MqttRecordFieldNames();
    assert Label(topic + "/" + relayN, MqttPluginName) == topic + "/" + relayN + " (Tasmota MQTT)";
    GetAt(plug, 1);
    GetAt(plug, 2);
    GetAt(plug, 3);
  }

  lemma RelayRecordKeys(topic: string, relayN: string)
    ensures Keys(RelayRecord(topic, relayN)) == ["plugin", "name", "topic", "relayN"]
    ensures UniqueKeys(RelayRecord(topic, relayN))
  {
    assert Keys(RelayRecord(topic, relayN)) == ["plugin", "name", "topic", "relayN"];
  }

  lemma MqttRecordFieldNames()
    ensures RecordFieldNames(MqttPluginId) == Some(["plugin", "name", "topic", "relayN"])
  {
    SinglePlugKeys();
  }

  /** The values `source` holds for `keys`, in order. */
  function ValuesOf(keys: seq<string>, source: Entry): (vs: seq<string>)
    requires forall k :: k in keys ==> k in source
    ensures |vs| == |keys|
    ensures forall i :: 0 <= i < |keys| ==> vs[i] == source[keys[i]]
  {
    seq(|keys|, i requires 0 <= i < |keys| => source[keys[i]])
  }

  /** Joining three parts with `/`. */
  lemma JoinThree(a: string, b: string, c: string)
    ensures Join("/", [a, b, c]) == a + "/" + b + "/" + c
  {
    assert [a, b, c][1..] == [b, c];
    assert [b, c][1..] == [c];
    assert Join("/", [b, c]) == b + "/" + c;
    assert a + "/" + (b + "/" + c) == a + "/" + b + "/" + c;
  }

  /** The id of a single-plug record is its plugin key (lines 22-26 with 64-66). */
  lemma SinglePlugId(id: string, name: string)
    ensures CreatePlugId(SinglePlugRecord(id, name)) == id
  {
    var plug := SinglePlugRecord(id, name);
    assert plug[1..][1..] == [];
    assert InterestingBits(plug[1..]) == [];
  }

  /** The id of a relay record (lines 56-62): the plugin key, then `relayN` twice; `topic` plays no part. */
  lemma RelayId(topic: string, relayN: string)
    ensures CreatePlugId(RelayRecord(topic, relayN)) == MqttPluginId + "/" + relayN + "/" + relayN
  {
    var plug := RelayRecord(topic, relayN);
    InterestingBitsNoName(plug[2..]);
    assert InterestingBits(plug[2..]) == [relayN, relayN];
    assert plug[1..][1..] == plug[2..];
    assert InterestingBits(plug) == [MqttPluginId, relayN, relayN];
    JoinThree(MqttPluginId, relayN, relayN);
  }

  /**
   The id of a list-plugin record (lines 40-48): plugin key, `label`, `ip`, then
   the extra fields' values in table order.
   */
  lemma SmartplugId(lp: ListPlugin, e: Entry)
    requires lp in ListPluginTable
    requires "ip" in e && "label" in e && SmartplugRecord(lp, e).Ok?
    ensures CreatePlugId(SmartplugRecord(lp, e).value)
         == Join("/", [lp.id, e["label"], e["ip"]] + ValuesOf(lp.additional, e))
  {
    var base := SmartplugBase(lp, e["label"], e["ip"]);
    var ps := Pairs(lp.additional, e);
    SmartplugRecordAppends(lp, e);
    InterestingBitsAppend(base, ps);
    SmartplugBaseBits(lp, e["label"], e["ip"]);
    ListPluginAdditionalFresh(lp);
    PairsBits(lp.additional, e);
  }

  lemma PairsBits(keys: seq<string>, source: Entry)
    requires forall k :: k in keys ==> k in source
    requires "name" !in keys
    ensures InterestingBits(Pairs(keys, source)) == ValuesOf(keys, source)
  {
    InterestingBitsNoName(Pairs(keys, source));
  }

  /** The extra fields of a list-plugin record are appended after its four base fields. */
  lemma SmartplugRecordAppends(lp: ListPlugin, e: Entry)
    requires lp in ListPluginTable
    requires "ip" in e && "label" in e && SmartplugRecord(lp, e).Ok?
    ensures forall k :: k in lp.additional ==> k in e
    ensures SmartplugRecord(lp, e).value == SmartplugBase(lp, e["label"], e["ip"]) + Pairs(lp.additional, e)
  {
    SmartplugBaseShape(lp, e["label"], e["ip"]);
    ListPluginAdditionalFresh(lp);
    PutAllFresh(SmartplugBase(lp, e["label"], e["ip"]), Pairs(lp.additional, e));
  }

  lemma SmartplugBaseBits(lp: ListPlugin, labelValue: string, ip: string)
    ensures InterestingBits(SmartplugBase(lp, labelValue, ip)) == [lp.id, labelValue, ip]
  {
    var base := SmartplugBase(lp, labelValue, ip);
    assert base[1..][1..] == base[2..];
    InterestingBitsNoName(base[2..]);
  }

  /** For the plugins without extra fields the id is `plugin/label/ip`. */
  lemma SmartplugIdPlain(lp: ListPlugin, e: Entry)
    requires lp in ListPluginTable && lp.additional == []
    requires "ip" in e && "label" in e
    ensures SmartplugRecord(lp, e).Ok?
    ensures CreatePlugId(SmartplugRecord(lp, e).value) == lp.id + "/" + e["label"] + "/" + e["ip"]
  {
    SmartplugId(lp, e);
    assert [lp.id, e["label"], e["ip"]] + ValuesOf(lp.additional, e) == [lp.id, e["label"], e["ip"]];
    JoinThree(lp.id, e["label"], e["ip"]);
  }

  /** The plugin of a record is the first component of its id, so records of different plugins never share an id. */
  lemma KindOfId(plug: Plug)
    requires WellFormedPlug(plug)
    ensures IdKind(CreatePlugId(plug)) == PluginOf(plug)
  {
    RecordKinds(PluginOf(plug));
    KindHasNoSlash(PluginOf(plug));
    IdStartsWithPlugin(plug);
  }

  /** The fields of every record shape are distinct. */
  lemma RecordFieldsDistinct(kind: string)
    requires RecordFieldNames(kind).Some?
    ensures NoDuplicates(RecordFieldNames(kind).value)
  {
    var i := IndexOf(ListPluginIds(), kind);
    if kind !in Keys(SinglePlugTable) && kind != MqttPluginId {
      ListPluginAdditionalFresh(ListPluginTable[i]);
    }
  }

  /** A well-formed record has unique fields and can be asked for its `plugin`. */
  lemma WellFormedLookup(plug: Plug)
    requires WellFormedPlug(plug)
    ensures UniqueKeys(plug)
    ensures Get(plug, "plugin") == Some(PluginOf(plug))
  {
    RecordFieldsDistinct(PluginOf(plug));
    GetAt(plug, 0);
  }
}
