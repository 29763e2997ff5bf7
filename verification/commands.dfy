/**
 `getSetStateCommand` (OctoPrintPowerPlugins.py lines 71-106): the request that
 switches a registered plug on or off, as an endpoint and an ordered payload.
 */
module Commands {
  import opened Wrappers
  import opened OrderedMaps
  import opened Plugs
  import opened Records

  /** What the caller sends: the endpoint and the payload fields in order. */
  datatype Command = Command(endpoint: string, payload: OrderedMap<string, string>)

  /** The answer for an id the registry does not hold (lines 72-73). */
  const NoCommand := Command("", [])

  /** The record fields a plugin's command carries, in order (lines 86-101). */
  function CommandArguments(kind: string): seq<string>
  {
    if kind in ["tplinksmartplug", "orvibos20", "wemoswitch"] then ["ip"]
    else if kind == "domoticz" then ["ip", "idx"]
    else if kind == "tasmota_mqtt" then ["topic", "relayN"]
    else if kind == "tasmota" then ["ip", "idx", "username", "password"]
    else if kind == "tuyasmartplug" then ["label"]
    else []
  }

  /** The value of the payload's `command` field (lines 78-85). */
  function Verb(kind: string, state: bool): string
  {
    if kind == "psucontrol" then (if state then "turnPSUOn" else "turnPSUOff")
    else if kind == "mystromswitch" then (if state then "enableRelais" else "disableRelais")
    else if state then "turnOn" else "turnOff"
  }

  /** The pairs `(key, plug[key])` for the keys in order. */
  function ArgumentPairs(keys: seq<string>, plug: Plug): (ps: seq<(string, string)>)
    requires forall k :: k in keys ==> k in Keys(plug)
    ensures Keys(ps) == keys
    ensures forall i :: 0 <= i < |ps| ==> Get(plug, keys[i]) == Some(ps[i].1)
  {
    seq(|keys|, i requires 0 <= i < |keys| => (keys[i], Get(plug, keys[i]).value))
  }

  /**
   Assigning each argument in turn from the record into the payload (lines
   103-104): a `KeyError` for the first argument the record lacks, otherwise the
   payload with every argument assigned.
   */
  function CopyArguments(payload: Plug, keys: seq<string>, plug: Plug): (r: Result<Plug, KeyError>)
    ensures r.Ok? <==> forall k :: k in keys ==> k in Keys(plug)
    ensures r.Err? ==> r.error.key in keys && r.error.key !in Keys(plug)
    ensures r.Err? ==> forall j :: 0 <= j < IndexOf(keys, r.error.key) ==> keys[j] in Keys(plug)
    ensures r.Ok? ==> Keys(r.value) == AddNew(Keys(payload), keys)
    ensures r.Ok? ==> forall k :: k in keys ==> Get(r.value, k) == Get(plug, k)
    ensures r.Ok? ==> forall k :: k !in keys ==> Get(r.value, k) == Get(payload, k)
  {
    if forall k :: k in keys ==> k in Keys(plug) then
      PutAllKeys(payload, ArgumentPairs(keys, plug));
      ArgumentValues(payload, keys, plug);
      KeptPayload(payload, keys, plug);
      Ok(PutAll(payload, ArgumentPairs(keys, plug)))
    else
      Err(KeyError(FirstMissing(keys, set k | k in Keys(plug))))
  }

  lemma ArgumentValues(payload: Plug, keys: seq<string>, plug: Plug)
    requires forall k :: k in keys ==> k in Keys(plug)
    ensures forall k :: k in keys ==> Get(PutAll(payload, ArgumentPairs(keys, plug)), k) == Get(plug, k)
  {
    var ps := ArgumentPairs(keys, plug);
    forall k | k in keys
      ensures Get(PutAll(payload, ps), k) == Get(plug, k)
    {
      PutAllGet(payload, ps, k);
      var v := LastValue(ps, k).value;
      var i :| 0 <= i < |ps| && ps[i] == (k, v);
      assert keys[i] == k;
    }
  }

  lemma KeptPayload(payload: Plug, keys: seq<string>, plug: Plug)
    requires forall k :: k in keys ==> k in Keys(plug)
    ensures forall k :: k !in keys ==> Get(PutAll(payload, ArgumentPairs(keys, plug)), k) == Get(payload, k)
  {
    var ps := ArgumentPairs(keys, plug);
    forall k | k !in keys
      ensures Get(PutAll(payload, ps), k) == Get(payload, k)
    {
      PutAllGet(payload, ps, k);
    }
  }

  /**
   `getSetStateCommand(plug_id, state)` (lines 71-106). An unknown id gives the
   empty command; otherwise the command is built from the record's plugin.
   */
  function SetStateCommand(plugs: Registry, id: string, state: bool): (r: Result<Command, KeyError>)
    ensures id !in Keys(plugs) ==> r == Ok(NoCommand)
    ensures id in Keys(plugs) ==>
      var plug := Get(plugs, id).value;
      && (Get(plug, "plugin").None? ==> r == Err(KeyError("plugin")))
      && (Get(plug, "plugin").Some? ==> r == KindCommand(Get(plug, "plugin").value, state, plug))
  {
    match Get(plugs, id)
    case None => Ok(NoCommand)
    case Some(plug) =>
      match Get(plug, "plugin")
      case None => Err(KeyError("plugin"))
      case Some(kind) => KindCommand(kind, state, plug)
  }

  /**
   The command for a record of plugin `kind` (lines 76-106): the endpoint names
   the plugin, and the payload is the plugin's verb for `state` followed by the
   plugin's argument fields, each with the record's value. It fails exactly
   when the record lacks an argument, naming the first one it lacks.
   */
  function KindCommand(kind: string, state: bool, plug: Plug): (r: Result<Command, KeyError>)
    ensures r.Ok? <==> forall k :: k in CommandArguments(kind) ==> k in Keys(plug)
    ensures r.Err? ==> r.error.key in CommandArguments(kind) && r.error.key !in Keys(plug)
    ensures r.Err? ==> forall j :: 0 <= j < IndexOf(CommandArguments(kind), r.error.key) ==> CommandArguments(kind)[j] in Keys(plug)
    ensures r.Ok? ==> r.value.endpoint == "plugin/" + kind
    ensures r.Ok? ==> Keys(r.value.payload) == ["command"] + CommandArguments(kind)
    ensures r.Ok? ==> Get(r.value.payload, "command") == Some(Verb(kind, state))
    ensures r.Ok? ==> forall k :: k in CommandArguments(kind) ==> Get(r.value.payload, k) == Get(plug, k)
  {
    var endPoint := "plugin/" + kind;
    if kind == "psucontrol" || kind == "mystromswitch" then
      Ok(Command(endPoint, [("command", Verb(kind, state))]))
    else
      ArgumentsFresh(kind);
      match ArgumentsPayload(Verb(kind, state), CommandArguments(kind), plug)
      case Err(err) => Err(err)
      case Ok(payload) => Ok(Command(endPoint, payload))
  }

  /** PSU Control and MyStrom Switch take no arguments: the payload is the verb alone (lines 78-82). */
  lemma SinglePlugCommand(kind: string, state: bool, plug: Plug)
    requires kind == "psucontrol" || kind == "mystromswitch"
    ensures KindCommand(kind, state, plug) == Ok(Command("plugin/" + kind, [("command", Verb(kind, state))]))
  {
  }

  /** The payload `command` followed by the arguments `args` copied from `plug` (lines 85 and 103-104). */
  function ArgumentsPayload(verb: string, args: seq<string>, plug: Plug): (r: Result<Plug, KeyError>)
    requires NoDuplicates(args) && "command" !in args
    ensures r.Ok? <==> forall k :: k in args ==> k in Keys(plug)
    ensures r.Err? ==> r.error.key in args && r.error.key !in Keys(plug)
    ensures r.Err? ==> forall j :: 0 <= j < IndexOf(args, r.error.key) ==> args[j] in Keys(plug)
    ensures r.Ok? ==> Keys(r.value) == ["command"] + args
    ensures r.Ok? ==> Get(r.value, "command") == Some(verb)
    ensures r.Ok? ==> forall k :: k in args ==> Get(r.value, k) == Get(plug, k)
  {
    AddNewFresh(["command"], args);
    CopyArguments([("command", verb)], args, plug)
  }

  /** The argument lists are distinct and never include `command`. */
  lemma ArgumentsFresh(kind: string)
    ensures NoDuplicates(CommandArguments(kind))
    ensures "command" !in CommandArguments(kind)
  {
  }

  /**
   Every field a plugin's command reads (lines 87-104) is a field of the record
   parsing builds for that plugin (lines 22-25, 40-47, 56-61).
   */
  lemma ArgumentsAreRecordFields(kind: string)
    requires RecordFieldNames(kind).Some?
    ensures forall k :: k in CommandArguments(kind) ==> k in RecordFieldNames(kind).value
  {
    SinglePlugKeys();
    ListPluginIdsDistinct();
    var i := IndexOf(ListPluginIds(), kind);
    if kind !in Keys(SinglePlugTable) && kind != MqttPluginId {
      assert ListPluginIds() == ["tplinksmartplug", "orvibos20", "wemoswitch", "tuyasmartplug", "domoticz", "tasmota"];
      assert kind == ListPluginTable[i].id;
    }
  }

  /** Every record in the registry has the shape parsing gives its plugin. */
  predicate AllWellFormed(plugs: Registry)
  {
    forall e :: e in plugs ==> WellFormedPlug(e.1)
  }

  /**
   On a registry of well-formed records the command builder never fails: for
   every registered id, the command names the record's plugin, starts with its
   verb and carries the record's values for the plugin's argument fields, in order.
   */
  lemma CommandSucceeds(plugs: Registry, id: string, state: bool)
    requires AllWellFormed(plugs)
    requires id in Keys(plugs)
    ensures var plug := Get(plugs, id).value;
      var r := SetStateCommand(plugs, id, state);
      && WellFormedPlug(plug)
      && r.Ok?
      && r.value.endpoint == "plugin/" + PluginOf(plug)
      && r.value.payload[0] == ("command", Verb(PluginOf(plug), state))
      && Keys(r.value.payload) == ["command"] + CommandArguments(PluginOf(plug))
      && forall i :: 1 <= i < |r.value.payload| ==> Get(plug, r.value.payload[i].0) == Some(r.value.payload[i].1)
  {
    var plug := Get(plugs, id).value;
    assert (id, plug) in plugs;
    WellFormedLookup(plug);
    ArgumentsAreRecordFields(PluginOf(plug));
    var r := SetStateCommand(plugs, id, state);
    ArgumentsFresh(PluginOf(plug));
    PayloadEntries(r.value.payload, CommandArguments(PluginOf(plug)), Verb(PluginOf(plug), state), plug);
  }

  lemma PayloadEntries(payload: OrderedMap<string, string>, args: seq<string>, verb: string, plug: Plug)
    requires NoDuplicates(args) && "command" !in args
    requires Keys(payload) == ["command"] + args
    requires Get(payload, "command") == Some(verb)
    requires forall k :: k in args ==> Get(payload, k) == Get(plug, k)
    ensures payload[0] == ("command", verb)
    ensures forall i :: 1 <= i < |payload| ==> Get(plug, payload[i].0) == Some(payload[i].1)
  {
    NoDuplicatesCons("command", args);
    GetAt(payload, 0);
    forall i | 1 <= i < |payload|
      ensures Get(plug, payload[i].0) == Some(payload[i].1)
    {
      PayloadEntry(payload, args, plug, i);
    }
  }

  lemma PayloadEntry(payload: OrderedMap<string, string>, args: seq<string>, plug: Plug, i: int)
    requires Keys(payload) == ["command"] + args
    requires UniqueKeys(payload)
    requires forall k :: k in args ==> Get(payload, k) == Get(plug, k)
    requires 1 <= i < |payload|
    ensures Get(plug, payload[i].0) == Some(payload[i].1)
  {
    GetAt(payload, i);
    assert payload[i].0 == args[i - 1];
  }

  /** The on/off flag changes only the verb: endpoint, fields and argument values stay the same. */
  lemma StateOnlyChangesVerb(plugs: Registry, id: string)
    ensures var on, off := SetStateCommand(plugs, id, true), SetStateCommand(plugs, id, false);
      && on.Ok? == off.Ok?
      && (on.Ok? ==> on.value.endpoint == off.value.endpoint)
      && (on.Ok? ==> Keys(on.value.payload) == Keys(off.value.payload))
      && (on.Ok? ==> forall k :: k != "command" ==> Get(on.value.payload, k) == Get(off.value.payload, k))
  {
    var on, off := SetStateCommand(plugs, id, true), SetStateCommand(plugs, id, false);
    if on.Ok? && id in Keys(plugs) {
      var plug := Get(plugs, id).value;
      var kind := Get(plug, "plugin").value;
      forall k | k != "command"
        ensures Get(on.value.payload, k) == Get(off.value.payload, k)
      {
        if k !in CommandArguments(kind) {
          assert k !in Keys(on.value.payload) && k !in Keys(off.value.payload);
        }
      }
    }
  }
}
