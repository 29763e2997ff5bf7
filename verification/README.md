# OctoPrint power plugins, modelled in Dafny

`OctoPrintPowerPlugins` is the class of an OctoPrint connection plugin that reads
the settings of the OctoPrint power plugins and lists the plugs they control:
PSU Control, MyStrom Switch, the list plugins (TP-Link Smartplug, Orvibo S20,
Wemo Switch, Tuya Smartplug, Domoticz, Tasmota) and Tasmota MQTT. It also builds
the request that switches one of those plugs on or off. This project models that
class and proves properties of the model.

What is modelled:

- **Plug records.** A record is an ordered list of string fields, with `plugin`
  first. Its id is the `/`-join of every field value except `name`
  (`_createPlugId`).
- **`parsePluginData`.** Parsing has two steps. `Parsing.Discover` lists the
  records the three loops build, in the order they build them. It stops at the
  first `KeyError`, which is a key the source looks up without a guard.
  `Parsing.BuildRegistry` then assigns each record under its id in an
  insertion-ordered map, as Python's `OrderedDict` does: a repeated id keeps its
  position and takes the later record.
- **`getSetStateCommand`.** `Commands.SetStateCommand` gives the endpoint and the
  ordered payload. The payload holds the plugin's verb and then the plugin's
  argument fields, copied from the record.
- **The class.** `OctoPrintPowerPlugins` holds the registry as a value, with the
  invariant `Valid`: ids are unique, and each one is the id of a well-formed
  record stored under it.

Settings are typed. Each plugin's settings are a map of string values plus a map
of lists of entries, and each entry maps field names to strings.

Three behaviours of the code are easy to miss, and the model keeps each as written:

- A list-plugin record stores `label` before `ip` for every list plugin, and
  both go into the id. So a TP-Link plug labelled `Printer` at 10.0.0.5 gets the id
  `tplinksmartplug/Printer/10.0.0.5` (`Records.SmartplugIdPlain`,
  `Records.SmartplugId`).
- A missing `arrSmartplugs` is guarded at line 37, so the plugin is skipped
  (`Parsing.DiscoverListPlugin`). A missing `arrRelays` is not guarded at line 54,
  so it raises `KeyError` (`Parsing.DiscoverMqtt`).
- A Tasmota MQTT record stores `relayN` under `topic`. Relays that differ only in
  topic therefore build different records with the same id
  (`Examples.RelayTopicsCollide`). The registry then keeps only the later of the
  two, because under each id it holds the last record discovered with that id
  (`Parsing.RegistryLastWins`).

## Model

| member | source | states |
|---|---|---|
| OrderedMaps.Put | OctoPrintPowerPlugins.py:26 | Assigning to a present id keeps every key where it is and replaces only that id's value. A new id is appended last. No other id's value changes, and ids stay unique. |
| OrderedMaps.PutAllKeys | OctoPrintPowerPlugins.py:13-62 | After a run of assignments, the keys are the old keys, then each new key at its first assignment. |
| OrderedMaps.PutAllGet | OctoPrintPowerPlugins.py:13-62 | After a run of assignments, a key holds the last value assigned to it, or its old value if it was never assigned. |
| OrderedMaps.AddNewOrder | OctoPrintPowerPlugins.py:13-62 | Of two assigned keys, the one first assigned earlier comes first in the map, in both directions. |
| OrderedMaps.PutAllFresh | OctoPrintPowerPlugins.py:46-47 | Assigning distinct keys the map lacks appends the pairs exactly as given. |
| Plugs.CreatePlugId | OctoPrintPowerPlugins.py:64-66 | The id of a record without a `name` field is the `/`-join of all its values, in field order. Removing a `name` field from any position leaves the id unchanged. |
| Plugs.IdIgnoresName | OctoPrintPowerPlugins.py:64-66 | Records with the same fields whose values differ only under `name` have the same id. |
| Plugs.IdStartsWithPlugin | OctoPrintPowerPlugins.py:64-66 | An id is the record's plugin key, or that key followed by `/`. Reading the id up to its first `/` gives the plugin back. |
| Plugs.DifferentPluginsDifferentIds | OctoPrintPowerPlugins.py:64-66 | Records of different plugins never share an id. |
| Records.SmartplugRecordKeys | OctoPrintPowerPlugins.py:40-47 | A list-plugin record that is built has exactly the fields `plugin`, `name`, `label`, `ip`, then the plugin's extra fields in table order, with no field repeated. |
| Records.SinglePlugEntry | OctoPrintPowerPlugins.py:20-26 | A single-plug row yields only that plugin's fixed record. It raises iff it is the `mystromswitch` row, that plugin is configured and it has no `ip`. The error is then `KeyError("ip")`. |
| Records.CopyFields | OctoPrintPowerPlugins.py:46-47 | Copying extra fields succeeds iff every field is in the entry. Otherwise the error names the first missing field in table order. On success, each copied field holds the entry's value, every other field is unchanged, and the new fields follow the old ones in order. |
| Records.SmartplugEntry | OctoPrintPowerPlugins.py:39-48 | An `arrSmartplugs` item yields a record iff `ip` and `label` are present and non-empty and every extra field is present. The record holds the entry's `label`, `ip` and extra values and the name `label (Plugin Name)`. The test short-circuits. The item raises iff `ip` is missing, or `ip` is non-empty and `label` is missing, or both are non-empty and an extra field is missing. The error names `ip`, then `label`, then the first missing extra field in table order. An empty `ip` skips the item before `label` is read. |
| Records.RelayEntry | OctoPrintPowerPlugins.py:55-62 | An `arrRelays` item yields a record iff `topic` is present and non-empty and `relayN` is present and not `""`. The name is `topic/relayN (Tasmota MQTT)`, and both `topic` and `relayN` hold `relayN`. The item raises iff `topic` is missing, or `topic` is non-empty and `relayN` is missing. The error is `KeyError("topic")` in the first case and `KeyError("relayN")` in the second, so an empty `topic` skips the item before `relayN` is read. |
| Records.SinglePlugId | OctoPrintPowerPlugins.py:64-66 | A single-plug record's id is its plugin key. |
| Records.SmartplugId | OctoPrintPowerPlugins.py:40-48 | A list-plugin record's id is `plugin/label/ip`, followed by the extra fields' values in table order. |
| Records.SmartplugIdPlain | OctoPrintPowerPlugins.py:40-48 | For the list plugins without extra fields, the record is always built and its id is `plugin/label/ip`. |
| Records.RelayId | OctoPrintPowerPlugins.py:56-62 | A relay record's id is `tasmota_mqtt/relayN/relayN`, whatever the topic. |
| Records.KindOfId | OctoPrintPowerPlugins.py:64-66 | For every record shape parsing builds, the first component of the id is the record's plugin. |
| Parsing.Discover | OctoPrintPowerPlugins.py:12-62 | Every record the loops build has the fields parsing gives its plugin, `plugin` first. A `KeyError` can only name a key the loops read without a guard: `ip`, `label`, `idx`, `username`, `password`, `arrRelays`, `topic` or `relayN`. |
| Parsing.DiscoverAllRaises | OctoPrintPowerPlugins.py:38-48 | A loop over entries raises iff some entry raises. It then raises the first such entry's `KeyError`, and every entry before that one succeeded. |
| Parsing.DiscoverAllKeeps | OctoPrintPowerPlugins.py:38-48 | Every record yielded by an entry before the first error is kept. |
| Parsing.DiscoverAllAppend | OctoPrintPowerPlugins.py:38-48 | The loop over two lists of entries is the loop over the first, then the loop over the second unless the first raised. |
| Parsing.DiscoverListPlugin | OctoPrintPowerPlugins.py:37-48 | A list plugin that is not configured, or has no `arrSmartplugs`, contributes nothing and raises nothing. Otherwise it is the loop over its entries. |
| Parsing.DiscoverMqtt | OctoPrintPowerPlugins.py:51-62 | Without `tasmota_mqtt` nothing is contributed. A configured `tasmota_mqtt` without `arrRelays` raises `KeyError("arrRelays")`. Every record it yields is a Tasmota MQTT record. With `arrRelays` present, it is the loop over the relays, so every record and any error comes from a relay. |
| Parsing.SmartplugDiscovered | OctoPrintPowerPlugins.py:37-48 | When parsing raised nothing, every entry of a configured list plugin succeeded, and each record it yields was discovered. |
| Parsing.RelayDiscovered | OctoPrintPowerPlugins.py:51-62 | When parsing raised nothing and `tasmota_mqtt` is configured, `arrRelays` exists, every relay succeeded, and each record it yields was discovered. |
| Parsing.DiscoveredSinglePlug | OctoPrintPowerPlugins.py:16-26 | A discovered record of a single-plug plugin is exactly the record that plugin's own row yields. |
| Parsing.DiscoveredSmartplug | OctoPrintPowerPlugins.py:37-48 | A discovered record of a list plugin is the record that some item of that plugin's configured `arrSmartplugs` builds. This holds whether or not parsing raised. |
| Parsing.DiscoveredRelay | OctoPrintPowerPlugins.py:51-62 | A discovered Tasmota MQTT record is the record that some relay of the configured `arrRelays` builds. |
| Parsing.DiscoverRaisedFrom | OctoPrintPowerPlugins.py:21-62 | Parsing raises only in these cases. A configured `mystromswitch` has no `ip`, and the error is `KeyError("ip")`. Or some item of a configured list plugin raises the error. Or the configured `tasmota_mqtt` lacks `arrRelays`, or one of its relays raises the error. |
| Parsing.BuildRegistry | OctoPrintPowerPlugins.py:12-62 | The registry has unique ids. Each entry is a discovered, well-formed record stored under its own id. The registry raises the `KeyError` discovery raised. |
| Parsing.RegistryKeys | OctoPrintPowerPlugins.py:12-62 | An id is registered iff some discovered record has that id. |
| Parsing.RegistryLastWins | OctoPrintPowerPlugins.py:12-62 | Under each id the registry holds the last discovered record with that id. |
| Parsing.RegistryOrder | OctoPrintPowerPlugins.py:12-62 | Registered ids keep the order of their first discovery, in both directions. |
| Parsing.DiscoveredRegistered | OctoPrintPowerPlugins.py:12-62 | Every discovered record's id is registered. |
| Parsing.SinglePlugRegistered | OctoPrintPowerPlugins.py:16-26 | A single-plug plugin's key looks up its record iff its row yields one, whatever the other plugins do. |
| Parsing.PsuControlRegistered | OctoPrintPowerPlugins.py:16-26 | `psucontrol` is registered, with its fixed record, iff the plugin is configured. |
| Parsing.MystromRegistered | OctoPrintPowerPlugins.py:16-26 | `mystromswitch` is registered iff the plugin is configured with a non-empty `ip`. Configured without `ip`, parsing raises `KeyError("ip")`. |
| Parsing.SmartplugRegistered | OctoPrintPowerPlugins.py:29-48 | When parsing raised nothing, every list-plugin entry with non-empty `ip` and `label` is registered under `plugin/label/ip[/extras]`. Conversely, every registered record of that plugin is the record of one of its configured items. |
| Parsing.RelayRegistered | OctoPrintPowerPlugins.py:51-62 | When parsing raised nothing, every relay with non-empty `topic` and `relayN` is registered under `tasmota_mqtt/relayN/relayN`. Conversely, every registered Tasmota MQTT record is the record of one of the configured relays. |
| Parsing.DiscoverSorted | OctoPrintPowerPlugins.py:15-62 | Records are discovered plugin by plugin: the single-plug table, then the list-plugin table in order, then Tasmota MQTT. |
| Parsing.RegistrySorted | OctoPrintPowerPlugins.py:15-62 | The registry lists its records plugin by plugin, in the order parsing visits the plugins. |
| Parsing.SameIdSameRank | OctoPrintPowerPlugins.py:64-66 | Records with the same id belong to the same plugin, so a replacement never moves a record to another plugin's place. |
| Commands.CopyArguments | OctoPrintPowerPlugins.py:103-104 | Copying the arguments succeeds iff the record has all of them. Otherwise the error names the first missing one. On success, each argument holds the record's value, `command` is unchanged, and the arguments follow `command` in order. |
| Commands.SetStateCommand | OctoPrintPowerPlugins.py:71-76 | An unknown id gives the empty command. A record without a `plugin` field raises `KeyError("plugin")`. Otherwise the command is the one for the record's plugin. |
| Commands.KindCommand | OctoPrintPowerPlugins.py:76-106 | The endpoint is `plugin/<kind>`. The payload is `command` (the kind's verb for the state), then the kind's argument fields, each with the record's value. The command fails iff the record lacks an argument, and the error names the first missing one. |
| Commands.SinglePlugCommand | OctoPrintPowerPlugins.py:78-82 | PSU Control and MyStrom Switch get a payload holding only their verb. |
| Commands.ArgumentsAreRecordFields | OctoPrintPowerPlugins.py:86-104 | Every field a plugin's command reads is a field of the record parsing builds for that plugin. |
| Commands.CommandSucceeds | OctoPrintPowerPlugins.py:71-106 | On a registry of well-formed records, every registered id gets a command. It names the record's plugin, starts with the verb, and carries the record's own values for the plugin's arguments, in order. |
| Commands.StateOnlyChangesVerb | OctoPrintPowerPlugins.py:78-104 | Switching on and switching off succeed or fail together. They share the endpoint and payload fields, and differ at most in `command`. |
| OctoPrintPowerPlugins.Init | OctoPrintPowerPlugins.py:9-10 | A new object has an empty registry, which satisfies the invariant. |
| OctoPrintPowerPlugins.ParsePluginData | OctoPrintPowerPlugins.py:12-62 | Parsing establishes the invariant. Every registered record comes from the new settings. It raises what discovery raises. |
| OctoPrintPowerPlugins.ParseIgnoresEarlierState | OctoPrintPowerPlugins.py:12-13 | Parsing discards the earlier registry: the same settings give the same result from any state, and parsing twice equals parsing once. |
| OctoPrintPowerPlugins.AvailableAfterParse | OctoPrintPowerPlugins.py:68-69 | After parsing, the available plugs have unique ids. These are exactly the discovered ids, listed plugin by plugin in parsing order. |
| OctoPrintPowerPlugins.GetSetStateCommand | OctoPrintPowerPlugins.py:71-106 | An unknown id gives the empty command. On a valid object every call succeeds. |
| OctoPrintPowerPlugins.ParsedCommandSucceeds | OctoPrintPowerPlugins.py:71-104 | After parsing, no command lookup fails, for any id and state. |
| Examples.RelayTopicsCollide | OctoPrintPowerPlugins.py:56-62 | Two relays with the same `relayN` on different topics build different records with the same id. |

## Left out

- Dynamic values: every setting is a string here. Python's truthiness of
  non-strings, a `relayN` given as the integer `0`, and the `TypeError` that
  `"/".join` raises on a non-string value are not modelled.
- Settings shapes: `arrSmartplugs` and `arrRelays` are looked up only among a
  plugin's list-valued settings, and `ip` for MyStrom only among its string
  values. A plugin's settings that are not a mapping, and the errors Python
  raises then, are not modelled.
- Exceptions: a `KeyError` is returned as a value, together with the registry
  filled up to it. No other exception is modelled.
- Aliasing: `getAvailablePowerPlugs` returns the object's own `OrderedDict`,
  which a caller could mutate. The model returns the registry as a value.
- GetAvailablePowerPlugs: it has no contract of its own. What it returns after
  parsing is stated by `OctoPrintPowerPlugins.AvailableAfterParse`.
- Callers: the HTTP requests the caller sends with the command, and the
  retrieval of the plugin settings, are not part of this model.
