/**
 The class `OctoPrintPowerPlugins` (OctoPrintPowerPlugins.py lines 7-106): an
 object holding the plug registry, rebuilt by `parsePluginData` and read by
 `getAvailablePowerPlugs` and `getSetStateCommand`.
 */
module OctoPrintPowerPlugins {
  import opened Wrappers
  import opened OrderedMaps
  import opened Plugs
  import opened Settings
  import opened Records
  import opened Parsing
  import opened Commands

  /** The object's state: `self._available_plugs`. */
  datatype PowerPlugins = PowerPlugins(availablePlugs: Registry)

  /** What `parsePluginData` leaves behind: the new state, and the `KeyError` it raised, if any. */
  datatype ParseResult = ParseResult(next: PowerPlugins, raised: Option<KeyError>)

  /** The registry invariant parsing establishes: unique ids, each the id of a well-formed record. */
  predicate Valid(self: PowerPlugins)
  {
    && UniqueKeys(self.availablePlugs)
    && AllWellFormed(self.availablePlugs)
    && forall e :: e in self.availablePlugs ==> e.0 == CreatePlugId(e.1)
  }

  /** `__init__` (lines 9-10): an empty registry. */
  function Init(): (self: PowerPlugins)
    ensures Valid(self)
    ensures |self.availablePlugs| == 0
  {
    PowerPlugins([])
  }

  /**
   `parsePluginData` (lines 12-62): the old registry is discarded, and the new one
   holds only records discovered in `data`, keyed by their ids.
   */
  function ParsePluginData(self: PowerPlugins, data: PluginData): (r: ParseResult)
    ensures Valid(r.next)
    ensures forall e :: e in r.next.availablePlugs ==> e.1 in Discover(data).plugs
    ensures r.raised == Discover(data).raised
  {
    var parsed := BuildRegistry(data);
    ParseResult(PowerPlugins(parsed.plugs), parsed.raised)
  }

  /** `getAvailablePowerPlugs` (lines 68-69): the registry itself. */
  function GetAvailablePowerPlugs(self: PowerPlugins): Registry
  {
    self.availablePlugs
  }

  /** `getSetStateCommand` (lines 71-106) on the object's registry. */
  function GetSetStateCommand(self: PowerPlugins, id: string, state: bool): (r: Result<Command, KeyError>)
    ensures id !in Keys(self.availablePlugs) ==> r == Ok(NoCommand)
    ensures Valid(self) ==> r.Ok?
  {
    ValidCommandSucceeds(self, id, state);
    SetStateCommand(self.availablePlugs, id, state)
  }

  lemma ValidCommandSucceeds(self: PowerPlugins, id: string, state: bool)
    ensures Valid(self) && id in Keys(self.availablePlugs) ==> SetStateCommand(self.availablePlugs, id, state).Ok?
  {
    if Valid(self) && id in Keys(self.availablePlugs) {
      CommandSucceeds(self.availablePlugs, id, state);
    }
  }

  /**
   Parsing depends only on its argument: whatever the earlier state, parsing the
   same settings gives the same registry, ids, order and records, so parsing
   twice is the same as parsing once.
   */
  lemma ParseIgnoresEarlierState(s1: PowerPlugins, s2: PowerPlugins, data: PluginData)
    ensures ParsePluginData(s1, data) == ParsePluginData(s2, data)
    ensures ParsePluginData(ParsePluginData(s1, data).next, data) == ParsePluginData(s1, data)
  {
  }

  /**
   After parsing, the registry lists each discovered id once, and lists them
   plugin by plugin in the order parsing visits the plugins.
   */
  lemma AvailableAfterParse(self: PowerPlugins, data: PluginData)
    ensures var plugs := GetAvailablePowerPlugs(ParsePluginData(self, data).next);
      && UniqueKeys(plugs)
      && (forall id :: id in Keys(plugs) <==> id in Ids(Discover(data).plugs))
      && (forall i, j :: 0 <= i < j < |plugs| ==> Rank(plugs[i].1) <= Rank(plugs[j].1))
  {
    forall id
      ensures id in Keys(BuildRegistry(data).plugs) <==> id in Ids(Discover(data).plugs)
    {
      RegistryKeys(data, id);
    }
    RegistrySorted(data);
  }

  /** Every id the registry holds after parsing gets a command: the lookups of lines 75-104 never fail. */
  lemma ParsedCommandSucceeds(self: PowerPlugins, data: PluginData, id: string, state: bool)
    ensures GetSetStateCommand(ParsePluginData(self, data).next, id, state).Ok?
  {
  }
}
