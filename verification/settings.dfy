/**
 The settings mapping `parsePluginData` reads: for each plugin key, that plugin's
 settings, whose values are strings or lists of string-valued entries.
 */
module Settings {

  /** One item of a plugin's `arrSmartplugs` or `arrRelays` list. */
  type Entry = map<string, string>

  /** The settings of one plugin: its string values and its list values, by key. */
  datatype PluginSettings = PluginSettings(values: map<string, string>, lists: map<string, seq<Entry>>)

  /** The whole settings mapping, keyed by plugin key. */
  type PluginData = map<string, PluginSettings>

  /** Python's truth value of a string: it is not empty. */
  predicate Truthy(s: string)
  {
    s != ""
  }
}
