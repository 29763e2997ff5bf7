/**
 A worked example of how `tasmota_mqtt` relays are keyed.
 */
module Examples {
  import opened Plugs
  import opened Records

  /**
   Two relays with the same `relayN` on different topics get the same id
   (OctoPrintPowerPlugins.py lines 56-62). By `Parsing.RegistryLastWins`, the
   registry then holds only the one discovered later.
   */
  lemma RelayTopicsCollide()
    ensures RelayRecord("kitchen", "1") != RelayRecord("garage", "1")
    ensures CreatePlugId(RelayRecord("kitchen", "1")) == CreatePlugId(RelayRecord("garage", "1")) == "tasmota_mqtt/1/1"
  {
    RelayId("kitchen", "1");
    RelayId("garage", "1");
    assert RelayRecord("kitchen", "1")[1] != RelayRecord("garage", "1")[1];
  }
}
