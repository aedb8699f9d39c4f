/** The device telemetry slot of app.py: the thirteen fields `receive_data`
    extracts from a posted JSON object, and the `esp32_data` record that
    `get_combined_data` reports. */
module Telemetry {
  import opened Values

  /** The `esp32_data` record, one field per global. Values are stored as the
      device sent them; `Null` is "no data". */
  datatype Telemetry = Telemetry(
    boxTemperature: Json,
    voltage: Json,
    current: Json,
    power: Json,
    energy: Json,
    frequency: Json,
    powerFactor: Json,
    solarVoltage: Json,
    solarCurrent: Json,
    solarPower: Json,
    batteryPercentage: Json,
    batteryVoltage: Json,
    lightIntensity: Json)

  /** The slot before any sample has arrived: every global is `None`. */
  const NO_SAMPLE: Telemetry :=
    Telemetry(Null, Null, Null, Null, Null, Null, Null, Null, Null, Null, Null, Null, Null)

  /** The payload keys `receive_data` reads (the spelling, including case, is
      the device's). */
  const KEYS: set<string> := {
    "BoxTemperature", "Frequency", "PowerFactor", "Voltage", "Current", "Power",
    "Energy", "SolarVoltage", "solarCurrent", "solarPower", "batteryPercentage",
    "lightIntensity", "batteryVoltage"
  }

  /** The sample a payload yields: each field is `data.get` of its key. */
  function FromPayload(data: map<string, Json>): Telemetry
  {
    Telemetry(
      Lookup(data, "BoxTemperature"),
      Lookup(data, "Voltage"),
      Lookup(data, "Current"),
      Lookup(data, "Power"),
      Lookup(data, "Energy"),
      Lookup(data, "Frequency"),
      Lookup(data, "PowerFactor"),
      Lookup(data, "SolarVoltage"),
      Lookup(data, "solarCurrent"),
      Lookup(data, "solarPower"),
      Lookup(data, "batteryPercentage"),
      Lookup(data, "batteryVoltage"),
      Lookup(data, "lightIntensity"))
  }

  /** Two payloads yield the same sample exactly when they agree on every one
      of the thirteen keys: no other key matters, and every one of them does. */
  lemma FromPayloadDependsOnKeys(d1: map<string, Json>, d2: map<string, Json>)
    ensures FromPayload(d1) == FromPayload(d2) <==>
            (forall k :: k in KEYS ==> Lookup(d1, k) == Lookup(d2, k))
  {
    if FromPayload(d1) == FromPayload(d2) {
      forall k | k in KEYS
        ensures Lookup(d1, k) == Lookup(d2, k)
      {
        if k == "BoxTemperature" { assert FromPayload(d1).boxTemperature == FromPayload(d2).boxTemperature; }
        else if k == "Frequency" { assert FromPayload(d1).frequency == FromPayload(d2).frequency; }
        else if k == "PowerFactor" { assert FromPayload(d1).powerFactor == FromPayload(d2).powerFactor; }
        else if k == "Voltage" { assert FromPayload(d1).voltage == FromPayload(d2).voltage; }
        else if k == "Current" { assert FromPayload(d1).current == FromPayload(d2).current; }
        else if k == "Power" { assert FromPayload(d1).power == FromPayload(d2).power; }
        else if k == "Energy" { assert FromPayload(d1).energy == FromPayload(d2).energy; }
        else if k == "SolarVoltage" { assert FromPayload(d1).solarVoltage == FromPayload(d2).solarVoltage; }
        else if k == "solarCurrent" { assert FromPayload(d1).solarCurrent == FromPayload(d2).solarCurrent; }
        else if k == "solarPower" { assert FromPayload(d1).solarPower == FromPayload(d2).solarPower; }
        else if k == "batteryPercentage" { assert FromPayload(d1).batteryPercentage == FromPayload(d2).batteryPercentage; }
        else if k == "lightIntensity" { assert FromPayload(d1).lightIntensity == FromPayload(d2).lightIntensity; }
        else { assert FromPayload(d1).batteryVoltage == FromPayload(d2).batteryVoltage; }
      }
    }
  }

  /** A key outside the thirteen is ignored. */
  lemma UnknownKeyIgnored(data: map<string, Json>, k: string, v: Json)
    requires k !in KEYS
    ensures FromPayload(data[k := v]) == FromPayload(data)
  {
    FromPayloadDependsOnKeys(data[k := v], data);
  }

  /** An empty object clears the slot. */
  lemma EmptyPayloadClears()
    ensures FromPayload(map[]) == NO_SAMPLE
  {
  }

  /** A sample with only the box temperature and the voltage reports those
      two and "no data" everywhere else. */
  lemma PartialSample(t: real, u: real)
    ensures FromPayload(map["BoxTemperature" := Number(t), "Voltage" := Number(u)]) ==
      NO_SAMPLE.(boxTemperature := Number(t), voltage := Number(u))
  {
  }
}
