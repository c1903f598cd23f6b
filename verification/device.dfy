/** The simulated Lm500 device: its settings as `_initialize_data` creates them, the
    fill request flag and the fill-status text derived from it.

    Channel tables are dictionaries keyed by any integer: assigning a key that is not
    there adds it, reading one that is not there raises a key error. */
module Device {
  import opened Results

  const FILL_ON := "2 min"
  const FILL_OFF := "Off"

  /** A threshold as stored: the initial data holds text with a unit ("0 cm"), the
      protocol setter stores a number. */
  datatype Setpoint = Text(text: string) | Number(x: real)

  /** A key error escaping a handler. */
  datatype Fault = UnknownChannel(channel: int) | UnknownMode(mode: string)

  datatype Device = Device(
    alarmThreshold: string,
    boostMode: string,
    analogOut: int,
    channelType: map<int, int>,
    channel: int,                          // the default channel
    errorResponseMode: int,
    highThreshold: Setpoint,
    lowThreshold: Setpoint,
    sampleInterval: string,
    sensorLength: string,
    measurement: map<int, string>,
    sampleMode: string,
    units: string,
    status: string,
    filling: map<int, bool>,
    setModeAttribute: Option<string>)      // created by the protocol's mode setter

  /** The device as the emulator starts it. */
  function InitialData(): (d: Device)
    ensures d.filling.Keys == {1, 2} && d.channelType.Keys == {1, 2} && d.measurement.Keys == {1, 2}
    ensures !d.filling[1] && d.filling[2]
    ensures d.channel in d.channelType && d.channelType[d.channel] == 4
    ensures d.channelType[2] == 27
    ensures d.units == "cm" && d.sampleMode == "Sample/Hold" && d.sampleInterval == "0:0:0"
    ensures d.boostMode == "OFF" && d.analogOut == 0 && d.errorResponseMode == 0
    ensures d.status == "0,0,0"
    ensures d.highThreshold == Text("0 cm") && d.lowThreshold == Text("0 cm")
    ensures d.setModeAttribute.None?
    ensures d.alarmThreshold == "10 cm" && d.sensorLength == "0 cm"
    ensures d.measurement == map[1 := "0 cm", 2 := "0 cm"]
  {
    Device(
      alarmThreshold := "10 cm",
      boostMode := "OFF",
      analogOut := 0,
      channelType := map[1 := 4, 2 := 27],
      channel := 1,
      errorResponseMode := 0,
      highThreshold := Text("0 cm"),
      lowThreshold := Text("0 cm"),
      sampleInterval := "0:0:0",
      sensorLength := "0 cm",
      measurement := map[1 := "0 cm", 2 := "0 cm"],
      sampleMode := "Sample/Hold",
      units := "cm",
      status := "0,0,0",
      filling := map[1 := false, 2 := true],
      setModeAttribute := None)
  }

  /** Requests a fill on `channel`: its flag becomes true, whatever the channel number. */
  function Fill(d: Device, channel: int): (r: Device)
    ensures channel in r.filling && r.filling[channel]
    ensures r.filling.Keys == d.filling.Keys + {channel}
    ensures forall k :: k in d.filling && k != channel ==> r.filling[k] == d.filling[k]
    ensures r.(filling := d.filling) == d
  {
    d.(filling := d.filling[channel := true])
  }

  /** The fill-status text of `channel`: "2 min" while its flag is set, "Off" otherwise;
      a channel with no flag raises. */
  function FillStatus(d: Device, channel: int): (r: Result<string, Fault>)
    ensures r.Success? <==> channel in d.filling
    ensures r.Failure? ==> r.error == UnknownChannel(channel)
    ensures r.Success? ==> (r.value == FILL_ON <==> d.filling[channel])
    ensures r.Success? ==> (r.value == FILL_OFF <==> !d.filling[channel])
  {
    if channel !in d.filling then Failure(UnknownChannel(channel))
    else if d.filling[channel] then Success(FILL_ON)
    else Success(FILL_OFF)
  }

  /** A requested fill reads as "2 min". */
  lemma FillThenStatus(d: Device, channel: int)
    ensures FillStatus(Fill(d, channel), channel) == Success(FILL_ON)
  {
  }

  /** Requesting a fill twice is requesting it once. */
  lemma FillIdempotent(d: Device, channel: int)
    ensures Fill(Fill(d, channel), channel) == Fill(d, channel)
  {
  }

  /** A fill request on one channel does not change another channel's status. */
  lemma FillLeavesOtherStatus(d: Device, channel: int, other: int)
    requires other != channel
    ensures FillStatus(Fill(d, channel), other) == FillStatus(d, other)
  {
  }

  /** At start-up channel 1 reads "Off" and channel 2 reads "2 min". */
  lemma InitialFillStatus()
    ensures FillStatus(InitialData(), 1) == Success(FILL_OFF)
    ensures FillStatus(InitialData(), 2) == Success(FILL_ON)
  {
  }
}
