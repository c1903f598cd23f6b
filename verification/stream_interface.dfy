/** The protocol handlers of the Lm500 emulator: what each decoded request does to the
    device and what it answers. A request that names no channel acts on the device's
    default channel. */
module StreamInterface {
  import opened Results
  import opened Device
  import Interval

  /** The channel a request acts on: the one it names, else the default channel. */
  function ResolveChannel(d: Device, channel: Option<int>): (c: int)
    ensures channel.None? ==> c == d.channel
    ensures channel.Some? ==> channel == Some(c)
  {
    if channel.None? then d.channel else channel.value
  }

  // Readbacks of a stored setting. Where a setter exists, the readback is the value
  // whose write leaves the device as it is.

  function GetBoost(d: Device): (r: string)
    ensures SetBoost(d, r) == d
    ensures d == InitialData() ==> r == "OFF"
  {
    d.boostMode
  }

  function GetOutput(d: Device): (r: int)
    ensures SetOutput(d, r) == d
    ensures d == InitialData() ==> r == 0
  {
    d.analogOut
  }

  function GetChannel(d: Device): (r: int)
    ensures SetChannel(d, r) == d
    ensures d == InitialData() ==> r == 1
  {
    d.channel
  }

  function GetError(d: Device): (r: int)
    ensures SetError(d, r) == d
    ensures d == InitialData() ==> r == 0
  {
    d.errorResponseMode
  }

  /** An interval of the `HH:MM:SS` form reads back as exactly the text the interval
      setter writes for its fields, so writing those fields again changes nothing. */
  function GetInterval(d: Device): (r: string)
    ensures r == d.sampleInterval
    ensures var p := Interval.ParseInterval(r);
      p.Some? ==> SetInterval(d, p.value.0, p.value.1, p.value.2) == d
    ensures d == InitialData() ==> r == "0:0:0"
  {
    Interval.ParsedIsFormatted(d.sampleInterval);
    d.sampleInterval
  }

  /** The sample mode as stored; no handler writes it. */
  function GetMode(d: Device): (r: string)
    ensures r == d.sampleMode
    ensures forall m :: SetMode(d, m).Success? ==> SetMode(d, m).value.sampleMode == r
    ensures d == InitialData() ==> r == "Sample/Hold"
  {
    d.sampleMode
  }

  /** The status word as stored; no handler writes it. */
  function GetStatus(d: Device): (r: string)
    ensures r == d.status
    ensures d == InitialData() ==> r == "0,0,0"
  {
    d.status
  }

  /** The units as stored; an accepted spelling written again changes nothing. */
  function GetUnits(d: Device): (r: string)
    ensures r == d.units
    ensures r == "CM" || r == "IN" || r == "%" ==> SetUnits(d, r) == d
    ensures d == InitialData() ==> r == "cm"
  {
    d.units
  }

  /** The probe type code of a channel; an unknown channel raises. */
  function GetType(d: Device, channel: Option<int>): (r: Result<int, Fault>)
    ensures r.Success? <==> ResolveChannel(d, channel) in d.channelType
    ensures r.Success? ==> r.value == d.channelType[ResolveChannel(d, channel)]
    ensures r.Failure? ==> r.error == UnknownChannel(ResolveChannel(d, channel))
  {
    var c := ResolveChannel(d, channel);
    if c in d.channelType then Success(d.channelType[c]) else Failure(UnknownChannel(c))
  }

  /** The fill-status text of a channel. */
  function GetFill(d: Device, channel: Option<int>): (r: Result<string, Fault>)
    ensures r.Success? <==> ResolveChannel(d, channel) in d.filling
    ensures r.Success? ==> (r.value == FILL_ON <==> d.filling[ResolveChannel(d, channel)])
    ensures r.Success? ==> (r.value == FILL_OFF <==> !d.filling[ResolveChannel(d, channel)])
    ensures r.Failure? ==> r.error == UnknownChannel(ResolveChannel(d, channel))
  {
    FillStatus(d, ResolveChannel(d, channel))
  }

  /** Requests a fill on a channel. */
  function SetFill(d: Device, channel: Option<int>): (r: Device)
    ensures GetFill(r, channel) == Success(FILL_ON)
    ensures r.filling.Keys == d.filling.Keys + {ResolveChannel(d, channel)}
    ensures forall k :: k in d.filling && k != ResolveChannel(d, channel) ==> r.filling[k] == d.filling[k]
    ensures r.(filling := d.filling) == d
  {
    Fill(d, ResolveChannel(d, channel))
  }

  function SetBoost(d: Device, boost: string): (r: Device)
    ensures r.boostMode == boost
    ensures r.(boostMode := d.boostMode) == d
  {
    d.(boostMode := boost)
  }

  function SetOutput(d: Device, output: int): (r: Device)
    ensures r.analogOut == output
    ensures r.(analogOut := d.analogOut) == d
  {
    d.(analogOut := output)
  }

  function SetChannel(d: Device, channel: int): (r: Device)
    ensures r.channel == channel
    ensures r.(channel := d.channel) == d
  {
    d.(channel := channel)
  }

  function SetError(d: Device, mode: int): (r: Device)
    ensures r.errorResponseMode == mode
    ensures r.(errorResponseMode := d.errorResponseMode) == d
  {
    d.(errorResponseMode := mode)
  }

  function SetHigh(d: Device, high: real): (r: Device)
    ensures r.highThreshold == Number(high)
    ensures r.(highThreshold := d.highThreshold) == d
  {
    d.(highThreshold := Number(high))
  }

  function SetLow(d: Device, low: real): (r: Device)
    ensures r.lowThreshold == Number(low)
    ensures r.(lowThreshold := d.lowThreshold) == d
  {
    d.(lowThreshold := Number(low))
  }

  /** Stores the sample interval as zero-padded `HH:MM:SS` text. Nothing is clamped: for
      fields 0..99 the readback is eight characters and parses back to the fields, and
      for any other field it is not of that form. */
  function SetInterval(d: Device, hour: int, minute: int, second: int): (r: Device)
    ensures 0 <= hour < 100 && 0 <= minute < 100 && 0 <= second < 100 ==>
      |r.sampleInterval| == 8 && Interval.ParseInterval(r.sampleInterval) == Some((hour, minute, second))
    ensures !(0 <= hour < 100 && 0 <= minute < 100 && 0 <= second < 100) ==>
      Interval.ParseInterval(r.sampleInterval).None?
    ensures r.(sampleInterval := d.sampleInterval) == d
  {
    Interval.InRangeParsesBack(hour, minute, second);
    d.(sampleInterval := Interval.FormatInterval(hour, minute, second))
  }

  /** The sample-mode codes the mode setter knows. */
  const MODES: map<string, string> := map["0" := "Disabled", "S" := "Sample/Hold", "C" := "Continuous"]

  /** Maps a mode code to its display name and stores it on the device's `set_mode`
      attribute, which the mode readback never reads; an unknown code raises and
      changes nothing. */
  function SetMode(d: Device, mode: string): (r: Result<Device, Fault>)
    ensures r.Success? <==> mode == "0" || mode == "S" || mode == "C"
    ensures r.Failure? ==> r.error == UnknownMode(mode)
    ensures mode == "0" ==> r.Success? && r.value.setModeAttribute == Some("Disabled")
    ensures mode == "S" ==> r.Success? && r.value.setModeAttribute == Some("Sample/Hold")
    ensures mode == "C" ==> r.Success? && r.value.setModeAttribute == Some("Continuous")
    ensures r.Success? ==> r.value.(setModeAttribute := d.setModeAttribute) == d
    ensures r.Success? ==> r.value.sampleMode == d.sampleMode
  {
    if mode in MODES then Success(d.(setModeAttribute := Some(MODES[mode])))
    else Failure(UnknownMode(mode))
  }

  /** Accepts "CM", "IN" and "%" as given and "PERCENT" as "%"; ignores anything else
      without raising. */
  function SetUnits(d: Device, units: string): (r: Device)
    ensures units == "CM" || units == "IN" || units == "%" ==> r.units == units
    ensures units == "PERCENT" ==> r.units == "%"
    ensures units != "CM" && units != "IN" && units != "%" && units != "PERCENT" ==> r == d
    ensures r.(units := d.units) == d
  {
    if units in ["CM", "IN", "%"] then d.(units := units)
    else if units == "PERCENT" then d.(units := "%")
    else d
  }
}
