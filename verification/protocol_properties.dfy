/** Properties relating several protocol handlers of the Lm500 emulator. */
module ProtocolProperties {
  import opened Results
  import opened Device
  import opened StreamInterface
  import Interval

  /** A request without a channel behaves as the same request naming the default
      channel, for the type readback, the fill readback and the fill request. */
  lemma DefaultChannelFallback(d: Device)
    ensures GetType(d, None) == GetType(d, Some(d.channel))
    ensures GetFill(d, None) == GetFill(d, Some(d.channel))
    ensures SetFill(d, None) == SetFill(d, Some(d.channel))
  {
  }

  /** After selecting a default channel, the type readback reports that channel's type. */
  lemma ChannelSelectsType(d: Device, channel: int)
    ensures GetType(SetChannel(d, channel), None) == GetType(d, Some(channel))
  {
  }

  /** At start-up the default channel is 1, so the type readback is 4; channel 2 is 27. */
  lemma InitialType()
    ensures GetType(InitialData(), None) == Success(4)
    ensures GetType(InitialData(), Some(2)) == Success(27)
  {
  }

  /** Whatever the unit request, the stored units are unchanged or one of the accepted
      spellings; repeating a request changes nothing more. */
  lemma SetUnitsOutcome(d: Device, units: string)
    ensures var u := GetUnits(SetUnits(d, units)); u == d.units || u == "CM" || u == "IN" || u == "%"
    ensures SetUnits(SetUnits(d, units), units) == SetUnits(d, units)
  {
  }

  /** The start-up interval text "0:0:0" is not of the form the interval setter stores. */
  lemma InitialIntervalNotPadded()
    ensures Interval.ParseInterval(GetInterval(InitialData())).None?
  {
  }

  /** Setting the interval 10:20:30 reads back as "10:20:30". */
  lemma IntervalReadback(d: Device)
    ensures GetInterval(SetInterval(d, 10, 20, 30)) == "10:20:30"
  {
    Interval.TenTwentyThirty();
  }

  /** The interval setter does not clamp: 200, 70, 0 reads back as "200:70:00". */
  lemma UnclampedIntervalReadback(d: Device)
    ensures GetInterval(SetInterval(d, 200, 70, 0)) == "200:70:00"
  {
    Interval.TwoHundredSeventyZero();
  }

  /** Each setter's argument is what the matching readback then returns. */
  lemma SetterReadbacks(d: Device, boost: string, output: int, channel: int, mode: int, units: string)
    ensures GetBoost(SetBoost(d, boost)) == boost
    ensures GetOutput(SetOutput(d, output)) == output
    ensures GetChannel(SetChannel(d, channel)) == channel
    ensures GetError(SetError(d, mode)) == mode
    ensures units == "CM" || units == "IN" || units == "%" ==> GetUnits(SetUnits(d, units)) == units
    ensures units == "PERCENT" ==> GetUnits(SetUnits(d, units)) == "%"
  {
  }

  /** A successful mode request never changes the mode readback. */
  lemma SetModeKeepsReadback(d: Device, mode: string)
    requires SetMode(d, mode).Success?
    ensures GetMode(SetMode(d, mode).value) == GetMode(d)
  {
  }
}
