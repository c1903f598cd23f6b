/** The fill-tracker state hooks of the Lm500 emulator: what entering, staying in and
    leaving each of the states Idle, Filling-channel-1, Filling-channel-2 and
    Filling-both does to the per-channel fill bookkeeping.

    Each hook is a pure function from the bookkeeping record to the updated record.
    The wall clock is an argument `now` in integer seconds, and the level-approach
    primitive of the simulation framework is an argument `approach`, about which
    nothing is assumed. The two single-channel states are one definition taking the
    channel as a parameter. */
module States {
  import opened Channels
  import Clock

  const OFF := "Off"
  const TIMEOUT := "Timeout"

  /** A channel's fill start: the sentinel 0 of the emulator ("not started") or the
      moment the fill began. The two are different kinds of value in the emulator
      (an integer and a timestamp), so a start at clock time 0 is still a start. */
  datatype Start = NotStarted | StartedAt(seconds: int)

  /** The fields the state hooks read and write: the union of what they use. */
  datatype FillContext = FillContext(
    fillStart: PerChannel<Start>,
    filling: PerChannel<bool>,
    fillTime: PerChannel<int>,       // whole minutes
    fillStatus: PerChannel<string>,
    value: PerChannel<real>,         // current level
    highThreshold: real,
    fillSpeed: real,
    maxFillTime: int)

  /** The level-approach primitive: (current, target, speed, dt) to the next level. */
  type Approach = (real, real, real, real) -> real

  /** Subtracting the "not started" sentinel from a timestamp: the emulator raises a
      type error while computing the elapsed time of channel `channel`. */
  datatype Fault = ElapsedFromUnstarted(channel: Chan)

  /** The outcome of a hook. `Raised` carries the record as the hook left it when the
      error escaped: the writes made before the failing line have happened. */
  datatype Step = Done(ctx: FillContext) | Raised(fault: Fault, partial: FillContext) {
    function After(): FillContext {
      if Done? then ctx else partial
    }
  }

  /** Channel `c` holds the same bookkeeping in `a` and `b`. */
  predicate SameChannel(a: FillContext, b: FillContext, c: Chan) {
    && a.fillStart.Get(c) == b.fillStart.Get(c)
    && a.filling.Get(c) == b.filling.Get(c)
    && a.fillTime.Get(c) == b.fillTime.Get(c)
    && a.fillStatus.Get(c) == b.fillStatus.Get(c)
    && a.value.Get(c) == b.value.Get(c)
  }

  /** The shared scalars no hook writes. */
  predicate SameSettings(a: FillContext, b: FillContext) {
    && a.highThreshold == b.highThreshold
    && a.fillSpeed == b.fillSpeed
    && a.maxFillTime == b.maxFillTime
  }

  /** The shared reset of the idle and single-channel states: channel `c` stops and its
      timer clears; a "Timeout" status survives, any other status becomes "Off". */
  function ResetFill(ctx: FillContext, c: Chan): (r: FillContext)
    ensures r.fillStart.Get(c) == NotStarted
    ensures !r.filling.Get(c)
    ensures r.fillTime.Get(c) == 0
    ensures r.fillStatus.Get(c) == OFF || r.fillStatus.Get(c) == TIMEOUT
    ensures r.fillStatus.Get(c) == TIMEOUT <==> ctx.fillStatus.Get(c) == TIMEOUT
    ensures r.value == ctx.value
    ensures SameChannel(ctx, r, Other(c))
    ensures SameSettings(ctx, r)
  {
    var status := if ctx.fillStatus.Get(c) != TIMEOUT then OFF else ctx.fillStatus.Get(c);
    ctx.(fillStart := ctx.fillStart.Set(c, NotStarted),
         filling := ctx.filling.Set(c, false),
         fillTime := ctx.fillTime.Set(c, 0),
         fillStatus := ctx.fillStatus.Set(c, status))
  }

  /** Entering Idle resets both channels. */
  function IdleOnEntry(ctx: FillContext): (r: FillContext)
    ensures forall c: Chan ::
      && r.fillStart.Get(c) == NotStarted
      && !r.filling.Get(c)
      && r.fillTime.Get(c) == 0
      && (r.fillStatus.Get(c) == OFF || r.fillStatus.Get(c) == TIMEOUT)
      && (r.fillStatus.Get(c) == TIMEOUT <==> ctx.fillStatus.Get(c) == TIMEOUT)
    ensures r.value == ctx.value
    ensures SameSettings(ctx, r)
  {
    ResetFill(ResetFill(ctx, 1), 2)
  }

  /** Entering the state that fills channel `c` alone: `c`'s fill starts now and the
      other channel is reset. Nothing else of channel `c` changes. */
  function SingleOnEntry(ctx: FillContext, c: Chan, now: int): (r: FillContext)
    ensures r.fillStart.Get(c) == StartedAt(now)
    ensures r.filling.Get(c) == ctx.filling.Get(c)
    ensures r.fillTime.Get(c) == ctx.fillTime.Get(c)
    ensures r.fillStatus.Get(c) == ctx.fillStatus.Get(c)
    ensures r.value == ctx.value
    ensures r.fillStart.Get(Other(c)) == NotStarted
    ensures !r.filling.Get(Other(c))
    ensures r.fillTime.Get(Other(c)) == 0
    ensures r.fillStatus.Get(Other(c)) == OFF || r.fillStatus.Get(Other(c)) == TIMEOUT
    ensures r.fillStatus.Get(Other(c)) == TIMEOUT <==> ctx.fillStatus.Get(Other(c)) == TIMEOUT
    ensures SameSettings(ctx, r)
  {
    var started := ctx.(fillStart := ctx.fillStart.Set(c, StartedAt(now)));
    ResetFill(started, Other(c))
  }

  /** One tick in the state that fills channel `c` alone: the level of `c` moves by the
      approach primitive towards the high threshold, then its fill time becomes the
      rounded minutes since its start. With no start recorded the elapsed time cannot
      be computed and the tick raises, after the level has moved. */
  function SingleInState(ctx: FillContext, approach: Approach, c: Chan, now: int, dt: real): (r: Step)
    ensures r.Done? <==> ctx.fillStart.Get(c).StartedAt?
    ensures r.Raised? ==> r.fault == ElapsedFromUnstarted(c)
    ensures r.After().value.Get(c) == approach(ctx.value.Get(c), ctx.highThreshold, ctx.fillSpeed, dt)
    ensures r.Done? ==> r.ctx.fillTime.Get(c) == Clock.ElapsedMinutes(ctx.fillStart.Get(c).seconds, now)
    ensures r.Raised? ==> r.partial.fillTime == ctx.fillTime
    ensures r.After().fillStart == ctx.fillStart
    ensures r.After().filling == ctx.filling
    ensures r.After().fillStatus == ctx.fillStatus
    ensures SameChannel(ctx, r.After(), Other(c))
    ensures SameSettings(ctx, r.After())
  {
    var level := approach(ctx.value.Get(c), ctx.highThreshold, ctx.fillSpeed, dt);
    var moved := ctx.(value := ctx.value.Set(c, level));
    match ctx.fillStart.Get(c)
    case NotStarted => Raised(ElapsedFromUnstarted(c), moved)
    case StartedAt(t) => Done(moved.(fillTime := moved.fillTime.Set(c, Clock.ElapsedMinutes(t, now))))
  }

  /** Leaving the state that fills channel `c` alone: `c` is marked "Timeout" when its
      fill time is over the limit; otherwise nothing changes. */
  function SingleOnExit(ctx: FillContext, c: Chan): (r: FillContext)
    ensures ctx.fillTime.Get(c) > ctx.maxFillTime ==> r.fillStatus.Get(c) == TIMEOUT
    ensures ctx.fillTime.Get(c) <= ctx.maxFillTime ==> r == ctx
    ensures r.(fillStatus := ctx.fillStatus) == ctx
    ensures r.fillStatus.Get(Other(c)) == ctx.fillStatus.Get(Other(c))
  {
    if ctx.fillTime.Get(c) > ctx.maxFillTime then
      ctx.(fillStatus := ctx.fillStatus.Set(c, TIMEOUT))
    else
      ctx
  }

  /** Entering Filling-both records exactly one start time and resets nothing: channel 1
      when it has no start, channel 2 otherwise. */
  function BothOnEntry(ctx: FillContext, now: int): (r: FillContext)
    ensures r.(fillStart := ctx.fillStart) == ctx
    ensures ctx.fillStart.Get(1) == NotStarted ==>
      r.fillStart.Get(1) == StartedAt(now) && r.fillStart.Get(2) == ctx.fillStart.Get(2)
    ensures ctx.fillStart.Get(1) != NotStarted ==>
      r.fillStart.Get(1) == ctx.fillStart.Get(1) && r.fillStart.Get(2) == StartedAt(now)
  {
    if ctx.fillStart.Get(1) == NotStarted then
      ctx.(fillStart := ctx.fillStart.Set(1, StartedAt(now)))
    else
      ctx.(fillStart := ctx.fillStart.Set(2, StartedAt(now)))
  }

  /** One tick in Filling-both: both levels move, then channel 1's and channel 2's fill
      times are recomputed in that order; the first channel without a start raises. */
  function BothInState(ctx: FillContext, approach: Approach, now: int, dt: real): (r: Step)
    ensures r.Done? <==> ctx.fillStart.Get(1).StartedAt? && ctx.fillStart.Get(2).StartedAt?
    ensures r.Raised? ==>
      r.fault == ElapsedFromUnstarted(if ctx.fillStart.Get(1).NotStarted? then 1 else 2)
    ensures forall c: Chan ::
      r.After().value.Get(c) == approach(ctx.value.Get(c), ctx.highThreshold, ctx.fillSpeed, dt)
    ensures forall c: Chan :: r.Done? ==>
      r.ctx.fillTime.Get(c) == Clock.ElapsedMinutes(ctx.fillStart.Get(c).seconds, now)
    ensures r.Raised? && ctx.fillStart.Get(1).NotStarted? ==> r.partial.fillTime == ctx.fillTime
    ensures r.Raised? && ctx.fillStart.Get(1).StartedAt? ==>
      r.partial.fillTime == ctx.fillTime.Set(1, Clock.ElapsedMinutes(ctx.fillStart.Get(1).seconds, now))
    ensures r.After().fillStart == ctx.fillStart
    ensures r.After().filling == ctx.filling
    ensures r.After().fillStatus == ctx.fillStatus
    ensures SameSettings(ctx, r.After())
  {
    var level1 := approach(ctx.value.Get(1), ctx.highThreshold, ctx.fillSpeed, dt);
    var moved1 := ctx.(value := ctx.value.Set(1, level1));
    var level2 := approach(moved1.value.Get(2), moved1.highThreshold, moved1.fillSpeed, dt);
    var moved := moved1.(value := moved1.value.Set(2, level2));
    match ctx.fillStart.Get(1)
    case NotStarted => Raised(ElapsedFromUnstarted(1), moved)
    case StartedAt(t1) =>
      var timed1 := moved.(fillTime := moved.fillTime.Set(1, Clock.ElapsedMinutes(t1, now)));
      match ctx.fillStart.Get(2)
      case NotStarted => Raised(ElapsedFromUnstarted(2), timed1)
      case StartedAt(t2) =>
        Done(timed1.(fillTime := timed1.fillTime.Set(2, Clock.ElapsedMinutes(t2, now))))
  }

  /** Leaving Filling-both: a channel is marked "Timeout" only when its level has
      reached the high threshold AND its fill time is over the limit. */
  function BothOnExit(ctx: FillContext): (r: FillContext)
    ensures r.(fillStatus := ctx.fillStatus) == ctx
    ensures forall c: Chan ::
      ctx.value.Get(c) == ctx.highThreshold && ctx.fillTime.Get(c) > ctx.maxFillTime ==>
        r.fillStatus.Get(c) == TIMEOUT
    ensures forall c: Chan ::
      !(ctx.value.Get(c) == ctx.highThreshold && ctx.fillTime.Get(c) > ctx.maxFillTime) ==>
        r.fillStatus.Get(c) == ctx.fillStatus.Get(c)
  {
    var after1 :=
      if ctx.value.Get(1) == ctx.highThreshold && ctx.fillTime.Get(1) > ctx.maxFillTime
      then ctx.(fillStatus := ctx.fillStatus.Set(1, TIMEOUT))
      else ctx;
    if after1.value.Get(2) == after1.highThreshold && after1.fillTime.Get(2) > after1.maxFillTime
    then after1.(fillStatus := after1.fillStatus.Set(2, TIMEOUT))
    else after1
  }
}
