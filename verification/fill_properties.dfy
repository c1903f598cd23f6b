/** Properties relating several fill-tracker hooks: what a state's entry guarantees to
    its ticks, how Filling-both picks up a single-channel fill, and where the
    Filling-both exit differs from the single-channel exit. */
module FillProperties {
  import opened Channels
  import opened States
  import Clock

  /** Resetting a channel twice is resetting it once. */
  lemma ResetFillIdempotent(ctx: FillContext, c: Chan)
    ensures ResetFill(ResetFill(ctx, c), c) == ResetFill(ctx, c)
  {
  }

  /** Entering Idle twice is entering it once. */
  lemma IdleOnEntryIdempotent(ctx: FillContext)
    ensures IdleOnEntry(IdleOnEntry(ctx)) == IdleOnEntry(ctx)
  {
  }

  /** After entering the single-channel state of `c` at `start`, every tick of that state
      succeeds and reports the rounded minutes since `start`; the other channel stays
      stopped with a cleared timer. */
  lemma SingleEntryThenTick(ctx: FillContext, c: Chan, start: int, approach: Approach, now: int, dt: real)
    ensures var s := SingleInState(SingleOnEntry(ctx, c, start), approach, c, now, dt);
      && s.Done?
      && s.ctx.fillTime.Get(c) == Clock.ElapsedMinutes(start, now)
      && 60 * s.ctx.fillTime.Get(c) - 30 <= now - start <= 60 * s.ctx.fillTime.Get(c) + 30
      && s.ctx.fillStart.Get(Other(c)) == NotStarted
      && !s.ctx.filling.Get(Other(c))
      && s.ctx.fillTime.Get(Other(c)) == 0
  {
  }

  /** Moving from the single-channel state of `c` into Filling-both keeps `c`'s start and
      starts only the other channel; the ticks of Filling-both then succeed. */
  lemma SingleThenBoth(ctx: FillContext, c: Chan, start: int, later: int, approach: Approach, now: int, dt: real)
    ensures var both := BothOnEntry(SingleOnEntry(ctx, c, start), later);
      && both.fillStart.Get(c) == StartedAt(start)
      && both.fillStart.Get(Other(c)) == StartedAt(later)
      && BothInState(both, approach, now, dt).Done?
  {
  }

  /** Entering Filling-both straight after Idle starts channel 1 only, so its first tick
      raises on channel 2's missing start, after both levels have moved. */
  lemma BothAfterIdleRaises(ctx: FillContext, start: int, approach: Approach, now: int, dt: real)
    ensures var s := BothInState(BothOnEntry(IdleOnEntry(ctx), start), approach, now, dt);
      && s == Raised(ElapsedFromUnstarted(2), s.partial)
      && s.partial.fillTime.Get(1) == Clock.ElapsedMinutes(start, now)
      && s.partial.fillTime.Get(2) == 0
  {
  }

  /** A "Timeout" written by a single-channel exit survives the following Idle entry. */
  lemma TimeoutSurvivesIdle(ctx: FillContext, c: Chan)
    requires ctx.fillTime.Get(c) > ctx.maxFillTime
    ensures IdleOnEntry(SingleOnExit(ctx, c)).fillStatus.Get(c) == TIMEOUT
  {
  }

  /** A channel that ran over the time limit without reaching the high threshold is
      marked "Timeout" by the single-channel exit but keeps its status through the
      Filling-both exit. */
  lemma BothExitSparesUnreachedChannel(ctx: FillContext, c: Chan)
    requires ctx.fillTime.Get(c) > ctx.maxFillTime
    requires ctx.value.Get(c) != ctx.highThreshold
    ensures SingleOnExit(ctx, c).fillStatus.Get(c) == TIMEOUT
    ensures BothOnExit(ctx).fillStatus.Get(c) == ctx.fillStatus.Get(c)
  {
  }

  /** Both exits agree on a channel that reached the high threshold. */
  lemma ExitsAgreeAtThreshold(ctx: FillContext, c: Chan)
    requires ctx.value.Get(c) == ctx.highThreshold
    ensures BothOnExit(ctx).fillStatus.Get(c) == SingleOnExit(ctx, c).fillStatus.Get(c)
  {
  }
}
