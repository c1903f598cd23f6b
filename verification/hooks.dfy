/** Sequences of state hooks. The emulator's transition table is empty and its initial
    state is not defined, so no guard decides which hook runs next; these definitions
    apply ANY sequence of hooks and state what every such sequence preserves. */
module Hooks {
  import opened Channels
  import opened States

  /** One hook of one state class. */
  datatype Hook =
    | IdleEntry
    | SingleEntry(chan: Chan)
    | SingleTick(chan: Chan)
    | SingleExit(chan: Chan)
    | BothEntry
    | BothTick
    | BothExit

  /** A hook invocation with the clock reading and time step it is called with. */
  datatype Event = Event(hook: Hook, now: int, dt: real)

  /** The invariants every hook keeps: a "Timeout" status is never cleared, no hook
      sets a channel filling, and the shared scalars are never written. */
  ghost predicate Keeps(before: FillContext, after: FillContext) {
    && (forall c: Chan :: before.fillStatus.Get(c) == TIMEOUT ==> after.fillStatus.Get(c) == TIMEOUT)
    && (forall c: Chan :: after.filling.Get(c) ==> before.filling.Get(c))
    && SameSettings(before, after)
  }

  function Run(e: Event, ctx: FillContext, approach: Approach): (r: Step)
    ensures Keeps(ctx, r.After())
  {
    match e.hook
    case IdleEntry => Done(IdleOnEntry(ctx))
    case SingleEntry(c) => Done(SingleOnEntry(ctx, c, e.now))
    case SingleTick(c) => SingleInState(ctx, approach, c, e.now, e.dt)
    case SingleExit(c) => Done(SingleOnExit(ctx, c))
    case BothEntry => Done(BothOnEntry(ctx, e.now))
    case BothTick => BothInState(ctx, approach, e.now, e.dt)
    case BothExit => Done(BothOnExit(ctx))
  }

  /** Runs the events in order, stopping at the first hook that raises. */
  function RunAll(ctx: FillContext, approach: Approach, events: seq<Event>): (r: Step)
    ensures Keeps(ctx, r.After())
    decreases |events|
  {
    if |events| == 0 then Done(ctx)
    else
      match Run(events[0], ctx, approach)
      case Raised(f, p) => Raised(f, p)
      case Done(next) => RunAll(next, approach, events[1..])
  }
}
