/**
 * The simulation's state between ticks, and what holds of it when a tick
 * or a step of the run loop begins.
 */
module Worlds {
  import opened Troons
  import opened Holding
  import opened Network
  import opened Invariants

  /** One printed report line: the tick and its sorted descriptor groups (one for main.cc, one per line for bonus.cc). */
  datatype Report = Report(tick: int, groups: seq<seq<string>>)

  /** The simulation's state: the links, each line's remaining spawn budget, next_troon_id and the reports so far. */
  datatype World = World(net: seq<LinkState>, budgets: seq<int>, nextId: int, reports: seq<Report>)

  /** The state at the start of tick `tick` of a run of `ticks` ticks. */
  predicate Ready(v: Variant, w: World, env: Env, tick: int, ticks: int) {
    && Wired(w.net, env)
    && |w.budgets| == 3
    && w.nextId >= 0
    && 0 <= tick <= ticks <= INT_MAX
    && Headroom(w.net, ticks - 1)
    && forall j :: 0 <= j < |w.net| ==> LinkOk(v, w.net[j], env, tick, tick)
  }

  /** What the run loop needs before link i runs: the tables wired, timers in range, links before i already run. */
  predicate RunPre(v: Variant, net: seq<LinkState>, i: nat, tick: int, env: Env) {
    && Wired(net, env) && i <= |net| && 0 <= tick < INT_MAX && Headroom(net, tick)
    && forall j :: 0 <= j < |net| ==> LinkOk(v, net[j], env, tick, Due(j, i, tick))
  }
}
