/** Rotation by age in every run of the pool. */
module PoolRotation {
  import opened EventLog
  import opened PoolRoles
  import opened TimeoutDetector
  import opened PoolMonitor
  import opened PoolTick
  import opened PoolModel
  import opened PoolSafety
  import opened PoolTheorems
  import opened PoolAge

  /** A tick of a run, with what is known before and after it. */
  lemma TickIs(u: Setup, cap: nat, states: seq<State>, steps: seq<Step>, i: nat)
    requires Run(u, cap, states, steps) && i < |steps| && steps[i].Env? && steps[i].e.MonitorTick?
    ensures var s, a := states[i], steps[i].e.phases;
            && RolesInv(s.core, a.prune, u.max) && Shrinking(a) && TicksInv(s.core)
            && states[i + 1].core == Tick(s.core, WorldOf(u, s), a).0 && AllLong(states[i + 1].core.history)
  {
    TickOfRun(u, cap, states, steps, i);
    DeathsKeepRoles(states[i].core, states[i].alive, steps[i].e.phases.prune, u.max);
    RunIsSafe(u, cap, states, steps, i + 1, 0, 0);
    KeptAreLong(states[i + 1].core.recorded);
  }

  /** In every run: a primary that is overdue at the age check of a tick while a standby lives starts draining, and the
      first live standby is primary from then on, unless it is rotated out in the same tick for critical latency. */
  lemma OverduePrimaryIsRotated(u: Setup, cap: nat, states: seq<State>, steps: seq<Step>, i: nat, p: ConnId, q: ConnId)
    requires Run(u, cap, states, steps) && i < |steps| && steps[i].Env? && steps[i].e.MonitorTick?
    requires var s, a := states[i], steps[i].e.phases;
             && IsOverdue(s.core.conns, a.age, s.core.roles, s.now, u.configured, states[i + 1].core.history, p)
             && IsFirst(s.core.conns, a.age, s.core.roles.role, Standby, q)
    ensures var c, c' := states[i].core, states[i + 1].core;
            && p !in c.planned && p in c'.planned && p in c'.roles.role && c'.roles.role[p] == Draining
            && q in c'.roles.role && q in c'.roles.since && c'.roles.since[q] == states[i].now
            && (c'.roles.role[q] == Primary
                || (c'.roles.role[q] == Draining && TrailingRun(c'.seen, Critical) >= 3))
  {
    var s, a := states[i], steps[i].e.phases;
    TickIs(u, cap, states, steps, i);
    TickRotatesByAgeIff(s.core, WorldOf(u, s), a, p);
    TickHandsOverTo(s.core, WorldOf(u, s), a, p, q);
    TickKeepsRoles(s.core, WorldOf(u, s), a);
    TickCounts(s.core, WorldOf(u, s), a);
  }

  /** And nobody else does: a connection that starts draining in a tick was overdue while a standby lived, or the tick
      is the third critical one in a row. */
  lemma RotatedPrimaryWasOverdue(u: Setup, cap: nat, states: seq<State>, steps: seq<Step>, i: nat, p: ConnId)
    requires Run(u, cap, states, steps) && i < |steps| && steps[i].Env? && steps[i].e.MonitorTick?
    requires p !in states[i].core.planned && p in states[i + 1].core.planned
    ensures var s, s', a := states[i], states[i + 1], steps[i].e.phases;
            || (IsOverdue(s.core.conns, a.age, s.core.roles, s.now, u.configured, s'.core.history, p)
                && HasStandby(s.core.conns, a.age, s.core.roles.role))
            || TrailingRun(s'.core.seen, Critical) >= 3
  {
    var s, a := states[i], steps[i].e.phases;
    TickIs(u, cap, states, steps, i);
    TickRotatesByAgeIff(s.core, WorldOf(u, s), a, p);
    TickKeepsRoles(s.core, WorldOf(u, s), a);
    TickCounts(s.core, WorldOf(u, s), a);
  }
}
