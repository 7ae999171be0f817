/** Over many ticks: no group is starved, none is refreshed more often than its interval. */
module SchedulerFairness {
  import opened Common
  import opened Scheduler

  /** One tick with what it found: the scan, the tenants with a running job, the database's answers. */
  datatype Tick = Tick(now: int, due: seq<Group>, active: set<Tenant>, world: World)

  function RunTick(s: State, x: Tick): State {
    TickAll(s.(active := x.active), x.due, x.now, {}, x.world)
  }

  /** Jobs end and are submitted by others between ticks; the groups are only touched by the ticks. */
  ghost predicate CanTick(s: State, ticks: seq<Tick>)
    decreases |ticks|
  {
    ticks == [] || (IsScan(s.groups, ticks[0].now, ticks[0].due) && CanTick(RunTick(s, ticks[0]), ticks[1..]))
  }

  /** Same-tenant groups whose time is not after this one's. */
  ghost function Ahead(groups: map<Id, Group>, id: Id): set<Id>
    requires id in groups && groups[id].next.Some?
  {
    set h | h in groups && h != id && groups[h].tenant == groups[id].tenant && groups[h].interval > 0
            && groups[h].next.Some? && groups[h].next.value <= groups[id].next.value
  }

  /** A tick that scanned the group, found its tenant idle, and met no database error for its groups. */
  ghost predicate Serves(groups: map<Id, Group>, id: Id, x: Tick)
    requires id in groups
  {
    && groups[id] in x.due
    && groups[id].tenant !in x.active
    && forall i :: 0 <= i < |x.due| && x.due[i].tenant == groups[id].tenant ==>
         x.due[i].id !in x.world.countFails && x.due[i].id !in x.world.claimFails
  }

  // ---------- one tick ----------

  /** The tenant's first group in the scan is claimed when the tenant is idle. */
  lemma {:induction false} FirstIsClaimed(
    s: State, due: seq<Group>, now: int, busy: set<Tenant>, w: World, tenant: Tenant, i: nat)
    requires Fresh(s, due, now) && tenant !in busy && tenant !in s.active
    requires i < |due| && due[i].tenant == tenant && forall j :: 0 <= j < i ==> due[j].tenant != tenant
    requires due[i].id !in w.countFails && due[i].id !in w.claimFails
    ensures var u := TickAll(s, due, now, busy, w);
            due[i].id in u.groups && u.groups[due[i].id] == due[i].(next := Some(now + 60 * due[i].interval))
    decreases |due|
  {
    var (t, b) := TickGroup(s, due[0], now, busy, w);
    FreshRest(s, due, now, busy, w);
    if i == 0 {
      NotScannedNotTouched(t, due[1..], now, b, w, due[0].id);
    } else {
      FirstIsClaimed(t, due[1..], now, b, w, tenant, i - 1);
    }
  }

  lemma ScanIsFresh(s: State, x: Tick)
    requires IsScan(s.groups, x.now, x.due)
    ensures Fresh(s.(active := x.active), x.due, x.now)
  {
  }

  lemma {:induction false} FirstOfTenant(due: seq<Group>, j: nat) returns (i: nat)
    requires j < |due|
    ensures i <= j && due[i].tenant == due[j].tenant
    ensures forall k :: 0 <= k < i ==> due[k].tenant != due[j].tenant
  {
    i := 0;
    while due[i].tenant != due[j].tenant
      invariant i <= j && forall k :: 0 <= k < i ==> due[k].tenant != due[j].tenant
      decreases j - i
    {
      i := i + 1;
    }
  }

  /** A claim only ever moves a group behind: nobody joins the groups ahead of one that was not claimed. */
  lemma AheadOnlyShrinks(s: State, x: Tick, id: Id)
    requires IsScan(s.groups, x.now, x.due) && id in s.groups && s.groups[id].next.Some?
    ensures var t := RunTick(s, x);
            id in t.groups && (t.groups[id] == s.groups[id] ==> Ahead(t.groups, id) <= Ahead(s.groups, id))
  {
    TickClaims(s.(active := x.active), x.due, x.now, {}, x.world);
    var t := RunTick(s, x);
    if t.groups[id] == s.groups[id] {
      forall h | h in Ahead(t.groups, id) ensures h in Ahead(s.groups, id) {
        if t.groups[h] != s.groups[h] {
          var i :| 0 <= i < |x.due| && x.due[i].id == h
                   && t.groups[h] == s.groups[h].(next := Some(x.now + 60 * x.due[i].interval));
          assert x.due[i].interval > 0;
        }
      }
    }
  }

  lemma SubsetSize(a: set<Id>, b: set<Id>)
    requires a <= b
    ensures |a| <= |b| && (a != b ==> |a| < |b|)
  {
    assert b == a + (b - a);
    if a != b {
      assert b - a != {};
    }
  }

  /** A tick that serves the group claims it, or one of the groups ahead of it. */
  lemma ServedOnce(s: State, x: Tick, id: Id)
    requires IsScan(s.groups, x.now, x.due) && id in s.groups && s.groups[id].next.Some? && s.groups[id].id == id
    requires Serves(s.groups, id, x)
    ensures var t := RunTick(s, x);
            && id in t.groups
            && (t.groups[id] == s.groups[id] ==> |Ahead(t.groups, id)| < |Ahead(s.groups, id)|)
            && (t.groups[id] != s.groups[id] ==> ClaimedAndStarted(s, t, id, x))
  {
    var t := RunTick(s, x);
    AheadOnlyShrinks(s, x, id);
    ScanIsFresh(s, x);
    var j :| 0 <= j < |x.due| && x.due[j] == s.groups[id];
    var i := FirstOfTenant(x.due, j);
    FirstIsClaimed(s.(active := x.active), x.due, x.now, {}, x.world, s.groups[id].tenant, i);
    var h := x.due[i].id;
    if t.groups[id] != s.groups[id] {
      ChangedMeansStarted(s, x, id);
    } else {
      assert h != id;
      assert h in Ahead(s.groups, id) && h !in Ahead(t.groups, id);
      SubsetSize(Ahead(t.groups, id), Ahead(s.groups, id));
    }
  }

  // ---------- runs of ticks ----------

  /** Ticks that serve the group, up to the one that claims it. */
  ghost function Served(s: State, ticks: seq<Tick>, id: Id): nat
    requires CanTick(s, ticks) && id in s.groups
    decreases |ticks|
  {
    if ticks == [] then 0
    else
      var t := RunTick(s, ticks[0]);
      TickClaims(s.(active := ticks[0].active), ticks[0].due, ticks[0].now, {}, ticks[0].world);
      (if Serves(s.groups, id, ticks[0]) then 1 else 0) + Served(t, ticks[1..], id)
  }

  /** Its next time is one interval from the tick, and if it can be refreshed its job has started. */
  ghost predicate ClaimedAndStarted(s: State, t: State, id: Id, x: Tick)
    requires id in s.groups && id in t.groups
  {
    && t.groups[id] == s.groups[id].(next := Some(x.now + 60 * s.groups[id].interval))
    && (Startable(s.groups[id], x.world) ==>
          |s.jobs| <= |t.jobs| && Job(s.groups[id].tenant, id) in t.jobs[|s.jobs|..] && s.groups[id].tenant in t.active)
  }

  /** A tick that changes a group's row claims it and starts its job. */
  lemma ChangedMeansStarted(s: State, x: Tick, id: Id)
    requires IsScan(s.groups, x.now, x.due) && id in s.groups && s.groups[id].id == id
    requires id in RunTick(s, x).groups && RunTick(s, x).groups[id] != s.groups[id]
    ensures ClaimedAndStarted(s, RunTick(s, x), id, x)
  {
    var s1, t, g := s.(active := x.active), RunTick(s, x), s.groups[id];
    ScanIsFresh(s, x);
    TickEffect(s1, x.due, x.now, {}, x.world);
    var claimed := ClaimedGroups(x.due, {} + s1.active, x.world);
    assert g in claimed;
    if Startable(g, x.world) {
      ClaimedGetsJob(claimed, g, x.world);
      assert t.jobs[|s.jobs|..] == JobsFor(claimed, x.world);
      var k :| 0 <= k < |JobsFor(claimed, x.world)| && JobsFor(claimed, x.world)[k] == Job(g.tenant, id);
      assert JobsFor(claimed, x.world)[k].tenant in TenantsOf(JobsFor(claimed, x.world));
    }
  }

  ghost predicate ClaimedWithin(s: State, ticks: seq<Tick>, id: Id)
    requires CanTick(s, ticks) && id in s.groups
    decreases |ticks|
  {
    ticks != [] &&
    var t := RunTick(s, ticks[0]);
    TickClaims(s.(active := ticks[0].active), ticks[0].due, ticks[0].now, {}, ticks[0].world);
    (ClaimedAndStarted(s, t, id, ticks[0]) || ClaimedWithin(t, ticks[1..], id))
  }

  /**
   * With r groups of the same tenant ahead, a group is claimed, and its refresh started, by the (r + 1)-th
   * tick that serves it.
   */
  lemma {:induction false} NobodyStarves(s: State, ticks: seq<Tick>, id: Id)
    requires CanTick(s, ticks) && id in s.groups && s.groups[id].next.Some? && s.groups[id].id == id
    requires Served(s, ticks, id) > |Ahead(s.groups, id)|
    ensures ClaimedWithin(s, ticks, id)
    decreases |ticks|
  {
    var x, t := ticks[0], RunTick(s, ticks[0]);
    AheadOnlyShrinks(s, x, id);
    if t.groups[id] == s.groups[id] {
      SubsetSize(Ahead(t.groups, id), Ahead(s.groups, id));
      if Serves(s.groups, id, x) {
        ServedOnce(s, x, id);
      }
      NobodyStarves(t, ticks[1..], id);
    } else {
      ChangedMeansStarted(s, x, id);
    }
  }

  ghost function RunTicks(s: State, ticks: seq<Tick>): State
    decreases |ticks|
  {
    if ticks == [] then s else RunTicks(RunTick(s, ticks[0]), ticks[1..])
  }

  /** Until its time comes a group is left alone, so two claims are at least one interval apart. */
  lemma {:induction false} NotBeforeItsTime(s: State, ticks: seq<Tick>, id: Id)
    requires CanTick(s, ticks) && id in s.groups && s.groups[id].next.Some?
    requires forall i :: 0 <= i < |ticks| ==> ticks[i].now < s.groups[id].next.value
    ensures id in RunTicks(s, ticks).groups && RunTicks(s, ticks).groups[id] == s.groups[id]
    decreases |ticks|
  {
    if ticks == [] {
    } else {
      TickClaims(s.(active := ticks[0].active), ticks[0].due, ticks[0].now, {}, ticks[0].world);
      NotBeforeItsTime(RunTick(s, ticks[0]), ticks[1..], id);
    }
  }

  /** A tick scans only groups that have a schedule, are due, and whose tenant has an active user. */
  lemma OnlyScheduledAreScanned(s: State, x: Tick, id: Id)
    requires IsScan(s.groups, x.now, x.due) && id in s.groups && s.groups[id].id == id
    requires !s.groups[id].enabled || s.groups[id].interval == 0 || s.groups[id].next.None?
    ensures id in RunTick(s, x).groups && RunTick(s, x).groups[id] == s.groups[id]
  {
    ScanIsFresh(s, x);
    forall i | 0 <= i < |x.due| ensures x.due[i].id != id {
      assert s.groups[x.due[i].id] == x.due[i];
    }
    NotScannedNotTouched(s.(active := x.active), x.due, x.now, {}, x.world, id);
  }

  /** However many ticks pass, a group without a schedule or without an active user is never claimed. */
  lemma {:induction false} NeverWithoutSchedule(s: State, ticks: seq<Tick>, id: Id)
    requires CanTick(s, ticks) && id in s.groups && s.groups[id].id == id
    requires !s.groups[id].enabled || s.groups[id].interval == 0 || s.groups[id].next.None?
    ensures id in RunTicks(s, ticks).groups && RunTicks(s, ticks).groups[id] == s.groups[id]
    decreases |ticks|
  {
    if ticks == [] {
    } else {
      OnlyScheduledAreScanned(s, ticks[0], id);
      NeverWithoutSchedule(RunTick(s, ticks[0]), ticks[1..], id);
    }
  }
}
