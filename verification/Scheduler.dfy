/**
 * The refresh scheduler (pkg/service/refresh_scheduler.go): groups that are due are claimed by moving
 * their next time forward, one job per tenant at a time, and a busy tenant's groups just wait.
 */
module Scheduler {
  import opened Common

  type Id = string
  type Tenant = string

  const MINUTE: int := 60

  /** `interval` is in minutes, zero when the schedule is off; `enabled` says the tenant has an active user. */
  datatype Group = Group(id: Id, tenant: Tenant, interval: nat, next: Option<int>, enabled: bool)

  datatype Outcome = Started | NothingToRefresh | Failed

  datatype Job = Job(tenant: Tenant, group: Id)

  datatype State = State(groups: map<Id, Group>, active: set<Tenant>, jobs: seq<Job>)

  /** What the database and the submission answer during one tick. */
  datatype World = World(countFails: set<Id>, claimFails: set<Id>, idle: set<Id>, submitFails: set<Id>)

  predicate Due(g: Group, now: int) {
    g.interval > 0 && g.next.Some? && g.next.value <= now
  }

  function NextTime(g: Group, now: int): int {
    now + g.interval * MINUTE
  }

  function Submit(w: World, id: Id): Outcome {
    if id in w.idle then NothingToRefresh else if id in w.submitFails then Failed else Started
  }

  /** The claim repeats the due test on the row as it is now, not as it was scanned. */
  predicate Claimable(s: State, id: Id, now: int) {
    id in s.groups && Due(s.groups[id], now)
  }

  function Claim(s: State, g: Group, now: int): State
    requires g.id in s.groups
  {
    s.(groups := s.groups[g.id := s.groups[g.id].(next := Some(NextTime(g, now)))])
  }

  function Start(s: State, g: Group): State {
    s.(active := s.active + {g.tenant}, jobs := s.jobs + [Job(g.tenant, g.id)])
  }

  /** One scanned group; `busy` remembers the tenants found or made busy in this tick. */
  function TickGroup(s: State, g: Group, now: int, busy: set<Tenant>, w: World): (State, set<Tenant>) {
    if g.tenant in busy || g.id in w.countFails then (s, busy)
    else if g.tenant in s.active then (s, busy + {g.tenant})
    else if g.id in w.claimFails || !Claimable(s, g.id, now) then (s, busy)
    else
      var t := Claim(s, g, now);
      if Submit(w, g.id) == Started then (Start(t, g), busy + {g.tenant}) else (t, busy)
  }

  function TickAll(s: State, due: seq<Group>, now: int, busy: set<Tenant>, w: World): State
    decreases |due|
  {
    if due == [] then s
    else
      var (t, b) := TickGroup(s, due[0], now, busy, w);
      TickAll(t, due[1..], now, b, w)
  }

  // ---------- the scan ----------

  predicate Listed(g: Group, now: int) {
    Due(g, now) && g.enabled
  }

  /** What the scan returns: due groups, oldest first, each once, and all of them unless it is full (200 rows). */
  ghost predicate IsScan(groups: map<Id, Group>, now: int, due: seq<Group>) {
    && |due| <= 200
    && (forall i :: 0 <= i < |due| ==> due[i].id in groups && groups[due[i].id] == due[i] && Listed(due[i], now))
    && (forall i, j :: 0 <= i < j < |due| ==> due[i].id != due[j].id && due[i].next.value <= due[j].next.value)
    && (|due| < 200 ==>
          forall id :: id in groups && Listed(groups[id], now) ==> groups[id] in due)
  }

  // ---------- what one tick changes ----------

  /** From `s` to `t` by claims at `now` of groups among `due`; started jobs are for tenants that were idle. */
  ghost predicate Claimed(s: State, t: State, due: seq<Group>, now: int) {
    && t.groups.Keys == s.groups.Keys
    && (forall id :: id in s.groups ==>
          || t.groups[id] == s.groups[id]
          || (&& s.groups[id].interval > 0 && s.groups[id].next.Some? && s.groups[id].next.value <= now
              && exists i :: 0 <= i < |due| && due[i].id == id
                             && t.groups[id] == s.groups[id].(next := Some(now + 60 * due[i].interval))))
  }

  /** New jobs are for different tenants, none of them busy before. */
  ghost predicate OneJobEach(s: State, t: State) {
    && s.jobs <= t.jobs
    && s.active <= t.active
    && (forall k :: |s.jobs| <= k < |t.jobs| ==> t.jobs[k].tenant !in s.active && t.jobs[k].tenant in t.active)
    && (forall j, k :: |s.jobs| <= j < k < |t.jobs| ==> t.jobs[j].tenant != t.jobs[k].tenant)
  }

  lemma OneJobEachChains(s: State, t: State, u: State)
    requires OneJobEach(s, t) && OneJobEach(t, u)
    ensures OneJobEach(s, u)
  {
    assert forall k :: 0 <= k < |t.jobs| ==> u.jobs[k] == t.jobs[k];
  }

  lemma TickGroupOneJob(s: State, g: Group, now: int, busy: set<Tenant>, w: World)
    ensures OneJobEach(s, TickGroup(s, g, now, busy, w).0)
  {
  }

  /** However many of a tenant's groups are due, a tick starts at most one job for it, and none if it is busy. */
  lemma {:induction false} TickStartsOneJobEach(s: State, due: seq<Group>, now: int, busy: set<Tenant>, w: World)
    ensures OneJobEach(s, TickAll(s, due, now, busy, w))
    decreases |due|
  {
    if due == [] {
    } else {
      var (t, b) := TickGroup(s, due[0], now, busy, w);
      TickGroupOneJob(s, due[0], now, busy, w);
      TickStartsOneJobEach(t, due[1..], now, b, w);
      OneJobEachChains(s, t, TickAll(t, due[1..], now, b, w));
    }
  }

  lemma TickGroupClaims(s: State, g: Group, now: int, busy: set<Tenant>, w: World)
    ensures var t := TickGroup(s, g, now, busy, w).0;
            && t.groups.Keys == s.groups.Keys
            && forall id :: id in s.groups ==>
                 || t.groups[id] == s.groups[id]
                 || (id == g.id && Due(s.groups[id], now)
                     && t.groups[id] == s.groups[id].(next := Some(now + 60 * g.interval)))
  {
  }

  /**
   * A claimed group's next time is one interval after now, however late it was; every other group keeps
   * its row, and only rows that were still due at the claim are claimed.
   */
  lemma {:induction false} TickClaims(s: State, due: seq<Group>, now: int, busy: set<Tenant>, w: World)
    requires forall i :: 0 <= i < |due| ==> due[i].interval > 0
    ensures Claimed(s, TickAll(s, due, now, busy, w), due, now)
    decreases |due|
  {
    if due == [] {
    } else {
      var (t, b) := TickGroup(s, due[0], now, busy, w);
      TickGroupClaims(s, due[0], now, busy, w);
      var rest := due[1..];
      TickClaims(t, rest, now, b, w);
      var u := TickAll(t, rest, now, b, w);
      forall id | id in s.groups && u.groups[id] != s.groups[id]
        ensures Due(s.groups[id], now)
        ensures exists i :: 0 <= i < |due| && due[i].id == id
                            && u.groups[id] == s.groups[id].(next := Some(now + 60 * due[i].interval))
      {
        if u.groups[id] == t.groups[id] {
          assert due[0].id == id;
        } else {
          var i :| 0 <= i < |rest| && rest[i].id == id
                   && u.groups[id] == t.groups[id].(next := Some(now + 60 * rest[i].interval));
          assert due[i + 1] == rest[i];
          assert t.groups[id] == s.groups[id];
        }
      }
    }
  }

  // ---------- which groups are claimed, and which jobs start ----------

  /** Every scanned row is stored as scanned. */
  ghost predicate Fresh(s: State, due: seq<Group>, now: int) {
    && (forall i :: 0 <= i < |due| ==> due[i].id in s.groups && s.groups[due[i].id] == due[i] && Due(due[i], now))
    && (forall i, j :: 0 <= i < j < |due| ==> due[i].id != due[j].id)
  }

  lemma FreshRest(s: State, due: seq<Group>, now: int, busy: set<Tenant>, w: World)
    requires due != [] && Fresh(s, due, now)
    ensures Fresh(TickGroup(s, due[0], now, busy, w).0, due[1..], now)
  {
  }

  /** A group that is not in the rest of the scan keeps its row. */
  lemma {:induction false} NotScannedNotTouched(s: State, due: seq<Group>, now: int, busy: set<Tenant>, w: World,
      id: Id)
    requires Fresh(s, due, now) && id in s.groups && forall i :: 0 <= i < |due| ==> due[i].id != id
    ensures id in TickAll(s, due, now, busy, w).groups && TickAll(s, due, now, busy, w).groups[id] == s.groups[id]
    decreases |due|
  {
    if due == [] {
    } else {
      var (t, b) := TickGroup(s, due[0], now, busy, w);
      FreshRest(s, due, now, busy, w);
      NotScannedNotTouched(t, due[1..], now, b, w, id);
    }
  }

  /** The claim of a group whose tenant is free works out, and if its job does as well, a job starts. */
  predicate Reachable(g: Group, taken: set<Tenant>, w: World) {
    g.tenant !in taken && g.id !in w.countFails && g.id !in w.claimFails
  }

  predicate Startable(g: Group, w: World) {
    g.id !in w.idle && g.id !in w.submitFails
  }

  /** The scanned groups that are claimed, in their order, when jobs run for the `taken` tenants. */
  function ClaimedGroups(due: seq<Group>, taken: set<Tenant>, w: World): seq<Group> {
    if due == [] then []
    else if !Reachable(due[0], taken, w) then ClaimedGroups(due[1..], taken, w)
    else [due[0]] + ClaimedGroups(due[1..], if Startable(due[0], w) then taken + {due[0].tenant} else taken, w)
  }

  /** One job for each of these that can be refreshed and whose submission works. */
  function JobsFor(claimed: seq<Group>, w: World): seq<Job> {
    if claimed == [] then []
    else (if Startable(claimed[0], w) then [Job(claimed[0].tenant, claimed[0].id)] else []) + JobsFor(claimed[1..], w)
  }

  function TenantsOf(jobs: seq<Job>): set<Tenant> {
    set i | 0 <= i < |jobs| :: jobs[i].tenant
  }

  lemma TenantsOfBoth(a: seq<Job>, b: seq<Job>)
    ensures TenantsOf(a + b) == TenantsOf(a) + TenantsOf(b)
  {
    assert forall i :: 0 <= i < |a| ==> (a + b)[i] == a[i];
    assert forall i :: 0 <= i < |b| ==> (a + b)[|a| + i] == b[i];
  }

  /** What one group of the scan changes, when its row is fresh. */
  lemma TickGroupEffect(s: State, g: Group, now: int, busy: set<Tenant>, w: World)
    requires g.id in s.groups && s.groups[g.id] == g && Due(g, now)
    ensures var (t, b) := TickGroup(s, g, now, busy, w);
            var taken := busy + s.active;
            if !Reachable(g, taken, w) then t == s && b + t.active == taken
            else
              && t.groups == s.groups[g.id := g.(next := Some(now + 60 * g.interval))]
              && if Startable(g, w) then
                   && t.jobs == s.jobs + [Job(g.tenant, g.id)] && t.active == s.active + {g.tenant}
                   && b + t.active == taken + {g.tenant}
                 else
                   t.jobs == s.jobs && t.active == s.active && b + t.active == taken
  {
  }

  /**
   * Exactly these groups were claimed, each moved to one interval from now, every other row left as it
   * was, and exactly one job started for each that can be refreshed.
   */
  ghost predicate Did(s: State, t: State, claimed: seq<Group>, now: int, w: World) {
    && t.jobs == s.jobs + JobsFor(claimed, w)
    && t.active == s.active + TenantsOf(JobsFor(claimed, w))
    && t.groups.Keys == s.groups.Keys
    && forall id :: id in s.groups ==>
         t.groups[id] == if s.groups[id] in claimed && s.groups[id].id == id
                         then s.groups[id].(next := Some(now + 60 * s.groups[id].interval)) else s.groups[id]
  }

  lemma {:induction false} ClaimedGetsJob(claimed: seq<Group>, g: Group, w: World)
    requires g in claimed && Startable(g, w)
    ensures Job(g.tenant, g.id) in JobsFor(claimed, w)
  {
    if claimed[0] != g {
      ClaimedGetsJob(claimed[1..], g, w);
    }
  }

  lemma JobsForMore(g: Group, claimed: seq<Group>, w: World)
    ensures JobsFor([g] + claimed, w) == (if Startable(g, w) then [Job(g.tenant, g.id)] else []) + JobsFor(claimed, w)
    ensures TenantsOf(JobsFor([g] + claimed, w)) == (if Startable(g, w) then {g.tenant} else {}) + TenantsOf(JobsFor(claimed, w))
  {
    assert ([g] + claimed)[1..] == claimed;
    var first := if Startable(g, w) then [Job(g.tenant, g.id)] else [];
    TenantsOfBoth(first, JobsFor(claimed, w));
    assert first != [] ==> first[0].tenant in TenantsOf(first);
    assert TenantsOf(first) == if Startable(g, w) then {g.tenant} else {};
  }

  lemma DidOneMore(s: State, t: State, u: State, g: Group, claimed: seq<Group>, now: int, w: World)
    requires g.id in s.groups && s.groups[g.id] == g && Did(t, u, claimed, now, w)
    requires t.groups == s.groups[g.id := g.(next := Some(now + 60 * g.interval))] && u.groups[g.id] == t.groups[g.id]
    requires t.jobs == s.jobs + (if Startable(g, w) then [Job(g.tenant, g.id)] else [])
    requires t.active == s.active + (if Startable(g, w) then {g.tenant} else {})
    ensures Did(s, u, [g] + claimed, now, w)
  {
    JobsForMore(g, claimed, w);
    forall id | id in s.groups
      ensures u.groups[id] == if s.groups[id] in [g] + claimed && s.groups[id].id == id
                              then s.groups[id].(next := Some(now + 60 * s.groups[id].interval)) else s.groups[id]
    {
      if id != g.id {
        assert t.groups[id] == s.groups[id];
      } else {
        assert ([g] + claimed)[0] == s.groups[id];
      }
    }
  }

  /** What a tick over fresh rows does to groups, jobs and busy tenants. */
  lemma {:induction false} TickEffect(s: State, due: seq<Group>, now: int, busy: set<Tenant>, w: World)
    requires Fresh(s, due, now)
    ensures Did(s, TickAll(s, due, now, busy, w), ClaimedGroups(due, busy + s.active, w), now, w)
    decreases |due|
  {
    if due == [] {
      assert s.jobs + [] == s.jobs;
    } else {
      var g, rest := due[0], due[1..];
      var (t, b) := TickGroup(s, g, now, busy, w);
      TickGroupEffect(s, g, now, busy, w);
      FreshRest(s, due, now, busy, w);
      TickEffect(t, rest, now, b, w);
      if Reachable(g, busy + s.active, w) {
        NotScannedNotTouched(t, rest, now, b, w, g.id);
        assert s.jobs + [] == s.jobs && s.active + {} == s.active;
        DidOneMore(s, t, TickAll(t, rest, now, b, w), g, ClaimedGroups(rest, b + t.active, w), now, w);
      }
    }
  }

  // ---------- the scheduler object ----------

  class RefreshScheduler {
    var groups: map<Id, Group>
    var active: set<Tenant>
    var jobs: seq<Job>

    constructor (groups: map<Id, Group>, active: set<Tenant>)
      ensures Now() == State(groups, active, [])
    {
      this.groups, this.active, jobs := groups, active, [];
    }

    function Now(): State
      reads this
    {
      State(groups, active, jobs)
    }

    method ClaimGroupRefresh(id: Id, now: int, next: int) returns (claimed: bool)
      modifies this`groups
      ensures claimed == Claimable(old(Now()), id, now)
      ensures groups == if claimed then old(groups)[id := old(groups)[id].(next := Some(next))] else old(groups)
    {
      claimed := id in groups && Due(groups[id], now);
      if claimed {
        groups := groups[id := groups[id].(next := Some(next))];
      }
    }

    method TickOne(g: Group, now: int, busy: set<Tenant>, w: World) returns (busyAfter: set<Tenant>)
      modifies this
      ensures (Now(), busyAfter) == TickGroup(old(Now()), g, now, busy, w)
    {
      busyAfter := busy;
      if g.tenant in busy || g.id in w.countFails {
        return;
      }
      if g.tenant in active {
        busyAfter := busy + {g.tenant};
        return;
      }
      if g.id in w.claimFails {
        return;
      }
      var claimed := ClaimGroupRefresh(g.id, now, NextTime(g, now));
      if !claimed {
        return;
      }
      if Submit(w, g.id) == Started {
        active, jobs := active + {g.tenant}, jobs + [Job(g.tenant, g.id)];
        busyAfter := busy + {g.tenant};
      }
    }

    /** One round over what the scan returned. */
    method Tick(due: seq<Group>, now: int, w: World)
      requires IsScan(groups, now, due)
      modifies this
      ensures Now() == TickAll(old(Now()), due, now, {}, w)
      ensures OneJobEach(old(Now()), Now()) && Claimed(old(Now()), Now(), due, now)
      ensures Did(old(Now()), Now(), ClaimedGroups(due, old(active), w), now, w)
    {
      var busy: set<Tenant> := {};
      var i := 0;
      while i < |due|
        invariant i <= |due|
        invariant TickAll(Now(), due[i..], now, busy, w) == TickAll(old(Now()), due, now, {}, w)
      {
        assert due[i..][1..] == due[i + 1..];
        busy := TickOne(due[i], now, busy, w);
        i := i + 1;
      }
      TickStartsOneJobEach(old(Now()), due, now, {}, w);
      TickClaims(old(Now()), due, now, {}, w);
      TickEffect(old(Now()), due, now, {}, w);
      assert {} + old(active) == old(active);
    }
  }
}
