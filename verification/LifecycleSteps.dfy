/** What the steps of the lifecycle do, and how they undo each other. */
module LifecycleSteps {
  import opened Options
  import opened Lifecycle

  /** The count of one backend is changed, and nothing else of any. */
  ghost predicate Recounted(s: State, t: State, id: nat, d: int) {
    OthersSame(s, t, id) && id in s.backends && t.backends[id] == s.backends[id].(refcount := s.backends[id].refcount + d)
  }

  /** A request takes a reference and gives it back. */
  lemma AcquireRelease(s: State, id: nat)
    requires Listed(s.balancers, id) && id in s.backends
    ensures Enabled(s, Acquire(id))
    ensures var t := Do(s, Acquire(id));
            && Recounted(s, t, id, 1) && t == s.(backends := t.backends, held := s.held + multiset{id})
            && Enabled(t, Release(id)) && Do(t, Release(id)) == s
  {
    var t := Do(s, Acquire(id));
    assert t.held - multiset{id} == s.held;
    assert Do(t, Release(id)).backends == s.backends;
  }

  /** A session leads to the backend that it was added for. */
  lemma SessionLeads(s: State, k: string, id: nat)
    requires Listed(s.balancers, id) && id in s.backends
    ensures Enabled(s, AddSession(k, id))
    ensures var t := Do(s, AddSession(k, id));
            Enabled(t, AcquireBySession(k)) && Do(t, AcquireBySession(k)) == Do(Do(s, Acquire(id)), AddSession(k, id))
  {
    hide Listed;
  }

  /** It is there until it is dropped; other sessions are not concerned, and nothing but sessions is. */
  lemma SessionDropped(s: State, k: string, id: nat, other: string)
    requires Listed(s.balancers, id) && other != k
    ensures var t := Do(s, AddSession(k, id)); var u := Do(t, DropSession(k));
            && t == s.(sessions := t.sessions) && (k !in s.sessions ==> u == s) && k !in u.sessions
            && (other in t.sessions <==> other in s.sessions) && (other in s.sessions ==> t.sessions[other] == s.sessions[other])
  {
    hide Listed;
    var t := Do(s, AddSession(k, id));
    if k !in s.sessions { assert Do(t, DropSession(k)).sessions == s.sessions; }
  }

  /** A failed connection loses the reference of the request: it is held by nobody, and counted for ever. */
  lemma OpenFailsLoses(s: State, id: nat)
    requires id in s.held && id in s.backends
    ensures Enabled(s, OpenFails(id))
    ensures var t := Do(s, OpenFails(id));
            && t == s.(held := t.held, leaked := t.leaked) && t.held[id] + 1 == s.held[id] && t.leaked[id] == s.leaked[id] + 1
            && forall x | x != id :: t.held[x] == s.held[x] && t.leaked[x] == s.leaked[x]
  {
  }

  /** A job that is cancelled, or a resolver that is not armed again, gives its reference back. */
  lemma JobEnds(s: State, id: nat)
    requires id in s.jobs && id in s.backends
    ensures Enabled(s, CancelJob(id))
    ensures var t := Do(s, CancelJob(id));
            Recounted(s, t, id, -1) && t == s.(backends := t.backends, jobs := s.jobs - multiset{id})
    ensures s.backends[id].kind.Matrix? ==>
              Do(s, Resolve(id, false)) == Do(s, CancelJob(id)) && Do(s, Resolve(id, true)) == s
  {
  }

  /** The reference that a kill takes for the probe is dropped by the probe: one that succeeds leaves the backend
      alive and all as it was before the kill, but for the sessions. */
  lemma KillThenTouch(s: State, id: nat)
    requires Inv(s) && KillCalled(s, id) && !KillAborts(s, id)
    ensures Enabled(s, Kill(id))
    ensures var t := Do(s, Kill(id));
            && Enabled(t, Touch(id, true)) && Enabled(t, Touch(id, false)) && Do(t, Touch(id, false)) == t
            && Do(t, Touch(id, true)) ==
                 s.(backends := s.backends[id := s.backends[id].(alive := true)], sessions := WithoutBackend(s.sessions, id))
  {
    HeldTwice(s, id);
    var t := Do(s, Kill(id));
    KillDoes(s, id);
    KilledTouches(s, t, id);
    hide Inv, Do, Killed, Touched;
    TouchDoes(t, id, true);
    TouchDoes(t, id, false);
    RevivedState(s, t, Do(t, Touch(id, true)), id);
    StillDead(t, Do(t, Touch(id, false)), id);
  }

  lemma KilledTouches(s: State, t: State, id: nat)
    requires id in s.backends && s.backends[id].kind.Regular? && Killed(s, t, id) && s.backends[id].refcount >= 2
    ensures Enabled(t, Touch(id, true)) && Enabled(t, Touch(id, false))
    ensures t.backends[id].refcount > 1 && !t.backends[id].alive
  {
  }

  lemma StillDead(t: State, u: State, id: nat)
    requires id in t.backends && t.backends[id].refcount > 1 && !t.backends[id].alive && Touched(t, u, id, false)
    ensures u == t
  {
  }

  lemma RevivedState(s: State, t: State, u: State, id: nat)
    requires id in s.backends && Killed(s, t, id) && s.backends[id].refcount >= 2 && Touched(t, u, id, true)
    ensures u == s.(backends := s.backends[id := s.backends[id].(alive := true)], sessions := WithoutBackend(s.sessions, id))
  {
    assert u.jobs == s.jobs;
    assert u.backends == s.backends[id := s.backends[id].(alive := true)];
    assert u.sessions == WithoutBackend(s.sessions, id);
  }

  /** A backend that is listed and held by a request has a count of two at least. */
  lemma HeldTwice(s: State, id: nat)
    requires Inv(s) && id in s.held && id in s.backends && Listed(s.balancers, id)
    ensures s.backends[id].refcount >= 2
  {
    ListedBase(s, id);
    hide BaseRefs;
  }

  lemma ListedBase(s: State, id: nat)
    requires ListsOwned(s.balancers, s.configured, s.tables) && Listed(s.balancers, id)
    ensures BaseRefs(s.configured, s.tables, id) >= 1
  {
  }

  /** The remover frees one backend of the removal list. */
  lemma RemoveFrees(s: State, id: nat)
    requires id in s.removal && id in s.backends && s.backends[id].refcount == 0
    ensures Enabled(s, Remove(id))
    ensures var t := Do(s, Remove(id));
            && t.freed == s.freed + {id} && t.backends.Keys == s.backends.Keys - {id}
            && (forall x | x in t.backends :: t.backends[x] == s.backends[x])
            && (forall x :: x in t.removal <==> x in s.removal && x != id)
            && t == s.(backends := t.backends, removal := t.removal, freed := t.freed)
  {
  }

  /** A new backend is enabled and alive, with the reference of its table.  A regular one is at the end of its
      balancer's list; a matrix is in no list, and its first job holds a second reference. */
  lemma CreateMakes(s: State, owner: nat, addr: int, kind: Kind, home: nat)
    requires owner in s.backends && s.backends[owner].kind.Matrix? && !s.backends[owner].disabled
    requires Key(owner, addr) !in s.tables && (kind.Regular? ==> home == s.backends[owner].home && home in s.balancers)
    ensures Enabled(s, Create(owner, addr, kind, home))
    ensures var t, id := Do(s, Create(owner, addr, kind, home)), s.nextId;
            && t.tables == s.tables[Key(owner, addr) := id] && t.nextId == id + 1
            && t.backends.Keys == s.backends.Keys + {id}
            && (forall x | x in s.backends && x != id :: t.backends[x] == s.backends[x])
            && t.backends[id] == Backend(kind, home, if kind.Matrix? then 2 else 1, false, false, true)
            && t.jobs == (if kind.Matrix? then s.jobs + multiset{id} else s.jobs)
            && t.balancers.Keys == s.balancers.Keys
            && (forall i | i in s.balancers ::
                  t.balancers[i] == s.balancers[i].(list := s.balancers[i].list + if kind.Regular? && i == home then [id] else []))
            && t == s.(backends := t.backends, nextId := t.nextId, tables := t.tables, balancers := t.balancers, jobs := t.jobs)
  {
    assert forall i | i in s.balancers :: s.balancers[i].list + [] == s.balancers[i].list;
  }

  /** A swept backend loses its table entry with the reference, its sessions and its place in the balancer, and waits
      for removal; nothing else is changed but cursors that stood on it. */
  lemma SweepTakesOut(s: State, key: Key)
    requires key in s.tables && s.tables[key] in s.backends && forall k | k in s.tables :: k.owner != s.tables[key]
    ensures Enabled(s, Sweep(key))
    ensures var t, id := Do(s, Sweep(key)), s.tables[key]; var home := s.backends[id].home;
            && key !in t.tables && t.tables == s.tables - {key} && OthersSame(s, t, id)
            && t.backends[id].disabled && t.backends[id].refcount == s.backends[id].refcount - 1
            && (forall k :: k in t.sessions <==> k in s.sessions && s.sessions[k] != id)
            && (forall k | k in t.sessions :: t.sessions[k] == s.sessions[k])
            && t.removal == s.removal + [id]
            && (home in t.balancers ==> id !in t.balancers[home].list)
            && (forall i, x | i in s.balancers && x in s.balancers[i].list && x != id :: i in t.balancers && x in t.balancers[i].list)
            && (forall i | i in t.balancers :: i in s.balancers && forall x | x in t.balancers[i].list :: x in s.balancers[i].list)
            && t == s.(backends := t.backends, tables := t.tables, sessions := t.sessions, balancers := t.balancers, removal := t.removal)
  {
    var id := s.tables[key];
    var home := s.backends[id].home;
    SweepLeaves(s.balancers, home, id);
    hide Unlisted;
  }

  lemma SweepLeaves(bals: map<nat, Balancer>, home: nat, id: nat)
    ensures var r := Unlisted(bals, home, id);
            && (home in r ==> id !in r[home].list)
            && (forall i, x | i in bals && x in bals[i].list && x != id :: i in r && x in r[i].list)
            && (forall i | i in r :: i in bals && forall x | x in r[i].list :: x in bals[i].list)
  {
  }

  /** Flags are set as asked. */
  lemma FlagSet(s: State, id: nat, flag: bool)
    requires Listed(s.balancers, id) && id in s.backends
    ensures Enabled(s, SetDisabled(id, flag)) && Enabled(s, Mark(id, flag))
    ensures var t := Do(s, SetDisabled(id, flag));
            t == s.(backends := t.backends) && OthersSame(s, t, id) && t.backends[id] == s.backends[id].(disabled := flag)
    ensures var t := Do(s, Mark(id, flag));
            t == s.(backends := t.backends) && OthersSame(s, t, id) && t.backends[id] == s.backends[id].(mark := flag)
  {
    hide Listed;
  }

  /** So are cursors. */
  lemma CursorSet(s: State, bal: nat, id: nat)
    requires bal in s.balancers && id in s.balancers[bal].list
    ensures Enabled(s, MoveCursor(bal, id))
    ensures var t := Do(s, MoveCursor(bal, id));
            && t == s.(balancers := t.balancers) && t.balancers.Keys == s.balancers.Keys
            && (forall i | i in s.balancers && i != bal :: t.balancers[i] == s.balancers[i])
            && t.balancers[bal] == s.balancers[bal].(cur := Some(id))
  {
  }

  // Dead backends over whole runs.

  /** Freed, or dead. */
  ghost predicate Gone(s: State, id: nat) { id in s.freed || (id in s.backends && !s.backends[id].alive) }

  lemma GoneStays(s: State, step: Step, id: nat)
    requires Inv(s) && Enabled(s, step) && Gone(s, id) && step != Touch(id, true)
    ensures Gone(Do(s, step), id)
  {
    if id in s.freed {
      FreedKept(s, step, id);
    } else {
      assert id < s.nextId;
      hide Inv;
      if step.Create? || step.Sweep? || step.Remove? {
        DeadByLists(s, step, id);
      } else if step.Kill? || step.Touch? || step.CancelJob? || step.Resolve? {
        DeadByJobs(s, step, id);
      } else if step.Acquire? || step.AcquireBySession? || step.Release? || step.OpenFails? {
        DeadByRequests(s, step, id);
      } else {
        DeadByRest(s, step, id);
      }
    }
  }

  lemma DeadByLists(s: State, step: Step, id: nat)
    requires Enabled(s, step) && id in s.backends && !s.backends[id].alive && id < s.nextId
    requires step.Create? || step.Sweep? || step.Remove?
    ensures Gone(Do(s, step), id)
  {
    hide Unlisted, WithoutBackend, Without, Listed;
  }

  lemma DeadByJobs(s: State, step: Step, id: nat)
    requires Enabled(s, step) && id in s.backends && !s.backends[id].alive && step != Touch(id, true)
    requires step.Kill? || step.Touch? || step.CancelJob? || step.Resolve?
    ensures Gone(Do(s, step), id)
  {
    hide WithoutBackend, Listed;
  }

  lemma DeadByRequests(s: State, step: Step, id: nat)
    requires Enabled(s, step) && id in s.backends && !s.backends[id].alive
    requires step.Acquire? || step.AcquireBySession? || step.Release? || step.OpenFails?
    ensures Gone(Do(s, step), id)
  {
    hide Listed;
  }

  lemma DeadByRest(s: State, step: Step, id: nat)
    requires Enabled(s, step) && id in s.backends && !s.backends[id].alive
    requires step.Provide? || step.AddSession? || step.DropSession? || step.MoveCursor? || step.Mark? || step.SetDisabled?
    ensures Gone(Do(s, step), id)
  {
    hide Listed;
  }

  lemma FreedNotThere(s: State, id: nat)
    requires Inv(s) && id in s.freed
    ensures id !in s.backends
  {
  }

  /** In every run a backend that has been killed stays dead until a probe of it succeeds. */
  lemma {:induction false} DeadUntilProbed(run: seq<State>, steps: seq<Step>, i: nat, j: nat, id: nat)
    requires IsRun(run, steps) && i <= j < |run| && Gone(run[i], id)
    requires forall l | i <= l < j :: steps[l] != Touch(id, true)
    ensures Gone(run[j], id) && (id in run[j].backends ==> !run[j].backends[id].alive)
    decreases j
  {
    hide Inv, Enabled, Do, Startup;
    RunKeepsInv(run, steps, j);
    if id in run[j].freed { FreedNotThere(run[j], id); }
    if i < j {
      DeadUntilProbed(run, steps, i, j - 1, id);
      RunKeepsInv(run, steps, j - 1);
      assert Taken(run, steps, j - 1);
      GoneStays(run[j - 1], steps[j - 1], id);
    }
  }
}
