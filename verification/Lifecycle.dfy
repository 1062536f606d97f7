/** Dynamic backends: who may refer to a backend, and when it is freed (src/dynbe.c, src/svc.c,
    src/http.c).

    Backends have numbers that are never reused.  Each step of the protocol is one region under
    the service mutex or the backend mutex. */
module Lifecycle {
  import opened Options

  /** Regular backends serve requests; matrix backends only produce others. */
  datatype Kind = Regular | Matrix

  /** `home` is the balancer that a regular backend is listed in, or that a matrix fills. */
  datatype Backend = Backend(kind: Kind, home: nat, refcount: int, mark: bool, disabled: bool, alive: bool)

  /** A balancer's list of backends and its round robin cursor. */
  datatype Balancer = Balancer(list: seq<nat>, round: nat, cur: Option<nat>)

  /** A key of a backend table: the matrix that owns the table, and an address. */
  datatype Key = Key(owner: nat, addr: int)

  datatype State = State(
    backends: map<nat, Backend>,     // allocated and not yet freed
    nextId: nat,
    tables: map<Key, nat>,           // tables of generated backends
    configured: set<nat>,            // backends of the configuration, never removed
    balancers: map<nat, Balancer>,   // by weight
    sessions: map<string, nat>,
    removal: seq<nat>,               // be_rem_head
    held: multiset<nat>,             // references held by requests
    jobs: multiset<nat>,             // references held by pending or running jobs
    leaked: multiset<nat>,           // references that nobody will drop
    freed: set<nat>)

  datatype Step =
    | Acquire(id: nat)                        // get_backend: selected from a balancer
    | AcquireBySession(session: string)       // get_backend: found by session key
    | Release(id: nat)                        // backend_unref of a request
    | OpenFails(id: nat)                      // select_backend: open_backend failed
    | Kill(id: nat)                           // kill_be after a failed connect
    | Touch(id: nat, probe: bool)             // touch_be run
    | CancelJob(id: nat)                      // a job called with job_ctl_cancel
    | Resolve(id: nat, again: bool)           // job_resolver run; `again` if it is re-armed
    | Provide(home: nat)                      // balancer_list_get
    | Create(owner: nat, addr: int, kind: Kind, home: nat)
    | Sweep(key: Key)
    | Remove(id: nat)                         // thr_backend_remover
    | AddSession(session: string, id: nat)    // find_backend_by_key
    | DropSession(session: string)
    | MoveCursor(bal: nat, id: nat)           // iwrr_select
    | Mark(id: nat, mark: bool)
    | SetDisabled(id: nat, disabled: bool)

  // Effects.

  function WithRef(s: State, id: nat, d: int): State
    requires id in s.backends
  {
    s.(backends := s.backends[id := s.backends[id].(refcount := s.backends[id].refcount + d)])
  }

  function Without(list: seq<nat>, id: nat): (r: seq<nat>)
    ensures forall x :: x in r <==> x in list && x != id
  {
    if list == [] then [] else (if list[0] == id then [] else [list[0]]) + Without(list[1..], id)
  }

  function First(list: seq<nat>): Option<nat> { if list == [] then None else Some(list[0]) }

  /** Take the backend out of its own list; any balancer whose cursor it is starts over, and one that is left
      without backends goes. */
  function Unlisted(bals: map<nat, Balancer>, home: nat, id: nat): map<nat, Balancer> {
    map i | i in bals && !(i == home && Empties(bals, home, id)) ::
      Reset(if i == home then bals[i].(list := Without(bals[i].list, id)) else bals[i], id)
  }

  /** The backend is the last one of its balancer, which is then taken out of the service and freed. */
  predicate Empties(bals: map<nat, Balancer>, home: nat, id: nat) {
    home in bals && id in bals[home].list && Without(bals[home].list, id) == []
  }

  /** `balancer_list_get`: a balancer that is not there is made, without backends. */
  function Provided(bals: map<nat, Balancer>, home: nat): map<nat, Balancer> {
    if home in bals then bals else bals[home := Balancer([], 0, None)]
  }

  /** `iwrr_reset` */
  function Reset(b: Balancer, id: nat): Balancer {
    if b.cur == Some(id) then b.(round := 0, cur := First(b.list)) else b
  }

  function WithoutBackend(sessions: map<string, nat>, id: nat): map<string, nat> {
    map k | k in sessions && sessions[k] != id :: sessions[k]
  }

  /** `backend_sweep` of one backend. */
  function Swept(s: State, key: Key): State
    requires key in s.tables && s.tables[key] in s.backends
  {
    var id := s.tables[key];
    var b := s.backends[id];
    s.(backends := s.backends[id := b.(disabled := true, refcount := b.refcount - 1, mark := false)],
       sessions := WithoutBackend(s.sessions, id),
       balancers := Unlisted(s.balancers, b.home, id),
       tables := s.tables - {key},
       removal := s.removal + [id])
  }

  /** A new backend made by a matrix: one reference for its table.  A regular one is put in the balancer that the
      matrix fills; a matrix, which fills one of its own, gets its first resolver job, which holds another
      reference. */
  function Created(s: State, owner: nat, addr: int, kind: Kind, home: nat): State
    requires kind.Regular? ==> home in s.balancers
  {
    var id, regular := s.nextId, kind.Regular?;
    s.(backends := s.backends[id := Backend(kind, home, if regular then 1 else 2, false, false, true)],
       nextId := s.nextId + 1,
       tables := s.tables[Key(owner, addr) := id],
       balancers := if regular then s.balancers[home := s.balancers[home].(list := s.balancers[home].list + [id])]
                    else s.balancers,
       jobs := if regular then s.jobs else s.jobs + multiset{id})
  }

  predicate Listed(balancers: map<nat, Balancer>, id: nat) {
    exists i | i in balancers :: id in balancers[i].list
  }

  /** A request that holds a regular backend calls `kill_be` for it. */
  predicate KillCalled(s: State, id: nat) { id in s.held && id in s.backends && s.backends[id].kind.Regular? }

  /** The call fails its assertion that the backend is in a balancer, and the process ends. */
  predicate KillAborts(s: State, id: nat) { KillCalled(s, id) && !Listed(s.balancers, id) }

  /** When a step can happen, and come to its end. */
  predicate Enabled(s: State, step: Step) {
    match step
    case Acquire(id) => Listed(s.balancers, id) && id in s.backends
    case AcquireBySession(k) => k in s.sessions && s.sessions[k] in s.backends
    case Release(id) => id in s.held && id in s.backends
    case OpenFails(id) => id in s.held && id in s.backends
    case Kill(id) => KillCalled(s, id) && Listed(s.balancers, id)
    case Touch(id, _) => id in s.jobs && id in s.backends && s.backends[id].kind.Regular?
    case CancelJob(id) => id in s.jobs && id in s.backends
    case Resolve(id, _) => id in s.jobs && id in s.backends && s.backends[id].kind.Matrix?
    case Provide(_) => true
    case Create(owner, addr, kind, home) =>
      && owner in s.backends && s.backends[owner].kind.Matrix? && !s.backends[owner].disabled
      && Key(owner, addr) !in s.tables && (kind.Regular? ==> home == s.backends[owner].home && home in s.balancers)
    case Sweep(key) =>
      // The backends of a matrix are swept before the matrix itself.
      key in s.tables && s.tables[key] in s.backends && forall k | k in s.tables :: k.owner != s.tables[key]
    case Remove(id) => id in s.removal && id in s.backends && s.backends[id].refcount == 0
    case AddSession(k, id) => Listed(s.balancers, id)
    case DropSession(k) => k in s.sessions
    case MoveCursor(bal, id) => bal in s.balancers && id in s.balancers[bal].list
    case Mark(id, _) => id in s.backends
    case SetDisabled(id, _) => Listed(s.balancers, id) && id in s.backends
  }

  function Do(s: State, step: Step): State
    requires Enabled(s, step)
  {
    match step
    case Acquire(id) => WithRef(s, id, 1).(held := s.held + multiset{id})
    case AcquireBySession(k) => WithRef(s, s.sessions[k], 1).(held := s.held + multiset{s.sessions[k]})
    case Release(id) => WithRef(s, id, -1).(held := s.held - multiset{id})
    case OpenFails(id) => s.(held := s.held - multiset{id}, leaked := s.leaked + multiset{id})
    case Kill(id) =>
      var t := WithRef(s, id, 1);
      t.(backends := t.backends[id := t.backends[id].(alive := false)],
         sessions := WithoutBackend(s.sessions, id), jobs := s.jobs + multiset{id})
    case Touch(id, probe) =>
      var b := s.backends[id];
      if b.refcount > 1 && !b.alive && !probe then s
      else
        var t := WithRef(s, id, -1).(jobs := s.jobs - multiset{id});
        if b.refcount > 1 then t.(backends := t.backends[id := t.backends[id].(alive := true)]) else t
    case CancelJob(id) => WithRef(s, id, -1).(jobs := s.jobs - multiset{id})
    case Resolve(id, again) => if again then s else WithRef(s, id, -1).(jobs := s.jobs - multiset{id})
    case Provide(home) => s.(balancers := Provided(s.balancers, home))
    case Create(owner, addr, kind, home) => Created(s, owner, addr, kind, home)
    case Sweep(key) => Swept(s, key)
    case Remove(id) =>
      s.(backends := s.backends - {id}, removal := Without(s.removal, id), freed := s.freed + {id})
    case AddSession(k, id) => s.(sessions := s.sessions[k := id])
    case DropSession(k) => s.(sessions := s.sessions - {k})
    case MoveCursor(bal, id) => s.(balancers := s.balancers[bal := s.balancers[bal].(cur := Some(id))])
    case Mark(id, mark) => s.(backends := s.backends[id := s.backends[id].(mark := mark)])
    case SetDisabled(id, disabled) => s.(backends := s.backends[id := s.backends[id].(disabled := disabled)])
  }

  // The invariant, clause by clause, each over the parts it speaks of.

  ghost predicate Tabled(tables: map<Key, nat>, id: nat) {
    exists k | k in tables :: tables[k] == id
  }

  /** Owned by the configuration or by a table. */
  ghost predicate Owned(s: State, id: nat) { id in s.configured || Tabled(s.tables, id) }

  /** References of the configuration and of the table. */
  ghost function BaseRefs(configured: set<nat>, tables: map<Key, nat>, id: nat): nat {
    (if id in configured then 1 else 0) + (if Tabled(tables, id) then 1 else 0)
  }

  /** The reference count is exactly what the holders account for. */
  ghost predicate Counted(s: State) {
    forall id | id in s.backends ::
      s.backends[id].refcount == BaseRefs(s.configured, s.tables, id) + s.held[id] + s.jobs[id] + s.leaked[id]
  }

  ghost predicate Numbered(live: set<nat>, freed: set<nat>, nextId: nat) {
    live !! freed && (forall id | id in live :: id < nextId) && (forall id | id in freed :: id < nextId)
  }

  ghost predicate HoldersLive(s: State) {
    forall id | id in s.held || id in s.jobs || id in s.leaked :: id in s.backends
  }

  /** Table entries are live, one for each backend, none for configured ones; a table's owner is
      itself still owned. */
  ghost predicate TablesOk(tables: map<Key, nat>, configured: set<nat>, live: set<nat>) {
    && (forall k | k in tables :: tables[k] in live && tables[k] !in configured)
    && (forall k, l | k in tables && l in tables && tables[k] == tables[l] :: k == l)
    && (forall k | k in tables :: k.owner in configured || Tabled(tables, k.owner))
    && configured <= live
  }

  ghost predicate SessionsListed(sessions: map<string, nat>, balancers: map<nat, Balancer>) {
    forall k | k in sessions :: Listed(balancers, sessions[k])
  }

  ghost predicate CursorsListed(balancers: map<nat, Balancer>) {
    forall i | i in balancers && balancers[i].cur.Some? :: balancers[i].cur.value in balancers[i].list
  }

  /** What is listed is owned. */
  ghost predicate ListsOwned(balancers: map<nat, Balancer>, configured: set<nat>, tables: map<Key, nat>) {
    forall i, id | i in balancers && id in balancers[i].list :: id in configured || Tabled(tables, id)
  }

  /** Regular backends are listed in their home only; of matrices only configured ones are listed. */
  ghost predicate AtHome(balancers: map<nat, Balancer>, backends: map<nat, Backend>, configured: set<nat>) {
    forall i, id | i in balancers && id in balancers[i].list ::
      id in backends && if backends[id].kind.Regular? then backends[id].home == i else id in configured
  }

  /** Tables belong to matrices; a regular backend is at home where its matrix says. */
  ghost predicate Families(backends: map<nat, Backend>, tables: map<Key, nat>) {
    forall k | k in tables ::
      && k.owner in backends && backends[k.owner].kind.Matrix? && tables[k] in backends
      && (backends[tables[k]].kind.Regular? ==> backends[tables[k]].home == backends[k.owner].home)
  }

  /** The removal list holds exactly the allocated backends that nothing owns; they are disabled. */
  ghost predicate RemovalExact(removal: seq<nat>, backends: map<nat, Backend>, configured: set<nat>, tables: map<Key, nat>) {
    && (forall id | id in removal :: id in backends && backends[id].disabled)
    && (forall id | id in backends :: id in removal <==> id !in configured && !Tabled(tables, id))
  }

  /** A regular backend that is owned is in a balancer. */
  ghost predicate RegularsListed(backends: map<nat, Backend>, balancers: map<nat, Balancer>,
                                 configured: set<nat>, tables: map<Key, nat>) {
    forall id | id in backends && backends[id].kind.Regular? && (id in configured || Tabled(tables, id)) ::
      Listed(balancers, id)
  }

  ghost predicate Inv(s: State) {
    && Counted(s) && HoldersLive(s) && RemovalExact(s.removal, s.backends, s.configured, s.tables)
    && Numbered(s.backends.Keys, s.freed, s.nextId)
    && TablesOk(s.tables, s.configured, s.backends.Keys)
    && SessionsListed(s.sessions, s.balancers) && CursorsListed(s.balancers)
    && ListsOwned(s.balancers, s.configured, s.tables) && AtHome(s.balancers, s.backends, s.configured)
    && RegularsListed(s.backends, s.balancers, s.configured, s.tables) && Families(s.backends, s.tables)
  }

  // Steps that leave every backend in its place.

  /** Only counts, flags, holders and sessions may differ. */
  ghost predicate SamePlaces(s: State, t: State) {
    && t.backends.Keys == s.backends.Keys && t.nextId == s.nextId && t.tables == s.tables
    && t.configured == s.configured && t.balancers == s.balancers && t.removal == s.removal && t.freed == s.freed
    && (forall id | id in s.backends ::
          t.backends[id].home == s.backends[id].home && t.backends[id].kind == s.backends[id].kind)
    && (forall id | id in s.removal && id in s.backends :: t.backends[id].disabled == s.backends[id].disabled)
  }

  lemma SamePlacesKeepsInv(s: State, t: State)
    requires Inv(s) && SamePlaces(s, t) && Counted(t) && HoldersLive(t)
    requires SessionsListed(t.sessions, t.balancers)
    ensures Inv(t)
  {
    hide Counted, Numbered, TablesOk, SessionsListed, CursorsListed, ListsOwned, HoldersLive;
  }

  /** References to one backend change hands, its count following. */
  lemma MoveRefsKeepsInv(s: State, t: State, id: nat, d: int)
    requires Inv(s) && id in s.backends
    requires t == WithRef(s, id, d).(held := t.held, jobs := t.jobs, leaked := t.leaked)
    requires forall x: nat {:trigger t.held[x]} ::
               t.held[x] + t.jobs[x] + t.leaked[x] == s.held[x] + s.jobs[x] + s.leaked[x] + if x == id then d else 0
    ensures Inv(t)
  {
    hide Numbered, TablesOk, SessionsListed, CursorsListed, ListsOwned, AtHome, RemovalExact, Counted, HoldersLive;
    RefsMoved(s, t, id, d);
    SamePlacesKeepsInv(s, t);
  }

  lemma RefsMoved(s: State, t: State, id: nat, d: int)
    requires Counted(s) && HoldersLive(s) && id in s.backends
    requires t == WithRef(s, id, d).(held := t.held, jobs := t.jobs, leaked := t.leaked)
    requires forall x: nat {:trigger t.held[x]} ::
               t.held[x] + t.jobs[x] + t.leaked[x] == s.held[x] + s.jobs[x] + s.leaked[x] + if x == id then d else 0
    ensures Counted(t) && HoldersLive(t)
  {
    hide BaseRefs;
    forall x | x in t.backends
      ensures t.backends[x].refcount == BaseRefs(t.configured, t.tables, x) + t.held[x] + t.jobs[x] + t.leaked[x]
    {
      assert t.held[x] + t.jobs[x] + t.leaked[x] == s.held[x] + s.jobs[x] + s.leaked[x] + if x == id then d else 0;
    }
    forall x | x in t.held || x in t.jobs || x in t.leaked ensures x in t.backends {
      assert t.held[x] + t.jobs[x] + t.leaked[x] == s.held[x] + s.jobs[x] + s.leaked[x] + if x == id then d else 0;
    }
  }

  lemma AcquireKeepsInv(s: State, id: nat)
    requires Inv(s) && Enabled(s, Acquire(id))
    ensures Inv(Do(s, Acquire(id)))
  {
    hide Inv;
    MoveRefsKeepsInv(s, Do(s, Acquire(id)), id, 1);
  }

  lemma AcquireBySessionKeepsInv(s: State, k: string)
    requires Inv(s) && Enabled(s, AcquireBySession(k))
    ensures Inv(Do(s, AcquireBySession(k)))
  {
    hide Inv;
    MoveRefsKeepsInv(s, Do(s, AcquireBySession(k)), s.sessions[k], 1);
  }

  lemma ReleaseKeepsInv(s: State, id: nat)
    requires Inv(s) && Enabled(s, Release(id))
    ensures Inv(Do(s, Release(id)))
  {
    hide Inv;
    MoveRefsKeepsInv(s, Do(s, Release(id)), id, -1);
  }

  lemma OpenFailsKeepsInv(s: State, id: nat)
    requires Inv(s) && Enabled(s, OpenFails(id))
    ensures Inv(Do(s, OpenFails(id)))
  {
    hide Inv;
    assert s.backends[id := s.backends[id]] == s.backends;
    MoveRefsKeepsInv(s, Do(s, OpenFails(id)), id, 0);
  }

  lemma CancelJobKeepsInv(s: State, id: nat)
    requires Inv(s) && Enabled(s, CancelJob(id))
    ensures Inv(Do(s, CancelJob(id)))
  {
    hide Inv;
    MoveRefsKeepsInv(s, Do(s, CancelJob(id)), id, -1);
  }

  lemma ResolveKeepsInv(s: State, id: nat, again: bool)
    requires Inv(s) && Enabled(s, Resolve(id, again))
    ensures Inv(Do(s, Resolve(id, again)))
  {
    hide Inv;
    if !again {
      MoveRefsKeepsInv(s, Do(s, Resolve(id, again)), id, -1);
    }
  }

  /** Changing flags of one backend, if it does not re-enable one that is to be removed. */
  lemma FlagsKeepInv(s: State, id: nat, b: Backend)
    requires Inv(s) && id in s.backends
    requires b.home == s.backends[id].home && b.kind == s.backends[id].kind && b.refcount == s.backends[id].refcount
    requires b.disabled == s.backends[id].disabled || Listed(s.balancers, id)
    ensures Inv(s.(backends := s.backends[id := b]))
  {
    hide Numbered, TablesOk, CursorsListed, ListsOwned, AtHome, RemovalExact, RegularsListed,
      SessionsListed, Counted, HoldersLive, Listed;
    var t := s.(backends := s.backends[id := b]);
    if Listed(s.balancers, id) { ListedStays(s, id); }
    SameRefs(s, id, b);
    SamePlacesKeepsInv(s, t);
  }

  lemma ListedStays(s: State, id: nat)
    requires Inv(s) && Listed(s.balancers, id)
    ensures id !in s.removal
  {
    hide Numbered, TablesOk, CursorsListed, SessionsListed, RegularsListed, Counted, HoldersLive;
  }

  lemma SameRefs(s: State, id: nat, b: Backend)
    requires Counted(s) && HoldersLive(s) && id in s.backends && b.refcount == s.backends[id].refcount
    ensures var t := s.(backends := s.backends[id := b]); Counted(t) && HoldersLive(t)
  {
    hide BaseRefs;
  }

  /** All backends but one are as they were. */
  ghost predicate OthersSame(s: State, t: State, id: nat) {
    t.backends.Keys == s.backends.Keys && forall x | x in s.backends && x != id :: t.backends[x] == s.backends[x]
  }

  /** A probe of a dead backend that others hold: if it succeeds the backend is alive again and the job is done with
      its reference, else nothing is changed.  One that is alive, or that only the job holds, loses the job. */
  ghost predicate Touched(s: State, t: State, id: nat, probe: bool)
    requires id in s.backends
  {
    var b := s.backends[id];
    && OthersSame(s, t, id) && t == s.(backends := t.backends, jobs := t.jobs)
    && if b.refcount > 1 && !b.alive && !probe then t == s
       else t.jobs == s.jobs - multiset{id} && t.backends[id] == b.(refcount := b.refcount - 1, alive := b.alive || b.refcount > 1)
  }

  lemma TouchDoes(s: State, id: nat, probe: bool)
    requires Enabled(s, Touch(id, probe))
    ensures Touched(s, Do(s, Touch(id, probe)), id, probe)
  {
  }

  lemma TouchKeepsInv(s: State, id: nat, probe: bool)
    requires Inv(s) && Enabled(s, Touch(id, probe))
    ensures Inv(Do(s, Touch(id, probe))) && Touched(s, Do(s, Touch(id, probe)), id, probe)
  {
    hide Inv, Touched;
    TouchDoes(s, id, probe);
    var b := s.backends[id];
    if !(b.refcount > 1 && !b.alive && !probe) {
      var t := WithRef(s, id, -1).(jobs := s.jobs - multiset{id});
      MoveRefsKeepsInv(s, t, id, -1);
      FlagsKeepInv(t, id, t.backends[id].(alive := true));
    }
  }

  /** Dropping all sessions of a backend keeps the others. */
  lemma SessionsKeepInv(s: State, sessions: map<string, nat>)
    requires Inv(s) && forall k | k in sessions :: Listed(s.balancers, sessions[k])
    ensures Inv(s.(sessions := sessions))
  {
    var t := s.(sessions := sessions);
    hide Numbered, TablesOk, CursorsListed, ListsOwned, AtHome, BaseRefs;
  }

  lemma OtherSessions(s: State, id: nat)
    requires Inv(s)
    ensures forall k | k in WithoutBackend(s.sessions, id) :: Listed(s.balancers, WithoutBackend(s.sessions, id)[k])
  {
    hide Numbered, TablesOk, CursorsListed, ListsOwned, AtHome, RemovalExact, Counted, HoldersLive;
  }

  /** The backend is dead, no session leads to it, and a job holds one more reference to it; all else is as it was. */
  ghost predicate Killed(s: State, t: State, id: nat)
    requires id in s.backends
  {
    && OthersSame(s, t, id) && t.backends[id] == s.backends[id].(alive := false, refcount := s.backends[id].refcount + 1)
    && (forall k | k in t.sessions :: k in s.sessions && t.sessions[k] == s.sessions[k] != id)
    && (forall k | k in s.sessions && s.sessions[k] != id :: k in t.sessions)
    && t == s.(backends := t.backends, sessions := t.sessions, jobs := s.jobs + multiset{id})
  }

  lemma KillDoes(s: State, id: nat)
    requires Enabled(s, Kill(id))
    ensures Killed(s, Do(s, Kill(id)), id)
  {
    hide Listed;
  }

  lemma KillKeepsInv(s: State, id: nat)
    requires Inv(s) && Enabled(s, Kill(id))
    ensures Inv(Do(s, Kill(id))) && Killed(s, Do(s, Kill(id)), id)
  {
    hide Inv, Killed;
    KillDoes(s, id);
    OtherSessions(s, id);
    var t := WithRef(s, id, 1).(jobs := s.jobs + multiset{id});
    MoveRefsKeepsInv(s, t, id, 1);
    var u := t.(backends := t.backends[id := t.backends[id].(alive := false)]);
    FlagsKeepInv(t, id, t.backends[id].(alive := false));
    SessionsKeepInv(u, WithoutBackend(s.sessions, id));
    assert Do(s, Kill(id)) == u.(sessions := WithoutBackend(s.sessions, id));
  }

  lemma SessionStepsKeepInv(s: State, k: string, id: nat)
    requires Inv(s)
    ensures Listed(s.balancers, id) ==> Inv(s.(sessions := s.sessions[k := id]))
    ensures Inv(s.(sessions := s.sessions - {k}))
  {
    if Listed(s.balancers, id) {
      SessionsKeepInv(s, s.sessions[k := id]);
    }
    SessionsKeepInv(s, s.sessions - {k});
  }

  lemma SameLists(s: State, balancers: map<nat, Balancer>)
    requires balancers.Keys == s.balancers.Keys && forall i | i in balancers :: balancers[i].list == s.balancers[i].list
    ensures ListsOwned(s.balancers, s.configured, s.tables) ==> ListsOwned(balancers, s.configured, s.tables)
    ensures AtHome(s.balancers, s.backends, s.configured) ==> AtHome(balancers, s.backends, s.configured)
    ensures SessionsListed(s.sessions, s.balancers) ==> SessionsListed(s.sessions, balancers)
    ensures RegularsListed(s.backends, s.balancers, s.configured, s.tables) ==>
              RegularsListed(s.backends, balancers, s.configured, s.tables)
  {
    ListedSame(s.balancers, balancers);
    hide Listed, Tabled;
  }

  /** Cursors may move within their lists. */
  lemma CursorsKeepInv(s: State, balancers: map<nat, Balancer>)
    requires Inv(s) && CursorsListed(balancers) && balancers.Keys == s.balancers.Keys
    requires forall i | i in balancers :: balancers[i].list == s.balancers[i].list
    ensures Inv(s.(balancers := balancers))
  {
    hide Numbered, TablesOk, Counted, HoldersLive, RemovalExact, SessionsListed, ListsOwned, AtHome,
      RegularsListed, CursorsListed;
    SameLists(s, balancers);
    CountsApart(s, balancers);
  }

  lemma CountsApart(s: State, balancers: map<nat, Balancer>)
    ensures Counted(s.(balancers := balancers)) == Counted(s) && HoldersLive(s.(balancers := balancers)) == HoldersLive(s)
  {
  }

  lemma MoveCursorKeepsInv(s: State, bal: nat, id: nat)
    requires Inv(s) && Enabled(s, MoveCursor(bal, id))
    ensures Inv(Do(s, MoveCursor(bal, id)))
  {
    hide Counted, HoldersLive, RemovalExact, Numbered, TablesOk, SessionsListed, ListsOwned, AtHome;
    CursorsKeepInv(s, s.balancers[bal := s.balancers[bal].(cur := Some(id))]);
  }

  lemma ListedSame(a: map<nat, Balancer>, b: map<nat, Balancer>)
    requires a.Keys == b.Keys && forall i | i in a :: b[i].list == a[i].list
    ensures forall id :: Listed(a, id) == Listed(b, id)
  {
    forall id ensures Listed(a, id) == Listed(b, id) {
      if Listed(a, id) {
        var i :| i in a && id in a[i].list;
        assert id in b[i].list;
      }
      if Listed(b, id) {
        var i :| i in b && id in b[i].list;
        assert id in a[i].list;
      }
    }
  }

  // Creation, sweep and removal.

  /** A key more in the tables. */
  lemma TabledAdded(tables: map<Key, nat>, key: Key, id: nat)
    requires key !in tables
    ensures forall x :: Tabled(tables[key := id], x) <==> x == id || Tabled(tables, x)
  {
    var t := tables[key := id];
    forall x ensures Tabled(t, x) <==> x == id || Tabled(tables, x) {
      assert key in t && t[key] == id;
      if Tabled(tables, x) {
        var k :| k in tables && tables[k] == x;
        assert k in t && t[k] == x;
      }
      if Tabled(t, x) {
        var k :| k in t && t[k] == x;
        assert k == key || (k in tables && tables[k] == x);
      }
    }
  }

  /** A key less, where each backend has one key. */
  lemma TabledRemoved(tables: map<Key, nat>, key: Key)
    requires key in tables && forall k, l | k in tables && l in tables && tables[k] == tables[l] :: k == l
    ensures forall x :: Tabled(tables - {key}, x) <==> x != tables[key] && Tabled(tables, x)
  {
    var t := tables - {key};
    forall x ensures Tabled(t, x) <==> x != tables[key] && Tabled(tables, x) {
      if Tabled(t, x) {
        var k :| k in t && t[k] == x;
        assert k in tables && tables[k] == x;
      }
      if x != tables[key] && Tabled(tables, x) {
        var k :| k in tables && tables[k] == x;
        assert k in t && t[k] == x;
      }
    }
  }

  lemma CreateTables(tables: map<Key, nat>, configured: set<nat>, live: set<nat>, key: Key, id: nat)
    requires TablesOk(tables, configured, live) && key !in tables && id !in live
    requires key.owner in configured || Tabled(tables, key.owner)
    ensures TablesOk(tables[key := id], configured, live + {id})
  {
    TabledAdded(tables, key, id);
    hide Tabled;
  }

  /** The number of the next backend is used nowhere. */
  lemma NextUnused(s: State)
    requires Inv(s)
    ensures var id := s.nextId;
            && id !in s.backends && id !in s.configured && !Tabled(s.tables, id)
            && s.held[id] == 0 && s.jobs[id] == 0 && s.leaked[id] == 0
  {
    hide SessionsListed, CursorsListed, ListsOwned, AtHome, RemovalExact, RegularsListed, Counted;
  }

  lemma CreateCounted(s: State, owner: nat, addr: int, kind: Kind, home: nat)
    requires Counted(s) && HoldersLive(s) && Key(owner, addr) !in s.tables && (kind.Regular? ==> home in s.balancers)
    requires var id := s.nextId;
             && id !in s.backends && id !in s.configured && !Tabled(s.tables, id)
             && s.held[id] == 0 && s.jobs[id] == 0 && s.leaked[id] == 0
    ensures Counted(Created(s, owner, addr, kind, home)) && HoldersLive(Created(s, owner, addr, kind, home))
  {
    hide Tabled;
    var t, id := Created(s, owner, addr, kind, home), s.nextId;
    TabledAdded(s.tables, Key(owner, addr), id);
    forall x | x in t.backends
      ensures t.backends[x].refcount == BaseRefs(t.configured, t.tables, x) + t.held[x] + t.jobs[x] + t.leaked[x]
    {
      assert Tabled(t.tables, x) <==> x == id || Tabled(s.tables, x);
      assert t.jobs[x] == s.jobs[x] + if x == id && kind.Matrix? then 1 else 0;
      if x != id { assert t.backends[x] == s.backends[x]; }
    }
  }

  lemma CreateRemoval(removal: seq<nat>, backends: map<nat, Backend>, configured: set<nat>, tables: map<Key, nat>,
                      key: Key, id: nat, b: Backend)
    requires RemovalExact(removal, backends, configured, tables) && key !in tables && id !in backends
    ensures RemovalExact(removal, backends[id := b], configured, tables[key := id])
  {
    TabledAdded(tables, key, id);
    assert Tabled(tables[key := id], id) by { assert tables[key := id][key] == id; }
    assert id !in removal;
    hide Tabled;
  }

  lemma EnabledOwned(s: State, id: nat)
    requires Inv(s) && id in s.backends && !s.backends[id].disabled
    ensures Owned(s, id)
  {
    hide Tabled, SessionsListed, CursorsListed, ListsOwned, AtHome, TablesOk, Numbered, Counted, HoldersLive;
  }

  /** A backend more at the end of one list. */
  lemma ListedAdded(bals: map<nat, Balancer>, home: nat, id: nat)
    requires home in bals
    ensures var r := bals[home := bals[home].(list := bals[home].list + [id])];
            forall x :: Listed(r, x) <==> x == id || Listed(bals, x)
  {
    var r := bals[home := bals[home].(list := bals[home].list + [id])];
    forall x ensures Listed(r, x) <==> x == id || Listed(bals, x) {
      assert id in r[home].list;
      if Listed(bals, x) {
        var i :| i in bals && x in bals[i].list;
        assert x in r[i].list;
      }
      if Listed(r, x) && x != id {
        var i :| i in r && x in r[i].list;
        assert x in bals[i].list;
      }
    }
  }

  lemma CreateLists(bals: map<nat, Balancer>, configured: set<nat>, tables: map<Key, nat>, backends: map<nat, Backend>,
                    key: Key, id: nat, b: Backend)
    requires ListsOwned(bals, configured, tables) && AtHome(bals, backends, configured) && CursorsListed(bals)
    requires key !in tables && id !in backends
    ensures ListsOwned(bals, configured, tables[key := id]) && AtHome(bals, backends[id := b], configured)
    ensures b.kind.Regular? && b.home in bals ==>
              var r := bals[b.home := bals[b.home].(list := bals[b.home].list + [id])];
              && ListsOwned(r, configured, tables[key := id]) && AtHome(r, backends[id := b], configured) && CursorsListed(r)
  {
    TabledAdded(tables, key, id);
    assert Tabled(tables[key := id], id) by { assert tables[key := id][key] == id; }
    hide Tabled;
    if b.kind.Regular? && b.home in bals {
      var r := bals[b.home := bals[b.home].(list := bals[b.home].list + [id])];
      forall i, x | i in r && x in r[i].list ensures x in bals[i].list || (x == id && i == b.home) {
      }
    }
  }

  lemma CreateRegulars(backends: map<nat, Backend>, bals: map<nat, Balancer>, configured: set<nat>, tables: map<Key, nat>,
                       key: Key, id: nat, b: Backend)
    requires RegularsListed(backends, bals, configured, tables) && key !in tables && id !in backends
    requires b.kind.Regular? ==> b.home in bals
    ensures b.kind.Regular? ==>
              var r := bals[b.home := bals[b.home].(list := bals[b.home].list + [id])];
              RegularsListed(backends[id := b], r, configured, tables[key := id])
    ensures b.kind.Matrix? ==> RegularsListed(backends[id := b], bals, configured, tables[key := id])
  {
    TabledAdded(tables, key, id);
    if b.kind.Regular? { ListedAdded(bals, b.home, id); }
    hide Tabled, Listed;
  }

  lemma CreateSessions(sessions: map<string, nat>, bals: map<nat, Balancer>, home: nat, id: nat)
    requires SessionsListed(sessions, bals) && home in bals
    ensures SessionsListed(sessions, bals[home := bals[home].(list := bals[home].list + [id])])
  {
    ListedAdded(bals, home, id);
    hide Listed;
  }

  lemma CreateFamilies(backends: map<nat, Backend>, tables: map<Key, nat>, key: Key, id: nat, b: Backend)
    requires Families(backends, tables) && id !in backends && key.owner in backends && backends[key.owner].kind.Matrix?
    requires b.kind.Regular? ==> b.home == backends[key.owner].home
    ensures Families(backends[id := b], tables[key := id])
  {
  }

  lemma CreateKeepsInv(s: State, owner: nat, addr: int, kind: Kind, home: nat)
    requires Inv(s) && Enabled(s, Create(owner, addr, kind, home))
    ensures Inv(Do(s, Create(owner, addr, kind, home)))
  {
    hide Counted, HoldersLive, RemovalExact, TablesOk, SessionsListed, ListsOwned, AtHome, CursorsListed, Tabled,
      RegularsListed, Families;
    var t, id, key := Created(s, owner, addr, kind, home), s.nextId, Key(owner, addr);
    assert id !in s.backends;
    NextUnused(s);
    CreateCounted(s, owner, addr, kind, home);
    EnabledOwned(s, owner);
    CreateRemoval(s.removal, s.backends, s.configured, s.tables, key, id, t.backends[id]);
    CreateLists(s.balancers, s.configured, s.tables, s.backends, key, id, t.backends[id]);
    CreateRegulars(s.backends, s.balancers, s.configured, s.tables, key, id, t.backends[id]);
    CreateFamilies(s.backends, s.tables, key, id, t.backends[id]);
    if kind.Regular? { CreateSessions(s.sessions, s.balancers, home, id); }
    CreateTables(s.tables, s.configured, s.backends.Keys, key, id);
    assert t.backends.Keys == s.backends.Keys + {id};
  }

  lemma ProvideKeepsInv(s: State, home: nat)
    requires Inv(s)
    ensures Inv(Do(s, Provide(home)))
  {
    hide Numbered, TablesOk, Counted, HoldersLive, RemovalExact, SessionsListed, ListsOwned, AtHome,
      RegularsListed, CursorsListed, Families;
    CountsApart(s, Provided(s.balancers, home));
    ProvidedLists(s, home);
  }

  lemma ProvidedLists(s: State, home: nat)
    requires SessionsListed(s.sessions, s.balancers) && CursorsListed(s.balancers)
    requires ListsOwned(s.balancers, s.configured, s.tables) && AtHome(s.balancers, s.backends, s.configured)
    requires RegularsListed(s.backends, s.balancers, s.configured, s.tables)
    ensures var r := Provided(s.balancers, home);
            && SessionsListed(s.sessions, r) && CursorsListed(r) && ListsOwned(r, s.configured, s.tables)
            && AtHome(r, s.backends, s.configured) && RegularsListed(s.backends, r, s.configured, s.tables)
  {
    ProvidedListed(s.balancers, home);
    hide Tabled, Listed;
  }

  lemma ProvidedListed(bals: map<nat, Balancer>, home: nat)
    ensures forall x :: Listed(Provided(bals, home), x) <==> Listed(bals, x)
  {
    var r := Provided(bals, home);
    forall x ensures Listed(r, x) <==> Listed(bals, x) {
      if Listed(bals, x) {
        var i :| i in bals && x in bals[i].list;
        assert i in r && x in r[i].list;
      }
      if Listed(r, x) {
        var i :| i in r && x in r[i].list;
        assert i in bals && x in bals[i].list;
      }
    }
  }

  // Sweep.

  lemma SweepTables(tables: map<Key, nat>, configured: set<nat>, live: set<nat>, key: Key)
    requires TablesOk(tables, configured, live) && key in tables
    requires forall k | k in tables :: k.owner != tables[key]
    ensures TablesOk(tables - {key}, configured, live)
  {
    TabledRemoved(tables, key);
    hide Tabled;
  }

  lemma SweepCounted(s: State, key: Key)
    requires Counted(s) && HoldersLive(s) && key in s.tables && s.tables[key] in s.backends && s.tables[key] !in s.configured
    requires forall k, l | k in s.tables && l in s.tables && s.tables[k] == s.tables[l] :: k == l
    ensures Counted(Swept(s, key)) && HoldersLive(Swept(s, key))
    ensures s.backends[s.tables[key]].refcount > 0
  {
    var t, id := Swept(s, key), s.tables[key];
    TabledRemoved(s.tables, key);
    assert Tabled(s.tables, id);
    hide Tabled, Unlisted, WithoutBackend;
    forall x | x in t.backends
      ensures t.backends[x].refcount == BaseRefs(t.configured, t.tables, x) + t.held[x] + t.jobs[x] + t.leaked[x]
    {
      if x != id { assert t.backends[x] == s.backends[x]; }
    }
  }

  lemma SweepRemoval(removal: seq<nat>, backends: map<nat, Backend>, configured: set<nat>,
                     tables: map<Key, nat>, key: Key, b: Backend)
    requires RemovalExact(removal, backends, configured, tables) && key in tables && b.disabled
    requires tables[key] in backends && tables[key] !in configured
    requires forall k, l | k in tables && l in tables && tables[k] == tables[l] :: k == l
    ensures RemovalExact(removal + [tables[key]], backends[tables[key] := b], configured, tables - {key})
  {
    TabledRemoved(tables, key);
    hide Tabled;
  }

  /** What is in the lists once `id` is out of its home list. */
  lemma UnlistedAt(bals: map<nat, Balancer>, home: nat, id: nat, i: nat)
    requires i in Unlisted(bals, home, id) && (i in bals && id in bals[i].list ==> i == home)
    ensures i in bals
    ensures var r := Unlisted(bals, home, id);
            forall x :: x in r[i].list <==> x in bals[i].list && x != id
    ensures var r := Unlisted(bals, home, id);
            (bals[i].cur.Some? ==> bals[i].cur.value in bals[i].list) ==>
            (r[i].cur.Some? ==> r[i].cur.value in r[i].list && r[i].cur.value != id)
  {
  }

  lemma UnlistedKeeps(bals: map<nat, Balancer>, home: nat, id: nat, x: nat)
    requires x != id && Listed(bals, x) && forall i | i in bals && id in bals[i].list :: i == home
    ensures Listed(Unlisted(bals, home, id), x)
  {
    var i :| i in bals && x in bals[i].list;
    assert i in Unlisted(bals, home, id) by {
      if i == home { assert x in Without(bals[home].list, id); }
    }
    UnlistedAt(bals, home, id, i);
  }

  /** Once out of its home list, a backend is in no list. */
  lemma SweepLists(bals: map<nat, Balancer>, configured: set<nat>, tables: map<Key, nat>, backends: map<nat, Backend>,
                   key: Key, b: Backend)
    requires ListsOwned(bals, configured, tables) && AtHome(bals, backends, configured) && CursorsListed(bals)
    requires key in tables && forall k, l | k in tables && l in tables && tables[k] == tables[l] :: k == l
    requires tables[key] in backends && tables[key] !in configured
    requires b.home == backends[tables[key]].home && b.kind == backends[tables[key]].kind
    ensures var r := Unlisted(bals, b.home, tables[key]);
            && ListsOwned(r, configured, tables - {key}) && AtHome(r, backends[tables[key] := b], configured) && CursorsListed(r)
            && !Listed(r, tables[key])
    ensures forall x | x != tables[key] && Listed(bals, x) :: Listed(Unlisted(bals, b.home, tables[key]), x)
  {
    var id := tables[key];
    var r := Unlisted(bals, b.home, id);
    TabledRemoved(tables, key);
    hide Tabled, Unlisted;
    assert forall i | i in bals && id in bals[i].list :: i == b.home;
    forall i | i in r
      ensures i in bals && forall x :: x in r[i].list <==> x in bals[i].list && x != id
      ensures r[i].cur.Some? ==> r[i].cur.value in r[i].list && r[i].cur.value != id
    {
      UnlistedIn(bals, b.home, id, i);
      UnlistedAt(bals, b.home, id, i);
    }
    forall x | x != id && Listed(bals, x) ensures Listed(r, x) {
      UnlistedKeeps(bals, b.home, id, x);
    }
  }

  lemma UnlistedIn(bals: map<nat, Balancer>, home: nat, id: nat, i: nat)
    requires i in Unlisted(bals, home, id)
    ensures i in bals
  {
  }

  lemma SweepRegulars(backends: map<nat, Backend>, bals: map<nat, Balancer>, r: map<nat, Balancer>,
                      configured: set<nat>, tables: map<Key, nat>, key: Key, b: Backend)
    requires RegularsListed(backends, bals, configured, tables) && key in tables && tables[key] in backends
    requires tables[key] !in configured && b.kind == backends[tables[key]].kind
    requires forall k, l | k in tables && l in tables && tables[k] == tables[l] :: k == l
    requires forall x | x != tables[key] && Listed(bals, x) :: Listed(r, x)
    ensures RegularsListed(backends[tables[key] := b], r, configured, tables - {key})
  {
    TabledRemoved(tables, key);
    hide Tabled, Listed;
  }

  lemma SweepFamilies(backends: map<nat, Backend>, tables: map<Key, nat>, key: Key, b: Backend)
    requires Families(backends, tables) && key in tables
    requires b.kind == backends[tables[key]].kind && b.home == backends[tables[key]].home
    ensures Families(backends[tables[key] := b], tables - {key})
  {
  }

  lemma SweepSessions(sessions: map<string, nat>, bals: map<nat, Balancer>, r: map<nat, Balancer>, id: nat)
    requires SessionsListed(sessions, bals)
    requires forall x | x != id && Listed(bals, x) :: Listed(r, x)
    ensures SessionsListed(WithoutBackend(sessions, id), r)
  {
    hide Listed;
  }

  lemma SweepKeepsInv(s: State, key: Key)
    requires Inv(s) && Enabled(s, Sweep(key))
    ensures Inv(Do(s, Sweep(key)))
  {
    hide Counted, HoldersLive, RemovalExact, SessionsListed, ListsOwned, AtHome, CursorsListed, Tabled,
      Unlisted, WithoutBackend, Numbered, Listed, RegularsListed, Families;
    var t, id := Swept(s, key), s.tables[key];
    SweepCounted(s, key);
    SweepRemoval(s.removal, s.backends, s.configured, s.tables, key, t.backends[id]);
    SweepTables(s.tables, s.configured, s.backends.Keys, key);
    SweepLists(s.balancers, s.configured, s.tables, s.backends, key, t.backends[id]);
    SweepRegulars(s.backends, s.balancers, t.balancers, s.configured, s.tables, key, t.backends[id]);
    SweepFamilies(s.backends, s.tables, key, t.backends[id]);
    SweepSessions(s.sessions, s.balancers, t.balancers, id);
    assert t.backends.Keys == s.backends.Keys;
  }

  // Removal.

  /** What the remover frees is referred to from nowhere. */
  lemma RemovedUnreferred(s: State, id: nat)
    requires Inv(s) && Enabled(s, Remove(id))
    ensures s.held[id] == 0 && s.jobs[id] == 0 && s.leaked[id] == 0 && !Owned(s, id) && !Listed(s.balancers, id)
  {
    hide Numbered, TablesOk, CursorsListed, SessionsListed, AtHome, HoldersLive;
    assert !Owned(s, id);
  }

  lemma RemoveCounted(s: State, t: State, id: nat)
    requires Counted(s) && HoldersLive(s) && s.held[id] == 0 && s.jobs[id] == 0 && s.leaked[id] == 0
    requires t == s.(backends := s.backends - {id}, removal := t.removal, freed := t.freed)
    ensures Counted(t) && HoldersLive(t)
  {
    hide BaseRefs;
  }

  lemma RemoveRemoval(removal: seq<nat>, backends: map<nat, Backend>, configured: set<nat>, tables: map<Key, nat>, id: nat)
    requires RemovalExact(removal, backends, configured, tables)
    ensures RemovalExact(Without(removal, id), backends - {id}, configured, tables)
  {
    hide Tabled;
  }

  lemma RemoveLists(s: State, id: nat)
    requires AtHome(s.balancers, s.backends, s.configured) && !Listed(s.balancers, id)
    ensures AtHome(s.balancers, s.backends - {id}, s.configured)
  {
  }

  lemma RemoveFamilies(backends: map<nat, Backend>, tables: map<Key, nat>, configured: set<nat>, id: nat)
    requires Families(backends, tables) && TablesOk(tables, configured, backends.Keys)
    requires id !in configured && !Tabled(tables, id)
    ensures Families(backends - {id}, tables)
  {
  }

  lemma RemoveTables(tables: map<Key, nat>, configured: set<nat>, live: set<nat>, id: nat)
    requires TablesOk(tables, configured, live) && id !in configured && !Tabled(tables, id)
    ensures TablesOk(tables, configured, live - {id})
  {
  }

  lemma RemoveKeepsInv(s: State, id: nat)
    requires Inv(s) && Enabled(s, Remove(id))
    ensures Inv(Do(s, Remove(id)))
  {
    hide Counted, HoldersLive, RemovalExact, TablesOk, SessionsListed, ListsOwned, AtHome, CursorsListed, Tabled, Listed,
      Families;
    RemovedUnreferred(s, id);
    var t := Do(s, Remove(id));
    assert t.backends.Keys == s.backends.Keys - {id};
    RemoveCounted(s, t, id);
    RemoveRemoval(s.removal, s.backends, s.configured, s.tables, id);
    RemoveLists(s, id);
    RemoveFamilies(s.backends, s.tables, s.configured, id);
    RemoveTables(s.tables, s.configured, s.backends.Keys, id);
  }

  // Whole runs.

  lemma StepKeepsInv(s: State, step: Step)
    requires Inv(s) && Enabled(s, step)
    ensures Inv(Do(s, step))
  {
    if step.AddSession? || step.DropSession? {
      SessionStepsKeepInv(s, step.session, if step.AddSession? then step.id else 0);
    } else if step.Mark? || step.SetDisabled? {
      var b := s.backends[step.id];
      FlagsKeepInv(s, step.id, if step.Mark? then b.(mark := step.mark) else b.(disabled := step.disabled));
    } else {
      OtherStepKeepsInv(s, step);
    }
  }

  lemma OtherStepKeepsInv(s: State, step: Step)
    requires Inv(s) && Enabled(s, step)
    requires !step.AddSession? && !step.DropSession? && !step.Mark? && !step.SetDisabled?
    ensures Inv(Do(s, step))
  {
    hide Inv, Enabled, Do;
    match step
    case Acquire(id) => AcquireKeepsInv(s, id);
    case AcquireBySession(k) => AcquireBySessionKeepsInv(s, k);
    case Release(id) => ReleaseKeepsInv(s, id);
    case OpenFails(id) => OpenFailsKeepsInv(s, id);
    case Kill(id) => KillKeepsInv(s, id);
    case Touch(id, probe) => TouchKeepsInv(s, id, probe);
    case CancelJob(id) => CancelJobKeepsInv(s, id);
    case Resolve(id, again) => ResolveKeepsInv(s, id, again);
    case Provide(home) => ProvideKeepsInv(s, home);
    case Create(owner, addr, kind, home) => CreateKeepsInv(s, owner, addr, kind, home);
    case Sweep(key) => SweepKeepsInv(s, key);
    case Remove(id) => RemoveKeepsInv(s, id);
    case MoveCursor(bal, id) => MoveCursorKeepsInv(s, bal, id);
  }

  /** The state after configuration: every configured backend has one reference, and every matrix
      its first resolver job. */
  ghost predicate Startup(s: State) {
    && s.tables == map[] && s.configured == s.backends.Keys && s.removal == [] && s.sessions == map[]
    && s.held == multiset{} && s.leaked == multiset{} && s.freed == {}
    && (forall id | id in s.backends :: id < s.nextId && s.backends[id].refcount == 1 + s.jobs[id])
    && (forall id | id in s.jobs :: id in s.backends)
    && AtHome(s.balancers, s.backends, s.configured) && CursorsListed(s.balancers)
    && (forall id | id in s.backends && s.backends[id].kind.Regular? :: Listed(s.balancers, id))
  }

  ghost predicate IsRun(run: seq<State>, steps: seq<Step>) {
    && |run| == |steps| + 1 && Startup(run[0])
    && forall i | 0 <= i < |steps| :: Taken(run, steps, i)
  }

  ghost predicate Taken(run: seq<State>, steps: seq<Step>, i: nat)
    requires |run| == |steps| + 1 && i < |steps|
  {
    Enabled(run[i], steps[i]) && run[i + 1] == Do(run[i], steps[i])
  }

  lemma StartupInv(s: State)
    requires Startup(s)
    ensures Inv(s)
  {
    assert forall id :: !Tabled(s.tables, id);
    assert forall id | id in s.backends :: s.held[id] == 0 && s.leaked[id] == 0;
  }

  lemma {:induction false} RunKeepsInv(run: seq<State>, steps: seq<Step>, i: nat)
    requires IsRun(run, steps) && i < |run|
    ensures Inv(run[i])
  {
    hide Inv, Startup, Enabled, Do;
    if i == 0 {
      StartupInv(run[0]);
    } else {
      RunKeepsInv(run, steps, i - 1);
      assert Taken(run, steps, i - 1);
      StepKeepsInv(run[i - 1], steps[i - 1]);
    }
  }

  /** Nothing refers to this backend any more. */
  ghost predicate Unreachable(s: State, id: nat) {
    && id !in s.backends && !Tabled(s.tables, id) && id !in s.configured
    && id !in s.held && id !in s.jobs && id !in s.leaked && id !in s.removal
    && (forall k | k in s.sessions :: s.sessions[k] != id)
    && !Listed(s.balancers, id)
    && (forall i | i in s.balancers :: s.balancers[i].cur != Some(id))
  }

  /** In every interleaving: a freed backend is reachable from no table, balancer, cursor, session,
      request or job, and the count of every other covers all its holders. */
  lemma Safety(run: seq<State>, steps: seq<Step>, i: nat)
    requires IsRun(run, steps) && i < |run|
    ensures forall id | id in run[i].freed :: Unreachable(run[i], id)
    ensures forall id | id in run[i].backends ::
              run[i].backends[id].refcount >= BaseRefs(run[i].configured, run[i].tables, id) + run[i].held[id] + run[i].jobs[id]
  {
    RunKeepsInv(run, steps, i);
    var s := run[i];
    forall id | id in s.freed ensures Unreachable(s, id) {
      FreedUnreachable(s, id);
    }
  }

  lemma FreedUnreachable(s: State, id: nat)
    requires Inv(s) && id in s.freed
    ensures Unreachable(s, id)
  {
    assert id !in s.backends;
    assert !Listed(s.balancers, id);
    forall i | i in s.balancers ensures s.balancers[i].cur != Some(id) {
      if s.balancers[i].cur.Some? {
        assert s.balancers[i].cur.value in s.balancers[i].list;
        assert Listed(s.balancers, s.balancers[i].cur.value);
      }
    }
  }

  /** Count gone, or the backend gone. */
  ghost predicate Spent(s: State, id: nat) {
    id in s.freed || (id in s.backends && s.backends[id].refcount == 0)
  }

  /** A count that has reached zero does not rise again. */
  lemma SpentStays(s: State, step: Step, id: nat)
    requires Inv(s) && Enabled(s, step) && Spent(s, id)
    ensures Spent(Do(s, step), id)
  {
    if id in s.freed {
      FreedKept(s, step, id);
    } else {
      ZeroHasNoHolder(s, id);
      hide Inv;
      CountKept(s, step, id);
    }
  }

  lemma FreedKept(s: State, step: Step, id: nat)
    requires Enabled(s, step) && id in s.freed
    ensures id in Do(s, step).freed
  {
  }

  lemma ZeroHasNoHolder(s: State, id: nat)
    requires Inv(s) && id in s.backends && s.backends[id].refcount == 0
    ensures Forgotten(s, id)
  {
    assert BaseRefs(s.configured, s.tables, id) == 0;
    assert !Listed(s.balancers, id);
  }

  ghost predicate Forgotten(s: State, id: nat) {
    && id in s.backends && s.backends[id].refcount == 0 && id < s.nextId
    && id !in s.held && id !in s.jobs && id !in s.leaked && !Tabled(s.tables, id) && !Listed(s.balancers, id)
    && forall k | k in s.sessions :: s.sessions[k] != id
  }

  lemma CountKept(s: State, step: Step, id: nat)
    requires Enabled(s, step) && Forgotten(s, id)
    ensures Spent(Do(s, step), id)
  {
    if step.Create? || step.Sweep? || step.Remove? {
      CountKeptByLists(s, step, id);
    } else if step.AddSession? || step.DropSession? || step.MoveCursor? || step.Mark? || step.SetDisabled? ||
              step.Provide? {
      CountKeptByRest(s, step, id);
    } else if step.Kill? || step.Touch? || step.CancelJob? || step.Resolve? {
      CountKeptByJobs(s, step, id);
    } else {
      CountKeptByRequests(s, step, id);
    }
  }

  lemma CountKeptByRest(s: State, step: Step, id: nat)
    requires step.AddSession? || step.DropSession? || step.MoveCursor? || step.Mark? || step.SetDisabled? || step.Provide?
    requires Enabled(s, step) && id in s.backends && s.backends[id].refcount == 0
    ensures Spent(Do(s, step), id)
  {
    hide Listed;
  }

  lemma CountKeptByRequests(s: State, step: Step, id: nat)
    requires step.Acquire? || step.AcquireBySession? || step.Release? || step.OpenFails?
    requires Enabled(s, step) && Forgotten(s, id)
    ensures Spent(Do(s, step), id)
  {
    hide Tabled, Listed;
  }

  lemma CountKeptByJobs(s: State, step: Step, id: nat)
    requires step.Kill? || step.Touch? || step.CancelJob? || step.Resolve?
    requires Enabled(s, step) && Forgotten(s, id)
    ensures Spent(Do(s, step), id)
  {
    hide WithoutBackend, Tabled, Listed;
    assert step.id != id;
  }

  lemma CountKeptByLists(s: State, step: Step, id: nat)
    requires Enabled(s, step) && Forgotten(s, id) && (step.Create? || step.Sweep? || step.Remove?)
    ensures Spent(Do(s, step), id)
  {
    hide Unlisted, WithoutBackend, Without, Listed;
    if step.Sweep? { assert s.tables[step.key] != id; }
  }

  lemma {:induction false} ZeroForever(run: seq<State>, steps: seq<Step>, i: nat, j: nat, id: nat)
    requires IsRun(run, steps) && i <= j < |run| && Spent(run[i], id)
    ensures Spent(run[j], id)
    decreases j
  {
    hide Inv, Enabled, Do, Startup, Spent;
    if i < j {
      ZeroForever(run, steps, i, j - 1, id);
      RunKeepsInv(run, steps, j - 1);
      assert Taken(run, steps, j - 1);
      SpentStays(run[j - 1], steps[j - 1], id);
    }
  }

  /** A swept backend that nobody holds can be freed at once. */
  lemma RemovableWhenReleased(s: State, id: nat)
    requires Inv(s) && id in s.removal && id !in s.held && id !in s.jobs && id !in s.leaked
    ensures Enabled(s, Remove(id))
  {
    assert !Owned(s, id);
    assert s.held[id] == 0 && s.jobs[id] == 0 && s.leaked[id] == 0;
  }

  /** A reference lost by `select_backend` when `open_backend` fails keeps its backend for ever. */
  lemma {:induction false} LeakNeverFreed(run: seq<State>, steps: seq<Step>, i: nat, j: nat, id: nat)
    requires IsRun(run, steps) && i <= j < |run| && id in run[i].leaked
    ensures id in run[j].leaked && id in run[j].backends
    decreases j
  {
    hide Inv, Enabled, Do, Startup;
    if i < j {
      LeakNeverFreed(run, steps, i, j - 1, id);
      assert Taken(run, steps, j - 1);
      LeakKept(run[j - 1], steps[j - 1], id);
    }
    RunKeepsInv(run, steps, j);
    LeakedLive(run[j], id);
  }

  lemma LeakedLive(s: State, id: nat)
    requires Inv(s) && id in s.leaked
    ensures id in s.backends
  {
  }

  lemma LeakKept(s: State, step: Step, id: nat)
    requires Enabled(s, step) && id in s.leaked
    ensures id in Do(s, step).leaked
  {
  }

  // Calls of `kill_be`.

  /** A listed backend is not on the removal list, and a regular one is on one of both. */
  lemma ListedIffKept(s: State, id: nat)
    requires Inv(s) && id in s.backends && s.backends[id].kind.Regular?
    ensures Listed(s.balancers, id) <==> id !in s.removal
  {
    hide Numbered, TablesOk, CursorsListed, SessionsListed, Counted, HoldersLive;
  }

  /** In every state of every run a call of `kill_be` by a request passes the assertion in it if and only if the
      backend has not been swept meanwhile. */
  lemma KillAbortsIff(run: seq<State>, steps: seq<Step>, i: nat, id: nat)
    requires IsRun(run, steps) && i < |run| && KillCalled(run[i], id)
    ensures Enabled(run[i], Kill(id)) <==> Listed(run[i].balancers, id)
    ensures KillAborts(run[i], id) <==> id in run[i].removal
  {
    RunKeepsInv(run, steps, i);
    hide Inv, IsRun;
    ListedIffKept(run[i], id);
  }

  // Sessions added by `upd_session`, whose backend may have been swept.

  /** A run from any state. */
  ghost predicate Reaches(s: State, steps: seq<Step>, t: State)
    decreases |steps|
  {
    if steps == [] then t == s else Enabled(s, steps[0]) && Reaches(Do(s, steps[0]), steps[1..], t)
  }

  lemma {:induction false} ReachesOn(s: State, a: seq<Step>, t: State, b: seq<Step>, u: State)
    requires Reaches(s, a, t) && Reaches(t, b, u)
    ensures Reaches(s, a + b, u)
    decreases |a|
  {
    hide Enabled, Do;
    if a == [] {
      assert a + b == b;
    } else {
      assert (a + b)[0] == a[0] && (a + b)[1..] == a[1..] + b;
      ReachesOn(Do(s, a[0]), a[1..], t, b, u);
    }
  }

  lemma ReachesOne(s: State, step: Step)
    requires Enabled(s, step)
    ensures Reaches(s, [step], Do(s, step))
  {
    hide Enabled, Do;
    assert [step][1..] == [];
    assert Reaches(Do(s, step), [], Do(s, step));
  }

  function Linked(s: State, k: string, id: nat): State { s.(sessions := s.sessions[k := id]) }

  /** Some run from `s` frees `id` while the session still names it. */
  ghost predicate CanDangle(s: State, k: string, id: nat) {
    exists steps, t :: Reaches(s, steps, t) && id in t.freed && k in t.sessions && t.sessions[k] == id
  }

  function Sessionless(s: State): State { s.(sessions := map[]) }

  /** The invariant but for what it says about sessions. */
  ghost predicate Core(s: State) { Inv(Sessionless(s)) }

  lemma InvCore(s: State)
    requires Inv(s)
    ensures Core(s)
  {
    hide Inv;
    SessionsKeepInv(s, map[]);
  }

  /** Sessions do not matter to the steps that do not start from them. */
  ghost predicate Apart(s: State, step: Step) {
    Enabled(s, step) && Enabled(Sessionless(s), step) && Sessionless(Do(s, step)) == Do(Sessionless(s), step)
  }

  lemma ListsApart(s: State, step: Step)
    requires Enabled(s, step) && (step.Create? || step.Sweep? || step.Remove?)
    ensures Apart(s, step)
  {
    hide Unlisted, Without, Listed;
  }

  lemma RequestsApart(s: State, step: Step)
    requires Enabled(s, step) && (step.Acquire? || step.Release? || step.OpenFails? || step.Kill?)
    ensures Apart(s, step)
  {
    hide Listed;
  }

  lemma JobsApart(s: State, step: Step)
    requires Enabled(s, step) && (step.CancelJob? || step.Resolve?)
    ensures Apart(s, step)
  {
  }

  lemma ProbeApart(s: State, id: nat, probe: bool)
    requires Enabled(s, Touch(id, probe))
    ensures Apart(s, Touch(id, probe))
  {
  }

  lemma FlagsApart(s: State, step: Step)
    requires Enabled(s, step) && (step.MoveCursor? || step.Mark? || step.SetDisabled? || step.Provide?)
    ensures Apart(s, step)
  {
    hide Listed;
  }

  lemma StepApart(s: State, step: Step)
    requires Enabled(s, step) && !step.AcquireBySession? && !step.AddSession? && !step.DropSession?
    ensures Apart(s, step)
  {
    hide Enabled, Do, Apart;
    if step.Create? || step.Sweep? || step.Remove? {
      ListsApart(s, step);
    } else if step.Acquire? || step.Release? || step.OpenFails? || step.Kill? {
      RequestsApart(s, step);
    } else if step.Touch? {
      ProbeApart(s, step.id, step.probe);
    } else if step.CancelJob? || step.Resolve? {
      JobsApart(s, step);
    } else {
      FlagsApart(s, step);
    }
  }

  lemma StepKeepsCore(s: State, step: Step)
    requires Core(s) && Enabled(s, step)
    ensures Core(Do(s, step))
  {
    hide Inv;
    var u := Sessionless(s);
    if step.AcquireBySession? {
      MoveRefsKeepsInv(u, Sessionless(Do(s, step)), s.sessions[step.session], 1);
    } else if !step.AddSession? && !step.DropSession? {
      StepApart(s, step);
      hide Do, Enabled;
      StepKeepsInv(u, step);
    }
  }

  lemma LeakedNotFreed(s: State, id: nat)
    requires Core(s) && id in s.leaked
    ensures id !in s.freed
  {
    hide TablesOk, CursorsListed, SessionsListed, Counted, RegularsListed, RemovalExact, ListsOwned, AtHome;
  }

  lemma {:induction false} LeakedNeverDangles(s: State, steps: seq<Step>, t: State, id: nat)
    requires Core(s) && id in s.leaked && Reaches(s, steps, t)
    ensures id !in t.freed
    decreases |steps|
  {
    hide Core, Enabled, Do;
    if steps == [] {
      LeakedNotFreed(s, id);
    } else {
      StepKeepsCore(s, steps[0]);
      LeakKept(s, steps[0], id);
      LeakedNeverDangles(Do(s, steps[0]), steps[1..], t, id);
    }
  }

  lemma {:induction false} ListedNeverDangles(s: State, steps: seq<Step>, t: State, k: string, id: nat)
    requires Inv(s) && Reaches(s, steps, t) && id in t.freed
    ensures k in t.sessions ==> t.sessions[k] != id
    decreases |steps|
  {
    hide Inv, Enabled, Do;
    if steps == [] {
      FreedUnreachable(s, id);
    } else {
      StepKeepsInv(s, steps[0]);
      ListedNeverDangles(Do(s, steps[0]), steps[1..], t, k, id);
    }
  }

  /** Some run from `s` frees `id` and leaves the sessions alone. */
  ghost predicate CanFree(s: State, id: nat) {
    exists steps, t :: Reaches(s, steps, t) && id in t.freed && t.sessions == s.sessions
  }

  lemma FreeAfter(s: State, step: Step, id: nat)
    requires Enabled(s, step) && CanFree(Do(s, step), id) && Do(s, step).sessions == s.sessions
    ensures CanFree(s, id)
  {
    var steps, t :| Reaches(Do(s, step), steps, t) && id in t.freed && t.sessions == s.sessions;
    ReachesOne(s, step);
    ReachesOn(s, [step], Do(s, step), steps, t);
  }

  /** Requests and jobs let go of it one by one, and the remover frees it. */
  lemma {:induction false} UnlostFreed(s: State, id: nat)
    requires Core(s) && id in s.removal && id !in s.leaked && id in s.backends && s.backends[id].kind.Regular?
    ensures CanFree(s, id)
    decreases s.held[id] + s.jobs[id]
  {
    hide Inv;
    if id in s.held || id in s.jobs {
      var step := if id in s.held then Release(id) else Touch(id, true);
      StepKeepsCore(s, step);
      UnlostFreed(Do(s, step), id);
      FreeAfter(s, step, id);
    } else {
      RemovableWhenReleased(Sessionless(s), id);
      var t := Do(s, Remove(id));
      assert Reaches(t, [], t);
      assert CanFree(t, id);
      FreeAfter(s, Remove(id), id);
    }
  }

  ghost predicate Freeable(s: State, id: nat) { exists steps, t :: Reaches(s, steps, t) && id in t.freed }

  /** A regular backend on the removal list is freed by some run if and only if none of its references is lost. */
  lemma SweptFreedIff(s: State, id: nat)
    requires Inv(s) && id in s.removal && id in s.backends && s.backends[id].kind.Regular?
    ensures Freeable(s, id) <==> id !in s.leaked
  {
    hide Inv;
    InvCore(s);
    if id !in s.leaked {
      UnlostFreed(s, id);
    } else if Freeable(s, id) {
      var steps, t :| Reaches(s, steps, t) && id in t.freed;
      LeakedNeverDangles(s, steps, t, id);
    }
  }

  /** A session given to a regular backend can outlive it if and only if the backend has been swept and no
      reference to it is lost. */
  lemma SessionDanglesIff(s: State, k: string, id: nat)
    requires Inv(s) && id in s.backends && s.backends[id].kind.Regular?
    ensures CanDangle(Linked(s, k, id), k, id) <==> id in s.removal && id !in s.leaked
  {
    hide Inv;
    var u := Linked(s, k, id);
    InvCore(s);
    assert Sessionless(u) == Sessionless(s);
    if id in s.removal && id !in s.leaked {
      UnlostFreed(u, id);
    } else if CanDangle(u, k, id) {
      var steps, t :| Reaches(u, steps, t) && id in t.freed && k in t.sessions && t.sessions[k] == id;
      if id in s.leaked {
        LeakedNeverDangles(u, steps, t, id);
      } else {
        ListedIffKept(s, id);
        SessionStepsKeepInv(s, k, id);
        ListedNeverDangles(u, steps, t, k, id);
      }
    }
  }

  // A run with each of these ends.

  /** One matrix, in the balancer that it fills, with its resolver job. */
  function OneMatrix(): State {
    State(map[0 := Backend(Matrix, 0, 2, false, false, true)], 1, map[], {0}, map[0 := Balancer([0], 0, None)], map[], [],
          multiset{}, multiset{0}, multiset{}, {})
  }

  function OneBackend(): State {
    State(map[0 := Backend(Matrix, 0, 2, false, false, true), 1 := Backend(Regular, 0, 1, false, false, true)], 2,
          map[Key(0, 7) := 1], {0}, map[0 := Balancer([0, 1], 0, None)], map[], [], multiset{}, multiset{0}, multiset{}, {})
  }

  function OneRequest(): State {
    OneBackend().(backends := OneBackend().backends[1 := Backend(Regular, 0, 2, false, false, true)], held := multiset{1})
  }

  /** The address of the backend has gone from the answer. */
  function SweptRequest(): State {
    State(map[0 := Backend(Matrix, 0, 2, false, false, true), 1 := Backend(Regular, 0, 1, false, true, true)], 2,
          map[], {0}, map[0 := Balancer([0], 0, None)], map[], [1], multiset{1}, multiset{0}, multiset{}, {})
  }

  function LostRequest(): State { OneRequest().(held := multiset{}, leaked := multiset{1}) }

  lemma StartsWithMatrix()
    ensures Startup(OneMatrix())
  {
  }

  lemma FirstSteps()
    ensures Enabled(OneMatrix(), Create(0, 7, Regular, 0)) && Do(OneMatrix(), Create(0, 7, Regular, 0)) == OneBackend()
    ensures Enabled(OneBackend(), Acquire(1)) && Do(OneBackend(), Acquire(1)) == OneRequest()
  {
    assert [0] + [1] == [0, 1];
    assert Do(OneMatrix(), Create(0, 7, Regular, 0)).balancers == OneBackend().balancers;
    assert 1 in OneBackend().balancers[0].list;
  }

  lemma SweepStep()
    ensures Enabled(OneRequest(), Sweep(Key(0, 7))) && Do(OneRequest(), Sweep(Key(0, 7))) == SweptRequest()
  {
    assert [0, 1][1..] == [1] && [1][1..] == [] && Without([1], 1) == [];
    assert Without([0, 1], 1) == [0];
    hide Without;
    var t := Swept(OneRequest(), Key(0, 7));
    assert t.balancers == SweptRequest().balancers && t.sessions == map[] && t.tables == map[];
  }

  lemma FailStep()
    ensures Enabled(OneRequest(), OpenFails(1)) && Do(OneRequest(), OpenFails(1)) == LostRequest()
  {
  }

  lemma ThreeSteps(s: State, a: Step, t: State, b: Step, u: State, c: Step, v: State)
    requires Startup(s) && Enabled(s, a) && Do(s, a) == t && Enabled(t, b) && Do(t, b) == u && Enabled(u, c) && Do(u, c) == v
    ensures IsRun([s, t, u, v], [a, b, c])
  {
    hide Startup, Enabled, Do;
    assert Taken([s, t, u, v], [a, b, c], 0) && Taken([s, t, u, v], [a, b, c], 1) && Taken([s, t, u, v], [a, b, c], 2);
  }

  lemma SweptIsWaiting()
    ensures var s := SweptRequest(); KillAborts(s, 1) && 1 in s.removal && 1 !in s.leaked
  {
  }

  /** A backend is swept while a request holds it: a kill by the request aborts, and a session that the request
      adds can outlive the backend. */
  lemma SweptWhileHeld(k: string)
    ensures var run := [OneMatrix(), OneBackend(), OneRequest(), SweptRequest()];
            IsRun(run, [Create(0, 7, Regular, 0), Acquire(1), Sweep(Key(0, 7))])
    ensures KillAborts(SweptRequest(), 1)
    ensures CanDangle(Linked(SweptRequest(), k, 1), k, 1)
  {
    hide Startup, Enabled, Do, Inv, IsRun, CanDangle, OneMatrix, OneBackend, OneRequest, SweptRequest, LostRequest;
    StartsWithMatrix();
    FirstSteps();
    SweepStep();
    SweptIsWaiting();
    var run := [OneMatrix(), OneBackend(), OneRequest(), SweptRequest()];
    var steps := [Create(0, 7, Regular, 0), Acquire(1), Sweep(Key(0, 7))];
    ThreeSteps(run[0], steps[0], run[1], steps[1], run[2], steps[2], run[3]);
    RunKeepsInv(run, steps, 3);
    SessionDanglesIff(SweptRequest(), k, 1);
  }

  /** The backend cannot be opened: its reference is lost. */
  lemma LostWhenOpenFails()
    ensures var run := [OneMatrix(), OneBackend(), OneRequest(), LostRequest()];
            IsRun(run, [Create(0, 7, Regular, 0), Acquire(1), OpenFails(1)]) && 1 in run[3].leaked
  {
    assert 1 in LostRequest().leaked;
    hide Startup, Enabled, Do, Inv, IsRun, OneMatrix, OneBackend, OneRequest, SweptRequest, LostRequest;
    StartsWithMatrix();
    FirstSteps();
    FailStep();
    ThreeSteps(OneMatrix(), Create(0, 7, Regular, 0), OneBackend(), Acquire(1), OneRequest(), OpenFails(1), LostRequest());
  }
}
