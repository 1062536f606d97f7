/** Reconciling the backends of a matrix with a DNS answer by mark and sweep (src/dynbe.c). */
module DnsUpdate {
  import opened Options
  import opened Lifecycle
  import opened DnsFrames

  /** What must hold of a backend that an update has dropped. */
  ghost predicate Dropped(s: State, id: nat) {
    && id in s.backends && s.backends[id].disabled && id in s.removal
    && !Tabled(s.tables, id) && !Listed(s.balancers, id)
    && (forall k | k in s.sessions :: s.sessions[k] != id)
    && (forall i | i in s.balancers :: s.balancers[i].cur != Some(id))
  }

  /** The removal list holds only dropped backends. */
  lemma RemovalMeansDropped(s: State, id: nat)
    requires Inv(s) && id in s.removal
    ensures Dropped(s, id)
  {
    assert !Owned(s, id);
    assert !Listed(s.balancers, id);
    forall i | i in s.balancers ensures s.balancers[i].cur != Some(id) {
      if s.balancers[i].cur.Some? {
        assert s.balancers[i].cur.value in s.balancers[i].list;
        assert Listed(s.balancers, s.balancers[i].cur.value);
      }
    }
  }

  /** A matrix for addresses: its table holds regular backends. */
  ghost predicate AddressMatrix(s: State, owner: nat) {
    && owner in s.backends && s.backends[owner].kind.Matrix?
    && (forall k | k in s.tables && k.owner == owner && s.tables[k] in s.backends :: s.backends[s.tables[k]].kind.Regular?)
  }

  /** The same, with what the invariant says of owners. */
  ghost predicate Updatable(s: State, owner: nat) {
    && AddressMatrix(s, owner)
    && (forall k | k in s.tables :: k.owner in s.backends && s.backends[k.owner].kind.Matrix?)
  }

  lemma AlwaysUpdatable(s: State, owner: nat)
    requires Inv(s) && AddressMatrix(s, owner)
    ensures Updatable(s, owner)
  {
    hide Counted, HoldersLive, RemovalExact, Numbered, TablesOk, SessionsListed, ListsOwned, CursorsListed,
      RegularsListed, AtHome;
  }

  ghost predicate SameButMark(a: Backend, b: Backend) { a.(mark := false) == b.(mark := false) }

  /** Entries for the addresses seen are unmarked, all others of the owner are marked; old entries
      keep their backend, new ones are for addresses seen and not for one of the old `ids`. */
  ghost predicate TableAnswered(old_: map<Key, nat>, tables: map<Key, nat>, backends: map<nat, Backend>,
                                owner: nat, seen: set<int>, ids: set<nat>) {
    && (forall k | k in old_ :: k in tables && tables[k] == old_[k])
    && (forall k | k in tables && k !in old_ :: k.owner == owner && k.addr in seen && tables[k] !in ids)
    && (forall a | a in seen :: Key(owner, a) in tables)
    && (forall k | k in tables && k.owner == owner ::
          tables[k] in backends && (backends[tables[k]].mark <==> k.addr !in seen))
  }

  /** Old backends are untouched apart from the mark; new ones are as a matrix makes them. */
  ghost predicate BackendsAnswered(old_: map<nat, Backend>, backends: map<nat, Backend>, home: nat) {
    && (forall id | id in old_ :: id in backends && SameButMark(backends[id], old_[id]))
    && (forall id | id in backends && id !in old_ :: backends[id] == Backend(Regular, home, 1, false, false, true))
  }

  /** First phase, the answer; `seen` are the addresses handled so far. */
  ghost predicate Answered(s: State, t: State, owner: nat, seen: set<int>) {
    && Inv(t) && Updatable(t, owner) && owner in s.backends
    && t.removal == s.removal && t.sessions == s.sessions && !t.backends[owner].disabled
    && t.backends[owner].home in t.balancers
    && TableAnswered(s.tables, t.tables, t.backends, owner, seen, s.backends.Keys)
    && BackendsAnswered(s.backends, t.backends, s.backends[owner].home)
  }

  lemma LiveEntries(s: State)
    requires Inv(s)
    ensures forall k | k in s.tables :: s.tables[k] in s.backends
    ensures forall k, l | k in s.tables && l in s.tables && s.tables[k] == s.tables[l] :: k == l
    ensures s.nextId !in s.backends
  {
  }

  lemma MarkIs(s: State, id: nat, mark: bool)
    requires id in s.backends
    ensures Enabled(s, Mark(id, mark))
    ensures Do(s, Mark(id, mark)) == s.(backends := s.backends[id := s.backends[id].(mark := mark)])
  {
  }

  /** The step that makes a backend for an address. */
  function Making(s: State, owner: nat, a: int): Step
    requires owner in s.backends
  {
    Create(owner, a, Regular, s.backends[owner].home)
  }

  lemma CreateIs(s: State, owner: nat, a: int)
    requires Updatable(s, owner) && !s.backends[owner].disabled && Key(owner, a) !in s.tables
    requires s.backends[owner].home in s.balancers
    ensures Enabled(s, Making(s, owner, a))
    ensures Do(s, Making(s, owner, a)) == Created(s, owner, a, Regular, s.backends[owner].home)
  {
  }

  lemma MarkKeepsUpdatable(s: State, id: nat, mark: bool, owner: nat)
    requires id in s.backends && Updatable(s, owner)
    ensures Updatable(s.(backends := s.backends[id := s.backends[id].(mark := mark)]), owner)
  {
  }

  lemma UnmarkTable(old_: map<Key, nat>, tables: map<Key, nat>, backends: map<nat, Backend>, owner: nat,
                    seen: set<int>, a: int, ids: set<nat>)
    requires TableAnswered(old_, tables, backends, owner, seen, ids) && Key(owner, a) in tables
    requires forall k, l | k in tables && l in tables && tables[k] == tables[l] :: k == l
    ensures var id := tables[Key(owner, a)];
            TableAnswered(old_, tables, backends[id := backends[id].(mark := false)], owner, seen + {a}, ids)
  {
    var id := tables[Key(owner, a)];
    var bs := backends[id := backends[id].(mark := false)];
    forall k | k in tables && k.owner == owner ensures tables[k] in bs && (bs[tables[k]].mark <==> k.addr !in seen + {a}) {
      assert k == Key(owner, k.addr);
      if k.addr != a { assert tables[k] != id; }
    }
  }

  /** An address that the table has already: its mark is cleared. */
  lemma KeepAnswer(s: State, t: State, owner: nat, seen: set<int>, a: int)
    requires Answered(s, t, owner, seen) && Key(owner, a) in t.tables
    ensures var id := t.tables[Key(owner, a)];
            Enabled(t, Mark(id, false)) && Answered(s, Do(t, Mark(id, false)), owner, seen + {a})
  {
    hide Inv, Updatable, Do, Enabled, TableAnswered;
    LiveEntries(t);
    var id := t.tables[Key(owner, a)];
    MarkIs(t, id, false);
    StepKeepsInv(t, Mark(id, false));
    MarkKeepsUpdatable(t, id, false, owner);
    UnmarkTable(s.tables, t.tables, t.backends, owner, seen, a, s.backends.Keys);
  }

  lemma CreateTable(old_: map<Key, nat>, tables: map<Key, nat>, backends: map<nat, Backend>, owner: nat, seen: set<int>, a: int,
                    id: nat, b: Backend, ids: set<nat>)
    requires TableAnswered(old_, tables, backends, owner, seen, ids) && id !in ids && Key(owner, a) !in tables
    requires (forall k | k in tables :: tables[k] in backends) && id !in backends && !b.mark
    ensures TableAnswered(old_, tables[Key(owner, a) := id], backends[id := b], owner, seen + {a}, ids)
  {
    var ts := tables[Key(owner, a) := id];
    forall k | k in ts && k.owner == owner
      ensures ts[k] in backends[id := b] && (backends[id := b][ts[k]].mark <==> k.addr !in seen + {a})
    {
      assert k == Key(owner, k.addr);
    }
  }

  lemma CreateKeepsUpdatable(s: State, owner: nat, a: int)
    requires Updatable(s, owner) && s.nextId !in s.backends && forall k | k in s.tables :: s.tables[k] in s.backends
    requires s.backends[owner].home in s.balancers
    ensures Updatable(Created(s, owner, a, Regular, s.backends[owner].home), owner)
  {
  }

  /** A new address: a new backend. */
  lemma NewAnswer(s: State, t: State, owner: nat, seen: set<int>, a: int)
    requires Answered(s, t, owner, seen) && Key(owner, a) !in t.tables
    ensures Enabled(t, Making(t, owner, a)) && Answered(s, Do(t, Making(t, owner, a)), owner, seen + {a})
  {
    hide Inv, Do, Enabled, TableAnswered;
    LiveEntries(t);
    CreateIs(t, owner, a);
    StepKeepsInv(t, Making(t, owner, a));
    CreateKeepsUpdatable(t, owner, a);
    var u := Created(t, owner, a, Regular, t.backends[owner].home);
    CreateTable(s.tables, t.tables, t.backends, owner, seen, a, t.nextId, u.backends[t.nextId], s.backends.Keys);
    hide Updatable;
  }

  // Second phase: the sweep.  `todo` are the entries not yet visited.

  /** Visited entries that were marked are gone and their backends have lost one reference and wait
      for removal; every other entry and its backend are as before. */
  ghost predicate TableSwept(s: State, tables: map<Key, nat>, backends: map<nat, Backend>, removal: seq<nat>,
                             owner: nat, todo: set<Key>) {
    && (forall k | k in tables :: k in s.tables && tables[k] == s.tables[k])
    && (forall k | k in tables ::
          tables[k] in backends && tables[k] in s.backends && backends[tables[k]] == s.backends[tables[k]])
    && (forall k | k in s.tables && s.tables[k] in s.backends ::
          k in tables <==> k.owner != owner || k in todo || !s.backends[s.tables[k]].mark)
    && (forall k | k in s.tables && k !in tables ::
          && s.tables[k] in removal && s.tables[k] in s.backends && s.tables[k] in backends
          && backends[s.tables[k]].refcount == s.backends[s.tables[k]].refcount - 1)
  }

  ghost predicate SweepPhase(s: State, t: State, owner: nat, todo: set<Key>) {
    Inv(t) && Updatable(t, owner) && TableSwept(s, t.tables, t.backends, t.removal, owner, todo)
  }

  lemma SweepIs(s: State, key: Key)
    requires key in s.tables && s.tables[key] in s.backends && s.backends[s.tables[key]].kind.Regular?
    requires forall k | k in s.tables :: k.owner in s.backends && s.backends[k.owner].kind.Matrix?
    ensures Enabled(s, Sweep(key)) && Do(s, Sweep(key)) == Swept(s, key)
  {
  }

  lemma SweepKeepsUpdatable(s: State, key: Key, owner: nat)
    requires Updatable(s, owner) && key in s.tables && s.tables[key] in s.backends && s.backends[s.tables[key]].kind.Regular?
    ensures Updatable(Swept(s, key), owner)
  {
    assert owner != s.tables[key];
  }

  lemma SweepTable(s: State, tables: map<Key, nat>, backends: map<nat, Backend>, removal: seq<nat>, owner: nat, todo: set<Key>,
                   key: Key, b: Backend)
    requires TableSwept(s, tables, backends, removal, owner, todo) && key in tables && key.owner == owner && key in todo
    requires forall k, l | k in s.tables && l in s.tables && s.tables[k] == s.tables[l] :: k == l
    requires backends[tables[key]].mark && b.refcount == backends[tables[key]].refcount - 1
    ensures TableSwept(s, tables - {key}, backends[tables[key] := b], removal + [tables[key]], owner, todo - {key})
  {
    var id, ts, bs := tables[key], tables - {key}, backends[tables[key] := b];
    forall k | k in ts ensures ts[k] in bs && ts[k] in s.backends && bs[ts[k]] == s.backends[ts[k]] {
      assert k in tables && k != key;
    }
    forall k | k in s.tables && k !in ts
      ensures && s.tables[k] in removal + [id] && s.tables[k] in s.backends && s.tables[k] in bs
              && bs[s.tables[k]].refcount == s.backends[s.tables[k]].refcount - 1
    {
      if k != key { assert s.tables[k] != id; }
    }
  }

  /** Visiting one entry. */
  lemma VisitEntry(s: State, t: State, owner: nat, todo: set<Key>, key: Key)
    requires Inv(s) && SweepPhase(s, t, owner, todo) && key in todo && key in t.tables && key.owner == owner
    ensures t.tables[key] in t.backends
    ensures if t.backends[t.tables[key]].mark
            then Enabled(t, Sweep(key)) && SweepPhase(s, Do(t, Sweep(key)), owner, todo - {key})
            else SweepPhase(s, t, owner, todo - {key})
  {
    hide Inv, Do, Enabled;
    LiveEntries(s);
    if t.backends[t.tables[key]].mark {
      SweepIs(t, key);
      StepKeepsInv(t, Sweep(key));
      SweepKeepsUpdatable(t, key, owner);
      SweepTable(s, t.tables, t.backends, t.removal, owner, todo, key, Swept(t, key).backends[t.tables[key]]);
      hide Updatable, TableSwept;
    }
  }

  // Before both: everything is marked.

  ghost predicate Marking(s: State, t: State, owner: nat, todo: set<Key>) {
    && Inv(t) && Updatable(t, owner) && t == s.(backends := t.backends) && t.backends.Keys == s.backends.Keys
    && (forall id | id in s.backends :: SameButMark(t.backends[id], s.backends[id]))
    && (forall k | k in s.tables && k.owner == owner && k !in todo :: s.tables[k] in t.backends && t.backends[s.tables[k]].mark)
  }

  lemma MarkEntry(s: State, t: State, owner: nat, todo: set<Key>, key: Key)
    requires Marking(s, t, owner, todo) && key in t.tables
    ensures Enabled(t, Mark(t.tables[key], true)) && Marking(s, Do(t, Mark(t.tables[key], true)), owner, todo - {key})
  {
    hide Inv, Do, Enabled, Updatable;
    LiveEntries(t);
    MarkIs(t, t.tables[key], true);
    StepKeepsInv(t, Mark(t.tables[key], true));
    MarkKeepsUpdatable(t, t.tables[key], true, owner);
  }

  lemma AllMarked(s: State, t: State, owner: nat)
    requires Marking(s, t, owner, {}) && owner in s.backends && !s.backends[owner].disabled
    requires s.backends[owner].home in s.balancers
    ensures Answered(s, t, owner, {})
  {
    hide Inv, Updatable;
  }

  // The result.

  /** The table holds exactly the addresses wanted; other tables are untouched. */
  ghost predicate TableExact(s: State, t: State, owner: nat, want: set<int>) {
    && (forall k: Key | k.owner == owner :: k in t.tables <==> k.addr in want)
    && (forall k: Key | k.owner != owner :: k in t.tables <==> k in s.tables)
  }

  /** An entry that stays has the same backend, with the same references and flags. */
  ghost predicate KeptSame(s: State, t: State) {
    forall k | k in t.tables && k in s.tables ::
      && t.tables[k] == s.tables[k] && s.tables[k] in s.backends && s.tables[k] in t.backends
      && SameButMark(t.backends[t.tables[k]], s.backends[s.tables[k]])
  }

  /** An entry that is new has a new backend: enabled, alive, with the table's reference. */
  ghost predicate NewFresh(s: State, t: State, owner: nat) {
    forall k | k in t.tables && k !in s.tables ::
      && t.tables[k] !in s.backends && t.tables[k] in t.backends && owner in s.backends
      && t.backends[t.tables[k]] == Backend(Regular, s.backends[owner].home, 1, false, false, true)
  }

  /** A dropped backend has lost the table's reference and nothing leads to it but removal. */
  ghost predicate GoneDropped(s: State, t: State) {
    forall k | k in s.tables && k !in t.tables ::
      && Dropped(t, s.tables[k]) && s.tables[k] in s.backends
      && t.backends[s.tables[k]].refcount == s.backends[s.tables[k]].refcount - 1
  }

  ghost predicate Reconciled(s: State, t: State, owner: nat, want: set<int>) {
    Inv(t) && TableExact(s, t, owner, want) && KeptSame(s, t) && NewFresh(s, t, owner) && GoneDropped(s, t)
  }

  lemma KeyExact(s: State, m: State, t: State, owner: nat, want: set<int>, k: Key)
    requires TableAnswered(s.tables, m.tables, m.backends, owner, want, s.backends.Keys)
    requires TableSwept(m, t.tables, t.backends, t.removal, owner, {})
    requires forall l | l in m.tables :: m.tables[l] in m.backends
    ensures if k.owner == owner then k in t.tables <==> k.addr in want else k in t.tables <==> k in s.tables
  {
    assert k.owner == owner ==> k == Key(owner, k.addr);
  }

  lemma TableIsExact(s: State, m: State, t: State, owner: nat, want: set<int>)
    requires Answered(s, m, owner, want) && SweepPhase(m, t, owner, {}) && Inv(m)
    ensures TableExact(s, t, owner, want)
  {
    hide Inv, Updatable, BackendsAnswered, TableAnswered, TableSwept;
    LiveEntries(m);
    forall k: Key ensures if k.owner == owner then k in t.tables <==> k.addr in want else k in t.tables <==> k in s.tables {
      KeyExact(s, m, t, owner, want, k);
    }
  }

  lemma OthersSame(s: State, m: State, t: State, owner: nat, want: set<int>)
    requires Inv(s) && Answered(s, m, owner, want) && SweepPhase(m, t, owner, {})
    ensures KeptSame(s, t) && NewFresh(s, t, owner)
  {
    LiveEntries(s);
    LiveEntries(m);
    hide Inv, Updatable;
  }

  lemma GoneAreDropped(s: State, m: State, t: State, owner: nat, want: set<int>)
    requires Inv(s) && Answered(s, m, owner, want) && SweepPhase(m, t, owner, {})
    ensures GoneDropped(s, t)
  {
    hide Inv, Updatable, Dropped;
    LiveEntries(s);
    forall k | k in s.tables && k !in t.tables ensures Dropped(t, s.tables[k]) {
      RemovalMeansDropped(t, s.tables[k]);
    }
  }

  lemma UpdateReconciles(s: State, m: State, t: State, owner: nat, want: set<int>)
    requires Inv(s) && Answered(s, m, owner, want) && SweepPhase(m, t, owner, {})
    ensures Reconciled(s, t, owner, want)
  {
    hide Inv, TableExact, KeptSame, NewFresh, GoneDropped, TableAnswered, TableSwept, BackendsAnswered, Updatable;
    TableIsExact(s, m, t, owner, want);
    OthersSame(s, m, t, owner, want);
    GoneAreDropped(s, m, t, owner, want);
  }

  // The balancer that the matrix fills.

  /** The update frees the balancer and then recomputes its priorities: nothing is wanted, and all that is listed are
      backends of the matrix, of which there are some. */
  ghost predicate FreesItsBalancer(s: State, owner: nat, want: set<int>)
    requires owner in s.backends
  {
    var home, ids := s.backends[owner].home, EntryIds(s.tables, owner);
    && !s.backends[owner].disabled && want == {} && ids != {}
    && home in s.balancers && forall id | id in s.balancers[home].list :: id in ids
  }

  /** The update leaves a balancer without backends in the service, which no selection survives: there was none, or
      an empty one, and nothing is put into it. */
  ghost predicate LeavesEmpty(s: State, owner: nat, want: set<int>)
    requires owner in s.backends
  {
    var home := s.backends[owner].home;
    (home !in s.balancers || s.balancers[home].list == []) && (s.backends[owner].disabled || want == {})
  }

  lemma SomethingWanted(s: State, t: State, owner: nat, want: set<int>, a: int)
    requires Inv(t) && AddressMatrix(t, owner) && TableExact(s, t, owner, want) && a in want
    ensures var home := t.backends[owner].home; home in t.balancers && t.balancers[home].list != []
  {
    hide Inv;
    LiveEntries(t);
    var key := Key(owner, a);
    assert key in t.tables;
    EntryAtHome(t, key);
  }

  lemma NothingWanted(s: State, t: State, owner: nat, want: set<int>, news: seq<nat>, gone: seq<nat>)
    requires Framed(s, t, owner, news, gone) && TableExact(s, t, owner, want)
    ensures want == {} ==> news == [] && forall id :: id in gone <==> id in EntryIds(s.tables, owner)
  {
    hide ListsFramed, LessSessions;
    if news != [] {
      assert news[0] in news;
      var k :| k in t.tables && k !in s.tables && t.tables[k] == news[0];
      assert k.addr in want;
    }
  }

  /** What becomes of a list from which the backends of the matrix go. */
  lemma ListWithout(list: seq<nat>, gone: seq<nat>, ids: set<nat>)
    requires forall id :: id in gone <==> id in ids
    ensures gone == [] <==> ids == {}
    ensures LessAll(list, gone) == [] <==> forall id | id in list :: id in ids
    ensures gone == [] ==> LessAll(list, gone) == list
  {
    if gone != [] { assert gone[0] in gone; }
    var less := LessAll(list, gone);
    forall x ensures x in less <==> x in list && x !in gone { LessAllHas(list, gone, x); }
    hide LessAll;
    if less != [] { assert less[0] in less; }
  }

  /** What becomes of the home balancer if nothing is wanted. */
  lemma HomeWithout(s: State, t: State, owner: nat, news: seq<nat>, gone: seq<nat>)
    requires Framed(s, t, owner, news, gone) && TableExact(s, t, owner, {})
    ensures var home, ids := s.backends[owner].home, EntryIds(s.tables, owner);
            && home in s.balancers
            && var within := forall id | id in s.balancers[home].list :: id in ids;
            && (home !in t.balancers <==> ids != {} && within)
            && (home in t.balancers && t.balancers[home].list == [] <==> ids == {} && s.balancers[home].list == [])
  {
    NothingWanted(s, t, owner, {}, news, gone);
    hide KeysFramed, LessSessions, EntryIds, TableExact, BackendsFramed, LessAll, CursorFramed;
    var list := s.balancers[s.backends[owner].home].list;
    assert list + news == list;
    ListWithout(list, gone, EntryIds(s.tables, owner));
    if list != [] { assert list[0] in list; }
  }

  lemma EntryFillsHome(s: State, owner: nat, id: nat)
    requires Inv(s) && AddressMatrix(s, owner) && id in EntryIds(s.tables, owner)
    ensures var home := s.backends[owner].home; home in s.balancers && s.balancers[home].list != []
  {
    hide Inv;
    LiveEntries(s);
    var k :| k in s.tables && k.owner == owner && s.tables[k] == id;
    EntryAtHome(s, k);
  }

  /** Where the home balancer is missing or empty, the matrix has no backends. */
  lemma NoEntriesInEmpty(s: State, owner: nat)
    requires Inv(s) && AddressMatrix(s, owner)
    ensures EntryIds(s.tables, owner) == {} ||
            (s.backends[owner].home in s.balancers && s.balancers[s.backends[owner].home].list != [])
  {
    hide Inv, AddressMatrix;
    if id :| id in EntryIds(s.tables, owner) {
      EntryFillsHome(s, owner, id);
    }
  }

  lemma NoAddress(want: set<int>)
    requires forall a :: a !in want
    ensures want == {}
  {
    var none: set<int> := {};
    assert forall a :: a in want <==> a in none;
    assert want == none;
  }

  /** Exactly when the balancer is used after it is freed, and when it is left empty. */
  lemma BalancerIff(s0: State, t: State, owner: nat, want: set<int>, news: seq<nat>, gone: seq<nat>)
    requires AddressMatrix(s0, owner) && !s0.backends[owner].disabled
    requires AddressMatrix(t, owner) && t.backends[owner].home == s0.backends[owner].home
    requires Framed(Do(s0, Provide(s0.backends[owner].home)), t, owner, news, gone)
    requires TableExact(s0, t, owner, want) && Inv(s0) && Inv(t)
    ensures var home := s0.backends[owner].home;
            && (home !in t.balancers <==> FreesItsBalancer(s0, owner, want))
            && (home in t.balancers && t.balancers[home].list == [] <==> LeavesEmpty(s0, owner, want))
  {
    hide Inv, Framed, FreesItsBalancer, LeavesEmpty;
    assert owner in s0.backends;
    hide AddressMatrix;
    if a :| a in want {
      SomethingWanted(s0, t, owner, want, a);
      NotBoth(s0, owner, want);
    } else {
      NoAddress(want);
      HomeWithout(Do(s0, Provide(s0.backends[owner].home)), t, owner, news, gone);
      NoEntriesInEmpty(s0, owner);
      NothingToKeep(s0, t, owner);
    }
  }

  lemma NotBoth(s: State, owner: nat, want: set<int>)
    requires owner in s.backends && !s.backends[owner].disabled && want != {}
    ensures !FreesItsBalancer(s, owner, want) && !LeavesEmpty(s, owner, want)
  {
  }

  lemma NothingToKeep(s0: State, t: State, owner: nat)
    requires owner in s0.backends && !s0.backends[owner].disabled
    requires var home, ids, bals := s0.backends[owner].home, EntryIds(s0.tables, owner),
                                    Provided(s0.balancers, s0.backends[owner].home);
             && (ids == {} || (home in s0.balancers && s0.balancers[home].list != []))
             && var within := forall id | id in bals[home].list :: id in ids;
             && (home !in t.balancers <==> ids != {} && within)
             && (home in t.balancers && t.balancers[home].list == [] <==> ids == {} && bals[home].list == [])
    ensures var home := s0.backends[owner].home;
            && (home !in t.balancers <==> FreesItsBalancer(s0, owner, {}))
            && (home in t.balancers && t.balancers[home].list == [] <==> LeavesEmpty(s0, owner, {}))
  {
    hide EntryIds;
  }

  /** Neither happens to a matrix that is itself in the balancer that it fills. */
  lemma ListedMatrixSafe(s: State, owner: nat, want: set<int>)
    requires Inv(s) && AddressMatrix(s, owner)
    requires s.backends[owner].home in s.balancers && owner in s.balancers[s.backends[owner].home].list
    ensures !FreesItsBalancer(s, owner, want) && !LeavesEmpty(s, owner, want)
  {
    LiveEntries(s);
    hide Inv;
    assert owner !in EntryIds(s.tables, owner);
  }

  /** The steps that an update is made of. */
  ghost predicate OfUpdate(steps: seq<Step>, owner: nat, home: nat) {
    forall i | 0 <= i < |steps| ::
      match steps[i]
      case Provide(h) => h == home
      case Mark(_, _) => true
      case Create(o, _, kind, h) => o == owner && kind.Regular? && h == home
      case Sweep(key) => key.owner == owner
      case _ => false
  }

  lemma OfUpdateOn(a: seq<Step>, b: seq<Step>, owner: nat, home: nat)
    requires OfUpdate(a, owner, home) && OfUpdate(b, owner, home)
    ensures OfUpdate(a + b, owner, home)
  {
  }

  /** `t` comes from `s` by these steps of an update. */
  ghost predicate Updates(s: State, steps: seq<Step>, t: State, owner: nat, home: nat) {
    Reaches(s, steps, t) && OfUpdate(steps, owner, home)
  }

  lemma UpdatesOn(s: State, a: seq<Step>, t: State, b: seq<Step>, u: State, owner: nat, home: nat)
    requires Updates(s, a, t, owner, home) && Updates(t, b, u, owner, home)
    ensures Updates(s, a + b, u, owner, home)
  {
    hide Reaches, OfUpdate;
    ReachesOn(s, a, t, b, u);
    OfUpdateOn(a, b, owner, home);
  }

  lemma UpdatesOne(s: State, a: seq<Step>, t: State, step: Step, owner: nat, home: nat)
    requires Updates(s, a, t, owner, home) && Enabled(t, step) && OfUpdate([step], owner, home)
    ensures Updates(s, a + [step], Do(t, step), owner, home)
  {
    hide Reaches, OfUpdate, Enabled, Do;
    ReachesOne(t, step);
    UpdatesOn(s, a, t, [step], Do(t, step), owner, home);
  }

  /** The service as the resolver job updates it, under its mutex.  References held elsewhere are
      ghost state. */
  class DynamicService {
    var backends: map<nat, Backend>
    var nextId: nat
    var tables: map<Key, nat>
    const configured: set<nat>
    var balancers: map<nat, Balancer>
    var sessions: map<string, nat>
    var removal: seq<nat>
    ghost var held: multiset<nat>
    ghost var jobs: multiset<nat>
    ghost var leaked: multiset<nat>
    ghost var freed: set<nat>

    ghost function View(): State
      reads this
    {
      State(backends, nextId, tables, configured, balancers, sessions, removal, held, jobs, leaked, freed)
    }

    /** `balancer_list_get` */
    method GetBalancer(home: nat)
      modifies this`balancers
      ensures View() == Do(old(View()), Provide(home)) && home in balancers
    {
      if home !in balancers {
        balancers := balancers[home := Balancer([], 0, None)];
      }
    }

    /** `backend_mark` */
    method MarkBackend(id: nat, mark: bool)
      requires id in backends
      modifies this`backends
      ensures Enabled(old(View()), Mark(id, mark)) && View() == Do(old(View()), Mark(id, mark))
    {
      MarkIs(View(), id, mark);
      hide Do, Enabled;
      backends := backends[id := backends[id].(mark := mark)];
    }

    /** Create a regular backend, list it, and enter it in the table. */
    method AddBackend(owner: nat, addr: int)
      requires Updatable(View(), owner) && !backends[owner].disabled && Key(owner, addr) !in tables
      requires backends[owner].home in balancers
      modifies this
      ensures Enabled(old(View()), Making(old(View()), owner, addr))
      ensures View() == Do(old(View()), Making(old(View()), owner, addr))
    {
      CreateIs(View(), owner, addr);
      hide Do, Enabled;
      var id, home := nextId, backends[owner].home;
      backends := backends[id := Backend(Regular, home, 1, false, false, true)];
      nextId := nextId + 1;
      balancers := balancers[home := balancers[home].(list := balancers[home].list + [id])];
      tables := tables[Key(owner, addr) := id];
    }

    /** `balancer_remove_backend`, the end of a balancer without backends, and `service_lb_reset`. */
    method RemoveFromBalancer(home: nat, id: nat)
      modifies this`balancers
      ensures balancers == Unlisted(old(balancers), home, id)
    {
      var bs := balancers;
      if home in bs && id in bs[home].list {
        var list := Without(bs[home].list, id);
        bs := if list == [] then bs - {home} else bs[home := bs[home].(list := list)];
      } else if home in bs {
        WithoutAbsent(bs[home].list, id);
      }
      hide Without;
      balancers := map i | i in bs :: Reset(bs[i], id);
    }

    /** `backend_sweep` of a regular backend: nothing happens unless it is marked. */
    method SweepBackend(key: Key)
      requires key in tables && tables[key] in backends && backends[tables[key]].kind.Regular?
      requires forall k | k in tables :: k.owner in backends && backends[k.owner].kind.Matrix?
      modifies this
      ensures if old(backends[tables[key]].mark)
              then Enabled(old(View()), Sweep(key)) && View() == Do(old(View()), Sweep(key))
              else View() == old(View())
    {
      SweepIs(View(), key);
      hide Do, Enabled, Unlisted, WithoutBackend;
      var id := tables[key];
      var b := backends[id];
      if b.mark {
        sessions := WithoutBackend(sessions, id);
        RemoveFromBalancer(b.home, id);
        tables := tables - {key};
        removal := removal + [id];
        backends := backends[id := b.(disabled := true, refcount := b.refcount - 1, mark := false)];
      }
    }

    /** Mark everything that the matrix has generated. */
    method MarkTable(owner: nat) returns (ghost steps: seq<Step>)
      requires Inv(View()) && Updatable(View(), owner) && !backends[owner].disabled && backends[owner].home in balancers
      modifies this`backends
      ensures Answered(old(View()), View(), owner, {}) && Framed(old(View()), View(), owner, [], [])
      ensures Updates(old(View()), steps, View(), owner, old(backends)[owner].home)
    {
      assert owner in backends;
      hide Inv, Updatable, Do, Enabled, Answered, Framed, Updates;
      ghost var s, home := View(), backends[owner].home;
      var todo := set k | k in tables && k.owner == owner;
      MarkingStart(s, owner, todo);
      FrameStart(s, owner);
      steps := [];
      NoSteps(s, owner, home);
      while todo != {}
        invariant Marking(s, View(), owner, todo) && tables == s.tables
        invariant forall k | k in todo :: k in tables && k.owner == owner
        invariant Framed(s, View(), owner, [], []) && Updates(s, steps, View(), owner, home)
        decreases todo
      {
        var k :| k in todo;
        LiveEntries(View());
        MarkEntry(s, View(), owner, todo, k);
        FrameMark(s, View(), owner, [], [], k, true);
        MarkIs(View(), tables[k], true);
        MarkOfUpdate(tables[k], true, owner, home);
        UpdatesOne(s, steps, View(), Mark(tables[k], true), owner, home);
        steps := steps + [Mark(tables[k], true)];
        MarkBackend(tables[k], true);
        todo := todo - {k};
      }
      AllMarked(s, View(), owner);
    }

    /** One address of the answer: its backend loses the mark, or is made. */
    method TakeAddress(owner: nat, a: int, ghost s: State, ghost seen: set<int>, ghost start: seq<Step>, ghost news: seq<nat>)
      returns (ghost steps: seq<Step>, ghost more: seq<nat>)
      requires Answered(s, View(), owner, seen) && Framed(s, View(), owner, news, [])
      requires Updates(s, start, View(), owner, s.backends[owner].home)
      modifies this
      ensures Answered(s, View(), owner, seen + {a}) && Framed(s, View(), owner, more, [])
      ensures Updates(s, steps, View(), owner, s.backends[owner].home)
    {
      AnsweredParts(s, View(), owner, seen);
      hide Inv, Updatable, Do, Enabled, Answered, Framed, Updates;
      LiveEntries(View());
      ghost var home := s.backends[owner].home;
      var key := Key(owner, a);
      if key in tables {
        KeepAnswer(s, View(), owner, seen, a);
        FrameMark(s, View(), owner, news, [], key, false);
        MarkIs(View(), tables[key], false);
        MarkOfUpdate(tables[key], false, owner, home);
        UpdatesOne(s, start, View(), Mark(tables[key], false), owner, home);
        steps, more := start + [Mark(tables[key], false)], news;
        MarkBackend(tables[key], false);
      } else {
        ghost var step := Making(View(), owner, a);
        NewAnswer(s, View(), owner, seen, a);
        FrameCreate(s, View(), owner, news, a);
        CreateIs(View(), owner, a);
        MakingOfUpdate(owner, a, home);
        UpdatesOne(s, start, View(), step, owner, home);
        steps, more := start + [step], news + [nextId];
        AddBackend(owner, a);
      }
    }

    /** The loop over the addresses of the answer. */
    method TakeAnswer(owner: nat, answer: seq<int>, n: nat, ghost s: State, ghost start: seq<Step>)
      returns (ghost steps: seq<Step>, ghost news: seq<nat>)
      requires n <= |answer| && Answered(s, View(), owner, {}) && Framed(s, View(), owner, [], [])
      requires Updates(s, start, View(), owner, s.backends[owner].home)
      modifies this
      ensures Answered(s, View(), owner, Addresses(answer[..n])) && Framed(s, View(), owner, news, [])
      ensures Updates(s, steps, View(), owner, s.backends[owner].home)
    {
      hide Answered, Framed, Updates, Inv, Updatable;
      AnsweredParts(s, View(), owner, {});
      var i := 0;
      steps, news := start, [];
      assert Addresses(answer[..0]) == {};
      while i < n
        invariant 0 <= i <= n && Answered(s, View(), owner, Addresses(answer[..i]))
        invariant Framed(s, View(), owner, news, []) && Updates(s, steps, View(), owner, s.backends[owner].home)
      {
        Seen(answer, i);
        steps, news := TakeAddress(owner, answer[i], s, Addresses(answer[..i]), steps, news);
        i := i + 1;
      }
    }

    /** The sweep over the table. */
    method SweepTable(owner: nat, ghost s: State, ghost start: seq<Step>, ghost news: seq<nat>, ghost seen: set<int>)
      returns (ghost steps: seq<Step>, ghost gone: seq<nat>)
      requires Answered(s, View(), owner, seen) && Framed(s, View(), owner, news, [])
      requires Updates(s, start, View(), owner, s.backends[owner].home) && Inv(s) && Updatable(s, owner)
      modifies this
      ensures SweepPhase(old(View()), View(), owner, {}) && Framed(s, View(), owner, news, gone)
      ensures Updates(s, steps, View(), owner, s.backends[owner].home)
    {
      hide Inv, Updatable, Do, Enabled, Answered, Framed, Updates, SweepPhase;
      AnsweredParts(s, View(), owner, seen);
      ghost var m, home := View(), s.backends[owner].home;
      var todo := set k | k in tables && k.owner == owner;
      AnsweredParts(s, m, owner, seen);
      SweepStart(m, owner, todo);
      steps, gone := start, [];
      while todo != {}
        invariant SweepPhase(m, View(), owner, todo)
        invariant forall k | k in todo :: k in m.tables && k.owner == owner
        invariant Framed(s, View(), owner, news, gone) && Updates(s, steps, View(), owner, home)
        decreases todo
      {
        var k :| k in todo;
        StillTabled(m, View(), owner, todo, k);
        SweepParts(m, View(), owner, todo, k);
        VisitEntry(m, View(), owner, todo, k);
        if backends[tables[k]].mark {
          MarkedIsOld(s, m, View(), owner, seen, todo, k);
          OwnerFramed(s, View(), owner, news, gone);
          FrameVisit(s, View(), owner, news, gone, k);
          SweepOfUpdate(k, owner, home);
          UpdatesOne(s, steps, View(), Sweep(k), owner, home);
          steps, gone := steps + [Sweep(k)], gone + [tables[k]];
        }
        SweepBackend(k);
        todo := todo - {k};
      }
    }

    /** `service_matrix_addr_update_backends`, up to the recomputation of priorities: the balancer is made if there is
        none; unless the matrix is disabled, its table then becomes the answer, or the first address of it. */
    method AddrUpdate(owner: nat, answer: seq<int>, first: bool)
      returns (ghost steps: seq<Step>, ghost news: seq<nat>, ghost gone: seq<nat>)
      requires Inv(View()) && AddressMatrix(View(), owner)
      modifies this
      ensures Updates(old(View()), steps, View(), owner, old(backends)[owner].home)
      ensures var s := Do(old(View()), Provide(old(backends)[owner].home));
              if old(backends)[owner].disabled then View() == s && news == gone == []
              else Reconciled(old(View()), View(), owner, Wanted(answer, first)) && Framed(s, View(), owner, news, gone)
      ensures var home, want := old(backends)[owner].home, Wanted(answer, first);
              && (home !in balancers <==> FreesItsBalancer(old(View()), owner, want))
              && (home in balancers && balancers[home].list == [] <==> LeavesEmpty(old(View()), owner, want))
    {
      ghost var s0 := View();
      var home := backends[owner].home;
      ProvideParts(s0, owner);
      GetBalancer(home);
      ghost var s := View();
      steps, news, gone := [Provide(home)], [], [];
      if backends[owner].disabled { return; }
      hide Inv, Updatable, AddressMatrix, Answered, SweepPhase, Reconciled, Framed, Updates, FreesItsBalancer, LeavesEmpty, Do;
      ghost var more := MarkTable(owner);
      var n := if first then (if |answer| > 0 then 1 else 0) else |answer|;
      more, news := TakeAnswer(owner, answer, n, s, more);
      ghost var m := View();
      AnsweredParts(s, m, owner, Addresses(answer[..n]));
      more, gone := SweepTable(owner, s, more, news, Addresses(answer[..n]));
      WantedIs(answer, first, n);
      UpdateReconciles(s, m, View(), owner, Addresses(answer[..n]));
      UpdatesOn(s0, steps, s, more, View(), owner, home);
      steps := steps + more;
      UpdateEnds(s0, View(), owner, Wanted(answer, first), news, gone);
    }
  }

  lemma {:induction false} WithoutAbsent(list: seq<nat>, id: nat)
    requires id !in list
    ensures Without(list, id) == list
  {
    if list != [] { WithoutAbsent(list[1..], id); }
  }

  lemma NoSteps(s: State, owner: nat, home: nat)
    ensures Updates(s, [], s, owner, home)
  {
  }

  lemma MarkOfUpdate(id: nat, mark: bool, owner: nat, home: nat)
    ensures OfUpdate([Mark(id, mark)], owner, home)
  {
  }

  lemma MakingOfUpdate(owner: nat, a: int, home: nat)
    ensures OfUpdate([Create(owner, a, Regular, home)], owner, home)
  {
  }

  lemma SweepOfUpdate(key: Key, owner: nat, home: nat)
    requires key.owner == owner
    ensures OfUpdate([Sweep(key)], owner, home)
  {
  }

  lemma SweepParts(m: State, t: State, owner: nat, todo: set<Key>, key: Key)
    requires SweepPhase(m, t, owner, todo) && key in t.tables && key.owner == owner
    ensures t.tables[key] in t.backends && t.backends[t.tables[key]].kind.Regular? && Inv(t) && Updatable(t, owner)
    ensures forall k | k in t.tables :: k.owner in t.backends && t.backends[k.owner].kind.Matrix?
  {
    LiveEntries(t);
    hide Inv, TableSwept;
  }

  /** Marked entries are old ones. */
  lemma MarkedIsOld(s: State, m: State, t: State, owner: nat, seen: set<int>, todo: set<Key>, key: Key)
    requires Answered(s, m, owner, seen) && SweepPhase(m, t, owner, todo) && key in t.tables && key.owner == owner
    requires t.tables[key] in t.backends && t.backends[t.tables[key]].mark
    ensures key in s.tables
  {
    hide Inv, Updatable, BackendsAnswered;
  }

  /** The matrix itself is as it was. */
  lemma OwnerFramed(s: State, t: State, owner: nat, news: seq<nat>, gone: seq<nat>)
    requires owner in s.backends && Framed(s, t, owner, news, gone) && Updatable(s, owner) && Inv(s)
    ensures owner in t.backends && t.backends[owner] == s.backends[owner]
  {
    hide Inv, KeysFramed, ListsFramed, LessSessions;
    LiveEntries(s);
    assert owner !in EntryIds(s.tables, owner);
  }

  /** The sweep of a marked entry, as the frame has it. */
  lemma FrameVisit(s: State, t: State, owner: nat, news: seq<nat>, gone: seq<nat>, key: Key)
    requires owner in s.backends && owner in t.backends && s.backends[owner].home == t.backends[owner].home
    requires key in s.tables && key in t.tables && key.owner == owner && Updatable(t, owner)
    requires t.tables[key] in t.backends && Framed(s, t, owner, news, gone) && Inv(s) && Inv(t)
    ensures Enabled(t, Sweep(key)) && Framed(s, Do(t, Sweep(key)), owner, news, gone + [t.tables[key]])
  {
    hide Inv, Framed, Do, Enabled;
    LiveEntries(s);
    EntryAtHome(t, key);
    SweepIs(t, key);
    FrameSweep(s, t, owner, news, gone, key);
  }

  lemma ProvideParts(s: State, owner: nat)
    requires Inv(s) && AddressMatrix(s, owner)
    ensures var t := Do(s, Provide(s.backends[owner].home));
            && Inv(t) && Updatable(t, owner) && t.backends == s.backends && t.tables == s.tables
            && Updates(s, [Provide(s.backends[owner].home)], t, owner, s.backends[owner].home)
  {
    hide Inv;
    StepKeepsInv(s, Provide(s.backends[owner].home));
    AlwaysUpdatable(Do(s, Provide(s.backends[owner].home)), owner);
    ReachesOne(s, Provide(s.backends[owner].home));
  }

  /** The provision of the balancer does not matter to the reconciliation. */
  lemma ReconciledSince(s0: State, t: State, owner: nat, want: set<int>, home: nat)
    requires Reconciled(Do(s0, Provide(home)), t, owner, want)
    ensures Reconciled(s0, t, owner, want) && Inv(t) && TableExact(s0, t, owner, want)
  {
    hide Inv, Dropped, Provided;
    var s := Do(s0, Provide(home));
    assert s == s0.(balancers := s.balancers);
  }

  lemma UpdateEnds(s0: State, t: State, owner: nat, want: set<int>, news: seq<nat>, gone: seq<nat>)
    requires AddressMatrix(s0, owner) && !s0.backends[owner].disabled && AddressMatrix(t, owner)
    requires Framed(Do(s0, Provide(s0.backends[owner].home)), t, owner, news, gone)
    requires Updatable(Do(s0, Provide(s0.backends[owner].home)), owner)
    requires Reconciled(Do(s0, Provide(s0.backends[owner].home)), t, owner, want)
    requires Inv(s0) && Inv(Do(s0, Provide(s0.backends[owner].home)))
    ensures Reconciled(s0, t, owner, want)
    ensures var home := s0.backends[owner].home;
            && (home !in t.balancers <==> FreesItsBalancer(s0, owner, want))
            && (home in t.balancers && t.balancers[home].list == [] <==> LeavesEmpty(s0, owner, want))
  {
    hide Inv, FreesItsBalancer, LeavesEmpty, Reconciled, Framed, TableExact;
    assert owner in s0.backends;
    hide AddressMatrix, Updatable;
    var home := s0.backends[owner].home;
    ReconciledSince(s0, t, owner, want, home);
    OwnerFramed(Do(s0, Provide(home)), t, owner, news, gone);
    BalancerIff(s0, t, owner, want, news, gone);
  }

  ghost function Addresses(answer: seq<int>): set<int> { set a | a in answer }

  /** The addresses of the answer that count: all, or the first one. */
  ghost function Wanted(answer: seq<int>, first: bool): set<int> {
    if first && answer != [] then {answer[0]} else Addresses(answer)
  }

  lemma WantedIs(answer: seq<int>, first: bool, n: nat)
    requires n == if first then (if |answer| > 0 then 1 else 0) else |answer|
    ensures Wanted(answer, first) == Addresses(answer[..n])
  {
    if !first || answer == [] {
      assert answer[..n] == answer;
    } else {
      assert answer[..1] == [answer[0]];
    }
  }

  lemma Seen(answer: seq<int>, i: nat)
    requires i < |answer|
    ensures Addresses(answer[..i + 1]) == Addresses(answer[..i]) + {answer[i]}
  {
    assert answer[..i + 1] == answer[..i] + [answer[i]];
  }

  lemma AnsweredParts(s: State, t: State, owner: nat, seen: set<int>)
    requires Answered(s, t, owner, seen)
    ensures Inv(t) && Updatable(t, owner) && owner in s.backends && !t.backends[owner].disabled
    ensures t.backends[owner].home == s.backends[owner].home && s.backends[owner].home in t.balancers && t.nextId !in s.backends
  {
    hide Inv, TableAnswered;
    LiveEntries(t);
  }

  lemma MarkingStart(s: State, owner: nat, todo: set<Key>)
    requires Inv(s) && Updatable(s, owner) && forall k | k in s.tables && k.owner == owner :: k in todo
    ensures Marking(s, s, owner, todo)
  {
  }

  lemma SweepStart(s: State, owner: nat, todo: set<Key>)
    requires Inv(s) && Updatable(s, owner) && forall k | k in s.tables && k.owner == owner :: k in todo
    ensures SweepPhase(s, s, owner, todo)
  {
    LiveEntries(s);
    hide Inv;
  }

  lemma StillTabled(s: State, t: State, owner: nat, todo: set<Key>, key: Key)
    requires Inv(s) && SweepPhase(s, t, owner, todo) && key in todo && key in s.tables
    ensures key in t.tables
  {
    LiveEntries(s);
    hide Inv, Updatable;
  }

  // A run that comes to both ends of the balancer.

  /** The matrix of a service record has made one for its target, of priority 5. */
  function ChildMatrix(): State {
    State(map[0 := Backend(Matrix, 0, 2, false, false, true), 1 := Backend(Matrix, 5, 2, false, false, true)], 2,
          map[Key(0, 1) := 1], {0}, map[0 := Balancer([0], 0, None)], map[], [], multiset{}, multiset{0, 1}, multiset{}, {})
  }

  function ChildBalancer(): State {
    ChildMatrix().(balancers := map[0 := Balancer([0], 0, None), 5 := Balancer([], 0, None)])
  }

  /** The target has one address. */
  function ChildBackend(): State {
    ChildMatrix().(backends := ChildMatrix().backends[2 := Backend(Regular, 5, 1, false, false, true)], nextId := 3,
                   tables := map[Key(0, 1) := 1, Key(1, 7) := 2],
                   balancers := map[0 := Balancer([0], 0, None), 5 := Balancer([2], 0, None)])
  }

  lemma ChildSteps()
    ensures Enabled(OneMatrix(), Create(0, 1, Matrix, 5)) && Do(OneMatrix(), Create(0, 1, Matrix, 5)) == ChildMatrix()
    ensures Enabled(ChildMatrix(), Provide(5)) && Do(ChildMatrix(), Provide(5)) == ChildBalancer()
  {
    assert multiset{0} + multiset{1} == multiset{0, 1};
  }

  lemma ChildStep()
    ensures Enabled(ChildBalancer(), Create(1, 7, Regular, 5))
    ensures Do(ChildBalancer(), Create(1, 7, Regular, 5)) == ChildBackend()
  {
    var t := Created(ChildBalancer(), 1, 7, Regular, 5);
    assert [] + [2] == [2];
    assert t.balancers == ChildBackend().balancers;
  }

  lemma ChildEnds()
    ensures var s := ChildMatrix(); AddressMatrix(s, 1) && LeavesEmpty(s, 1, {})
    ensures var s := ChildBackend(); AddressMatrix(s, 1) && FreesItsBalancer(s, 1, {})
  {
    var s := ChildBackend();
    assert s.tables[Key(1, 7)] == 2;
    assert 2 in EntryIds(s.tables, 1);
  }

  /** A target without addresses leaves an empty balancer behind; one whose addresses go has its balancer freed and
      used again. */
  lemma BalancerFails()
    ensures var run := [OneMatrix(), ChildMatrix(), ChildBalancer(), ChildBackend()];
            && IsRun(run, [Create(0, 1, Matrix, 5), Provide(5), Create(1, 7, Regular, 5)])
            && AddressMatrix(run[1], 1) && LeavesEmpty(run[1], 1, {})
            && AddressMatrix(run[3], 1) && FreesItsBalancer(run[3], 1, {})
  {
    hide Startup, Enabled, Do, IsRun, OneMatrix, ChildMatrix, ChildBalancer, ChildBackend,
      AddressMatrix, LeavesEmpty, FreesItsBalancer;
    StartsWithMatrix();
    ChildSteps();
    ChildStep();
    ThreeSteps(OneMatrix(), Create(0, 1, Matrix, 5), ChildMatrix(), Provide(5), ChildBalancer(),
               Create(1, 7, Regular, 5), ChildBackend());
    ChildEnds();
  }
}
