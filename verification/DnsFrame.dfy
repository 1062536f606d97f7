/** What an update of a matrix leaves as it was, and what becomes of the balancer that it fills (src/dynbe.c). */
module DnsFrames {
  import opened Options
  import opened Lifecycle

  /** The backends that a matrix has generated. */
  ghost function EntryIds(tables: map<Key, nat>, owner: nat): set<nat> {
    set k | k in tables && k.owner == owner :: tables[k]
  }

  lemma EntryIn(tables: map<Key, nat>, key: Key)
    requires key in tables
    ensures tables[key] in EntryIds(tables, key.owner)
  {
  }

  /** A list without some of its elements. */
  function LessAll(list: seq<nat>, gone: seq<nat>): seq<nat> {
    if gone == [] then list else Without(LessAll(list, gone[..|gone| - 1]), gone[|gone| - 1])
  }

  lemma {:induction false} LessAllHas(list: seq<nat>, gone: seq<nat>, x: nat)
    ensures x in LessAll(list, gone) <==> x in list && x !in gone
  {
    if gone != [] {
      var n := |gone| - 1;
      LessAllHas(list, gone[..n], x);
      assert gone == gone[..n] + [gone[n]];
    }
  }

  lemma LessAllNext(list: seq<nat>, gone: seq<nat>, id: nat)
    ensures LessAll(list, gone + [id]) == Without(LessAll(list, gone), id)
  {
    assert (gone + [id])[..|gone|] == gone;
  }

  function LessSessions(sessions: map<string, nat>, gone: seq<nat>): map<string, nat> {
    map k | k in sessions && sessions[k] !in gone :: sessions[k]
  }

  /** The cursor is as it was, or starts over if its backend has gone. */
  ghost predicate CursorFramed(was: Balancer, now: Balancer, gone: seq<nat>) {
    if was.cur.Some? && was.cur.value in gone then now.round == 0 && now.cur == First(now.list)
    else now.round == was.round && now.cur == was.cur
  }

  /** The home list is the old one with the new backends less those gone; the balancer goes with its last backend.
      Other balancers are as they were. */
  ghost predicate ListsFramed(was: map<nat, Balancer>, now: map<nat, Balancer>, home: nat, news: seq<nat>, gone: seq<nat>) {
    && home in was
    && (forall i | i in was && i != home :: i in now && now[i] == was[i])
    && (forall i | i in now :: i in was)
    && var list := LessAll(was[home].list + news, gone);
       if home in now then now[home].list == list && (gone != [] ==> list != []) && CursorFramed(was[home], now[home], gone)
       else gone != [] && list == []
  }

  /** Backends that the matrix has not generated are as they were. */
  ghost predicate BackendsFramed(was: map<nat, Backend>, now: map<nat, Backend>, entries: set<nat>) {
    forall id | id in was && id !in entries :: id in now && now[id] == was[id]
  }

  /** `gone` are the backends of the entries that are no longer there, `news` those of the entries that are new. */
  ghost predicate KeysFramed(was: map<Key, nat>, now: map<Key, nat>, owner: nat,
                             ids: set<nat>, news: seq<nat>, gone: seq<nat>) {
    && (forall k | k in was :: if was[k] in gone then k !in now else k in now && now[k] == was[k])
    && (forall id | id in gone :: id in EntryIds(was, owner))
    && (forall k | k in now && k !in was :: k.owner == owner && now[k] in news)
    && (forall id | id in news :: id !in ids && exists k | k in now && k !in was :: now[k] == id)
  }

  ghost predicate Framed(s: State, t: State, owner: nat, news: seq<nat>, gone: seq<nat>) {
    && owner in s.backends
    && t.configured == s.configured && t.held == s.held && t.jobs == s.jobs && t.leaked == s.leaked && t.freed == s.freed
    && t.sessions == LessSessions(s.sessions, gone) && t.removal == s.removal + gone
    && BackendsFramed(s.backends, t.backends, EntryIds(s.tables, owner))
    && KeysFramed(s.tables, t.tables, owner, s.backends.Keys, news, gone)
    && ListsFramed(s.balancers, t.balancers, s.backends[owner].home, news, gone)
  }

  lemma FrameStart(s: State, owner: nat)
    requires owner in s.backends && s.backends[owner].home in s.balancers
    ensures Framed(s, s, owner, [], [])
  {
    var home := s.backends[owner].home;
    assert LessSessions(s.sessions, []) == s.sessions;
    assert s.balancers[home].list + [] == s.balancers[home].list;
  }

  lemma FrameMark(s: State, t: State, owner: nat, news: seq<nat>, gone: seq<nat>, key: Key, mark: bool)
    requires Framed(s, t, owner, news, gone) && key in t.tables && key.owner == owner && t.tables[key] in t.backends
    ensures var id := t.tables[key];
            Framed(s, t.(backends := t.backends[id := t.backends[id].(mark := mark)]), owner, news, gone)
  {
    hide ListsFramed, LessSessions;
    if key in s.tables { EntryIn(s.tables, key); }
  }

  lemma CreateKeys(was: map<Key, nat>, now: map<Key, nat>, owner: nat, ids: set<nat>, news: seq<nat>, key: Key, id: nat)
    requires KeysFramed(was, now, owner, ids, news, []) && key !in now && key.owner == owner && id !in ids
    ensures KeysFramed(was, now[key := id], owner, ids, news + [id], [])
  {
    var r := now[key := id];
    assert key !in was;
    forall x | x in news + [id] ensures x !in ids && exists k | k in r && k !in was :: r[k] == x {
      if x in news {
        var k :| k in now && k !in was && now[k] == x;
        assert k in r && r[k] == x;
      } else {
        assert r[key] == x;
      }
    }
  }

  lemma FrameCreate(s: State, t: State, owner: nat, news: seq<nat>, addr: int)
    requires Framed(s, t, owner, news, []) && Key(owner, addr) !in t.tables
    requires s.backends[owner].home in t.balancers && t.nextId !in s.backends
    ensures Framed(s, Created(t, owner, addr, Regular, s.backends[owner].home), owner, news + [t.nextId], [])
  {
    var home := s.backends[owner].home;
    CreateKeys(s.tables, t.tables, owner, s.backends.Keys, news, Key(owner, addr), t.nextId);
    hide KeysFramed, LessSessions;
    assert s.balancers[home].list + news + [t.nextId] == s.balancers[home].list + (news + [t.nextId]);
  }

  // The sweep of one entry.

  lemma SweepKeys(was: map<Key, nat>, now: map<Key, nat>, owner: nat, ids: set<nat>, news: seq<nat>, gone: seq<nat>, key: Key)
    requires KeysFramed(was, now, owner, ids, news, gone) && key in was && key in now && key.owner == owner
    requires forall k, l | k in was && l in was && was[k] == was[l] :: k == l
    ensures now[key] == was[key]
    ensures KeysFramed(was, now - {key}, owner, ids, news, gone + [was[key]])
  {
    var r, id := now - {key}, was[key];
    EntryIn(was, key);
    forall k | k in was ensures if was[k] in gone + [id] then k !in r else k in r && r[k] == was[k] {
      if k != key { assert was[k] != id; }
    }
    forall x | x in news ensures exists k | k in r && k !in was :: r[k] == x {
      var k :| k in now && k !in was && now[k] == x;
      assert k in r;
    }
  }

  lemma FirstKept(list: seq<nat>, id: nat)
    requires list != [] && list[0] != id
    ensures Without(list, id) != [] && Without(list, id)[0] == list[0]
  {
  }

  lemma SweepLists(was: map<nat, Balancer>, now: map<nat, Balancer>, home: nat, news: seq<nat>, gone: seq<nat>, id: nat)
    requires ListsFramed(was, now, home, news, gone) && home in now && id in now[home].list
    requires forall i | i in now && i != home :: now[i].cur != Some(id)
    ensures ListsFramed(was, Unlisted(now, home, id), home, news, gone + [id])
  {
    var list, r := LessAll(was[home].list + news, gone), Unlisted(now, home, id);
    LessAllNext(was[home].list + news, gone, id);
    hide LessAll, Without;
    if home in r { CursorSwept(was[home], now[home], r[home], gone, id); }
  }

  lemma CursorSwept(was: Balancer, now: Balancer, r: Balancer, gone: seq<nat>, id: nat)
    requires CursorFramed(was, now, gone) && id in now.list
    requires r == Reset(now.(list := Without(now.list, id)), id)
    ensures CursorFramed(was, r, gone + [id])
  {
    if now.list[0] != id { FirstKept(now.list, id); }
    hide Without;
  }

  lemma SessionsSwept(sessions: map<string, nat>, gone: seq<nat>, id: nat)
    ensures WithoutBackend(LessSessions(sessions, gone), id) == LessSessions(sessions, gone + [id])
  {
  }

  lemma FrameSweep(s: State, t: State, owner: nat, news: seq<nat>, gone: seq<nat>, key: Key)
    requires Framed(s, t, owner, news, gone) && key in s.tables && key in t.tables && key.owner == owner
    requires forall k, l | k in s.tables && l in s.tables && s.tables[k] == s.tables[l] :: k == l
    requires t.tables[key] in t.backends && t.backends[t.tables[key]].home == s.backends[owner].home
    requires AtItsHome(t.balancers, s.backends[owner].home, t.tables[key])
    ensures t.tables[key] == s.tables[key]
    ensures Framed(s, Swept(t, key), owner, news, gone + [t.tables[key]])
  {
    var home := s.backends[owner].home;
    SweepKeys(s.tables, t.tables, owner, s.backends.Keys, news, gone, key);
    var id := t.tables[key];
    EntryIn(s.tables, key);
    SweepLists(s.balancers, t.balancers, home, news, gone, id);
    SessionsSwept(s.sessions, gone, id);
    hide KeysFramed, ListsFramed, LessSessions, Unlisted, WithoutBackend, EntryIds;
    assert s.removal + gone + [id] == s.removal + (gone + [id]);
  }

  /** `id` is listed in `home` and is the cursor of no other balancer. */
  ghost predicate AtItsHome(bals: map<nat, Balancer>, home: nat, id: nat) {
    home in bals && id in bals[home].list && forall i | i in bals && i != home :: bals[i].cur != Some(id)
  }

  /** A regular backend of a matrix is in the balancer that the matrix fills. */
  lemma EntryAtHome(t: State, key: Key)
    requires Inv(t) && key in t.tables && t.tables[key] in t.backends && t.backends[t.tables[key]].kind.Regular?
    ensures key.owner in t.backends && t.backends[t.tables[key]].home == t.backends[key.owner].home
    ensures AtItsHome(t.balancers, t.backends[key.owner].home, t.tables[key])
  {
    hide Counted, HoldersLive, RemovalExact, Numbered, TablesOk, SessionsListed, ListsOwned;
    var id := t.tables[key];
    assert Tabled(t.tables, id);
    assert Listed(t.balancers, id);
    var i :| i in t.balancers && id in t.balancers[i].list;
  }
}
