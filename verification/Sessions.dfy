/** The session table of a service: a hash and an expiry-ordered list (src/svc.c). */
module Sessions {
  import opened Options

  datatype Entry = Entry(key: string, backend: nat, expire: int)

  // The list as a value.

  predicate UniqueKeys(l: seq<Entry>) {
    forall i, j | 0 <= i < j < |l| :: l[i].key != l[j].key
  }

  predicate Ascending(l: seq<Entry>) {
    forall i, j | 0 <= i < j < |l| :: l[i].expire <= l[j].expire
  }

  predicate Within(l: seq<Entry>, limit: int) {
    forall i | 0 <= i < |l| :: l[i].expire <= limit
  }

  /** What the table answers for a key: the map it stands for. */
  function Lookup(l: seq<Entry>, key: string): (r: Option<Entry>)
    ensures r.Some? ==> r.value in l && r.value.key == key
  {
    if l == [] then None else if l[0].key == key then Some(l[0]) else Lookup(l[1..], key)
  }

  datatype Filter = NotKey(key: string) | NotBackend(backend: nat) | Later(now: int)

  predicate Passes(f: Filter, e: Entry) {
    match f
    case NotKey(key) => e.key != key
    case NotBackend(backend) => e.backend != backend
    case Later(now) => e.expire > now
  }

  /** The entries that pass, in order. */
  function Keep(l: seq<Entry>, f: Filter): (r: seq<Entry>)
    ensures |r| <= |l|
  {
    if l == [] then [] else (if Passes(f, l[0]) then [l[0]] else []) + Keep(l[1..], f)
  }

  /** `service_session_add`: a new entry at the end; an old one with the key disappears. */
  function Added(l: seq<Entry>, e: Entry): seq<Entry> { Keep(l, NotKey(e.key)) + [e] }

  /** `service_session_find`: on a hit the entry moves to the end with a new expiry. */
  function Promoted(l: seq<Entry>, key: string, expire: int): seq<Entry> {
    match Lookup(l, key)
    case None => l
    case Some(e) => Added(l, e.(expire := expire))
  }

  /** The loop of `expire_sessions`: drop from the front while due. */
  function DropDue(l: seq<Entry>, now: int): seq<Entry> {
    if l != [] && l[0].expire <= now then DropDue(l[1..], now) else l
  }

  lemma {:induction false} KeepMember(l: seq<Entry>, f: Filter, e: Entry)
    ensures e in Keep(l, f) <==> e in l && Passes(f, e)
  {
    if l != [] {
      KeepMember(l[1..], f, e);
      assert e in l <==> e == l[0] || e in l[1..];
    }
  }

  /** Filtering keeps keys unique and expiry ascending. */
  lemma {:induction false} KeepProperties(l: seq<Entry>, f: Filter, limit: int)
    ensures UniqueKeys(l) ==> UniqueKeys(Keep(l, f))
    ensures Ascending(l) ==> Ascending(Keep(l, f))
    ensures Within(l, limit) ==> Within(Keep(l, f), limit)
  {
    if l != [] {
      var t, r := l[1..], Keep(l[1..], f);
      KeepProperties(t, f, limit);
      assert forall i | 0 <= i < |t| :: t[i] == l[i + 1];
      hide Keep;
      forall i | 0 <= i < |r| ensures r[i] in t {
        KeepMember(t, f, r[i]);
      }
      ConsProperties(l[0], t, r);
    }
  }

  lemma ConsProperties(e: Entry, t: seq<Entry>, r: seq<Entry>)
    requires forall i | 0 <= i < |r| :: r[i] in t
    ensures UniqueKeys(r) && (forall i | 0 <= i < |t| :: t[i].key != e.key) ==> UniqueKeys([e] + r)
    ensures Ascending(r) && (forall i | 0 <= i < |t| :: e.expire <= t[i].expire) ==> Ascending([e] + r)
  {
    var s := [e] + r;
    assert s[0] == e && forall i | 0 < i < |s| :: s[i] == r[i - 1];
  }

  lemma {:induction false} KeepAll(l: seq<Entry>, f: Filter)
    requires forall i | 0 <= i < |l| :: Passes(f, l[i])
    ensures Keep(l, f) == l
  {
    if l != [] {
      KeepAll(l[1..], f);
    }
  }

  lemma {:induction false} LookupAbsent(l: seq<Entry>, key: string)
    ensures Lookup(l, key).None? <==> forall i | 0 <= i < |l| :: l[i].key != key
  {
    if l != [] {
      LookupAbsent(l[1..], key);
      assert forall i | 0 < i < |l| :: l[i] == l[1..][i - 1];
      assert forall i | 0 <= i < |l| - 1 :: l[1..][i] == l[i + 1];
    }
  }

  lemma {:induction false} LookupAppend(l: seq<Entry>, e: Entry, k: string)
    ensures Lookup(l + [e], k) == if Lookup(l, k).Some? then Lookup(l, k) else if e.key == k then Some(e) else None
  {
    if l != [] {
      LookupAppend(l[1..], e, k);
      assert (l + [e])[1..] == l[1..] + [e];
    }
  }

  // Refinement of a map from keys to entries.

  lemma {:induction false} RemoveKeyRefines(l: seq<Entry>, key: string, k: string)
    ensures Lookup(Keep(l, NotKey(key)), k) == if k == key then None else Lookup(l, k)
  {
    if l != [] {
      RemoveKeyRefines(l[1..], key, k);
      var r := Keep(l[1..], NotKey(key));
      assert ([l[0]] + r)[1..] == r && [] + r == r;
    }
  }

  /** Adding, also over an old entry with the same key, is an update of that key alone. */
  lemma AddRefines(l: seq<Entry>, e: Entry, k: string)
    ensures Lookup(Added(l, e), k) == if k == e.key then Some(e) else Lookup(l, k)
  {
    RemoveKeyRefines(l, e.key, k);
    LookupAppend(Keep(l, NotKey(e.key)), e, k);
  }

  /** A hit renews the expiry of the key found and nothing else; a miss changes nothing. */
  lemma PromoteRefines(l: seq<Entry>, key: string, expire: int, k: string)
    ensures Lookup(Promoted(l, key, expire), k) ==
            if k == key && Lookup(l, key).Some? then Some(Lookup(l, key).value.(expire := expire)) else Lookup(l, k)
  {
    if Lookup(l, key).Some? {
      AddRefines(l, Lookup(l, key).value.(expire := expire), k);
    }
  }

  /** Removing by backend, or all due entries, removes exactly those. */
  lemma {:induction false} FilterRefines(l: seq<Entry>, f: Filter, k: string)
    requires UniqueKeys(l)
    ensures Lookup(Keep(l, f), k) ==
            if Lookup(l, k).Some? && Passes(f, Lookup(l, k).value) then Lookup(l, k) else None
  {
    if l != [] {
      FilterRefines(l[1..], f, k);
      var r := Keep(l[1..], f);
      assert ([l[0]] + r)[1..] == r && [] + r == r;
      if l[0].key == k {
        LookupAbsent(l[1..], k);
      }
    }
  }

  /** In an ascending list, dropping due entries from the front leaves exactly the later ones. */
  lemma {:induction false} DropDueIsFilter(l: seq<Entry>, now: int)
    requires Ascending(l)
    ensures DropDue(l, now) == Keep(l, Later(now))
  {
    if l != [] {
      if l[0].expire > now {
        KeepAll(l, Later(now));
      } else {
        DropDueIsFilter(l[1..], now);
      }
    }
  }

  lemma ExpireRefines(l: seq<Entry>, now: int, k: string)
    requires UniqueKeys(l) && Ascending(l)
    ensures Lookup(DropDue(l, now), k) ==
            if Lookup(l, k).Some? && Lookup(l, k).value.expire > now then Lookup(l, k) else None
  {
    DropDueIsFilter(l, now);
    FilterRefines(l, Later(now), k);
  }

  // Runs of the table under a clock that does not go back.

  datatype Table = Table(l: seq<Entry>, clock: int, ttl: int)

  datatype Op =
    | Add(key: string, backend: nat, now: int)
    | Find(key: string, now: int)
    | RemoveKey(key: string)
    | RemoveBackend(backend: nat)
    | Expire(ts: int)

  predicate Timely(t: Table, op: Op) {
    (op.Add? || op.Find?) ==> op.now >= t.clock
  }

  function Apply(t: Table, op: Op): Table {
    match op
    case Add(key, backend, now) => t.(l := Added(t.l, Entry(key, backend, now + t.ttl)), clock := now)
    case Find(key, now) => t.(l := Promoted(t.l, key, now + t.ttl), clock := now)
    case RemoveKey(key) => t.(l := Keep(t.l, NotKey(key)))
    case RemoveBackend(backend) => t.(l := Keep(t.l, NotBackend(backend)))
    case Expire(ts) => t.(l := DropDue(t.l, ts))
  }

  /** Unique keys, and expiry in ascending order and not beyond what the clock allows. */
  predicate Sound(t: Table) {
    UniqueKeys(t.l) && Ascending(t.l) && Within(t.l, t.clock + t.ttl)
  }

  lemma AppendSound(l: seq<Entry>, e: Entry, limit: int)
    requires UniqueKeys(l) && Ascending(l) && Within(l, limit) && limit <= e.expire
    ensures var r := Added(l, e); UniqueKeys(r) && Ascending(r) && Within(r, e.expire)
  {
    var k := Keep(l, NotKey(e.key));
    KeepProperties(l, NotKey(e.key), limit);
    forall i | 0 <= i < |k| ensures k[i].key != e.key && k[i].expire <= limit {
      KeepMember(l, NotKey(e.key), k[i]);
    }
    hide Keep;
  }

  lemma ApplyKeepsSound(t: Table, op: Op)
    requires Sound(t) && Timely(t, op)
    ensures Sound(Apply(t, op))
  {
    hide Keep, DropDue;
    var limit := t.clock + t.ttl;
    match op
    case Add(key, backend, now) => AppendSound(t.l, Entry(key, backend, now + t.ttl), limit);
    case Find(key, now) =>
      if Lookup(t.l, key).Some? {
        AppendSound(t.l, Lookup(t.l, key).value.(expire := now + t.ttl), limit);
      }
    case RemoveKey(key) => KeepProperties(t.l, NotKey(key), limit);
    case RemoveBackend(backend) => KeepProperties(t.l, NotBackend(backend), limit);
    case Expire(ts) =>
      DropDueIsFilter(t.l, ts);
      KeepProperties(t.l, Later(ts), limit);
  }

  /** The map that the operations are meant to work on, key by key: `v` is what key k maps to. */
  function OnKey(v: Option<Entry>, k: string, ttl: int, op: Op): Option<Entry> {
    match op
    case Add(key, backend, now) => if k == key then Some(Entry(key, backend, now + ttl)) else v
    case Find(key, now) => if k == key && v.Some? then Some(v.value.(expire := now + ttl)) else v
    case RemoveKey(key) => if k == key then None else v
    case RemoveBackend(backend) => if v.Some? && v.value.backend == backend then None else v
    case Expire(ts) => if v.Some? && v.value.expire <= ts then None else v
  }

  function MapAfter(ops: seq<Op>, ttl: int, k: string): Option<Entry> {
    if ops == [] then None else OnKey(MapAfter(ops[..|ops| - 1], ttl, k), k, ttl, ops[|ops| - 1])
  }

  function TableAfter(ops: seq<Op>, start: int, ttl: int): Table {
    if ops == [] then Table([], start, ttl) else Apply(TableAfter(ops[..|ops| - 1], start, ttl), ops[|ops| - 1])
  }

  predicate AllTimely(ops: seq<Op>, start: int, ttl: int) {
    ops == [] ||
    (AllTimely(ops[..|ops| - 1], start, ttl) && Timely(TableAfter(ops[..|ops| - 1], start, ttl), ops[|ops| - 1]))
  }

  lemma RenewRefinesMap(t: Table, op: Op, k: string)
    requires op.Add? || op.Find?
    ensures Lookup(Apply(t, op).l, k) == OnKey(Lookup(t.l, k), k, t.ttl, op)
  {
    hide Lookup, Keep, Added, Promoted;
    if op.Add? {
      AddRefines(t.l, Entry(op.key, op.backend, op.now + t.ttl), k);
    } else {
      PromoteRefines(t.l, op.key, op.now + t.ttl, k);
    }
  }

  lemma RemoveRefinesMap(t: Table, op: Op, k: string)
    requires UniqueKeys(t.l) && Ascending(t.l) && !op.Add? && !op.Find?
    ensures Lookup(Apply(t, op).l, k) == OnKey(Lookup(t.l, k), k, t.ttl, op)
  {
    hide Lookup, Keep, DropDue, UniqueKeys, Ascending;
    if op.RemoveKey? {
      RemoveKeyRefines(t.l, op.key, k);
    } else if op.RemoveBackend? {
      FilterRefines(t.l, NotBackend(op.backend), k);
    } else {
      ExpireRefines(t.l, op.ts, k);
    }
  }

  /** One operation on the table is the same operation on the map. */
  lemma StepRefinesMap(t: Table, op: Op, k: string)
    requires Sound(t)
    ensures Lookup(Apply(t, op).l, k) == OnKey(Lookup(t.l, k), k, t.ttl, op)
  {
    SoundParts(t);
    hide *;
    if op.Add? || op.Find? {
      RenewRefinesMap(t, op, k);
    } else {
      RemoveRefinesMap(t, op, k);
    }
  }

  /** Every run keeps the list sound and answers every key as the map does. */
  lemma {:induction false} RunRefinesMap(ops: seq<Op>, start: int, ttl: int, k: string)
    requires AllTimely(ops, start, ttl)
    ensures Sound(TableAfter(ops, start, ttl)) && TableAfter(ops, start, ttl).ttl == ttl
    ensures Lookup(TableAfter(ops, start, ttl).l, k) == MapAfter(ops, ttl, k)
  {
    if ops != [] {
      var before, op := ops[..|ops| - 1], ops[|ops| - 1];
      var t := TableAfter(before, start, ttl);
      RunRefinesMap(before, start, ttl, k);
      ApplyKeepsSound(t, op);
      StepRefinesMap(t, op, k);
    }
  }

  lemma SoundParts(t: Table)
    requires Sound(t)
    ensures UniqueKeys(t.l) && Ascending(t.l)
  {
  }
}
