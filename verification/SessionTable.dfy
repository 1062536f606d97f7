/** The session table updated in place: a hash and a list of the same session objects. */
module SessionTables {
  import opened Options
  import opened Sessions

  class Session {
    const key: string
    const backend: nat
    var expire: int

    constructor (key: string, backend: nat, expire: int)
      ensures this.key == key && this.backend == backend && this.expire == expire
    {
      this.key, this.backend, this.expire := key, backend, expire;
    }

    ghost function AsEntry(): Entry
      reads this
    {
      Entry(key, backend, expire)
    }
  }

  ghost function Entries(head: seq<Session>): (l: seq<Entry>)
    reads head
    ensures |l| == |head|
  {
    if head == [] then [] else [head[0].AsEntry()] + Entries(head[1..])
  }

  /** `session_unlink`: DLIST_REMOVE of one element. */
  function Unlink(head: seq<Session>, s: Session): (r: seq<Session>)
    ensures |r| <= |head|
  {
    if head == [] then [] else if head[0] == s then head[1..] else [head[0]] + Unlink(head[1..], s)
  }

  /** The hash and the list hold the same sessions, one for each key. */
  ghost predicate Agree(hash: map<string, Session>, head: seq<Session>) {
    && Linked(hash, head)
    && (forall k | k in hash :: hash[k] in head && hash[k].key == k)
    && Distinct(head)
  }

  ghost predicate Linked(hash: map<string, Session>, head: seq<Session>) {
    forall s | s in head :: s.key in hash && hash[s.key] == s
  }

  ghost predicate Distinct(head: seq<Session>) {
    forall i, j | 0 <= i < j < |head| :: head[i] != head[j]
  }

  lemma {:induction false} EntriesAt(head: seq<Session>, i: nat)
    requires i < |head|
    ensures Entries(head)[i] == head[i].AsEntry()
    decreases i
  {
    if i > 0 { EntriesAt(head[1..], i - 1); }
  }

  lemma {:induction false} EntriesAppend(head: seq<Session>, s: Session)
    ensures Entries(head + [s]) == Entries(head) + [s.AsEntry()]
  {
    if head != [] {
      EntriesAppend(head[1..], s);
      assert (head + [s])[1..] == head[1..] + [s];
    }
  }

  lemma {:induction false} UnlinkMember(head: seq<Session>, s: Session, x: Session)
    requires Distinct(head)
    ensures x in Unlink(head, s) <==> x in head && x != s
    ensures Distinct(Unlink(head, s))
  {
    if head != [] {
      assert forall i | 0 <= i < |head| - 1 :: head[1..][i] == head[i + 1];
      assert x in head <==> x == head[0] || x in head[1..];
      if head[0] != s {
        UnlinkMember(head[1..], s, x);
        UnlinkMember(head[1..], s, head[0]);
        ConsDistinct(head[0], Unlink(head[1..], s));
      }
    }
  }

  lemma ConsDistinct(x: Session, r: seq<Session>)
    requires Distinct(r) && x !in r
    ensures Distinct([x] + r)
  {
    var t := [x] + r;
    assert t[0] == x && forall i | 0 < i < |t| :: t[i] == r[i - 1];
  }

  /** Unlinking a session removes its key from the list. */
  lemma {:induction false} UnlinkEntries(hash: map<string, Session>, head: seq<Session>, s: Session)
    requires Linked(hash, head) && Distinct(head) && s in head
    ensures Entries(Unlink(head, s)) == Keep(Entries(head), NotKey(s.key))
  {
    if head[0] == s {
      forall i | 0 <= i < |head| - 1 ensures Passes(NotKey(s.key), Entries(head[1..])[i]) {
        EntriesAt(head[1..], i);
        assert head[1..][i] == head[i + 1] && head[i + 1] in head;
      }
      KeepAll(Entries(head[1..]), NotKey(s.key));
    } else {
      UnlinkEntries(hash, head[1..], s);
      assert head[0].key != s.key;
    }
  }

  lemma UnlinkAgrees(hash: map<string, Session>, head: seq<Session>, s: Session)
    requires Agree(hash, head) && s in head
    ensures Agree(hash - {s.key}, Unlink(head, s))
  {
    var r := Unlink(head, s);
    forall x | x in r ensures x in head && x != s && x.key != s.key {
      UnlinkMember(head, s, x);
    }
    forall k | k in hash - {s.key} ensures hash[k] in r {
      UnlinkMember(head, s, hash[k]);
    }
    UnlinkMember(head, s, s);
  }

  lemma AppendAgrees(hash: map<string, Session>, head: seq<Session>, t: Session)
    requires Agree(hash, head) && t.key !in hash
    ensures Agree(hash[t.key := t], head + [t])
  {
    var r := head + [t];
    assert t !in head;
    assert forall x | x in r :: x in head || x == t;
    assert forall k | k in hash :: hash[k] in r;
    assert r[|head|] == t;
  }

  lemma KeyAbsent(hash: map<string, Session>, head: seq<Session>, key: string)
    requires Agree(hash, head) && key !in hash
    ensures Keep(Entries(head), NotKey(key)) == Entries(head) && Lookup(Entries(head), key).None?
  {
    forall i | 0 <= i < |head| ensures Entries(head)[i].key != key {
      EntriesAt(head, i);
      assert head[i] in head;
    }
    KeepAll(Entries(head), NotKey(key));
    LookupAbsent(Entries(head), key);
  }

  lemma {:induction false} KeyFound(hash: map<string, Session>, head: seq<Session>, s: Session)
    requires Linked(hash, head) && s in head
    ensures Lookup(Entries(head), s.key) == Some(s.AsEntry())
  {
    if head[0] != s {
      assert head[0].key != s.key;
      KeyFound(hash, head[1..], s);
    }
  }

  class SessionTable {
    var hash: map<string, Session>
    var head: seq<Session>
    const ttl: int

    constructor (ttl: int)
      ensures Valid() && head == [] && this.ttl == ttl
    {
      hash, head := map[], [];
      this.ttl := ttl;
    }

    ghost predicate Valid()
      reads this
    {
      Agree(hash, head)
    }

    ghost function View(): seq<Entry>
      reads this, head
    {
      Entries(head)
    }

    /** Take a session out of the hash and the list. */
    method Delete(s: Session)
      requires Valid() && s in head
      modifies this
      ensures Valid() && View() == Keep(old(View()), NotKey(s.key))
      ensures hash == old(hash) - {s.key} && head == Unlink(old(head), s)
    {
      UnlinkEntries(hash, head, s);
      UnlinkAgrees(hash, head, s);
      hide Agree, Entries, Keep, Unlink;
      hash := hash - {s.key};
      head := Unlink(head, s);
    }

    /** `service_session_add`; `first` tells that the expiration job is to be scheduled. */
    method Add(key: string, be: nat, now: int) returns (first: bool)
      requires Valid()
      modifies this
      ensures Valid()
      ensures View() == Added(old(View()), Entry(key, be, now + ttl))
      ensures first <==> |head| == 1
    {
      hide Agree, Entries, Keep, Unlink;
      if key in hash {
        InHead(hash, head, key);
        Delete(hash[key]);
      } else {
        KeyAbsent(hash, head, key);
      }
      var t := new Session(key, be, now + ttl);
      AppendAgrees(hash, head, t);
      EntriesAppend(head, t);
      hash := hash[key := t];
      head := head + [t];
      first := |head| == 1;
    }

    /** `service_session_find`, with the promotion on a hit; a miss gives no backend. */
    method Find(key: string, now: int) returns (be: Option<nat>)
      requires Valid()
      modifies this, head
      ensures Valid()
      ensures View() == Promoted(old(View()), key, now + ttl)
      ensures be == match Lookup(old(View()), key) case None => None case Some(e) => Some(e.backend)
    {
      hide Agree, Entries, Keep, Unlink, Distinct, Lookup;
      if key !in hash {
        KeyAbsent(hash, head, key);
        return None;
      }
      InHead(hash, head, key);
      var res := hash[key];
      AgreeParts(hash, head);
      KeyFound(hash, head, res);
      UnlinkEntries(hash, head, res);
      UnlinkAgrees(hash, head, res);
      UnlinkGone(hash, head, res);
      var rest := Unlink(head, res);
      AppendAgrees(hash - {key}, rest, res);
      assert hash == (hash - {key})[key := res];
      res.expire := now + ttl;
      EntriesAppend(rest, res);
      head := rest + [res];
      be := Some(res.backend);
    }

    /** `service_session_remove_by_key` */
    method RemoveByKey(key: string)
      requires Valid()
      modifies this
      ensures Valid() && View() == Keep(old(View()), NotKey(key))
    {
      if key in hash {
        InHead(hash, head, key);
        Delete(hash[key]);
      } else {
        KeyAbsent(hash, head, key);
      }
    }

    /** `service_session_remove_by_backend` */
    method RemoveByBackend(be: nat)
      requires Valid()
      modifies this
      ensures Valid() && View() == Keep(old(View()), NotBackend(be))
    {
      var todo := head;
      ghost var was := View();
      while todo != []
        invariant Valid() && (forall s | s in todo :: s in head) && Distinct(todo)
        invariant Keep(View(), NotBackend(be)) == Keep(was, NotBackend(be))
        invariant forall s | s in head && s !in todo :: s.backend != be
        decreases |todo|
      {
        var sess := todo[0];
        if sess.backend == be {
          RemoveIsKept(hash, head, sess);
          forall x | x in todo[1..] ensures x in Unlink(head, sess) {
            assert x != sess;
            UnlinkMember(head, sess, x);
          }
          forall x | x in Unlink(head, sess) ensures x in head && x != sess {
            UnlinkMember(head, sess, x);
          }
          Delete(sess);
        }
        todo := todo[1..];
      }
      forall i | 0 <= i < |head| ensures Passes(NotBackend(be), View()[i]) {
        EntriesAt(head, i);
        assert head[i] in head;
      }
      KeepAll(View(), NotBackend(be));
    }

    /** The table part of `expire_sessions`. */
    method Expire(now: int)
      requires Valid()
      modifies this
      ensures Valid() && View() == DropDue(old(View()), now)
    {
      ghost var was := View();
      while head != [] && head[0].expire <= now
        invariant Valid() && DropDue(View(), now) == DropDue(was, now)
        decreases |head|
      {
        assert Entries(head)[1..] == Entries(head[1..]);
        Delete(head[0]);
      }
    }
  }

  lemma UnlinkGone(hash: map<string, Session>, head: seq<Session>, s: Session)
    requires Agree(hash, head)
    ensures s !in Unlink(head, s)
  {
    UnlinkMember(head, s, s);
  }

  lemma AgreeParts(hash: map<string, Session>, head: seq<Session>)
    requires Agree(hash, head)
    ensures Linked(hash, head) && Distinct(head)
  {
  }

  lemma InHead(hash: map<string, Session>, head: seq<Session>, key: string)
    requires Agree(hash, head) && key in hash
    ensures hash[key] in head && hash[key].key == key
  {
  }

  /** Removing one session of a backend does not change what is left without that backend. */
  lemma RemoveIsKept(hash: map<string, Session>, head: seq<Session>, s: Session)
    requires Agree(hash, head) && s in head
    ensures Keep(Keep(Entries(head), NotKey(s.key)), NotBackend(s.backend)) == Keep(Entries(head), NotBackend(s.backend))
  {
    forall i | 0 <= i < |head| ensures Entries(head)[i].key == s.key ==> Entries(head)[i].backend == s.backend {
      EntriesAt(head, i);
      assert head[i] in head;
    }
    KeepKeep(Entries(head), s.key, s.backend);
  }

  lemma {:induction false} KeepKeep(l: seq<Entry>, key: string, be: nat)
    requires forall i | 0 <= i < |l| :: l[i].key == key ==> l[i].backend == be
    ensures Keep(Keep(l, NotKey(key)), NotBackend(be)) == Keep(l, NotBackend(be))
  {
    if l != [] {
      KeepKeep(l[1..], key, be);
      var r := Keep(l[1..], NotKey(key));
      assert ([l[0]] + r)[1..] == r && [] + r == r;
      assert l[0].key == key ==> !Passes(NotBackend(be), l[0]);
    }
  }
}
