/** What every run of the key-value queue keeps, also where the list it should represent is lost: link
    keys name stored commands and never lead to older ones. As long as no command is enqueued twice to an
    enrollment they lead to newer ones, and every walk ends. */
module KvLinks {
  import opened Strings
  import opened QueueKeys
  import opened QueueList
  import opened QueueMachine
  import opened KvQueue

  /** The stored commands, numbered in the order they were stored. */
  type Ages = map<string, nat>

  /** Older, or not younger where a command may be linked to itself. */
  predicate Older(ages: Ages, strict: bool, u: string, v: string) {
    u in ages && v in ages && if strict then ages[u] < ages[v] else ages[u] <= ages[v]
  }

  predicate Numbered(ages: Ages) {
    forall u :: u in ages ==> ValidUuid(u) && ages[u] < |ages|
  }

  /** What a link key may hold. */
  predicate Leads(ages: Ages, strict: bool, k: QueueKey, v: Bytes) {
    v == "" ||
    match k
    case First(_) => v in ages
    case Last(_) => v in ages
    case Next(_, u) => Older(ages, strict, u, v)
    case Prev(_, u) => Older(ages, strict, v, u)
    case _ => true
  }

  ghost predicate LinksLead(m: Store, ages: Ages, strict: bool) {
    forall k: QueueKey :: Plain(k) ==> Leads(ages, strict, k, Value(m, k))
  }

  ghost predicate RawStored(m: Store, ages: Ages) {
    forall u: string :: NoDot(u) ==> (Encode(Raw(u)) in m <==> u in ages)
  }

  ghost predicate NoStrayLinks(m: Store, ages: Ages) {
    forall k: QueueKey :: Plain(k) && (k.Next? || k.Prev?) && k.uuid !in ages ==> Encode(k) !in m
  }

  ghost predicate NoStrayResults(m: Store, ages: Ages) {
    forall k: QueueKey :: Plain(k) && (k.Status? || k.Report?) && k.uuid !in ages ==> Encode(k) !in m
  }

  /** `strict` tells whether no command is linked to itself. */
  ghost predicate Linked(m: Store, ages: Ages, strict: bool) {
    Numbered(ages) && LinksLead(m, ages, strict) && RawStored(m, ages) && NoStrayLinks(m, ages)
  }

  lemma EmptyStoreLinked(strict: bool)
    ensures Linked(map[], map[], strict) && NoStrayResults(map[], map[])
  {
    hide Encode, NoDot;
  }

  /** A uuid without a stored command has no key left over in any queue. */
  lemma UnusedUuidClean(m: Store, ages: Ages, strict: bool, u: string, q: string)
    requires Linked(m, ages, strict) && NoDot(u) && Encode(Raw(u)) !in m
    ensures Encode(Next(q, u)) !in m && Encode(Prev(q, u)) !in m
    ensures NoStrayResults(m, ages) ==> Encode(Status(q, u)) !in m && Encode(Report(q, u)) !in m
    ensures u != "" ==> forall q': string :: Value(m, First(q')) != u && Value(m, Last(q')) != u
  {
    hide Encode, NoDot, Value, Numbered;
    assert Plain(Next(q, u)) && Plain(Prev(q, u)) && Plain(Status(q, u)) && Plain(Report(q, u));
    forall q': string | u != "" ensures Value(m, First(q')) != u && Value(m, Last(q')) != u {
      assert Plain(First(q')) && Plain(Last(q'));
    }
  }

  // ---------- unlink ----------

  lemma LinkedNeighbours(m: Store, ages: Ages, strict: bool, q: string, id: string)
    requires Linked(m, ages, strict) && NoDot(id)
    ensures PlainNeighbours(m, q, id)
    ensures var p, n := Value(m, Prev(q, id)), Value(m, Next(q, id));
            && (p != "" ==> Older(ages, strict, p, id)) && (n != "" ==> Older(ages, strict, id, n))
  {
    assert NoDot("");
    hide Encode, NoDot, Value;
    assert Plain(Next(q, id)) && Plain(Prev(q, id));
  }

  /** Changing links of some items of one queue leaves the other keys as they are. */
  lemma OthersLinked(m: Store, m': Store, ages: Ages, strict: bool, q: string, us: set<string>)
    requires Linked(m, ages, strict) && SameExcept(m, m', q, us)
    ensures RawStored(m', ages)
    ensures NoStrayResults(m, ages) <==> NoStrayResults(m', ages)
    ensures forall k: QueueKey :: Plain(k) && (k.Next? || k.Prev?) && k.uuid !in ages && k.uuid !in us ==> Encode(k) !in m'
  {
    hide Encode, NoDot, Value;
    forall u: string | NoDot(u) ensures Encode(Raw(u)) in m' <==> u in ages {
      assert Plain(Raw(u));
    }
  }

  lemma UnlinkLeads(m: Store, m': Store, ages: Ages, strict: bool, q: string, id: string)
    requires LinksLead(m, ages, strict) && KeyByKey(m, m', q, id)
    requires var p, n := Value(m, Prev(q, id)), Value(m, Next(q, id));
             && (p != "" ==> Older(ages, strict, p, id)) && (n != "" ==> Older(ages, strict, id, n))
    ensures LinksLead(m', ages, strict)
  {
    hide Encode, NoDot, Value;
    forall k: QueueKey | Plain(k) ensures Leads(ages, strict, k, Value(m', k)) {
      assert Leads(ages, strict, k, Value(m, k));
    }
  }

  lemma UnlinkLinked(m: Store, ages: Ages, strict: bool, q: string, id: string)
    requires Linked(m, ages, strict) && NoDot(id)
    ensures Linked(Unlinked(m, q, id), ages, strict)
    ensures NoStrayResults(m, ages) <==> NoStrayResults(Unlinked(m, q, id), ages)
  {
    var m' := Unlinked(m, q, id);
    assert Encode(Next(q, id)) !in m' && Encode(Prev(q, id)) !in m' by { hide Value, Encode; }
    hide Encode, Decode, NoDot, Value, Unlinked, UnlinkedValue, SameExcept, RawStored, NoStrayResults, NoStrayLinks, LinksLead;
    LinkedNeighbours(m, ages, strict, q, id);
    UnlinkKeys(m, q, id);
    UnlinkLeads(m, m', ages, strict, q, id);
    OthersLinked(m, m', ages, strict, q, {id} + ({Value(m, Prev(q, id)), Value(m, Next(q, id))} - {""}));
    StrayGone(m, m', ages, strict, q, id);
  }

  lemma StrayGone(m: Store, m': Store, ages: Ages, strict: bool, q: string, id: string)
    requires NoDot(id) && Linked(m, ages, strict) && Encode(Next(q, id)) !in m' && Encode(Prev(q, id)) !in m'
    requires SameExcept(m, m', q, {id} + ({Value(m, Prev(q, id)), Value(m, Next(q, id))} - {""}))
    ensures NoStrayLinks(m', ages)
  {
    hide Encode, NoDot, Value, LinksLead, RawStored, Numbered;
    LinkedNeighbours(m, ages, strict, q, id);
    var p, n := Value(m, Prev(q, id)), Value(m, Next(q, id));
    assert p == "" || p in ages;
    assert n == "" || n in ages;
    forall k: QueueKey | Plain(k) && (k.Next? || k.Prev?) && k.uuid !in ages ensures Encode(k) !in m' {
      assert Encode(k) !in m;
      if k.uuid == id {
        assert k == Next(q, id) || k == Prev(q, id) || !Touches(k, q, {id} + ({p, n} - {""}));
      }
    }
  }

  lemma UnlinkRepairedLinked(m: Store, ages: Ages, strict: bool, q: string, id: string)
    requires Linked(m, ages, strict) && NoDot(id)
    ensures Linked(UnlinkedRepaired(m, q, id), ages, strict)
    ensures NoStrayResults(m, ages) <==> NoStrayResults(UnlinkedRepaired(m, q, id), ages)
  {
    var m1, m' := Unlinked(m, q, id), UnlinkedRepaired(m, q, id);
    var p := Value(m, Prev(q, id));
    assert m' == m1 || (p != "" && m' == m1 - {Encode(Next(q, p))}) by { hide Value, Encode, Unlinked; }
    hide Encode, NoDot, Value, Unlinked, UnlinkedRepaired, Linked, NoStrayResults;
    UnlinkLinked(m, ages, strict, q, id);
    if m' != m1 {
      NoDotNeighbour(m, ages, strict, q, id);
      NextDropped(m1, ages, strict, q, p);
    }
  }

  lemma NoDotNeighbour(m: Store, ages: Ages, strict: bool, q: string, id: string)
    requires Linked(m, ages, strict) && NoDot(id)
    ensures NoDot(Value(m, Prev(q, id)))
  {
    hide Encode, NoDot, Value;
    LinkedNeighbours(m, ages, strict, q, id);
  }

  lemma NextDropped(m: Store, ages: Ages, strict: bool, q: string, p: string)
    requires Linked(m, ages, strict) && NoDot(p)
    ensures Linked(m - {Encode(Next(q, p))}, ages, strict)
    ensures NoStrayResults(m, ages) <==> NoStrayResults(m - {Encode(Next(q, p))}, ages)
  {
    var m' := m - {Encode(Next(q, p))};
    hide Encode, NoDot, Value, SameExcept, RawStored, NoStrayResults, Numbered, Fewer;
    OneDropped(m, q, p);
    OthersLinked(m, m', ages, strict, q, {p});
    assert NoStrayLinks(m', ages) by { assert m'.Keys <= m.Keys; }
    hide NoStrayLinks;
    assert forall k: QueueKey :: Plain(k) ==> Value(m', k) == "" || Value(m', k) == Value(m, k) by { FewerValues(m, m'); }
    forall k: QueueKey | Plain(k) ensures Leads(ages, strict, k, Value(m', k)) {
      assert Leads(ages, strict, k, Value(m, k));
    }
  }

  lemma FewerValues(m: Store, m': Store)
    requires Fewer(m, m')
    ensures forall k: QueueKey :: Plain(k) ==> Value(m', k) == "" || Value(m', k) == Value(m, k)
  {
    hide Encode, Value, Plain;
  }

  lemma OneDropped(m: Store, q: string, p: string)
    requires NoDot(p)
    ensures SameExcept(m, m - {Encode(Next(q, p))}, q, {p}) && Fewer(m, m - {Encode(Next(q, p))})
  {
    hide Encode, Decode, NoDot;
    Layout();
  }

  // ---------- the other operations ----------

  lemma ResultLinked(m: Store, ages: Ages, strict: bool, q: string, u: string, r: Result)
    requires Linked(m, ages, strict) && NoDot(u)
    ensures Linked(ResultStored(m, q, u, r), ages, strict)
    ensures NoStrayResults(ResultStored(m, q, u, r), ages) <==> NoStrayResults(m, ages) && u in ages
  {
    hide Encode, NoDot, Value, ResultStored, Numbered, Leads;
    var m' := ResultStored(m, q, u, r);
    ResultStoredKeys(m, q, u, r);
    assert Plain(Status(q, u));
    forall v: string | NoDot(v) ensures Encode(Raw(v)) in m' <==> v in ages {
      assert Plain(Raw(v));
    }
    forall k: QueueKey | Plain(k) ensures Leads(ages, strict, k, Value(m', k)) {
      if k.Status? || k.Report? {
        OtherLeads(ages, strict, k, Value(m', k));
      } else {
        assert Leads(ages, strict, k, Value(m, k));
      }
    }
    if NoStrayResults(m', ages) {
      assert u in ages;
      forall k: QueueKey | Plain(k) && (k.Status? || k.Report?) && k.uuid !in ages ensures Encode(k) !in m {
        assert Encode(k) !in m';
      }
    }
  }

  lemma OtherLeads(ages: Ages, strict: bool, k: QueueKey, v: Bytes)
    requires k.Status? || k.Report? || k.Raw? || k.RequestType?
    ensures Leads(ages, strict, k, v)
  {
  }

  lemma CommandLinked(m: Store, ages: Ages, strict: bool, u: string, c: Command)
    requires Linked(m, ages, strict) && ValidUuid(u) && u !in ages
    ensures Linked(CommandStored(m, u, c), ages[u := |ages|], strict)
    ensures NoStrayResults(m, ages) ==> NoStrayResults(CommandStored(m, u, c), ages[u := |ages|])
    ensures forall q: string :: Value(CommandStored(m, u, c), Last(q)) != u
  {
    hide Encode, NoDot, Value, CommandStored, NoStrayLinks, NoStrayResults, Leads;
    CommandStoredKeys(m, u, c);
    var m', ages' := CommandStored(m, u, c), ages[u := |ages|];
    CommandNoStray(m, m', ages, u, c);
    CommandLeads(m, ages, strict, u);
    forall q: string ensures Value(m', Last(q)) != u {
      assert Plain(Last(q));
    }
    forall v: string | NoDot(v) ensures Encode(Raw(v)) in m' <==> v in ages' {
      assert Plain(Raw(v));
    }
    forall k: QueueKey | Plain(k) ensures Leads(ages', strict, k, Value(m', k)) {
      if k.Raw? || k.RequestType? {
        OtherLeads(ages', strict, k, Value(m', k));
      } else {
        assert Leads(ages, strict, k, Value(m, k));
      }
    }
  }

  lemma CommandLeads(m: Store, ages: Ages, strict: bool, u: string)
    requires LinksLead(m, ages, strict) && u !in ages && u != ""
    ensures forall q: string :: Value(m, Last(q)) != u
    ensures forall k: QueueKey, v: Bytes :: Leads(ages, strict, k, v) ==> Leads(ages[u := |ages|], strict, k, v)
  {
    hide Encode, NoDot, Value;
    forall q: string ensures Value(m, Last(q)) != u {
      assert Plain(Last(q));
    }
  }

  lemma CommandNoStray(m: Store, m': Store, ages: Ages, u: string, c: Command)
    requires OnlyCommandAdded(m, m', u, c)
    ensures NoStrayLinks(m, ages) ==> NoStrayLinks(m', ages[u := |ages|])
    ensures NoStrayResults(m, ages) ==> NoStrayResults(m', ages[u := |ages|])
  {
    hide Encode, NoDot, Value;
  }

  lemma EnqueueLeads(m: Store, m': Store, ages: Ages, strict: bool, q: string, u: string)
    requires LinksLead(m, ages, strict) && u in ages && (forall v :: v in ages && v != u ==> ages[v] < ages[u])
    requires strict ==> Value(m, Last(q)) != u
    requires forall k: QueueKey :: Plain(k) ==> Value(m', k) == EnqueuedValue(m, q, u, k)
    ensures LinksLead(m', ages, strict)
  {
    hide Encode, NoDot, Value;
    assert Leads(ages, strict, Last(q), Value(m, Last(q))) by { assert Plain(Last(q)); }
    forall k: QueueKey | Plain(k) ensures Leads(ages, strict, k, Value(m', k)) {
      assert Leads(ages, strict, k, Value(m, k));
    }
  }

  /** Linking the newest command to a queue whose tail it is not yet. */
  lemma EnqueueLinked(m: Store, ages: Ages, strict: bool, q: string, u: string)
    requires Linked(m, ages, strict) && u in ages && (forall v :: v in ages && v != u ==> ages[v] < ages[u])
    requires strict ==> Value(m, Last(q)) != u
    ensures Linked(Enqueued(m, q, u), ages, strict)
    ensures NoStrayResults(m, ages) ==> NoStrayResults(Enqueued(m, q, u), ages)
    ensures forall q': string :: q' != q ==> Value(Enqueued(m, q, u), Last(q')) == Value(m, Last(q'))
  {
    hide Encode, Decode, NoDot, Value, Enqueued, EnqueuedValue, SameExcept, RawStored, NoStrayResults, LinksLead, NoStrayLinks;
    EmptyPlain();
    var m', last := Enqueued(m, q, u), Value(m, Last(q));
    assert last == "" || last in ages by { LastKnown(m, ages, strict, q); }
    assert ValidUuid(u) && (last != "" ==> ValidUuid(last));
    EnqueueKeys(m, q, u);
    EnqueueLeads(m, m', ages, strict, q, u);
    var us := {u} + ({last} - {""});
    OthersLinked(m, m', ages, strict, q, us);
    NoneStray(m', ages, us);
    OtherLasts(m, m', q, us);
  }

  lemma LastKnown(m: Store, ages: Ages, strict: bool, q: string)
    requires LinksLead(m, ages, strict)
    ensures Value(m, Last(q)) == "" || Value(m, Last(q)) in ages
  {
    hide Encode, NoDot, Value;
    assert Plain(Last(q));
  }

  lemma NoneStray(m: Store, ages: Ages, us: set<string>)
    requires us <= ages.Keys
    requires forall k: QueueKey :: Plain(k) && (k.Next? || k.Prev?) && k.uuid !in ages && k.uuid !in us ==> Encode(k) !in m
    ensures NoStrayLinks(m, ages)
  {
    hide Encode, NoDot;
  }

  lemma OtherLasts(m: Store, m': Store, q: string, us: set<string>)
    requires SameExcept(m, m', q, us)
    ensures forall q': string :: q' != q ==> Value(m', Last(q')) == Value(m, Last(q'))
  {
    hide Encode, NoDot, Value;
    forall q': string | q' != q ensures Value(m', Last(q')) == Value(m, Last(q')) {
      assert Plain(Last(q'));
    }
  }

  lemma {:induction false} EnqueueAllLinked(m: Store, ages: Ages, strict: bool, ids: seq<string>, u: string)
    requires Linked(m, ages, strict) && u in ages && (forall v :: v in ages && v != u ==> ages[v] < ages[u])
    requires strict ==> Distinct(ids) && forall q :: q in ids ==> Value(m, Last(q)) != u
    ensures Linked(EnqueuedAll(m, ids, u), ages, strict)
    ensures NoStrayResults(m, ages) ==> NoStrayResults(EnqueuedAll(m, ids, u), ages)
    decreases |ids|
  {
    hide Encode, Value, Enqueued, Linked, NoStrayResults;
    if ids != [] {
      var rest := ids[1..];
      assert forall i :: 0 <= i < |rest| ==> rest[i] == ids[i + 1];
      EnqueueLinked(m, ages, strict, ids[0], u);
      EnqueueAllLinked(Enqueued(m, ids[0], u), ages, strict, rest, u);
    }
  }

  lemma ClearLinked(m: Store, ages: Ages, strict: bool, q: string)
    requires Linked(m, ages, strict)
    ensures Linked(Cleared(m, q), ages, strict)
    ensures NoStrayResults(m, ages) <==> NoStrayResults(Cleared(m, q), ages)
  {
    hide Encode, NoDot, Value, Cleared, IsList, RawStored, NoStrayResults, Numbered, NoStrayLinks;
    var m' := Cleared(m, q);
    AgesClosed(m, ages, strict, q);
    ClearedTouches(m, q, ages.Keys);
    OthersLinked(m, m', ages, strict, q, ages.Keys);
    NoneStray(m', ages, ages.Keys);
    hide SameExcept;
    forall k: QueueKey | Plain(k) ensures Leads(ages, strict, k, Value(m', k)) {
      assert Leads(ages, strict, k, Value(m, k));
    }
  }

  lemma AgesClosed(m: Store, ages: Ages, strict: bool, q: string)
    requires Linked(m, ages, strict)
    ensures Closed(m, q, ages.Keys) && (Value(m, First(q)) == "" || Value(m, First(q)) in ages)
  {
    hide Encode, NoDot, Value;
    assert Plain(First(q));
    forall u | u in ages ensures NoDot(u) && (Value(m, Next(q, u)) == "" || Value(m, Next(q, u)) in ages) {
      assert ValidUuid(u) && Plain(Next(q, u));
    }
  }

  // ---------- walks end ----------

  lemma {:induction false} WalkFrom(m: Store, ages: Ages, q: string, u: string) returns (t: seq<string>)
    requires Linked(m, ages, true) && u in ages
    ensures t != [] && t[0] == u && NextLinks(m, q, t) && forall i :: 0 <= i < |t| ==> ValidUuid(t[i])
    decreases |ages| - ages[u]
  {
    hide Encode, Value, NoDot;
    var v := Value(m, Next(q, u));
    assert Leads(ages, true, Next(q, u), v) by { assert Plain(Next(q, u)); }
    if v == "" {
      t := [u];
    } else {
      var rest := WalkFrom(m, ages, q, v);
      t := [u] + rest;
      forall i {:trigger Value(m, Next(q, t[i]))} | 0 <= i < |t| ensures Value(m, Next(q, t[i])) == At(t, i + 1) {
        if i > 0 {
          assert t[i] == rest[i - 1];
          assert Value(m, Next(q, rest[i - 1])) == At(rest, i);
        }
      }
    }
  }

  /** From every head, following next keys comes to an end. */
  lemma WalkExists(m: Store, ages: Ages, q: string) returns (t: seq<string>)
    requires Linked(m, ages, true)
    ensures IsWalk(m, q, t)
  {
    hide Encode, Value, NoDot;
    var u := Value(m, First(q));
    assert Leads(ages, true, First(q), u) by { assert Plain(First(q)); }
    if u == "" {
      t := [];
    } else {
      t := WalkFrom(m, ages, q, u);
    }
  }
}
