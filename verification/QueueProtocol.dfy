/** Whole runs of the queue: nothing is lost or completed twice, devices that answer what they
    were given drain the queue in order, and sessions of deferrals end. */
module QueueProtocol {
  import opened QueueList
  import opened QueueMachine

  /** The command a call adds to one enrollment's queue, if any. */
  function Added(a: Machine, op: Op, id: string): seq<string> {
    if op.Enqueue? && op.uuid !in a.commands && id in op.ids then [op.uuid] else []
  }

  /** The commands that leave one enrollment's queue in a call: completed by a report of that
      enrollment, or dropped when its queue is cleared. */
  function Leaving(a: Machine, op: Op, id: string): seq<string> {
    if Completes(op) && op.id == id then [op.uuid]
    else if op.Clear? && op.id == id then a.Queue(id)
    else []
  }

  function EnqueuedTo(a: Machine, ops: seq<Op>, id: string): seq<string>
    decreases |ops|
  {
    if ops == [] then [] else Added(a, ops[0], id) + EnqueuedTo(Apply(a, ops[0]), ops[1..], id)
  }

  function Departed(a: Machine, ops: seq<Op>, id: string): seq<string>
    decreases |ops|
  {
    if ops == [] then [] else Leaving(a, ops[0], id) + Departed(Apply(a, ops[0]), ops[1..], id)
  }

  function Removing(s: seq<string>, gone: seq<string>): seq<string> {
    if s == [] then []
    else if s[0] in gone then Removing(s[1..], gone)
    else [s[0]] + Removing(s[1..], gone)
  }

  lemma AddedIsNew(a: Machine, op: Op, id: string)
    ensures forall u :: u in a.commands ==> u in Apply(a, op).commands
    ensures forall u :: u in Added(a, op, id) ==> u !in a.commands && u in Apply(a, op).commands
  {
  }

  lemma {:induction false} FreshlyEnqueued(a: Machine, ops: seq<Op>, id: string)
    ensures Distinct(EnqueuedTo(a, ops, id))
    ensures forall u :: u in EnqueuedTo(a, ops, id) ==> u !in a.commands
    decreases |ops|
  {
    if ops != [] {
      hide Apply;
      var e := EnqueuedTo(Apply(a, ops[0]), ops[1..], id);
      FreshlyEnqueued(Apply(a, ops[0]), ops[1..], id);
      AddedIsNew(a, ops[0], id);
      assert forall u :: u in Added(a, ops[0], id) ==> u !in e;
      assert Distinct(Added(a, ops[0], id) + e);
    }
  }

  lemma {:induction false} MultisetWithout(s: seq<string>, u: string)
    requires u in s
    ensures multiset(Without(s, u)) + multiset{u} == multiset(s)
  {
    if s[0] == u {
      assert s == [u] + s[1..];
    } else {
      MultisetWithout(s[1..], u);
      assert s == [s[0]] + s[1..];
    }
  }

  lemma StepConserves(a: Machine, op: Op, id: string)
    requires Legal(a, op)
    ensures multiset(a.Queue(id)) + multiset(Added(a, op, id))
         == multiset(Leaving(a, op, id)) + multiset(Apply(a, op).Queue(id))
  {
    if op.Enqueue? {
      if op.uuid !in a.commands {
        QueueAfterEnqueue(a, op, id);
      }
    } else {
      QueueAfterOther(a, op, id);
      if Completes(op) && op.id == id {
        MultisetWithout(a.Queue(id), op.uuid);
      }
    }
  }

  /** Conservation: whatever was queued or gets queued has departed or is still queued, with the
      same multiplicity. */
  lemma {:induction false} Conservation(a: Machine, ops: seq<Op>, id: string)
    requires LegalRun(a, ops)
    ensures multiset(a.Queue(id)) + multiset(EnqueuedTo(a, ops, id))
         == multiset(Departed(a, ops, id)) + multiset(Run(a, ops).Queue(id))
    decreases |ops|
  {
    if ops != [] {
      hide Apply, Added, Leaving, Legal;
      var op := ops[0];
      var a' := Apply(a, op);
      StepConserves(a, op, id);
      Conservation(a', ops[1..], id);
      var e, d := EnqueuedTo(a', ops[1..], id), Departed(a', ops[1..], id);
      assert EnqueuedTo(a, ops, id) == Added(a, op, id) + e;
      assert Departed(a, ops, id) == Leaving(a, op, id) + d;
      var r := Run(a', ops[1..]);
      assert Run(a, ops) == r;
      hide EnqueuedTo, Departed, Run, LegalRun;
      assert multiset(Added(a, op, id) + e) == multiset(Added(a, op, id)) + multiset(e);
      assert multiset(Leaving(a, op, id) + d) == multiset(Leaving(a, op, id)) + multiset(d);
      RegroupBags(multiset(a.Queue(id)), multiset(Added(a, op, id)), multiset(Leaving(a, op, id)),
                  multiset(a'.Queue(id)), multiset(e), multiset(d), multiset(r.Queue(id)));
    }
  }

  lemma RegroupBags(q: multiset<string>, x: multiset<string>, l: multiset<string>, q': multiset<string>,
                    e: multiset<string>, d: multiset<string>, r: multiset<string>)
    requires q + x == l + q' && q' + e == d + r
    ensures q + (x + e) == (l + d) + r
  {
    assert q + (x + e) == (q + x) + e;
    assert (l + q') + e == l + (q' + e);
    assert l + (d + r) == (l + d) + r;
  }

  lemma {:induction false} RemovingConcat(s: seq<string>, t: seq<string>, gone: seq<string>)
    ensures Removing(s + t, gone) == Removing(s, gone) + Removing(t, gone)
  {
    if s == [] {
      assert s + t == t;
    } else {
      RemovingConcat(s[1..], t, gone);
      assert (s + t)[1..] == s[1..] + t;
    }
  }

  lemma {:induction false} RemovingOne(s: seq<string>, u: string, gone: seq<string>)
    requires Distinct(s)
    ensures Removing(s, [u] + gone) == Removing(Without(s, u), gone)
  {
    if s != [] {
      if s[0] == u {
        RemovingUnused(s[1..], [u], gone);
      } else {
        RemovingOne(s[1..], u, gone);
      }
    }
  }

  lemma {:induction false} RemovingUnused(s: seq<string>, us: seq<string>, gone: seq<string>)
    requires forall x :: x in us ==> x !in s
    ensures Removing(s, us + gone) == Removing(s, gone)
  {
    if s != [] {
      assert s[0] !in us;
      RemovingUnused(s[1..], us, gone);
    }
  }

  lemma {:induction false} RemovingAll(s: seq<string>, gone: seq<string>)
    requires forall u :: u in s ==> u in gone
    ensures Removing(s, gone) == []
  {
    if s != [] {
      assert s[0] in s;
      RemovingAll(s[1..], gone);
    }
  }

  lemma StepKeepsOrder(a: Machine, op: Op, id: string, e: seq<string>, d: seq<string>)
    requires Sound(a) && Legal(a, op)
    requires forall u :: u in e ==> u !in Apply(a, op).commands
    ensures Removing(Apply(a, op).Queue(id) + e, d)
         == Removing(a.Queue(id) + (Added(a, op, id) + e), Leaving(a, op, id) + d)
  {
    var q, q' := a.Queue(id), Apply(a, op).Queue(id);
    if op.Enqueue? {
      if op.uuid !in a.commands {
        QueueAfterEnqueue(a, op, id);
      }
      hide Removing;
      assert q' + e == q + (Added(a, op, id) + e);
      assert Leaving(a, op, id) + d == d;
    } else {
      QueueAfterOther(a, op, id);
      assert Added(a, op, id) + e == e;
      LeavingKeepsOrder(a, op, id, e, d);
    }
  }

  lemma LeavingKeepsOrder(a: Machine, op: Op, id: string, e: seq<string>, d: seq<string>)
    requires Sound(a) && Legal(a, op) && !op.Enqueue?
    requires forall u :: u in e ==> u !in Apply(a, op).commands
    ensures Removing(Apply(a, op).Queue(id) + e, d) == Removing(a.Queue(id) + e, Leaving(a, op, id) + d)
  {
    var q, q' := a.Queue(id), Apply(a, op).Queue(id);
    QueueAfterOther(a, op, id);
    hide Apply;
    RemovingConcat(q, e, Leaving(a, op, id) + d);
    RemovingConcat(q', e, d);
    RemovingUnused(e, Leaving(a, op, id), d);
    if Completes(op) && op.id == id {
      RemovingOne(q, op.uuid, d);
    } else if op.Clear? && op.id == id {
      RemovingAll(q, q + d);
    } else {
      assert Leaving(a, op, id) + d == d;
    }
  }

  /** The order of a queue is the order of enqueueing: after any legal run it is exactly what was
      enqueued with the departed commands taken out. */
  lemma {:induction false} OrderKept(a: Machine, ops: seq<Op>, id: string)
    requires Sound(a) && LegalRun(a, ops)
    ensures Run(a, ops).Queue(id) == Removing(a.Queue(id) + EnqueuedTo(a, ops, id), Departed(a, ops, id))
    decreases |ops|
  {
    if ops == [] {
      RemovingNothing(a.Queue(id) + []);
    } else {
      SoundStep(a, ops[0]);
      var a' := Apply(a, ops[0]);
      OrderKept(a', ops[1..], id);
      FreshlyEnqueued(a', ops[1..], id);
      StepKeepsOrder(a, ops[0], id, EnqueuedTo(a', ops[1..], id), Departed(a', ops[1..], id));
    }
  }

  lemma {:induction false} RemovingNothing(s: seq<string>)
    ensures Removing(s, []) == s
  {
    if s != [] {
      RemovingNothing(s[1..]);
    }
  }

  /** From an empty store, over every legal run with deferrals and clears: every command enqueued
      to an enrollment is at the end either still queued or departed, never both and never twice,
      and what is queued is in enqueue order. */
  lemma ExactlyOnce(ops: seq<Op>, id: string)
    requires LegalRun(EMPTY, ops)
    ensures var e, d, q := EnqueuedTo(EMPTY, ops, id), Departed(EMPTY, ops, id), Run(EMPTY, ops).Queue(id);
            && Distinct(d + q)
            && multiset(d + q) == multiset(e)
            && q == Removing(e, d)
  {
    hide EnqueuedTo, Departed, Run, Removing, LegalRun;
    var e, d, q := EnqueuedTo(EMPTY, ops, id), Departed(EMPTY, ops, id), Run(EMPTY, ops).Queue(id);
    Conservation(EMPTY, ops, id);
    OrderKept(EMPTY, ops, id);
    FreshlyEnqueued(EMPTY, ops, id);
    assert EMPTY.Queue(id) + e == e;
    DistinctByMultiset(e, d + q);
  }

  lemma DistinctByMultiset(s: seq<string>, t: seq<string>)
    requires Distinct(s) && multiset(s) == multiset(t)
    ensures Distinct(t)
  {
    forall i, j | 0 <= i < j < |t| ensures t[i] != t[j] {
      if t[i] == t[j] {
        assert t == t[..i] + [t[i]] + t[i + 1..j] + [t[j]] + t[j + 1..];
        assert multiset(t)[t[i]] >= 2;
        CountDistinct(s, t[i]);
      }
    }
  }

  lemma {:induction false} CountDistinct(s: seq<string>, u: string)
    requires Distinct(s)
    ensures multiset(s)[u] <= 1
  {
    if s != [] {
      CountDistinct(s[1..], u);
      assert s == [s[0]] + s[1..];
      if s[0] == u {
        assert u !in s[1..];
        assert u !in multiset(s[1..]);
      }
    }
  }

  // ---------- devices that answer what they were given ----------

  /** A report completes the command the enrollment was last given and has not answered. */
  predicate Answers(op: Op, given: map<string, string>) {
    match op
    case Enqueue(ids, uuid, _) => ValidUuid(uuid) && Distinct(ids)
    case Session(id, status, uuid, _) =>
      status == "Idle" || (status != "NotNow" && id in given && uuid == given[id])
    case Clear(_) => true
  }

  /** The commands in the hands of enrollments after a call. */
  function Given(a: Machine, op: Op, given: map<string, string>): map<string, string> {
    match op
    case Enqueue(_, _, _) => given
    case Session(id, _, _, _) =>
      var r := ReplyTo(a, op);
      if r.Deliver? then given[id := r.uuid] else given - {id}
    case Clear(id) => given - {id}
  }

  predicate Compliant(a: Machine, ops: seq<Op>, given: map<string, string>)
    decreases |ops|
  {
    ops == [] || (Answers(ops[0], given) && Compliant(Apply(a, ops[0]), ops[1..], Given(a, ops[0], given)))
  }

  /** Every command in the hands of an enrollment is the head of its queue. */
  ghost predicate HoldsHeads(a: Machine, given: map<string, string>) {
    forall id :: id in given ==> a.Queue(id) != [] && given[id] == a.Queue(id)[0]
  }

  lemma CompliantSession(a: Machine, op: Op, given: map<string, string>)
    requires Sound(a) && HoldsHeads(a, given) && Answers(op, given) && op.Session?
    ensures Legal(a, op) && SparesTail(a, op)
    ensures a.Queue(op.id) == Leaving(a, op, op.id) + Apply(a, op).Queue(op.id)
    ensures var q := Apply(a, op).Queue(op.id);
            op.id in Given(a, op, given) ==> q != [] && Given(a, op, given)[op.id] == q[0]
  {
    QueueAfterOther(a, op, op.id);
    var q := a.Queue(op.id);
    if op.status != "Idle" {
      assert op.uuid == q[0];
      assert Distinct(q);
    }
  }

  lemma CompliantAt(a: Machine, op: Op, given: map<string, string>, id: string)
    requires Sound(a) && HoldsHeads(a, given) && Answers(op, given)
    ensures a.Queue(id) + Added(a, op, id) == Leaving(a, op, id) + Apply(a, op).Queue(id)
    ensures id in Given(a, op, given) ==>
              Apply(a, op).Queue(id) != [] && Given(a, op, given)[id] == Apply(a, op).Queue(id)[0]
  {
    if op.Session? && op.id == id {
      CompliantSession(a, op, given);
    } else {
      hide ValidUuid, ReplyTo, Without, Sound;
      if op.Enqueue? {
        if op.uuid !in a.commands {
          QueueAfterEnqueue(a, op, id);
        }
      } else {
        QueueAfterOther(a, op, id);
      }
    }
  }

  lemma CompliantStep(a: Machine, op: Op, given: map<string, string>)
    requires Sound(a) && HoldsHeads(a, given) && Answers(op, given)
    ensures Legal(a, op) && SparesTail(a, op)
    ensures HoldsHeads(Apply(a, op), Given(a, op, given))
    ensures forall id :: a.Queue(id) + Added(a, op, id) == Leaving(a, op, id) + Apply(a, op).Queue(id)
  {
    if op.Session? {
      CompliantSession(a, op, given);
    }
    hide Apply, Given, Added, Leaving, Answers, Sound, SparesTail, Legal;
    forall id
      ensures a.Queue(id) + Added(a, op, id) == Leaving(a, op, id) + Apply(a, op).Queue(id)
      ensures id in Given(a, op, given) ==>
                Apply(a, op).Queue(id) != [] && Given(a, op, given)[id] == Apply(a, op).Queue(id)[0]
    {
      CompliantAt(a, op, given, id);
    }
  }

  lemma Regroup(q: seq<string>, x: seq<string>, l: seq<string>, q': seq<string>,
                e: seq<string>, d: seq<string>, r: seq<string>)
    requires q + x == l + q' && q' + e == d + r
    ensures q + (x + e) == (l + d) + r
  {
    assert q + (x + e) == (q + x) + e;
    assert (l + q') + e == l + (q' + e);
    assert l + (d + r) == (l + d) + r;
  }

  lemma {:induction false} InOrderFrom(a: Machine, ops: seq<Op>, given: map<string, string>, id: string)
    requires Sound(a) && HoldsHeads(a, given) && Compliant(a, ops, given)
    ensures LegalRun(a, ops) && SparesTailRun(a, ops) && Sound(Run(a, ops))
    ensures a.Queue(id) + EnqueuedTo(a, ops, id) == Departed(a, ops, id) + Run(a, ops).Queue(id)
    decreases |ops|
  {
    if ops == [] {
      assert a.Queue(id) + [] == [] + a.Queue(id);
    } else {
      hide Apply, Added, Leaving, Legal, SparesTail, Answers, Given, HoldsHeads, Sound;
      var op := ops[0];
      var a' := Apply(a, op);
      CompliantStep(a, op, given);
      SoundStep(a, op);
      InOrderFrom(a', ops[1..], Given(a, op, given), id);
      Regroup(a.Queue(id), Added(a, op, id), Leaving(a, op, id), a'.Queue(id),
              EnqueuedTo(a', ops[1..], id), Departed(a', ops[1..], id), Run(a, ops).Queue(id));
    }
  }

  /** If devices complete exactly what they are given, commands leave each queue in the order they
      were enqueued, the next one delivered is always the oldest that has not left, and no command
      is ever completed from the tail of a longer queue. */
  lemma InOrder(ops: seq<Op>, id: string)
    requires Compliant(EMPTY, ops, map[])
    ensures LegalRun(EMPTY, ops) && SparesTailRun(EMPTY, ops)
    ensures var e, d, a := EnqueuedTo(EMPTY, ops, id), Departed(EMPTY, ops, id), Run(EMPTY, ops);
            && e == d + a.Queue(id)
            && if |d| == |e| then Next(a, id, false) == NoCommand
               else e[|d|] in a.commands && Next(a, id, false) == Deliver(e[|d|], a.commands[e[|d|]])
  {
    InOrderFrom(EMPTY, ops, map[], id);
    var e, d, q := EnqueuedTo(EMPTY, ops, id), Departed(EMPTY, ops, id), Run(EMPTY, ops).Queue(id);
    assert EMPTY.Queue(id) + e == e;
    if |d| < |e| {
      assert e[|d|] == q[0];
    }
  }

  // ---------- sessions of deferrals ----------

  function NotNow(id: string, uuid: string): Op {
    Session(id, "NotNow", uuid, "")
  }

  /** The commands of a sequence the enrollment has not deferred. */
  function Undeferred(a: Machine, id: string, s: seq<string>): seq<string> {
    if s == [] then []
    else if a.Deferred(id, s[0]) then Undeferred(a, id, s[1..])
    else [s[0]] + Undeferred(a, id, s[1..])
  }

  lemma {:induction false} FirstUndeferred(a: Machine, id: string, s: seq<string>)
    ensures FirstPending(a, id, s, true) == if Undeferred(a, id, s) == [] then [] else [Undeferred(a, id, s)[0]]
  {
    if s != [] {
      FirstUndeferred(a, id, s[1..]);
    }
  }

  lemma {:induction false} UndeferredSubset(a: Machine, id: string, s: seq<string>)
    requires Distinct(s)
    ensures Distinct(Undeferred(a, id, s))
    ensures forall u :: u in Undeferred(a, id, s) <==> u in s && !a.Deferred(id, u)
  {
    if s != [] {
      UndeferredSubset(a, id, s[1..]);
    }
  }

  lemma DeferredAfter(a: Machine, id: string, u: string)
    requires u != ""
    ensures var a' := Apply(a, NotNow(id, u));
            && a'.Queue(id) == a.Queue(id)
            && a'.commands == a.commands
            && forall x :: a'.Deferred(id, x) <==> x == u || a.Deferred(id, x)
  {
  }

  lemma {:induction false} DeferOne(a: Machine, id: string, u: string, s: seq<string>)
    requires u != ""
    ensures Undeferred(Apply(a, NotNow(id, u)), id, s) == Removing(Undeferred(a, id, s), [u])
  {
    if s != [] {
      DeferOne(a, id, u, s[1..]);
      DeferredAfter(a, id, u);
      var p := Undeferred(a, id, s[1..]);
      assert ([s[0]] + p)[1..] == p;
      assert s[0] in [u] <==> s[0] == u;
    }
  }

  lemma {:induction false} UndeferredShorter(a: Machine, id: string, s: seq<string>, u: string)
    requires u in s && a.Deferred(id, u)
    ensures |Undeferred(a, id, s)| < |s|
  {
    if s[0] == u {
      UndeferredAtMost(a, id, s[1..]);
    } else {
      UndeferredShorter(a, id, s[1..], u);
    }
  }

  lemma {:induction false} UndeferredAtMost(a: Machine, id: string, s: seq<string>)
    ensures |Undeferred(a, id, s)| <= |s|
  {
    if s != [] {
      UndeferredAtMost(a, id, s[1..]);
    }
  }

  lemma DeferStep(a: Machine, id: string, u: string)
    requires Sound(a) && u in a.Queue(id)
    ensures var a' := Apply(a, NotNow(id, u));
            var p := Undeferred(a', id, a.Queue(id));
            && u != ""
            && Sound(a')
            && a'.Queue(id) == a.Queue(id)
            && p == Removing(Undeferred(a, id, a.Queue(id)), [u])
            && Distinct(p)
            && (forall x :: x in p ==> x in a.Queue(id) && x in a.commands)
            && ReplyTo(a, NotNow(id, u)) ==
                 (if p == [] then NoCommand else Deliver(p[0], a.commands[p[0]]))
  {
    assert ValidUuid(u);
    DeferredAfter(a, id, u);
    DeferOne(a, id, u, a.Queue(id));
    SoundStep(a, NotNow(id, u));
    var a' := Apply(a, NotNow(id, u));
    FirstUndeferred(a', id, a.Queue(id));
    UndeferredSubset(a', id, a.Queue(id));
  }

  lemma RemovingHead(p: seq<string>)
    requires p != [] && Distinct(p)
    ensures Removing(p, [p[0]]) == p[1..]
  {
    RemovingUnused(p[1..], [p[0]], []);
    RemovingNothing(p[1..]);
    assert [p[0]] + [] == [p[0]];
  }

  /** A device holding command `u` answers NotNow to it and to everything it is given after: the
      commands it is given, in order, until the reply is empty, and the machine left behind. */
  ghost function DeferAll(a: Machine, id: string, u: string): (Machine, seq<string>)
    requires Sound(a) && u in a.Queue(id)
    decreases |Undeferred(Apply(a, NotNow(id, u)), id, a.Queue(id))|
  {
    DeferStep(a, id, u);
    var a' := Apply(a, NotNow(id, u));
    match ReplyTo(a, NotNow(id, u))
    case Deliver(u', _) =>
      RemovingHead(Undeferred(a', id, a.Queue(id)));
      DeferStep(a', id, u');
      var (a'', us) := DeferAll(a', id, u');
      (a'', [u'] + us)
    case _ => (a', [])
  }

  lemma DeferAllOnce(a: Machine, id: string, u: string)
    requires Sound(a) && u in a.Queue(id)
    ensures var a' := Apply(a, NotNow(id, u));
            var p := Undeferred(a', id, a.Queue(id));
            && Sound(a') && a'.Queue(id) == a.Queue(id)
            && (p != [] ==> p[0] in a.Queue(id))
            && DeferAll(a, id, u) ==
                 if p == [] then (a', [])
                 else (DeferAll(a', id, p[0]).0, [p[0]] + DeferAll(a', id, p[0]).1)
  {
    DeferStep(a, id, u);
    hide Apply, ReplyTo, ValidUuid, Sound, Undeferred;
  }

  lemma {:induction false} DeferralRun(a: Machine, id: string, u: string)
    requires Sound(a) && u in a.Queue(id)
    ensures var (a', us) := DeferAll(a, id, u);
            && us == Removing(Undeferred(a, id, a.Queue(id)), [u])
            && a'.Queue(id) == a.Queue(id)
            && a'.commands == a.commands
            && Undeferred(a', id, a.Queue(id)) == []
    decreases |Undeferred(Apply(a, NotNow(id, u)), id, a.Queue(id))|
  {
    DeferStep(a, id, u);
    DeferredAfter(a, id, u);
    DeferAllOnce(a, id, u);
    hide Apply, ReplyTo, Sound, DeferAll, Undeferred;
    var a' := Apply(a, NotNow(id, u));
    var p := Undeferred(a', id, a.Queue(id));
    if p != [] {
      RemovingHead(p);
      DeferStep(a', id, p[0]);
      DeferralRun(a', id, p[0]);
    }
  }

  /** A session of deferrals hands out every command not deferred yet exactly once, in queue order,
      and then ends; the queue is unchanged and the next Idle starts at its head again. */
  lemma DeferralsEnd(a: Machine, id: string, u: string)
    requires Sound(a) && u in a.Queue(id)
    ensures var (a', us) := DeferAll(a, id, u);
            && us == Removing(Undeferred(a, id, a.Queue(id)), [u])
            && 1 + |us| <= |a.Queue(id)|
            && a'.Queue(id) == a.Queue(id)
            && (forall x :: x in a.Queue(id) ==> a'.Deferred(id, x))
            && Next(a', id, true) == NoCommand
            && Next(a', id, false) == Deliver(a.Queue(id)[0], a.commands[a.Queue(id)[0]])
  {
    DeferStep(a, id, u);
    DeferredAfter(a, id, u);
    DeferralRun(a, id, u);
    UndeferredShorter(Apply(a, NotNow(id, u)), id, a.Queue(id), u);
    hide Apply, ReplyTo, ValidUuid, DeferAll;
    var a' := DeferAll(a, id, u).0;
    FirstUndeferred(a', id, a.Queue(id));
    UndeferredSubset(a', id, a.Queue(id));
    assert a.Queue(id)[0] in a.commands;
  }
}
