/** The relational queue: tables as maps, statements as functions of the tables, and the query for
    the next command as the set of answers it may give. */
module SqlQueue {
  import opened QueueList
  import opened QueueMachine

  /** A row of enrollment_queue. Nothing sets a priority, so the creation time alone orders rows. */
  datatype Row = Row(active: bool, created: nat)

  datatype Tables = Tables(
    enrollments: map<string, string>,
    commands: map<string, Command>,
    queue: map<(string, string), Row>,
    results: map<(string, string), Result>
  )

  // ---------- statements ----------

  /** Inserting the command and its queue rows: refused without ids, for a used primary key, or for
      an unknown enrollment. */
  predicate InsertAccepted(t: Tables, ids: seq<string>, uuid: string) {
    && ids != [] && Distinct(ids)
    && uuid !in t.commands
    && forall id :: id in ids ==> id in t.enrollments && (id, uuid) !in t.queue
  }

  function Inserted(t: Tables, ids: seq<string>, uuid: string, c: Command, now: nat): Tables {
    t.(commands := t.commands[uuid := c],
       queue := t.queue + map id | id in Items(ids) :: (id, uuid) := Row(true, now))
  }

  /** The first DELETE: the queue row of one enrollment together with its result. */
  function RowDeleted(t: Tables, id: string, uuid: string): Tables {
    if (id, uuid) in t.queue then t.(queue := t.queue - {(id, uuid)}, results := t.results - {(id, uuid)})
    else t
  }

  predicate Referenced(t: Tables, uuid: string) {
    (exists k :: k in t.queue && k.1 == uuid) || (exists k :: k in t.results && k.1 == uuid)
  }

  /** The second DELETE: the command itself when no queue row and no result refer to it. */
  function CommandDeleted(t: Tables, uuid: string): Tables {
    if Referenced(t, uuid) then t else t.(commands := t.commands - {uuid})
  }

  /** Inserting or updating the result, which needs the enrollment and the command to exist. */
  function ResultUpserted(t: Tables, id: string, uuid: string, r: Result): Tables {
    if id in t.enrollments && uuid in t.commands then t.(results := t.results[(id, uuid) := r]) else t
  }

  function Reported(t: Tables, rm: bool, id: string, status: string, uuid: string, raw: Bytes): Tables {
    if status == "Idle" then t
    else if rm && status != "NotNow" then CommandDeleted(RowDeleted(t, id, uuid), uuid)
    else ResultUpserted(t, id, uuid, Result(status, raw))
  }

  predicate Open(t: Tables, k: (string, string)) {
    k !in t.results || t.results[k].status == "NotNow"
  }

  /** Clearing a device's queue marks the open rows of the device and of its user channels. */
  function Cleared(t: Tables, device: string): Tables {
    t.(queue := map k | k in t.queue ::
      if k.0 in t.enrollments && t.enrollments[k.0] == device && k.1 in t.commands && Open(t, k)
      then t.queue[k].(active := false) else t.queue[k])
  }

  // ---------- the query ----------

  /** The rows the query selects from. */
  predicate Candidate(t: Tables, id: string, skipNotNow: bool, uuid: string) {
    && (id, uuid) in t.queue
    && t.queue[(id, uuid)].active
    && uuid in t.commands
    && ((id, uuid) !in t.results || (t.results[(id, uuid)].status == "NotNow" && !skipNotNow))
  }

  /** What ORDER BY created_at LIMIT 1 may answer. */
  ghost predicate MayAnswer(t: Tables, id: string, skipNotNow: bool, r: Reply) {
    match r
    case NoCommand => forall u :: !Candidate(t, id, skipNotNow, u)
    case Deliver(u, c) =>
      && Candidate(t, id, skipNotNow, u)
      && c == t.commands[u]
      && forall v :: Candidate(t, id, skipNotNow, v) ==> t.queue[(id, u)].created <= t.queue[(id, v)].created
    case _ => false
  }

  /** One call against the tables; `now` is the time of the call. */
  function SqlApply(t: Tables, rm: bool, op: Op, now: nat): Tables {
    match op
    case Enqueue(ids, uuid, c) => if InsertAccepted(t, ids, uuid) then Inserted(t, ids, uuid, c, now) else t
    case Session(id, status, uuid, raw) => Reported(t, rm, id, status, uuid, raw)
    case Clear(id) => Cleared(t, id)
  }

  // ---------- the simulation relation ----------

  /** Everything queued for any enrollment has a row. */
  ghost predicate RowsExist(a: Machine, t: Tables) {
    forall id, u :: u in a.Queue(id) ==> (id, u) in t.queue && id in t.enrollments
  }

  ghost predicate CommandsAgree(a: Machine, t: Tables) {
    forall u :: u in t.commands ==> u in a.commands && t.commands[u] == a.commands[u]
  }

  /** The foreign keys on commands, and a clock ahead of every row. */
  ghost predicate KeysHold(t: Tables, now: nat) {
    && (forall k :: k in t.queue ==> k.1 in t.commands && t.queue[k].created < now)
    && (forall k :: k in t.results ==> k.1 in t.commands)
  }

  ghost predicate Related(a: Machine, t: Tables, now: nat) {
    Sound(a) && ResultsKnown(a) && RowsExist(a, t) && CommandsAgree(a, t) && KeysHold(t, now)
  }

  /** The rows the query may select are the queue of device `d`. */
  ghost predicate SameMembers(a: Machine, t: Tables, d: string) {
    forall u :: Candidate(t, d, false, u) <==> u in a.Queue(d)
  }

  /** Their creation times are in queue order. */
  ghost predicate SameOrder(a: Machine, t: Tables, d: string) {
    Increasing(t, d, a.Queue(d))
  }

  ghost predicate Increasing(t: Tables, d: string, s: seq<string>) {
    forall i, j :: 0 <= i < j < |s| ==> Created(t, d, s[i]) < Created(t, d, s[j])
  }

  function Created(t: Tables, id: string, u: string): int {
    if (id, u) in t.queue then t.queue[(id, u)].created else -1
  }

  ghost predicate SameDeferrals(a: Machine, t: Tables, d: string) {
    forall u :: u in a.Queue(d) ==> ((d, u) in t.results <==> a.Deferred(d, u))
  }

  /** The open active rows of device `d`, by creation time, are its queue. */
  ghost predicate Simulates(a: Machine, t: Tables, d: string) {
    && d in t.enrollments && t.enrollments[d] == d
    && SameMembers(a, t, d)
    && SameOrder(a, t, d)
    && SameDeferrals(a, t, d)
  }

  /** Calls on which the backends are compared: enqueues are of unused uuids to enrollments that
      exist, reports name an outstanding command. */
  predicate Comparable(a: Machine, t: Tables, op: Op) {
    match op
    case Enqueue(ids, uuid, _) =>
      && ValidUuid(uuid) && uuid !in a.commands && ids != [] && Distinct(ids)
      && forall id :: id in ids ==> id in t.enrollments
    case Session(id, status, uuid, _) => status == "Idle" || uuid in a.Queue(id)
    case Clear(_) => true
  }

  // ---------- the query answers as the machine does ----------

  lemma {:induction false} PendingIsFirst(a: Machine, id: string, s: seq<string>, skipNotNow: bool)
    ensures var p := FirstPending(a, id, s, skipNotNow);
            if p == [] then forall u :: u in s ==> skipNotNow && a.Deferred(id, u)
            else exists i :: 0 <= i < |s| && s[i] == p[0] && |p| == 1
                          && !(skipNotNow && a.Deferred(id, s[i]))
                          && forall j :: 0 <= j < i ==> skipNotNow && a.Deferred(id, s[j])
  {
    if s != [] && skipNotNow && a.Deferred(id, s[0]) {
      PendingIsFirst(a, id, s[1..], skipNotNow);
      var p := FirstPending(a, id, s[1..], skipNotNow);
      if p != [] {
        var i :| 0 <= i < |s[1..]| && s[1..][i] == p[0] && !(skipNotNow && a.Deferred(id, s[1..][i]))
              && forall j :: 0 <= j < i ==> skipNotNow && a.Deferred(id, s[1..][j]);
        assert s[i + 1] == p[0];
        forall j | 0 <= j < i + 1 ensures skipNotNow && a.Deferred(id, s[j]) {
          if j > 0 {
            assert s[j] == s[1..][j - 1];
          }
        }
      }
    }
  }

  /** On related tables the query's only answer is the machine's next command. */
  lemma QueryAnswers(a: Machine, t: Tables, now: nat, d: string, skipNotNow: bool, r: Reply)
    requires Related(a, t, now) && Simulates(a, t, d)
    ensures MayAnswer(t, d, skipNotNow, r) <==> r == Next(a, d, skipNotNow)
  {
    hide Sound, RowsExist, KeysHold;
    var s := a.Queue(d);
    PendingIsFirst(a, d, s, skipNotNow);
    forall u ensures Candidate(t, d, skipNotNow, u) <==> u in s && !(skipNotNow && a.Deferred(d, u)) {
      assert Candidate(t, d, false, u) <==> u in s;
    }
    OldestFirst(a, t, d);
    hide Simulates, Candidate, FirstPending, SameMembers, SameOrder, SameDeferrals, CommandsAgree;
  }

  /** What the queue's items are in the tables. */
  lemma OldestFirst(a: Machine, t: Tables, d: string)
    requires CommandsAgree(a, t) && Simulates(a, t, d)
    ensures forall u :: u in a.Queue(d) ==>
              u in t.commands && u in a.commands && t.commands[u] == a.commands[u] && (d, u) in t.queue
    ensures forall i, j :: 0 <= i < j < |a.Queue(d)| ==>
              t.queue[(d, a.Queue(d)[i])].created < t.queue[(d, a.Queue(d)[j])].created
  {
    forall u | u in a.Queue(d) ensures u in t.commands && (d, u) in t.queue {
      assert Candidate(t, d, false, u);
    }
    hide Candidate, SameMembers, SameDeferrals;
    var s := a.Queue(d);
    forall i, j | 0 <= i < j < |s| ensures t.queue[(d, s[i])].created < t.queue[(d, s[j])].created {
      assert s[i] in s && s[j] in s;
      assert Created(t, d, s[i]) < Created(t, d, s[j]);
    }
  }

  // ---------- every call keeps the relation ----------

  lemma NewHasNoRows(a: Machine, t: Tables, now: nat, u: string)
    requires Related(a, t, now) && u !in a.commands
    ensures u !in t.commands
    ensures forall id :: (id, u) !in t.queue && (id, u) !in t.results && u !in a.Queue(id)
  {
    forall id ensures (id, u) !in t.queue && (id, u) !in t.results {
      assert (id, u).1 == u;
    }
  }

  /** The insert adds one row per id and changes nothing else. */
  lemma InsertedRows(t: Tables, ids: seq<string>, uuid: string, c: Command, now: nat)
    ensures var t' := Inserted(t, ids, uuid, c, now);
            && (forall k :: k in t'.queue <==> k in t.queue || (k.0 in ids && k.1 == uuid))
            && (forall k :: k in t'.queue ==>
                  t'.queue[k] == if k.0 in ids && k.1 == uuid then Row(true, now) else t.queue[k])
            && t'.enrollments == t.enrollments && t'.results == t.results
            && t'.commands == t.commands[uuid := c]
  {
    forall k: (string, string) | k.0 in ids && k.1 == uuid ensures k in Inserted(t, ids, uuid, c, now).queue {
      assert k == (k.0, uuid);
    }
  }

  lemma InsertRowsExist(a: Machine, t: Tables, now: nat, op: Op)
    requires Related(a, t, now) && Comparable(a, t, op) && op.Enqueue?
    ensures RowsExist(Apply(a, op), Inserted(t, op.ids, op.uuid, op.command, now))
  {
    InsertedRows(t, op.ids, op.uuid, op.command, now);
    var t' := Inserted(t, op.ids, op.uuid, op.command, now);
    forall id, u | u in Apply(a, op).Queue(id) ensures (id, u) in t'.queue && id in t'.enrollments {
      QueueAfterEnqueue(a, op, id);
      hide Apply, ValidUuid, Sound, Inserted, KeysHold, CommandsAgree;
      assert u in a.Queue(id) || (id in op.ids && u == op.uuid);
    }
  }

  lemma InsertStep(a: Machine, t: Tables, now: nat, op: Op)
    requires Related(a, t, now) && Comparable(a, t, op) && op.Enqueue?
    ensures InsertAccepted(t, op.ids, op.uuid)
    ensures Related(Apply(a, op), Inserted(t, op.ids, op.uuid, op.command, now), now + 1)
  {
    hide ValidUuid, Sound, Inserted, RowsExist;
    NewHasNoRows(a, t, now, op.uuid);
    ResultsKnownStep(a, op);
    SoundEnqueue(a, op);
    InsertRowsExist(a, t, now, op);
    InsertedRows(t, op.ids, op.uuid, op.command, now);
    assert CommandsAgree(Apply(a, op), Inserted(t, op.ids, op.uuid, op.command, now));
    hide Apply, CommandsAgree;
  }

  lemma InsertMembers(a: Machine, t: Tables, now: nat, op: Op, d: string)
    requires Related(a, t, now) && Comparable(a, t, op) && op.Enqueue? && Simulates(a, t, d)
    ensures SameMembers(Apply(a, op), Inserted(t, op.ids, op.uuid, op.command, now), d)
  {
    NewHasNoRows(a, t, now, op.uuid);
    QueueAfterEnqueue(a, op, d);
    InsertedRows(t, op.ids, op.uuid, op.command, now);
    hide ValidUuid, Sound, Apply, Inserted, SameOrder, SameDeferrals;
    var t' := Inserted(t, op.ids, op.uuid, op.command, now);
    var q, q' := a.Queue(d), Apply(a, op).Queue(d);
    forall u ensures Candidate(t', d, false, u) <==> u in q' {
      assert u != op.uuid ==> (Candidate(t', d, false, u) <==> Candidate(t, d, false, u));
      assert u in q' <==> u in q || (d in op.ids && u == op.uuid);
    }
  }

  lemma InsertOrder(a: Machine, t: Tables, now: nat, op: Op, d: string)
    requires Related(a, t, now) && Comparable(a, t, op) && op.Enqueue? && Simulates(a, t, d)
    ensures SameOrder(Apply(a, op), Inserted(t, op.ids, op.uuid, op.command, now), d)
  {
    NewHasNoRows(a, t, now, op.uuid);
    QueueAfterEnqueue(a, op, d);
    InsertedRows(t, op.ids, op.uuid, op.command, now);
    hide ValidUuid, Sound, Apply, Inserted, CommandsAgree, SameMembers, SameDeferrals;
    var t' := Inserted(t, op.ids, op.uuid, op.command, now);
    var q, q' := a.Queue(d), Apply(a, op).Queue(d);
    forall u | u in q ensures Created(t', d, u) == Created(t, d, u) < now {
      assert (d, u) in t.queue;
    }
    forall i, j | 0 <= i < j < |q'| ensures Created(t', d, q'[i]) < Created(t', d, q'[j]) {
      assert q'[i] == q[i] && q[i] in q;
      if j < |q| {
        assert q'[j] == q[j] && q[j] in q;
      }
    }
  }

  lemma InsertDeferrals(a: Machine, t: Tables, now: nat, op: Op, d: string)
    requires Related(a, t, now) && Comparable(a, t, op) && op.Enqueue? && Simulates(a, t, d)
    ensures SameDeferrals(Apply(a, op), Inserted(t, op.ids, op.uuid, op.command, now), d)
  {
    NewHasNoRows(a, t, now, op.uuid);
    QueueAfterEnqueue(a, op, d);
    assert Apply(a, op).results == a.results;
    SoundResults(a, d, op.uuid);
    hide ValidUuid, Sound, Apply, CommandsAgree, SameMembers, SameOrder, KeysHold, RowsExist;
  }

  lemma SoundResults(a: Machine, id: string, u: string)
    requires ResultsKnown(a) && u !in a.commands
    ensures !a.Deferred(id, u)
  {
    assert (id, u).1 == u;
  }

  lemma ResultUpsertedStep(a: Machine, t: Tables, now: nat, op: Op, t': Tables)
    requires Related(a, t, now) && Comparable(a, t, op) && op.Session? && op.status != "Idle"
    requires t' == ResultUpserted(t, op.id, op.uuid, Result(op.status, op.raw))
    ensures Related(Apply(a, op), t', now + 1)
  {
    hide ValidUuid, Sound, Without, RowsExist;
    SoundUuidNonEmpty(a, op.id, op.uuid);
    ResultsKnownStep(a, op);
    SoundStep(a, op);
    ReportRowsExist(a, t, op, t');
    QueueAfterOther(a, op, op.id);
    hide Apply;
  }

  lemma ReportRowsExist(a: Machine, t: Tables, op: Op, t': Tables)
    requires Sound(a) && RowsExist(a, t) && op.Session? && op.uuid in a.Queue(op.id)
    requires t'.queue == t.queue && t'.enrollments == t.enrollments
    ensures RowsExist(Apply(a, op), t')
  {
    WithoutSubset(a.Queue(op.id), op.uuid);
    hide ValidUuid, Sound, Without;
    forall id, u | u in Apply(a, op).Queue(id) ensures (id, u) in t'.queue && id in t'.enrollments {
      QueueAfterOther(a, op, id);
    }
  }

  lemma DeferralsAfter(a: Machine, op: Op, d: string)
    requires op.Session? && op.status != "Idle" && op.uuid != ""
    ensures forall u :: Apply(a, op).Deferred(d, u) <==>
              if d == op.id && u == op.uuid then op.status == "NotNow" else a.Deferred(d, u)
  {
    hide Without;
  }

  lemma MembersAfterReport(a: Machine, op: Op, d: string)
    requires Sound(a) && op.Session? && op.status != "Idle" && op.uuid in a.Queue(op.id)
    ensures op.uuid != "" && op.uuid in a.commands
    ensures forall u :: u in Apply(a, op).Queue(d) <==>
              u in a.Queue(d) && !(d == op.id && u == op.uuid && op.status != "NotNow")
  {
    SoundUuidNonEmpty(a, op.id, op.uuid);
    WithoutSubset(a.Queue(d), op.uuid);
    QueueAfterOther(a, op, d);
    hide Apply;
  }

  lemma SoundUuidNonEmpty(a: Machine, id: string, u: string)
    requires Sound(a) && u in a.Queue(id)
    ensures u != "" && u in a.commands
  {
  }

  /** Completing one command leaves the order of the others. */
  lemma OrderAfterReport(a: Machine, t: Tables, t': Tables, op: Op, d: string)
    requires Sound(a) && op.Session? && op.status != "Idle" && op.uuid in a.Queue(op.id)
    requires SameOrder(a, t, d)
    requires forall u :: u in Apply(a, op).Queue(d) ==> Created(t', d, u) == Created(t, d, u)
    ensures SameOrder(Apply(a, op), t', d)
  {
    hide Apply, Sound, Without, Created, Increasing;
    SoundUuidNonEmpty(a, op.id, op.uuid);
    SoundDistinct(a, d);
    QueueAfterOther(a, op, d);
    if Completes(op) && d == op.id {
      IncreasingWithout(t, d, a.Queue(d), op.uuid);
    }
    IncreasingSame(t, t', d, Apply(a, op).Queue(d));
  }

  lemma SoundDistinct(a: Machine, id: string)
    requires Sound(a)
    ensures Distinct(a.Queue(id))
  {
  }

  lemma IncreasingSame(t: Tables, t': Tables, d: string, s: seq<string>)
    requires Increasing(t, d, s) && forall u :: u in s ==> Created(t', d, u) == Created(t, d, u)
    ensures Increasing(t', d, s)
  {
    hide Created;
  }

  lemma IncreasingWithout(t: Tables, d: string, s: seq<string>, u: string)
    requires Distinct(s) && u in s && Increasing(t, d, s)
    ensures Increasing(t, d, Without(s, u))
  {
    var n := IndexOf(s, u);
    WithoutAt(s, n);
    hide Created;
    var s' := s[..n] + s[n + 1..];
    forall i, j | 0 <= i < j < |s'| ensures Created(t, d, s'[i]) < Created(t, d, s'[j]) {
      var i', j' := if i < n then i else i + 1, if j < n then j else j + 1;
      assert s'[i] == s[i'] && s'[j] == s[j'];
      assert Created(t, d, s[i']) < Created(t, d, s[j']);
    }
  }

  lemma ResultUpsertedSimulates(a: Machine, t: Tables, now: nat, op: Op, t': Tables, d: string)
    requires Related(a, t, now) && op.Session? && op.status != "Idle" && op.uuid in a.Queue(op.id)
    requires Simulates(a, t, d)
    requires t' == ResultUpserted(t, op.id, op.uuid, Result(op.status, op.raw))
    ensures Simulates(Apply(a, op), t', d)
  {
    MembersAfterReport(a, op, d);
    DeferralsAfter(a, op, d);
    assert forall u :: Created(t', d, u) == Created(t, d, u);
    OrderAfterReport(a, t, t', op, d);
    assert (op.id, op.uuid) in t.queue && op.uuid in t.commands;
    hide ValidUuid, Sound, Apply, SameOrder;
    forall u ensures Candidate(t', d, false, u) <==> u in Apply(a, op).Queue(d) {
      assert Candidate(t, d, false, u) <==> u in a.Queue(d);
    }
  }

  // ---------- completion in delete mode ----------

  function Deleted(t: Tables, id: string, uuid: string): Tables {
    CommandDeleted(RowDeleted(t, id, uuid), uuid)
  }

  /** What the two deletes leave: every other row, and every command some row still refers to. */
  lemma DeletedRows(t: Tables, id: string, uuid: string)
    requires (id, uuid) in t.queue
    ensures var t' := Deleted(t, id, uuid);
            && t'.enrollments == t.enrollments
            && t'.queue == t.queue - {(id, uuid)}
            && t'.results == t.results - {(id, uuid)}
            && (forall u :: u in t'.commands <==> u in t.commands && (u == uuid ==> Referenced(t', uuid)))
            && (forall u :: u in t'.commands ==> t'.commands[u] == t.commands[u])
  {
  }

  lemma DeletedStep(a: Machine, t: Tables, now: nat, op: Op)
    requires Related(a, t, now) && Completes(op) && op.uuid in a.Queue(op.id)
    ensures Related(Apply(a, op), Deleted(t, op.id, op.uuid), now + 1)
  {
    hide ValidUuid, Sound, Deleted, Without, Apply, KeysHold;
    var t' := Deleted(t, op.id, op.uuid);
    DeletedRowsExist(a, t, op);
    DeletedRows(t, op.id, op.uuid);
    SoundUuidNonEmpty(a, op.id, op.uuid);
    ResultsKnownStep(a, op);
    SoundStep(a, op);
    QueueAfterOther(a, op, op.id);
    hide RowsExist;
    DeletedKeys(t, t', now, op.uuid);
  }

  lemma DeletedRowsExist(a: Machine, t: Tables, op: Op)
    requires Sound(a) && RowsExist(a, t) && Completes(op) && op.uuid in a.Queue(op.id)
    ensures (op.id, op.uuid) in t.queue
    ensures RowsExist(Apply(a, op), Deleted(t, op.id, op.uuid))
  {
    hide ValidUuid, Sound, Deleted, Without, Apply;
    DeletedRows(t, op.id, op.uuid);
    forall id, u | u in Apply(a, op).Queue(id) ensures (id, u) in t.queue && id in t.enrollments && (id, u) != (op.id, op.uuid) {
      AfterCompletion(a, op, id, u);
    }
  }

  lemma DeletedKeys(t: Tables, t': Tables, now: nat, uuid: string)
    requires KeysHold(t, now)
    requires forall k :: k in t'.queue ==> k in t.queue && t'.queue[k] == t.queue[k]
    requires forall k :: k in t'.results ==> k in t.results
    requires forall u :: u in t'.commands <==> u in t.commands && (u == uuid ==> Referenced(t', uuid))
    ensures KeysHold(t', now + 1)
  {
    assert forall k :: (k in t'.queue || k in t'.results) && k.1 == uuid ==> Referenced(t', uuid);
  }

  lemma AfterCompletion(a: Machine, op: Op, id: string, u: string)
    requires Sound(a) && Completes(op) && op.uuid in a.Queue(op.id)
    ensures u in Apply(a, op).Queue(id) <==> u in a.Queue(id) && (id, u) != (op.id, op.uuid)
  {
    MembersAfterReport(a, op, id);
  }

  lemma DeletedSimulates(a: Machine, t: Tables, now: nat, op: Op, d: string)
    requires Related(a, t, now) && Completes(op) && op.uuid in a.Queue(op.id) && Simulates(a, t, d)
    ensures Simulates(Apply(a, op), Deleted(t, op.id, op.uuid), d)
  {
    var t', a' := Deleted(t, op.id, op.uuid), Apply(a, op);
    assert (op.id, op.uuid) in t.queue;
    DeletedRows(t, op.id, op.uuid);
    MembersAfterReport(a, op, d);
    DeferralsAfter(a, op, d);
    forall u | u in a'.Queue(d) ensures Created(t', d, u) == Created(t, d, u) {
      assert (d, u) != (op.id, op.uuid);
    }
    OrderAfterReport(a, t, t', op, d);
    hide ValidUuid, Sound, Apply, SameOrder, Deleted;
    forall u ensures Candidate(t', d, false, u) <==> u in a'.Queue(d) {
      assert Candidate(t, d, false, u) <==> u in a.Queue(d);
      if (d, u) in t'.queue {
        assert u == op.uuid ==> Referenced(t', u);
      }
    }
  }

  // ---------- clearing ----------

  lemma ClearStep(a: Machine, t: Tables, now: nat, op: Op)
    requires Related(a, t, now) && op.Clear?
    ensures Related(Apply(a, op), Cleared(t, op.id), now + 1)
  {
    hide ValidUuid, Sound, Open;
    ResultsKnownStep(a, op);
    SoundStep(a, op);
    QueueAfterOther(a, op, op.id);
    assert Cleared(t, op.id).queue.Keys == t.queue.Keys;
    assert KeysHold(Cleared(t, op.id), now + 1);
    hide KeysHold, Apply;
    forall id, u | u in Apply(a, op).Queue(id) ensures (id, u) in Cleared(t, op.id).queue && id in t.enrollments {
      QueueAfterOther(a, op, id);
    }
  }

  lemma ClearSimulates(a: Machine, t: Tables, now: nat, op: Op, d: string)
    requires Related(a, t, now) && op.Clear? && Simulates(a, t, d)
    ensures Simulates(Apply(a, op), Cleared(t, op.id), d)
  {
    hide ValidUuid, Sound, RowsExist, KeysHold, CommandsAgree;
    var t' := Cleared(t, op.id);
    QueueAfterOther(a, op, d);
    assert Apply(a, op).results == a.results;
    hide Apply;
    assert forall u :: Created(t', d, u) == Created(t, d, u);
    assert SameOrder(Apply(a, op), t', d) && SameDeferrals(Apply(a, op), t', d);
    hide SameOrder, SameDeferrals, Created;
    forall u ensures Candidate(t', d, false, u) <==> u in Apply(a, op).Queue(d) {
      assert Candidate(t, d, false, u) <==> u in a.Queue(d);
    }
  }

  // ---------- whole runs ----------

  lemma RelatedStep(a: Machine, t: Tables, now: nat, rm: bool, op: Op)
    requires Related(a, t, now) && Comparable(a, t, op)
    ensures Legal(a, op)
    ensures Related(Apply(a, op), SqlApply(t, rm, op, now), now + 1)
    ensures SqlApply(t, rm, op, now).enrollments == t.enrollments
  {
    hide Sound, ResultsKnown, RowsExist, CommandsAgree, ValidUuid, Inserted, QueuesWith, Without, Open, Referenced;
    assert Sound(a);
    match op
    case Enqueue(_, _, _) =>
      InsertedRows(t, op.ids, op.uuid, op.command, now);
      InsertStep(a, t, now, op);
    case Session(id, status, uuid, raw) =>
      if status != "Idle" {
        SoundUuidNonEmpty(a, id, uuid);
        if rm && status != "NotNow" {
          DeletedStep(a, t, now, op);
        } else {
          ResultUpsertedStep(a, t, now, op, ResultUpserted(t, id, uuid, Result(status, raw)));
        }
      }
    case Clear(_) => ClearStep(a, t, now, op);
  }

  lemma SimulatesStep(a: Machine, t: Tables, now: nat, rm: bool, op: Op, d: string)
    requires Related(a, t, now) && Simulates(a, t, d) && Comparable(a, t, op)
    ensures Simulates(Apply(a, op), SqlApply(t, rm, op, now), d)
  {
    hide Sound, ResultsKnown, RowsExist, CommandsAgree, SameMembers, SameOrder, SameDeferrals, ValidUuid, Inserted, QueuesWith, Without, Open, Referenced, Candidate;
    assert Sound(a);
    match op
    case Enqueue(_, _, _) =>
      InsertedRows(t, op.ids, op.uuid, op.command, now);
      InsertStep(a, t, now, op);
      InsertMembers(a, t, now, op, d);
      InsertOrder(a, t, now, op, d);
      InsertDeferrals(a, t, now, op, d);
    case Session(id, status, uuid, raw) =>
      if status != "Idle" {
        SoundUuidNonEmpty(a, id, uuid);
        if rm && status != "NotNow" {
          DeletedSimulates(a, t, now, op, d);
        } else {
          ResultUpsertedSimulates(a, t, now, op, ResultUpserted(t, id, uuid, Result(status, raw)), d);
        }
      }
    case Clear(_) => ClearSimulates(a, t, now, op, d);
  }

  lemma Step(a: Machine, t: Tables, now: nat, rm: bool, op: Op, d: string)
    requires Related(a, t, now) && Simulates(a, t, d) && Comparable(a, t, op)
    ensures Legal(a, op)
    ensures Related(Apply(a, op), SqlApply(t, rm, op, now), now + 1)
    ensures Simulates(Apply(a, op), SqlApply(t, rm, op, now), d)
    ensures SqlApply(t, rm, op, now).enrollments == t.enrollments
  {
    hide Related, Simulates, Comparable, SqlApply, Apply, Legal;
    RelatedStep(a, t, now, rm, op);
    SimulatesStep(a, t, now, rm, op, d);
  }

  predicate ComparableRun(a: Machine, t: Tables, ops: seq<Op>)
    decreases |ops|
  {
    ops == [] || (Comparable(a, t, ops[0]) && ComparableRun(Apply(a, ops[0]), t, ops[1..]))
  }

  ghost predicate OnlyAnswer(t: Tables, d: string, skipNotNow: bool, reply: Reply) {
    forall r :: MayAnswer(t, d, skipNotNow, r) <==> r == reply
  }

  /** After every session of device `d` in a run, the query has one answer, and it is the reply. */
  ghost predicate AnswersOnly(t: Tables, rm: bool, ops: seq<Op>, now: nat, d: string, replies: seq<Reply>)
    requires |replies| == |ops|
    decreases |ops|
  {
    ops == [] ||
    (var t' := SqlApply(t, rm, ops[0], now);
     && (ops[0].Session? && ops[0].id == d ==>
           OnlyAnswer(t', d, ops[0].status == "NotNow", replies[0]))
     && AnswersOnly(t', rm, ops[1..], now + 1, d, replies[1..]))
  }

  /** The tables, in keep or delete mode, answer every session of a device as the machine does. */
  lemma {:induction false} SqlAgrees(a: Machine, t: Tables, now: nat, rm: bool, ops: seq<Op>, d: string)
    requires Related(a, t, now) && Simulates(a, t, d) && ComparableRun(a, t, ops)
    ensures |Replies(a, ops)| == |ops|
    ensures LegalRun(a, ops)
    ensures AnswersOnly(t, rm, ops, now, d, Replies(a, ops))
    decreases |ops|
  {
    if ops != [] {
      var op := ops[0];
      var a', t' := Apply(a, op), SqlApply(t, rm, op, now);
      Step(a, t, now, rm, op, d);
      hide Related, Simulates, Apply, SqlApply, Legal, Comparable, ReplyTo, MayAnswer;
      EnrollmentsOnly(a', t, t', ops[1..]);
      SqlAgrees(a', t', now + 1, rm, ops[1..], d);
      if op.Session? && op.id == d {
        SessionAnswer(a, t', now + 1, op);
      }
    }
  }

  lemma SessionAnswer(a: Machine, t': Tables, now: nat, op: Op)
    requires op.Session? && Related(Apply(a, op), t', now) && Simulates(Apply(a, op), t', op.id)
    requires op.status == "Idle" || op.uuid != ""
    ensures OnlyAnswer(t', op.id, op.status == "NotNow", ReplyTo(a, op))
  {
    hide Related, Simulates, Apply, MayAnswer;
    var skip := op.status == "NotNow";
    forall r ensures MayAnswer(t', op.id, skip, r) <==> r == ReplyTo(a, op) {
      QueryAnswers(Apply(a, op), t', now, op.id, skip, r);
    }
  }

  lemma {:induction false} EnrollmentsOnly(a: Machine, t: Tables, t': Tables, ops: seq<Op>)
    requires t'.enrollments == t.enrollments
    ensures ComparableRun(a, t, ops) == ComparableRun(a, t', ops)
    decreases |ops|
  {
    if ops != [] {
      EnrollmentsOnly(Apply(a, ops[0]), t, t', ops[1..]);
    }
  }

  // ---------- delete mode cannot be observed ----------

  /** After every session of enrollment `d`, both table states give the same answers. */
  ghost predicate SameAnswers(t1: Tables, rm1: bool, t2: Tables, rm2: bool, ops: seq<Op>, now: nat, d: string)
    decreases |ops|
  {
    ops == [] ||
    (var t1', t2' := SqlApply(t1, rm1, ops[0], now), SqlApply(t2, rm2, ops[0], now);
     && (ops[0].Session? && ops[0].id == d ==> Agree(t1', t2', d, ops[0].status == "NotNow"))
     && SameAnswers(t1', rm1, t2', rm2, ops[1..], now + 1, d))
  }

  ghost predicate Agree(t1: Tables, t2: Tables, d: string, skipNotNow: bool) {
    forall r :: MayAnswer(t1, d, skipNotNow, r) <==> MayAnswer(t2, d, skipNotNow, r)
  }

  /** The queries of all enrollments select the same rows. */
  ghost predicate SamePending(t1: Tables, t2: Tables) {
    forall id, u :: PendingAt(t1, t2, id, u)
  }

  predicate PendingAt(t1: Tables, t2: Tables, id: string, u: string) {
    && (Candidate(t1, id, false, u) <==> Candidate(t2, id, false, u))
    && (Candidate(t1, id, false, u) ==>
          && t1.queue[(id, u)].created == t2.queue[(id, u)].created
          && ((id, u) in t1.results <==> (id, u) in t2.results))
  }

  predicate SameAt(t1: Tables, t2: Tables, k: (string, string)) {
    && k in t1.queue && k in t2.queue && t1.queue[k] == t2.queue[k]
    && (k in t1.results <==> k in t2.results)
    && (k in t1.results ==> t1.results[k] == t2.results[k])
  }

  /** What is still queued has the same rows. */
  ghost predicate QueuedSame(a: Machine, t1: Tables, t2: Tables) {
    forall id, u :: u in a.Queue(id) ==> SameAt(t1, t2, (id, u))
  }

  /** One state of a run in delete mode beside the state of the same run in keep mode. */
  ghost predicate Beside(a: Machine, t1: Tables, t2: Tables, now: nat) {
    && Related(a, t1, now) && Related(a, t2, now) && t1.enrollments == t2.enrollments
    && QueuedSame(a, t1, t2) && SamePending(t1, t2)
  }

  lemma PendingAgree(a: Machine, t1: Tables, t2: Tables, now: nat, d: string, skipNotNow: bool)
    requires Beside(a, t1, t2, now)
    ensures Agree(t1, t2, d, skipNotNow)
  {
    hide Sound, ResultsKnown, RowsExist, KeysHold, QueuedSame;
    forall u
      ensures Candidate(t1, d, skipNotNow, u) <==> Candidate(t2, d, skipNotNow, u)
      ensures Candidate(t1, d, skipNotNow, u) ==>
                t1.queue[(d, u)].created == t2.queue[(d, u)].created && t1.commands[u] == t2.commands[u]
    {
      assert PendingAt(t1, t2, d, u);
    }
    hide SamePending, CommandsAgree;
  }

  lemma InsertBeside(a: Machine, t1: Tables, t2: Tables, now: nat, op: Op)
    requires Beside(a, t1, t2, now) && Comparable(a, t1, op) && op.Enqueue?
    ensures var t1', t2' := SqlApply(t1, true, op, now), SqlApply(t2, false, op, now);
            QueuedSame(Apply(a, op), t1', t2') && SamePending(t1', t2')
  {
    hide Related, Inserted, InsertAccepted, OnlyInserted, SamePending, SameAt, ValidUuid;
    InsertOnly(a, t1, now, op);
    InsertOnly(a, t2, now, op);
    var t1', t2' := Inserted(t1, op.ids, op.uuid, op.command, now), Inserted(t2, op.ids, op.uuid, op.command, now);
    InsertPending(t1, t2, t1', t2', now, op);
    forall id, u | u in Apply(a, op).Queue(id) ensures SameAt(t1', t2', (id, u)) {
      QueueAfterEnqueue(a, op, id);
      assert u in a.Queue(id) ==> SameAt(t1, t2, (id, u));
      InsertSameAt(t1, t2, t1', t2', now, op, id, u);
    }
  }

  lemma InsertOnly(a: Machine, t: Tables, now: nat, op: Op)
    requires Related(a, t, now) && Comparable(a, t, op) && op.Enqueue?
    ensures InsertAccepted(t, op.ids, op.uuid)
    ensures OnlyInserted(t, Inserted(t, op.ids, op.uuid, op.command, now), now, op)
  {
    hide Inserted, ValidUuid;
    InsertStep(a, t, now, op);
    NewHasNoRows(a, t, now, op.uuid);
    InsertedRows(t, op.ids, op.uuid, op.command, now);
    hide Related, InsertAccepted;
  }

  lemma InsertSameAt(t1: Tables, t2: Tables, t1': Tables, t2': Tables, now: nat, op: Op, id: string, u: string)
    requires op.Enqueue? && OnlyInserted(t1, t1', now, op) && OnlyInserted(t2, t2', now, op)
    requires SameAt(t1, t2, (id, u)) || (id in op.ids && u == op.uuid)
    ensures SameAt(t1', t2', (id, u))
  {
  }

  /** An insert of a command without rows, key by key. */
  ghost predicate OnlyInserted(t: Tables, t': Tables, now: nat, op: Op)
    requires op.Enqueue?
  {
    && (forall k :: k in t'.queue <==> k in t.queue || (k.0 in op.ids && k.1 == op.uuid))
    && (forall k :: k in t'.queue ==> t'.queue[k] == if k.0 in op.ids && k.1 == op.uuid then Row(true, now) else t.queue[k])
    && t'.results == t.results && t'.commands == t.commands[op.uuid := op.command]
    && (forall id :: (id, op.uuid) !in t.queue && (id, op.uuid) !in t.results)
  }

  lemma InsertPending(t1: Tables, t2: Tables, t1': Tables, t2': Tables, now: nat, op: Op)
    requires op.Enqueue? && SamePending(t1, t2) && OnlyInserted(t1, t1', now, op) && OnlyInserted(t2, t2', now, op)
    ensures SamePending(t1', t2')
  {
    hide OnlyInserted, PendingAt;
    forall id, u ensures PendingAt(t1', t2', id, u) {
      assert PendingAt(t1, t2, id, u);
      InsertPendingAt(t1, t2, t1', t2', now, op, id, u);
    }
  }

  lemma InsertPendingAt(t1: Tables, t2: Tables, t1': Tables, t2': Tables, now: nat, op: Op, id: string, u: string)
    requires op.Enqueue? && PendingAt(t1, t2, id, u) && OnlyInserted(t1, t1', now, op) && OnlyInserted(t2, t2', now, op)
    ensures PendingAt(t1', t2', id, u)
  {
  }

  lemma DeferBeside(a: Machine, t1: Tables, t2: Tables, now: nat, op: Op)
    requires Beside(a, t1, t2, now) && Comparable(a, t1, op) && op.Session? && op.status == "NotNow"
    ensures var t1', t2' := SqlApply(t1, true, op, now), SqlApply(t2, false, op, now);
            QueuedSame(Apply(a, op), t1', t2') && SamePending(t1', t2')
  {
    hide Sound, ResultsKnown, CommandsAgree, ValidUuid, SamePending, SameAt;
    var k, r := (op.id, op.uuid), Result(op.status, op.raw);
    assert SameAt(t1, t2, k) && k.1 in t1.commands && k.1 in t2.commands && op.id in t1.enrollments;
    var t1', t2' := SqlApply(t1, true, op, now), SqlApply(t2, false, op, now);
    assert t1' == t1.(results := t1.results[k := r]) && t2' == t2.(results := t2.results[k := r]);
    hide Related, RowsExist, KeysHold, SqlApply;
    forall id, u | u in Apply(a, op).Queue(id) ensures SameAt(t1', t2', (id, u)) {
      QueueAfterOther(a, op, id);
      assert SameAt(t1, t2, (id, u));
      DeferSameAt(t1, t2, k, r, (id, u));
    }
    hide QueuedSame, Apply;
    DeferPending(t1, t2, k, r);
  }

  lemma DeferSameAt(t1: Tables, t2: Tables, k: (string, string), r: Result, k': (string, string))
    requires SameAt(t1, t2, k')
    ensures SameAt(t1.(results := t1.results[k := r]), t2.(results := t2.results[k := r]), k')
  {
  }

  lemma DeferPending(t1: Tables, t2: Tables, k: (string, string), r: Result)
    requires SamePending(t1, t2) && SameAt(t1, t2, k) && r.status == "NotNow" && k.1 in t1.commands && k.1 in t2.commands
    ensures SamePending(t1.(results := t1.results[k := r]), t2.(results := t2.results[k := r]))
  {
    var t1', t2' := t1.(results := t1.results[k := r]), t2.(results := t2.results[k := r]);
    forall id, u ensures PendingAt(t1', t2', id, u) {
      assert PendingAt(t1, t2, id, u);
    }
  }

  /** Completing deletes the row in one mode and closes it in the other. */
  lemma CompleteBeside(a: Machine, t1: Tables, t2: Tables, now: nat, op: Op)
    requires Beside(a, t1, t2, now) && Comparable(a, t1, op) && Completes(op)
    ensures var t1', t2' := SqlApply(t1, true, op, now), SqlApply(t2, false, op, now);
            QueuedSame(Apply(a, op), t1', t2') && SamePending(t1', t2')
  {
    hide ResultsKnown, CommandsAgree, ValidUuid;
    var k := (op.id, op.uuid);
    assert SameAt(t1, t2, k) && k.1 in t1.commands && k.1 in t2.commands && op.id in t1.enrollments;
    assert Sound(a);
    DeletedRows(t1, op.id, op.uuid);
    var t1', t2' := Deleted(t1, op.id, op.uuid), t2.(results := t2.results[k := Result(op.status, op.raw)]);
    assert SqlApply(t1, true, op, now) == t1' && SqlApply(t2, false, op, now) == t2';
    hide Related, RowsExist, KeysHold, SqlApply, Deleted, Sound;
    forall id, u | u in Apply(a, op).Queue(id) ensures SameAt(t1', t2', (id, u)) {
      AfterCompletion(a, op, id, u);
      assert SameAt(t1, t2, (id, u));
    }
    hide QueuedSame, Apply;
    CompletePending(t1, t2, t1', t2', op);
  }

  lemma CompletePending(t1: Tables, t2: Tables, t1': Tables, t2': Tables, op: Op)
    requires SamePending(t1, t2) && Completes(op)
    requires var k := (op.id, op.uuid);
             && t1'.queue == t1.queue - {k} && t1'.results == t1.results - {k}
             && (forall u :: u in t1'.commands <==> u in t1.commands && (u == op.uuid ==> Referenced(t1', u)))
             && t2' == t2.(results := t2.results[k := Result(op.status, op.raw)])
    ensures SamePending(t1', t2')
  {
    forall id, u ensures PendingAt(t1', t2', id, u) {
      assert PendingAt(t1, t2, id, u);
      if (id, u) != (op.id, op.uuid) && (id, u) in t1'.queue {
        assert u == op.uuid ==> Referenced(t1', u);
      }
    }
  }

  lemma ClearBeside(a: Machine, t1: Tables, t2: Tables, now: nat, op: Op)
    requires Beside(a, t1, t2, now) && op.Clear?
    ensures var t1', t2' := SqlApply(t1, true, op, now), SqlApply(t2, false, op, now);
            QueuedSame(Apply(a, op), t1', t2') && SamePending(t1', t2')
  {
    hide Sound, ResultsKnown, CommandsAgree, ValidUuid, SamePending, SameAt, Cleared, PendingAt;
    forall id, u | u in Apply(a, op).Queue(id) ensures SameAt(Cleared(t1, op.id), Cleared(t2, op.id), (id, u)) {
      QueueAfterOther(a, op, id);
      assert SameAt(t1, t2, (id, u)) && u in t1.commands && u in t2.commands;
      ClearSameAt(t1, t2, op.id, (id, u));
    }
    hide QueuedSame, Apply, Related, RowsExist, KeysHold;
    assert SamePending(Cleared(t1, op.id), Cleared(t2, op.id)) by { ClearPending(t1, t2, op.id); }
  }

  lemma ClearSameAt(t1: Tables, t2: Tables, d: string, k: (string, string))
    requires SameAt(t1, t2, k) && k.1 in t1.commands && k.1 in t2.commands && t1.enrollments == t2.enrollments
    ensures SameAt(Cleared(t1, d), Cleared(t2, d), k)
  {
  }

  lemma ClearPending(t1: Tables, t2: Tables, d: string)
    requires SamePending(t1, t2) && t1.enrollments == t2.enrollments
    ensures SamePending(Cleared(t1, d), Cleared(t2, d))
  {
    hide PendingAt, Cleared;
    forall id, u ensures PendingAt(Cleared(t1, d), Cleared(t2, d), id, u) {
      assert PendingAt(t1, t2, id, u);
      ClearPendingAt(t1, t2, d, id, u);
    }
  }

  lemma ClearPendingAt(t1: Tables, t2: Tables, d: string, id: string, u: string)
    requires PendingAt(t1, t2, id, u) && t1.enrollments == t2.enrollments
    ensures PendingAt(Cleared(t1, d), Cleared(t2, d), id, u)
  {
  }

  lemma BesideStep(a: Machine, t1: Tables, t2: Tables, now: nat, op: Op)
    requires Beside(a, t1, t2, now) && Comparable(a, t1, op)
    ensures Beside(Apply(a, op), SqlApply(t1, true, op, now), SqlApply(t2, false, op, now), now + 1)
  {
    RelatedStep(a, t1, now, true, op);
    RelatedStep(a, t2, now, false, op);
    if op.Enqueue? {
      InsertBeside(a, t1, t2, now, op);
    } else if op.Clear? {
      ClearBeside(a, t1, t2, now, op);
    } else if op.status == "NotNow" {
      DeferBeside(a, t1, t2, now, op);
    } else if op.status != "Idle" {
      assert op.uuid != "" by { assert Sound(a); SoundUuidNonEmpty(a, op.id, op.uuid); }
      CompleteBeside(a, t1, t2, now, op);
    }
    hide QueuedSame, SamePending, Related;
  }

  lemma {:induction false} BesideRun(a: Machine, t1: Tables, t2: Tables, now: nat, ops: seq<Op>, d: string)
    requires Beside(a, t1, t2, now) && ComparableRun(a, t1, ops)
    ensures SameAnswers(t1, true, t2, false, ops, now, d)
    decreases |ops|
  {
    if ops != [] {
      var op := ops[0];
      var a', t1', t2' := Apply(a, op), SqlApply(t1, true, op, now), SqlApply(t2, false, op, now);
      BesideStep(a, t1, t2, now, op);
      assert t1'.enrollments == t1.enrollments by { RelatedStep(a, t1, now, true, op); }
      hide Beside, Apply, SqlApply, Comparable, Agree;
      PendingAgree(a', t1', t2', now + 1, d, op.Session? && op.status == "NotNow");
      EnrollmentsOnly(a', t1, t1', ops[1..]);
      BesideRun(a', t1', t2', now + 1, ops[1..], d);
    }
  }

  /** Deleting finished commands cannot be observed: over every run the query for any enrollment, device
      or user channel, gives the same answers whether finished commands are kept or deleted. */
  lemma DeleteModeUnobservable(a: Machine, t: Tables, now: nat, ops: seq<Op>, d: string)
    requires Related(a, t, now) && ComparableRun(a, t, ops)
    ensures SameAnswers(t, true, t, false, ops, now, d)
  {
    assert Beside(a, t, t, now) by { hide Sound, ResultsKnown, CommandsAgree, KeysHold; }
    hide Related;
    BesideRun(a, t, t, now, ops, d);
  }

  // ---------- delete mode collects exactly the finished commands ----------

  predicate Queued(t: Tables, uuid: string) {
    exists k :: k in t.queue && k.1 == uuid
  }

  /** A command row exists exactly while some enrollment has a queue row for it, and results are
      kept for queue rows only. */
  ghost predicate Collected(t: Tables) {
    && (forall u :: u in t.commands <==> Queued(t, u))
    && (forall k :: k in t.results ==> k in t.queue)
  }

  /** Commands stay as they are and rows only grow or are marked. */
  lemma SameRows(t: Tables, t': Tables)
    requires Collected(t) && t'.commands == t.commands
    requires forall k :: k in t'.queue <==> k in t.queue
    requires forall k :: k in t'.results ==> k in t.queue
    ensures Collected(t')
  {
    forall u ensures Queued(t', u) <==> Queued(t, u) {
      if Queued(t, u) {
        var k :| k in t.queue && k.1 == u;
        assert k in t'.queue;
      }
    }
  }

  lemma InsertCollected(t: Tables, ids: seq<string>, uuid: string, c: Command, now: nat)
    requires Collected(t) && ids != []
    ensures Collected(Inserted(t, ids, uuid, c, now))
  {
    var t' := Inserted(t, ids, uuid, c, now);
    InsertedRows(t, ids, uuid, c, now);
    hide Inserted;
    assert (ids[0], uuid) in t'.queue;
    forall u ensures u in t'.commands <==> Queued(t', u) {
      if u in t.commands {
        var k :| k in t.queue && k.1 == u;
        assert k in t'.queue;
      }
    }
  }

  lemma DeletedCollected(t: Tables, id: string, uuid: string)
    requires Collected(t) && (id, uuid) in t.queue
    ensures Collected(Deleted(t, id, uuid))
  {
    var t' := Deleted(t, id, uuid);
    DeletedRows(t, id, uuid);
    hide Deleted;
    assert Referenced(t', uuid) ==> Queued(t', uuid);
    forall u ensures u in t'.commands <==> Queued(t', u) {
      if u in t.commands && u != uuid {
        var k :| k in t.queue && k.1 == u;
        assert k in t'.queue;
      }
    }
  }

  lemma CollectedStep(a: Machine, t: Tables, now: nat, op: Op)
    requires Related(a, t, now) && Comparable(a, t, op) && Collected(t)
    ensures Collected(SqlApply(t, true, op, now))
  {
    hide Collected, Sound, ValidUuid, CommandsAgree;
    match op
    case Enqueue(ids, uuid, c) =>
      InsertCollected(t, ids, uuid, c, now);
    case Session(id, status, uuid, raw) =>
      if status != "Idle" {
        assert (id, uuid) in t.queue;
        if status != "NotNow" {
          DeletedCollected(t, id, uuid);
        } else {
          ResultsOfRows(t);
          SameRows(t, SqlApply(t, true, op, now));
        }
      }
    case Clear(id) =>
      ResultsOfRows(t);
      SameRows(t, Cleared(t, id));
  }

  lemma ResultsOfRows(t: Tables)
    requires Collected(t)
    ensures forall k :: k in t.results ==> k in t.queue
  {
  }

  function SqlRun(t: Tables, rm: bool, ops: seq<Op>, now: nat): Tables
    decreases |ops|
  {
    if ops == [] then t else SqlRun(SqlApply(t, rm, ops[0], now), rm, ops[1..], now + 1)
  }

  lemma {:induction false} DeleteModeCollects(a: Machine, t: Tables, now: nat, ops: seq<Op>)
    requires Related(a, t, now) && ComparableRun(a, t, ops) && Collected(t)
    ensures Collected(SqlRun(t, true, ops, now))
    decreases |ops|
  {
    if ops != [] {
      var op := ops[0];
      var a', t' := Apply(a, op), SqlApply(t, true, op, now);
      RelatedStep(a, t, now, true, op);
      CollectedStep(a, t, now, op);
      hide Related, Apply, SqlApply, Comparable, Collected;
      EnrollmentsOnly(a', t, t', ops[1..]);
      DeleteModeCollects(a', t', now + 1, ops[1..]);
    }
  }

  // ---------- what keep mode keeps ----------

  /** Over every comparable run in keep mode the results table holds, for each enrollment and command, the
      last report with its status and bytes, also of finished commands. */
  lemma {:induction false} ReportsKept(a: Machine, t: Tables, now: nat, ops: seq<Op>, id: string, uuid: string)
    requires Related(a, t, now) && ComparableRun(a, t, ops)
    ensures var t', last := SqlRun(t, false, ops, now), LastReport(ops, id, uuid);
            && ((id, uuid) in t'.results <==> last.Some? || (id, uuid) in t.results)
            && (last.Some? ==> t'.results[(id, uuid)].status == last.value.status && t'.results[(id, uuid)].raw == last.value.raw)
            && (last.None? && (id, uuid) in t.results ==> t'.results[(id, uuid)] == t.results[(id, uuid)])
    decreases |ops|
  {
    if ops != [] {
      var op := ops[0];
      var a', t' := Apply(a, op), SqlApply(t, false, op, now);
      RelatedStep(a, t, now, false, op);
      ReportKept(a, t, now, op, id, uuid);
      hide Related, Apply, SqlApply, Comparable;
      EnrollmentsOnly(a', t, t', ops[1..]);
      ReportsKept(a', t', now + 1, ops[1..], id, uuid);
    }
  }

  lemma ReportKept(a: Machine, t: Tables, now: nat, op: Op, id: string, uuid: string)
    requires Related(a, t, now) && Comparable(a, t, op)
    ensures var t' := SqlApply(t, false, op, now);
            if Reports(op, id, uuid)
            then (id, uuid) in t'.results && t'.results[(id, uuid)].status == op.status && t'.results[(id, uuid)].raw == op.raw
            else ((id, uuid) in t'.results <==> (id, uuid) in t.results)
                 && ((id, uuid) in t.results ==> t'.results[(id, uuid)] == t.results[(id, uuid)])
  {
    hide Sound, ResultsKnown, CommandsAgree;
    if op.Session? && op.status != "Idle" {
      assert (op.id, op.uuid) in t.queue;
    }
  }

  function NoRows(enrollments: map<string, string>): Tables {
    Tables(enrollments, map[], map[], map[])
  }

  /** Empty tables with enrolled devices are related to the empty machine. */
  lemma EmptyTablesRelated(enrollments: map<string, string>, d: string)
    requires d in enrollments && enrollments[d] == d
    ensures var t := NoRows(enrollments);
            Related(EMPTY, t, 0) && Simulates(EMPTY, t, d) && Collected(t)
  {
    assert forall id, u :: u !in EMPTY.Queue(id);
  }

  /** After a clear the queries of the device and of its user channels select nothing, those of all other
      enrollments what they did. */
  lemma ClearedCandidates(t: Tables, d: string)
    ensures forall e, skipNotNow, u ::
              Candidate(Cleared(t, d), e, skipNotNow, u) <==>
              Candidate(t, e, skipNotNow, u) && !(e in t.enrollments && t.enrollments[e] == d)
    ensures Cleared(t, d).queue.Keys == t.queue.Keys
  {
  }

  // ---------- the storage as the program runs it ----------

  class MySQLStorage {
    var t: Tables
    /** Whether finished commands are deleted. */
    const rm: bool

    constructor (t: Tables, rm: bool)
      ensures this.t == t && this.rm == rm
    {
      this.t := t;
      this.rm := rm;
    }

    /** Two inserts in one transaction, rolled back together: all or nothing. */
    method EnqueueCommand(ids: seq<string>, uuid: string, c: Command, now: nat) returns (ok: bool)
      modifies this
      ensures ok <==>
              && ids != [] && (forall i, j :: 0 <= i < j < |ids| ==> ids[i] != ids[j])
              && uuid !in old(t).commands
              && (forall id :: id in ids ==> id in old(t).enrollments && (id, uuid) !in old(t).queue)
      ensures !ok ==> t == old(t)
      ensures ok ==>
                && t.commands == old(t).commands[uuid := c]
                && t.enrollments == old(t).enrollments && t.results == old(t).results
                && (forall k :: k in t.queue <==> k in old(t).queue || (k.0 in ids && k.1 == uuid))
                && (forall k :: k in old(t).queue ==> t.queue[k] == old(t).queue[k])
                && (forall id :: id in ids ==> t.queue[(id, uuid)].active && t.queue[(id, uuid)].created == now)
      ensures t == SqlApply(old(t), rm, Enqueue(ids, uuid, c), now)
    {
      InsertedRows(t, ids, uuid, c, now);
      hide Items;
      if |ids| < 1 {
        return false;
      }
      var before := t;
      if uuid in t.commands {
        return false;
      }
      t := t.(commands := t.commands[uuid := c]);
      if !Distinct(ids) || exists id | id in ids :: id !in t.enrollments || (id, uuid) in t.queue {
        t := before;
        return false;
      }
      t := t.(queue := t.queue + map id | id in Items(ids) :: (id, uuid) := Row(true, now));
      return true;
    }

    /** The queue row goes with its result; the command goes when no row of either table names it. Nothing
        else changes. */
    method DeleteCommand(id: string, uuid: string)
      modifies this
      ensures t.enrollments == old(t).enrollments
      ensures t.queue == old(t).queue - {(id, uuid)}
      ensures t.results == if (id, uuid) in old(t).queue then old(t).results - {(id, uuid)} else old(t).results
      ensures forall u :: u in t.commands <==>
                && u in old(t).commands
                && (u == uuid ==> (exists k :: k in t.queue && k.1 == uuid) || (exists k :: k in t.results && k.1 == uuid))
      ensures forall u :: u in t.commands ==> t.commands[u] == old(t).commands[u]
      ensures t == Deleted(old(t), id, uuid)
    {
      if (id, uuid) in t.queue {
        t := t.(queue := t.queue - {(id, uuid)}, results := t.results - {(id, uuid)});
      }
      if !Referenced(t, uuid) {
        t := t.(commands := t.commands - {uuid});
      }
    }

    /** Idle reports change nothing. In delete mode a report that ends a command deletes its rows, the
        first time; otherwise the result is inserted or updated, which is an error and changes nothing
        when the enrollment or the command is unknown. */
    method StoreCommandReport(id: string, status: string, uuid: string, raw: Bytes) returns (ok: bool)
      modifies this
      ensures status == "Idle" ==> ok && t == old(t)
      ensures status != "Idle" && rm && status != "NotNow" ==>
                && ok && t.enrollments == old(t).enrollments && t.queue == old(t).queue - {(id, uuid)}
                && (forall k :: k != (id, uuid) ==> (k in t.results <==> k in old(t).results))
                && (forall k :: k in t.results ==> k in old(t).results && t.results[k] == old(t).results[k])
                && ((id, uuid) in old(t).queue ==> (id, uuid) !in t.results)
                && (forall u :: u in old(t).commands && u !in t.commands ==>
                      u == uuid && (forall k :: k in t.queue || k in t.results ==> k.1 != uuid))
                && (forall u :: u in t.commands ==> u in old(t).commands && t.commands[u] == old(t).commands[u])
      ensures status != "Idle" && (!rm || status == "NotNow") ==>
                && (ok <==> id in old(t).enrollments && uuid in old(t).commands)
                && (!ok ==> t == old(t))
                && (ok ==>
                      && t.enrollments == old(t).enrollments && t.commands == old(t).commands && t.queue == old(t).queue
                      && t.results.Keys == old(t).results.Keys + {(id, uuid)}
                      && t.results[(id, uuid)].status == status && t.results[(id, uuid)].raw == raw
                      && (forall k :: k in old(t).results && k != (id, uuid) ==> t.results[k] == old(t).results[k]))
      ensures t == SqlApply(old(t), rm, Session(id, status, uuid, raw), 0)
    {
      if status == "Idle" {
        return true;
      }
      if rm && status != "NotNow" {
        DeleteCommand(id, uuid);
        return true;
      }
      if id !in t.enrollments || uuid !in t.commands {
        return false;
      }
      t := t.(results := t.results[(id, uuid) := Result(status, raw)]);
      return true;
    }

    /** Only a device channel may be cleared; the device's user channels are cleared with it. */
    method ClearQueue(id: string, parentId: string) returns (ok: bool)
      modifies this
      ensures ok <==> parentId == ""
      ensures t == if ok then SqlApply(old(t), rm, Clear(id), 0) else old(t)
      ensures forall e, skipNotNow, u ::
                Candidate(t, e, skipNotNow, u) <==>
                Candidate(old(t), e, skipNotNow, u) && !(ok && e in old(t).enrollments && old(t).enrollments[e] == id)
      ensures t.queue.Keys == old(t).queue.Keys && t.commands == old(t).commands && t.results == old(t).results
    {
      ClearedCandidates(t, id);
      hide Candidate, Open;
      if parentId != "" {
        return false;
      }
      t := Cleared(t, id);
      return true;
    }
  }
}
