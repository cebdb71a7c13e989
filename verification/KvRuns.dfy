/** Whole runs of the key-value queue as functions of the bucket: what holds on every run, and exactly
    which calls keep the bucket in step with the queue machine. */
module KvRuns {
  import opened Strings
  import opened QueueKeys
  import opened QueueList
  import opened QueueMachine
  import opened KvQueue
  import opened KvLinks
  import opened KvFetch

  // ---------- one call ----------

  /** The bucket after a call, as written or with the repaired unlink. */
  function Step(m: Store, op: Op, repaired: bool): Store {
    match op
    case Enqueue(ids, uuid, c) => if Encode(Raw(uuid)) in m then m else CommandEnqueued(m, ids, uuid, c)
    case Session(id, status, uuid, raw) =>
      if status == "Idle" || uuid == "" then m
      else if repaired then ReportedRepaired(m, id, uuid, Result(status, raw))
      else KvQueue.Reported(m, id, uuid, Result(status, raw))
    case Clear(id) => Cleared(m, id)
  }

  /** Whether a session goes on to fetch a command. */
  predicate Fetches(op: Op) {
    op.Session? && (op.status == "Idle" || op.uuid != "")
  }

  /** The call returns. Enqueues and clears always do. */
  ghost predicate Ends(m: Store, op: Op, repaired: bool) {
    Fetches(op) ==> Returns(Step(m, op, repaired), op.id, op.status == "NotNow")
  }

  ghost function Answer(m: Store, op: Op, repaired: bool): Reply
    requires Ends(m, op, repaired)
  {
    match op
    case Enqueue(_, uuid, _) => if Encode(Raw(uuid)) in m then Failure else Done
    case Session(id, status, _, _) =>
      if !Fetches(op) then Failure else Fetched(Step(m, op, repaired), id, status == "NotNow")
    case Clear(_) => Done
  }

  function Steps(m: Store, ops: seq<Op>, repaired: bool): Store
    decreases |ops|
  {
    if ops == [] then m else Steps(Step(m, ops[0], repaired), ops[1..], repaired)
  }

  ghost predicate RunEnds(m: Store, ops: seq<Op>, repaired: bool)
    decreases |ops|
  {
    ops == [] || (Ends(m, ops[0], repaired) && RunEnds(Step(m, ops[0], repaired), ops[1..], repaired))
  }

  ghost function Answers(m: Store, ops: seq<Op>, repaired: bool): seq<Reply>
    requires RunEnds(m, ops, repaired)
    decreases |ops|
  {
    if ops == [] then [] else [Answer(m, ops[0], repaired)] + Answers(Step(m, ops[0], repaired), ops[1..], repaired)
  }

  lemma RunOver(m: Store, repaired: bool)
    ensures RunEnds(m, [], repaired) && Steps(m, [], repaired) == m && Answers(m, [], repaired) == []
  {
  }

  lemma RunRest(m: Store, ops: seq<Op>, i: nat, repaired: bool)
    requires i < |ops| && RunEnds(m, ops[i..], repaired)
    ensures var m' := Step(m, ops[i], repaired);
            && Ends(m, ops[i], repaired) && RunEnds(m', ops[i + 1..], repaired)
            && Steps(m, ops[i..], repaired) == Steps(m', ops[i + 1..], repaired)
            && Answers(m, ops[i..], repaired) == [Answer(m, ops[i], repaired)] + Answers(m', ops[i + 1..], repaired)
  {
    hide Step, Ends, Answer;
    assert ops[i..][1..] == ops[i + 1..];
  }

  /** Exactly when a call returns, on any bucket: it is no deferral, or its trail over the queue comes to
      an end or holds a command that was not deferred. */
  lemma EndsExactly(m: Store, op: Op, repaired: bool, t: seq<string>)
    requires Fetches(op) && Trail(Step(m, op, repaired), op.id, t)
    ensures Ends(m, op, repaired) <==>
            || op.status != "NotNow"
            || After(Step(m, op, repaired), op.id, t) == ""
            || exists u :: u in t && Value(Step(m, op, repaired), Status(op.id, u)) != "NotNow"
  {
    hide Value, Encode, Step, Trail, Returns, After;
    ReturnsExactly(Step(m, op, repaired), op.id, op.status == "NotNow", t);
    NoSkipReturns(Step(m, op, repaired), op.id);
  }

  // ---------- every run ----------

  /** UUIDs are separator free. */
  predicate Plausible(op: Op) {
    match op
    case Enqueue(_, uuid, _) => ValidUuid(uuid)
    case Session(_, status, uuid, _) => status == "Idle" || NoDot(uuid)
    case Clear(_) => true
  }

  predicate NamesOnce(op: Op) {
    op.Enqueue? ==> Distinct(op.ids)
  }

  predicate EachNamedOnce(ops: seq<Op>) {
    forall i :: 0 <= i < |ops| ==> NamesOnce(ops[i])
  }

  predicate PlausibleRun(ops: seq<Op>) {
    forall i :: 0 <= i < |ops| ==> Plausible(ops[i])
  }

  function AgesAfter(ages: Ages, op: Op): Ages {
    if op.Enqueue? && op.uuid !in ages then ages[op.uuid := |ages|] else ages
  }

  function AgesAfterAll(ages: Ages, ops: seq<Op>): Ages
    decreases |ops|
  {
    if ops == [] then ages else AgesAfterAll(AgesAfter(ages, ops[0]), ops[1..])
  }

  /** A report that names a command never stored. */
  predicate ReportsUnknown(ages: Ages, op: Op) {
    op.Session? && op.status != "Idle" && op.uuid != "" && op.uuid !in ages
  }

  predicate EveryReportKnown(ages: Ages, ops: seq<Op>)
    decreases |ops|
  {
    ops == [] || (!ReportsUnknown(ages, ops[0]) && EveryReportKnown(AgesAfter(ages, ops[0]), ops[1..]))
  }

  lemma EnqueueStepLinked(m: Store, ages: Ages, strict: bool, op: Op)
    requires Linked(m, ages, strict) && Plausible(op) && (strict ==> NamesOnce(op)) && op.Enqueue? && op.uuid !in ages
    ensures var m' := CommandEnqueued(m, op.ids, op.uuid, op.command);
            && Linked(m', AgesAfter(ages, op), strict)
            && (NoStrayResults(m, ages) ==> NoStrayResults(m', AgesAfter(ages, op)))
  {
    CommandLinked(m, ages, strict, op.uuid, op.command);
    var ages' := AgesAfter(ages, op);
    assert forall v :: v in ages' && v != op.uuid ==> ages'[v] < ages'[op.uuid];
    hide Linked, NoStrayResults, Value, Encode, CommandStored;
    EnqueueAllLinked(CommandStored(m, op.uuid, op.command), ages', strict, op.ids, op.uuid);
  }

  lemma SessionStepLinked(m: Store, ages: Ages, strict: bool, op: Op, repaired: bool)
    requires Linked(m, ages, strict) && Plausible(op) && op.Session? && op.status != "Idle" && op.uuid != ""
    ensures Linked(Step(m, op, repaired), ages, strict)
    ensures NoStrayResults(Step(m, op, repaired), ages) <==> NoStrayResults(m, ages) && op.uuid in ages
  {
    hide Linked, NoStrayResults, Encode, Value, ResultStored, Unlinked, UnlinkedRepaired, NoDot;
    var r := Result(op.status, op.raw);
    var m1 := ResultStored(m, op.id, op.uuid, r);
    ResultLinked(m, ages, strict, op.id, op.uuid, r);
    if op.status != "NotNow" {
      UnlinkLinked(m1, ages, strict, op.id, op.uuid);
      UnlinkRepairedLinked(m1, ages, strict, op.id, op.uuid);
    }
  }

  lemma RawKnown(m: Store, ages: Ages, strict: bool, u: string)
    requires Linked(m, ages, strict) && NoDot(u)
    ensures Encode(Raw(u)) in m <==> u in ages
  {
    hide Encode, NoDot, Value;
  }

  /** Every call keeps the links, as written too, whatever a report names and however often an enqueue
      names an enrollment; they stay strict if it names each once. Result keys without a stored command
      appear exactly when a report names one that was never stored. */
  lemma StepLinked(m: Store, ages: Ages, strict: bool, op: Op, repaired: bool)
    requires Linked(m, ages, strict) && Plausible(op) && (strict ==> NamesOnce(op))
    ensures Linked(Step(m, op, repaired), AgesAfter(ages, op), strict)
    ensures NoStrayResults(m, ages) ==>
              (NoStrayResults(Step(m, op, repaired), AgesAfter(ages, op)) <==> !ReportsUnknown(ages, op))
  {
    hide Linked, NoStrayResults, Encode, Value, NoDot, CommandEnqueued, Reported, ReportedRepaired, Cleared;
    match op
    case Enqueue(_, uuid, _) =>
      RawKnown(m, ages, strict, uuid);
      if uuid !in ages {
        EnqueueStepLinked(m, ages, strict, op);
      }
    case Session(_, status, uuid, _) =>
      if status != "Idle" && uuid != "" {
        SessionStepLinked(m, ages, strict, op, repaired);
      }
    case Clear(id) =>
      ClearLinked(m, ages, strict, id);
  }

  /** Over every run, as written or repaired: links name stored commands and never lead to older ones, to
      newer ones only if no enqueue named an enrollment twice; and no result key is left without a stored
      command if every report named one. */
  lemma {:induction false} RunLinked(m: Store, ages: Ages, strict: bool, ops: seq<Op>, repaired: bool)
    requires Linked(m, ages, strict) && PlausibleRun(ops) && (strict ==> EachNamedOnce(ops))
    ensures Linked(Steps(m, ops, repaired), AgesAfterAll(ages, ops), strict)
    ensures NoStrayResults(m, ages) && EveryReportKnown(ages, ops) ==>
              NoStrayResults(Steps(m, ops, repaired), AgesAfterAll(ages, ops))
    decreases |ops|
  {
    hide Linked, NoStrayResults, Plausible, NamesOnce, Step, AgesAfter, ReportsUnknown;
    if ops != [] {
      StepLinked(m, ages, strict, ops[0], repaired);
      assert forall i :: 0 <= i < |ops[1..]| ==> ops[1..][i] == ops[i + 1];
      RunLinked(Step(m, ops[0], repaired), AgesAfter(ages, ops[0]), strict, ops[1..], repaired);
    }
  }

  /** From the empty bucket on, over every run: what the freshness check admits is fresh. */
  lemma FreshIsFresh(ops: seq<Op>, repaired: bool, u: string, q: string)
    requires PlausibleRun(ops) && NoDot(u) && Encode(Raw(u)) !in Steps(map[], ops, repaired)
    ensures var m := Steps(map[], ops, repaired);
            && Encode(QueueKey.Next(q, u)) !in m && Encode(Prev(q, u)) !in m
            && (EveryReportKnown(map[], ops) ==> Encode(Status(q, u)) !in m && Encode(Report(q, u)) !in m)
  {
    hide Linked, Encode, NoStrayResults, PlausibleRun, NoDot;
    EmptyStoreLinked(false);
    RunLinked(map[], map[], false, ops, repaired);
    UnusedUuidClean(Steps(map[], ops, repaired), AgesAfterAll(map[], ops), false, u, q);
  }

  /** Over every run that names each enrollment at most once in an enqueue, every call returns. */
  lemma {:induction false} NamedOnceEnds(m: Store, ages: Ages, ops: seq<Op>, repaired: bool)
    requires Linked(m, ages, true) && PlausibleRun(ops) && EachNamedOnce(ops)
    ensures RunEnds(m, ops, repaired)
    decreases |ops|
  {
    hide Linked, Plausible, NamesOnce, Step, AgesAfter, Returns, IsWalk, Encode;
    if ops != [] {
      var op := ops[0];
      var m' := Step(m, op, repaired);
      StepLinked(m, ages, true, op, repaired);
      if Fetches(op) {
        var t := WalkExists(m', AgesAfter(ages, op), op.id);
        WalkReturns(m', op.id, op.status == "NotNow", t);
      }
      assert forall i :: 0 <= i < |ops[1..]| ==> ops[1..][i] == ops[i + 1];
      NamedOnceEnds(m', AgesAfter(ages, op), ops[1..], repaired);
    }
  }

  /** After an enqueue that names enrollment `q` twice: a fetch on its queue returns exactly unless it skips
      deferred commands and every command queued there is deferred. */
  lemma RepeatedIdReturns(m: Store, a: Machine, op: Op, q: string, skipNotNow: bool)
    requires Represents(m, a) && op.Enqueue? && ValidUuid(op.uuid) && op.uuid !in a.commands
    requires exists i, j :: 0 <= i < j < |op.ids| && op.ids[i] == op.ids[j] == q
    ensures var m' := Step(m, op, false);
            Returns(m', q, skipNotNow) <==> exists u :: u in a.Queue(q) + [op.uuid] && !Skips(m', q, u, skipNotNow)
  {
    assert Encode(Raw(op.uuid)) !in m && Distinct(a.Queue(q)) && op.uuid !in a.Queue(q);
    hide Represents, Encode, Value, CommandEnqueued, NoDot, Returns, Skips;
    RepeatedIdEndless(m, a, op, q);
    var m', s := CommandEnqueued(m, op.ids, op.uuid, op.command), a.Queue(q);
    EndlessTrail(m', q, s, op.uuid);
    ReturnsExactly(m', q, skipNotNow, s + [op.uuid]);
  }

  lemma EndlessTrail(m: Store, q: string, s: seq<string>, u: string)
    requires Endless(m, q, s, u) && Distinct(s) && u !in s && u != ""
    ensures Trail(m, q, s + [u]) && After(m, q, s + [u]) == u
  {
    hide Encode, Value, NoDot;
    var t := s + [u];
    assert t[|t| - 1] == u;
    forall i {:trigger Value(m, QueueKey.Next(q, t[i]))} | 0 <= i < |t| - 1
      ensures Value(m, QueueKey.Next(q, t[i])) == t[i + 1]
    {
      assert t[i] == s[i];
      assert Value(m, QueueKey.Next(q, s[i])) == At(t, i + 1);
    }
  }

  // ---------- what is recorded ----------

  predicate IsRecord(k: QueueKey) {
    k.Status? || k.Report? || k.Raw? || k.RequestType?
  }

  ghost predicate SameRecords(m: Store, m': Store) {
    forall k: QueueKey :: Plain(k) && IsRecord(k) ==> (Encode(k) in m <==> Encode(k) in m') && Value(m', k) == Value(m, k)
  }

  lemma LinksOnly(m: Store, m': Store, q: string, us: set<string>)
    requires SameExcept(m, m', q, us)
    ensures SameRecords(m, m')
  {
    hide Encode, Value, Plain;
  }

  lemma UnlinkRecords(m: Store, ages: Ages, strict: bool, q: string, u: string)
    requires Linked(m, ages, strict) && NoDot(u)
    ensures SameRecords(m, Unlinked(m, q, u)) && SameRecords(m, UnlinkedRepaired(m, q, u))
  {
    hide Encode, Value, NoDot, SameRecords, Unlinked, UnlinkedRepaired, SameExcept, Linked;
    LinkedNeighbours(m, ages, strict, q, u);
    UnlinkKeys(m, q, u);
    RepairedKeys(m, q, u);
    var us := {u} + ({Value(m, Prev(q, u)), Value(m, QueueKey.Next(q, u))} - {""});
    LinksOnly(m, Unlinked(m, q, u), q, us);
    LinksOnly(m, UnlinkedRepaired(m, q, u), q, us);
  }

  lemma {:induction false} EnqueueAllRecords(m: Store, ages: Ages, ids: seq<string>, u: string)
    requires Linked(m, ages, false) && u in ages && (forall v :: v in ages && v != u ==> ages[v] < ages[u])
    ensures SameRecords(m, EnqueuedAll(m, ids, u))
    decreases |ids|
  {
    hide Encode, Value, Enqueued, Linked, SameExcept, NoDot;
    if ids != [] {
      EnqueueLinked(m, ages, false, ids[0], u);
      EnqueueOneRecords(m, ages, ids[0], u);
      EnqueueAllRecords(Enqueued(m, ids[0], u), ages, ids[1..], u);
    }
  }

  lemma EnqueueOneRecords(m: Store, ages: Ages, q: string, u: string)
    requires Linked(m, ages, false) && u in ages
    ensures SameRecords(m, Enqueued(m, q, u))
  {
    EmptyPlain();
    hide Encode, Value, NoDot, SameRecords, Enqueued, SameExcept, LinksLead, NoStrayLinks, RawStored;
    LastKnown(m, ages, false, q);
    EnqueueKeys(m, q, u);
    LinksOnly(m, Enqueued(m, q, u), q, {u} + ({Value(m, Last(q))} - {""}));
  }

  lemma ClearRecords(m: Store, ages: Ages, strict: bool, q: string)
    requires Linked(m, ages, strict)
    ensures SameRecords(m, Cleared(m, q))
  {
    hide Encode, Value, SameRecords, Cleared, SameExcept, Linked, Closed;
    AgesClosed(m, ages, strict, q);
    ClearedTouches(m, q, ages.Keys);
    LinksOnly(m, Cleared(m, q), q, ages.Keys);
  }

  /** The four records of a uuid and an enrollment in the bucket. */
  ghost predicate RecordsAre(m: Store, q: string, u: string, status: string, raw: Bytes, stored: bool, c: Command) {
    && Value(m, Status(q, u)) == status && Value(m, Report(q, u)) == raw
    && (Encode(Raw(u)) in m <==> stored) && Value(m, Raw(u)) == c.raw && Value(m, RequestType(u)) == c.requestType
  }

  lemma RecordsSame(m: Store, m': Store, q: string, u: string, status: string, raw: Bytes, stored: bool, c: Command)
    requires SameRecords(m, m') && NoDot(u) && RecordsAre(m, q, u, status, raw, stored, c)
    ensures RecordsAre(m', q, u, status, raw, stored, c)
  {
    hide Encode, Value, NoDot;
    assert Plain(Status(q, u)) && Plain(Report(q, u)) && Plain(Raw(u)) && Plain(RequestType(u));
  }

  lemma ResultRecords(m: Store, id: string, uuid: string, r: Result, q: string, u: string,
                      status: string, raw: Bytes, stored: bool, c: Command)
    requires NoDot(uuid) && NoDot(u) && RecordsAre(m, q, u, status, raw, stored, c)
    ensures var reported := id == q && uuid == u;
            RecordsAre(ResultStored(m, id, uuid, r), q, u, if reported then r.status else status,
                       if reported then r.raw else raw, stored, c)
  {
    hide Encode, Value, NoDot, ResultStored;
    ResultStoredKeys(m, id, uuid, r);
    assert Plain(Status(q, u)) && Plain(Report(q, u)) && Plain(Raw(u)) && Plain(RequestType(u));
  }

  lemma CommandRecords(m: Store, uuid: string, command: Command, q: string, u: string,
                       status: string, raw: Bytes, stored: bool, c: Command)
    requires NoDot(uuid) && NoDot(u) && RecordsAre(m, q, u, status, raw, stored, c)
    ensures RecordsAre(CommandStored(m, uuid, command), q, u, status, raw, stored || uuid == u, if uuid == u then command else c)
  {
    hide Encode, Value, NoDot, CommandStored;
    CommandStoredKeys(m, uuid, command);
    assert Plain(Status(q, u)) && Plain(Report(q, u)) && Plain(Raw(u)) && Plain(RequestType(u));
  }

  lemma ReportRecords(m: Store, ages: Ages, strict: bool, op: Op, repaired: bool, q: string, u: string,
                      status: string, raw: Bytes, stored: bool, c: Command)
    requires Linked(m, ages, strict) && Plausible(op) && op.Session? && op.status != "Idle" && op.uuid != "" && NoDot(u)
    requires RecordsAre(m, q, u, status, raw, stored, c)
    ensures if Reports(op, q, u) then RecordsAre(Step(m, op, repaired), q, u, op.status, op.raw, stored, c)
            else RecordsAre(Step(m, op, repaired), q, u, status, raw, stored, c)
  {
    var r := Result(op.status, op.raw);
    var m1 := ResultStored(m, op.id, op.uuid, r);
    hide Linked, Encode, Value, NoDot, ResultStored, Unlinked, UnlinkedRepaired, SameRecords, RecordsAre;
    ResultLinked(m, ages, strict, op.id, op.uuid, r);
    var s1, r1 := if Reports(op, q, u) then op.status else status, if Reports(op, q, u) then op.raw else raw;
    ResultRecords(m, op.id, op.uuid, r, q, u, status, raw, stored, c);
    if op.status != "NotNow" {
      UnlinkRecords(m1, ages, strict, op.id, op.uuid);
      RecordsSame(m1, Unlinked(m1, op.id, op.uuid), q, u, s1, r1, stored, c);
      RecordsSame(m1, UnlinkedRepaired(m1, op.id, op.uuid), q, u, s1, r1, stored, c);
    }
  }

  lemma NewestIsNew(m: Store, ages: Ages, strict: bool, u: string)
    requires Linked(m, ages, strict) && u !in ages
    ensures forall v :: v in ages ==> ages[v] < |ages|
  {
    hide Encode, Value, NoDot, ValidUuid;
  }

  lemma EnqueueRecords(m: Store, ages: Ages, strict: bool, op: Op, q: string, u: string,
                       status: string, raw: Bytes, stored: bool, c: Command)
    requires Linked(m, ages, strict) && Plausible(op) && op.Enqueue? && op.uuid !in ages && NoDot(u)
    requires RecordsAre(m, q, u, status, raw, stored, c)
    ensures var m' := CommandEnqueued(m, op.ids, op.uuid, op.command);
            if op.uuid == u then RecordsAre(m', q, u, status, raw, true, op.command)
            else RecordsAre(m', q, u, status, raw, stored, c)
  {
    var m1 := CommandStored(m, op.uuid, op.command);
    var ages' := AgesAfter(ages, op);
    hide Linked, Encode, Value, NoDot, CommandStored, SameRecords, RecordsAre, ValidUuid;
    NewestIsNew(m, ages, strict, op.uuid);
    LooseLinked(m, ages, strict);
    CommandLinked(m, ages, false, op.uuid, op.command);
    var c1, stored1 := if op.uuid == u then op.command else c, stored || op.uuid == u;
    CommandRecords(m, op.uuid, op.command, q, u, status, raw, stored, c);
    EnqueueAllRecords(m1, ages', op.ids, op.uuid);
    RecordsSame(m1, EnqueuedAll(m1, op.ids, op.uuid), q, u, status, raw, stored1, c1);
  }

  /** Links that lead to newer commands lead to none that is older. */
  lemma LooseLinked(m: Store, ages: Ages, strict: bool)
    requires Linked(m, ages, strict)
    ensures Linked(m, ages, false)
  {
    hide Encode, Value, NoDot;
    forall k: QueueKey | Plain(k) ensures Leads(ages, false, k, Value(m, k)) {
      assert Leads(ages, strict, k, Value(m, k));
    }
  }

  lemma RecordsStep(m: Store, ages: Ages, strict: bool, op: Op, repaired: bool, q: string, u: string,
                    status: string, raw: Bytes, stored: bool, c: Command)
    requires Linked(m, ages, strict) && Plausible(op) && ValidUuid(u) && RecordsAre(m, q, u, status, raw, stored, c)
    ensures var m' := Step(m, op, repaired);
            if Reports(op, q, u) then RecordsAre(m', q, u, op.status, op.raw, stored, c)
            else if op.Enqueue? && op.uuid == u && !stored then RecordsAre(m', q, u, status, raw, true, op.command)
            else RecordsAre(m', q, u, status, raw, stored, c)
  {
    assert stored <==> Encode(Raw(u)) in m;
    hide Linked, Encode, Value, NoDot, RecordsAre, Cleared, CommandEnqueued, Reported, ReportedRepaired;
    match op
    case Enqueue(_, uuid, _) =>
      RawKnown(m, ages, strict, uuid);
      if uuid !in ages {
        EnqueueRecords(m, ages, strict, op, q, u, status, raw, stored, c);
      }
    case Session(_, s, uuid, _) =>
      if s != "Idle" && uuid != "" {
        ReportRecords(m, ages, strict, op, repaired, q, u, status, raw, stored, c);
      }
    case Clear(id) =>
      ClearRecords(m, ages, strict, id);
      RecordsSame(m, Cleared(m, id), q, u, status, raw, stored, c);
  }

  /** Over every run, as written or repaired and in step or not: the bucket holds, for each enrollment and
      command, the status and the bytes of the last report, and a command as it was first enqueued. */
  lemma {:induction false} RunRecords(m: Store, ages: Ages, ops: seq<Op>, repaired: bool, q: string, u: string,
                                      status: string, raw: Bytes, stored: bool, c: Command)
    requires Linked(m, ages, false) && PlausibleRun(ops) && ValidUuid(u) && RecordsAre(m, q, u, status, raw, stored, c)
    ensures var m', last, first := Steps(m, ops, repaired), LastReport(ops, q, u), FirstEnqueue(ops, u);
            && Value(m', Status(q, u)) == (if last.Some? then last.value.status else status)
            && Value(m', Report(q, u)) == (if last.Some? then last.value.raw else raw)
            && (Encode(Raw(u)) in m' <==> stored || first.Some?)
            && Value(m', Raw(u)) == (if stored || first.None? then c.raw else first.value.raw)
            && Value(m', RequestType(u)) == (if stored || first.None? then c.requestType else first.value.requestType)
    decreases |ops|
  {
    hide Linked, Encode, Value, Plausible, Step, NoDot, AgesAfter;
    if ops != [] {
      var op, m1 := ops[0], Step(m, ops[0], repaired);
      StepLinked(m, ages, false, op, repaired);
      RecordsStep(m, ages, false, op, repaired, q, u, status, raw, stored, c);
      assert forall i :: 0 <= i < |ops[1..]| ==> ops[1..][i] == ops[i + 1];
      hide RecordsAre;
      if Reports(op, q, u) {
        RunRecords(m1, AgesAfter(ages, op), ops[1..], repaired, q, u, op.status, op.raw, stored, c);
      } else if op.Enqueue? && op.uuid == u && !stored {
        RunRecords(m1, AgesAfter(ages, op), ops[1..], repaired, q, u, status, raw, true, op.command);
      } else {
        RunRecords(m1, AgesAfter(ages, op), ops[1..], repaired, q, u, status, raw, stored, c);
      }
    }
  }

  lemma RecordsFromEmpty(ops: seq<Op>, repaired: bool, q: string, u: string)
    requires PlausibleRun(ops) && ValidUuid(u)
    ensures var m, last, first := Steps(map[], ops, repaired), LastReport(ops, q, u), FirstEnqueue(ops, u);
            && Value(m, Status(q, u)) == (if last.Some? then last.value.status else "")
            && Value(m, Report(q, u)) == (if last.Some? then last.value.raw else "")
            && (Encode(Raw(u)) in m <==> first.Some?)
            && (first.Some? ==> Value(m, Raw(u)) == first.value.raw && Value(m, RequestType(u)) == first.value.requestType)
  {
    hide Encode, Linked, NoDot;
    EmptyStoreLinked(false);
    RunRecords(map[], map[], ops, repaired, q, u, "", "", false, Command("", ""));
  }

  // ---------- in step with the machine ----------

  /** When a call keeps the bucket in step: an enqueue of a new command names each enrollment once, the
      unlink of a report is right. */
  predicate InStep(m: Store, a: Machine, op: Op, repaired: bool) {
    match op
    case Enqueue(ids, uuid, _) => uuid in a.commands || Distinct(ids)
    case Session(_, status, uuid, _) => status == "Idle" || uuid == "" || ReportRight(m, a, op, repaired)
    case Clear(_) => true
  }

  lemma NeighboursAreKnown(m: Store, a: Machine, ages: Ages, strict: bool, q: string, u: string)
    requires Linked(m, ages, strict) && CommandsStored(m, a) && Sound(a) && NoDot(u)
    ensures NeighboursKnown(m, a, q, u)
  {
    hide Encode, NoDot, Value;
    LinkedNeighbours(m, ages, strict, q, u);
    forall v | v in ages ensures v in a.commands {
      assert ValidUuid(v) && (Encode(Raw(v)) in m);
    }
  }

  /** Exactly which calls keep the bucket in step with the machine. */
  lemma StepExact(m: Store, a: Machine, ages: Ages, strict: bool, op: Op, repaired: bool)
    requires Represents(m, a) && Linked(m, ages, strict) && Plausible(op)
    ensures Represents(Step(m, op, repaired), Apply(a, op)) <==> InStep(m, a, op, repaired)
  {
    match op
    case Enqueue(ids, uuid, _) =>
      assert Encode(Raw(uuid)) in m <==> uuid in a.commands;
      hide Represents, Encode, CommandEnqueued;
      if uuid !in a.commands {
        EnqueueRefines(m, a, op);
      }
    case Session(id, status, uuid, _) =>
      assert CommandsStored(m, a) && Sound(a);
      hide Represents, Encode, Linked, ReportRight, Reported, ReportedRepaired, NeighboursKnown, CommandsStored, Sound, NoDot;
      if status != "Idle" && uuid != "" {
        NeighboursAreKnown(m, a, ages, strict, id, uuid);
        ReportRefines(m, a, op);
      }
    case Clear(id) =>
      hide Represents, Encode, Cleared;
      ClearRefines(m, a, id);
  }

  lemma {:induction false} FoundAsMachine(m: Store, a: Machine, id: string, s: seq<string>, skipNotNow: bool)
    requires Sound(a) && CommandsStored(m, a) && ResultsStored(m, a)
    requires forall i :: 0 <= i < |s| ==> s[i] in a.commands
    ensures var p := FirstPending(a, id, s, skipNotNow);
            Found(m, id, s, skipNotNow) == if p == [] then NoCommand
                                           else if p[0] in a.commands then Deliver(p[0], a.commands[p[0]]) else Failure
  {
    hide Encode, NoDot;
    if s != [] {
      assert ValidUuid(s[0]);
      FoundAsMachine(m, a, id, s[1..], skipNotNow);
    }
  }

  /** On a bucket in step a fetch returns, with the machine's next command. */
  lemma FetchedIsNext(m: Store, a: Machine, id: string, skipNotNow: bool)
    requires Represents(m, a)
    ensures Returns(m, id, skipNotNow) && Fetched(m, id, skipNotNow) == QueueMachine.Next(a, id, skipNotNow)
  {
    var s := a.Queue(id);
    assert IsList(m, id, s);
    hide Encode, Value, NoDot, IsList, IsWalk, Found, FirstPending, Returns;
    ListIsWalk(m, id, s);
    WalkReturns(m, id, skipNotNow, s);
    FoundAsMachine(m, a, id, s, skipNotNow);
  }

  /** A call that keeps the bucket in step returns, and is answered as the machine answers it. */
  lemma AnswerExact(m: Store, a: Machine, op: Op, repaired: bool)
    requires Represents(m, a) && Represents(Step(m, op, repaired), Apply(a, op)) && Plausible(op)
    ensures Ends(m, op, repaired) && Answer(m, op, repaired) == ReplyTo(a, op)
  {
    match op
    case Enqueue(_, uuid, _) => assert Encode(Raw(uuid)) in m <==> uuid in a.commands;
    case Session(id, status, _, _) =>
      hide Represents, Returns, Step, Apply;
      FetchedIsNext(Step(m, op, repaired), Apply(a, op), id, status == "NotNow");
    case Clear(_) =>
  }

  predicate InStepRun(m: Store, a: Machine, ops: seq<Op>, repaired: bool)
    decreases |ops|
  {
    ops == [] || (InStep(m, a, ops[0], repaired) && InStepRun(Step(m, ops[0], repaired), Apply(a, ops[0]), ops[1..], repaired))
  }

  /** Over any run whose calls keep the bucket in step, late reports and reports on unknown commands
      included, every call returns and the answers are the machine's. */
  lemma {:induction false} RunRefines(m: Store, a: Machine, ages: Ages, strict: bool, ops: seq<Op>, repaired: bool)
    requires Represents(m, a) && Linked(m, ages, strict) && PlausibleRun(ops) && InStepRun(m, a, ops, repaired)
    requires strict ==> EachNamedOnce(ops)
    ensures Represents(Steps(m, ops, repaired), Run(a, ops))
    ensures RunEnds(m, ops, repaired) && Answers(m, ops, repaired) == Replies(a, ops)
    decreases |ops|
  {
    hide Represents, Linked, InStep, Step, Apply, Ends, Answer, ReplyTo, AgesAfter, NoDot, Distinct, ValidUuid, NamesOnce;
    if ops != [] {
      assert Plausible(ops[0]);
      StepLinked(m, ages, strict, ops[0], repaired);
      StepExact(m, a, ages, strict, ops[0], repaired);
      AnswerExact(m, a, ops[0], repaired);
      assert forall i :: 0 <= i < |ops[1..]| ==> ops[1..][i] == ops[i + 1];
      RunRefines(Step(m, ops[0], repaired), Apply(a, ops[0]), AgesAfter(ages, ops[0]), strict, ops[1..], repaired);
    }
  }

  /** Legal calls keep the bucket in step: with the repaired unlink all of them, as written those that
      complete no tail of a longer queue. */
  lemma LegalInStep(m: Store, a: Machine, op: Op, repaired: bool)
    requires Sound(a) && Legal(a, op) && (repaired || SparesTail(a, op))
    ensures InStep(m, a, op, repaired) && Plausible(op)
  {
    hide StrangerHarmless, NoDot;
    EmptyPlain();
    if op.Session? && op.status != "Idle" && op.uuid != "" {
      SoundUuid(a, op.id, op.uuid);
    }
  }

  lemma {:induction false} LegalRunInStep(m: Store, a: Machine, ops: seq<Op>, repaired: bool)
    requires Sound(a) && LegalRun(a, ops) && (repaired || SparesTailRun(a, ops))
    ensures InStepRun(m, a, ops, repaired) && PlausibleRun(ops)
    decreases |ops|
  {
    hide Sound, Legal, SparesTail, InStep, Step, Apply, Plausible;
    if ops != [] {
      LegalInStep(m, a, ops[0], repaired);
      assert ops[0].Enqueue? ==> ValidUuid(ops[0].uuid) by { LegalEnqueue(a, ops[0]); }
      SoundStep(a, ops[0]);
      LegalRunInStep(Step(m, ops[0], repaired), Apply(a, ops[0]), ops[1..], repaired);
      assert forall i :: 0 < i < |ops| ==> ops[i] == ops[1..][i - 1];
    }
  }

  lemma LegalEnqueue(a: Machine, op: Op)
    requires Legal(a, op)
    ensures op.Enqueue? ==> ValidUuid(op.uuid)
  {
  }

  /** So over any legal run the answers are the machine's: with the repaired unlink always, as written
      if the run completes no tail of a longer queue. */
  lemma LegalRunRefines(m: Store, a: Machine, ages: Ages, ops: seq<Op>, repaired: bool)
    requires Represents(m, a) && Linked(m, ages, false) && LegalRun(a, ops) && (repaired || SparesTailRun(a, ops))
    ensures Represents(Steps(m, ops, repaired), Run(a, ops))
    ensures RunEnds(m, ops, repaired) && Answers(m, ops, repaired) == Replies(a, ops)
  {
    assert Sound(a);
    hide Represents, Sound, Linked, RunEnds;
    LegalRunInStep(m, a, ops, repaired);
    RunRefines(m, a, ages, false, ops, repaired);
  }

  /** The empty bucket is the empty machine, so theorems about runs from the empty machine are theorems
      about the backend from an empty store. */
  lemma EmptyStoreRepresented()
    ensures Represents(map[], EMPTY) && Linked(map[], map[], false)
  {
    hide Encode, NoDot, ValidUuid;
  }
}
