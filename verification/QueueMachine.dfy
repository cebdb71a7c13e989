/** The meaning of the command queue: per enrollment a sequence of command uuids, with the last
    result each enrollment reported for a command. Storage backends are measured against it. */
module QueueMachine {
  import opened Options
  import opened QueueList

  datatype Command = Command(requestType: string, raw: Bytes)

  datatype Result = Result(status: string, raw: Bytes)

  datatype Machine = Machine(
    commands: map<string, Command>,
    queues: map<string, seq<string>>,
    results: map<(string, string), Result>
  ) {
    function Queue(id: string): seq<string> {
      if id in queues then queues[id] else []
    }

    predicate Deferred(id: string, uuid: string) {
      (id, uuid) in results && results[(id, uuid)].status == "NotNow"
    }
  }

  const EMPTY := Machine(map[], map[], map[])

  /** The calls that reach the queue: enqueueing from the API, a device's report-and-fetch, and
      the clearing that comes with a new Authenticate. */
  datatype Op =
    | Enqueue(ids: seq<string>, uuid: string, command: Command)
    | Session(id: string, status: string, uuid: string, raw: Bytes)
    | Clear(id: string)

  datatype Reply = NoCommand | Deliver(uuid: string, command: Command) | Failure | Done

  /** A report that ends a command, as opposed to deferring it or asking for work. */
  predicate Completes(op: Op) {
    op.Session? && op.status != "Idle" && op.status != "NotNow" && op.uuid != ""
  }

  function QueuesWith(queues: map<string, seq<string>>, ids: seq<string>, uuid: string): map<string, seq<string>> {
    map id | id in queues.Keys + Items(ids) ::
      (if id in queues then queues[id] else []) + (if id in ids then [uuid] else [])
  }

  function Apply(a: Machine, op: Op): Machine {
    match op
    case Enqueue(ids, uuid, command) =>
      if uuid in a.commands then a
      else a.(commands := a.commands[uuid := command], queues := QueuesWith(a.queues, ids, uuid))
    case Session(id, status, uuid, raw) =>
      if status == "Idle" || uuid == "" then a
      else
        var a' := a.(results := a.results[(id, uuid) := Result(status, raw)]);
        if status == "NotNow" then a' else a'.(queues := a.queues[id := Without(a.Queue(id), uuid)])
    case Clear(id) =>
      a.(queues := a.queues[id := []])
  }

  /** The first command of a sequence that is not skipped. */
  function FirstPending(a: Machine, id: string, s: seq<string>, skipNotNow: bool): seq<string> {
    if s == [] then []
    else if skipNotNow && a.Deferred(id, s[0]) then FirstPending(a, id, s[1..], skipNotNow)
    else [s[0]]
  }

  function Next(a: Machine, id: string, skipNotNow: bool): Reply {
    var p := FirstPending(a, id, a.Queue(id), skipNotNow);
    if p == [] then NoCommand
    else if p[0] in a.commands then Deliver(p[0], a.commands[p[0]])
    else Failure
  }

  function ReplyTo(a: Machine, op: Op): Reply {
    match op
    case Enqueue(_, uuid, _) => if uuid in a.commands then Failure else Done
    case Session(id, status, uuid, _) =>
      if status != "Idle" && uuid == "" then Failure
      else Next(Apply(a, op), id, status == "NotNow")
    case Clear(_) => Done
  }

  function Run(a: Machine, ops: seq<Op>): Machine
    decreases |ops|
  {
    if ops == [] then a else Run(Apply(a, ops[0]), ops[1..])
  }

  function Replies(a: Machine, ops: seq<Op>): seq<Reply>
    decreases |ops|
  {
    if ops == [] then [] else [ReplyTo(a, ops[0])] + Replies(Apply(a, ops[0]), ops[1..])
  }

  // ---------- what is recorded ----------

  predicate Reports(op: Op, id: string, uuid: string) {
    op.Session? && op.status != "Idle" && op.id == id && op.uuid == uuid
  }

  /** The last thing an enrollment said about a command. */
  function LastReport(ops: seq<Op>, id: string, uuid: string): Option<Result> {
    if ops == [] then None
    else
      var later := LastReport(ops[1..], id, uuid);
      if later.Some? then later
      else if Reports(ops[0], id, uuid) then Some(Result(ops[0].status, ops[0].raw))
      else None
  }

  /** The command a uuid was first enqueued with. */
  function FirstEnqueue(ops: seq<Op>, uuid: string): Option<Command> {
    if ops == [] then None
    else if ops[0].Enqueue? && ops[0].uuid == uuid then Some(ops[0].command)
    else FirstEnqueue(ops[1..], uuid)
  }

  /** Over every run: for each enrollment and command the machine knows the last report, and a command
      stays as it was first enqueued. */
  lemma {:induction false} RecordsKept(a: Machine, ops: seq<Op>, id: string, uuid: string)
    requires uuid != ""
    ensures var a', last := Run(a, ops), LastReport(ops, id, uuid);
            && ((id, uuid) in a'.results <==> last.Some? || (id, uuid) in a.results)
            && ((id, uuid) in a'.results ==>
                  a'.results[(id, uuid)] == if last.Some? then last.value else a.results[(id, uuid)])
    ensures var a', first := Run(a, ops), FirstEnqueue(ops, uuid);
            && (uuid in a'.commands <==> first.Some? || uuid in a.commands)
            && (uuid in a'.commands ==> a'.commands[uuid] == if uuid in a.commands then a.commands[uuid] else first.value)
    decreases |ops|
  {
    hide Without, QueuesWith;
    if ops != [] {
      RecordsKept(Apply(a, ops[0]), ops[1..], id, uuid);
    }
  }

  // ---------- what callers owe ----------

  /** A command is enqueued to each enrollment once, and reports name an outstanding command. */
  predicate Legal(a: Machine, op: Op) {
    match op
    case Enqueue(ids, uuid, _) => ValidUuid(uuid) && Distinct(ids)
    case Session(id, status, uuid, _) => status == "Idle" || uuid == "" || uuid in a.Queue(id)
    case Clear(_) => true
  }

  /** Less than Legal: the command enqueued may go to an enrollment twice, and reports may come late. */
  predicate Known(a: Machine, op: Op) {
    match op
    case Enqueue(_, uuid, _) => ValidUuid(uuid)
    case Session(_, status, uuid, _) => status == "Idle" || uuid == "" || uuid in a.commands
    case Clear(_) => true
  }

  /** No command is completed from the tail of a queue that holds others. */
  predicate SparesTail(a: Machine, op: Op) {
    Completes(op) ==> |a.Queue(op.id)| == 1 || At(a.Queue(op.id), |a.Queue(op.id)| - 1) != op.uuid
  }

  predicate LegalRun(a: Machine, ops: seq<Op>)
    decreases |ops|
  {
    ops == [] || (Legal(a, ops[0]) && LegalRun(Apply(a, ops[0]), ops[1..]))
  }

  predicate SparesTailRun(a: Machine, ops: seq<Op>)
    decreases |ops|
  {
    ops == [] || (SparesTail(a, ops[0]) && SparesTailRun(Apply(a, ops[0]), ops[1..]))
  }

  // ---------- what every run keeps ----------

  /** Commands are valid; queues hold known ones, each at most once. */
  ghost predicate Sound(a: Machine) {
    && (forall u :: u in a.commands ==> ValidUuid(u))
    && (forall id, u :: u in a.Queue(id) ==> u in a.commands)
    && (forall id :: Distinct(a.Queue(id)))
  }

  /** Results are for known commands only, as long as every report names one. */
  ghost predicate ResultsKnown(a: Machine) {
    forall p :: p in a.results ==> p.1 in a.commands
  }

  lemma ResultsKnownStep(a: Machine, op: Op)
    requires ResultsKnown(a) && Known(a, op)
    ensures ResultsKnown(Apply(a, op))
  {
    hide Without, QueuesWith;
  }

  lemma WithoutSubset(s: seq<string>, u: string)
    requires Distinct(s)
    ensures Distinct(Without(s, u))
    ensures forall x :: x in Without(s, u) <==> x in s && x != u
  {
    if u in s {
      var i := IndexOf(s, u);
      WithoutAt(s, i);
      forall x | x in s && x != u ensures x in Without(s, u) {
        var j := IndexOf(s, x);
        assert Without(s, u)[if j < i then j else j - 1] == x;
      }
    } else {
      WithoutStranger(s, u);
    }
  }

  lemma SoundStep(a: Machine, op: Op)
    requires Sound(a) && (op.Enqueue? ==> ValidUuid(op.uuid))
    ensures Sound(Apply(a, op))
  {
    hide ValidUuid;
    if op.Enqueue? {
      SoundEnqueue(a, op);
    } else {
      WithoutSubset(a.Queue(op.id), if op.Session? then op.uuid else "");
      forall id
        ensures Distinct(Apply(a, op).Queue(id)) && forall u :: u in Apply(a, op).Queue(id) ==> u in a.commands
      {
        QueueAfterOther(a, op, id);
      }
    }
  }

  lemma QueueAfterOther(a: Machine, op: Op, id: string)
    requires !op.Enqueue?
    ensures Apply(a, op).Queue(id) ==
            if id != op.id then a.Queue(id)
            else if op.Clear? then []
            else if Completes(op) then Without(a.Queue(id), op.uuid)
            else a.Queue(id)
    ensures Apply(a, op).commands == a.commands
  {
  }

  lemma QueueAfterEnqueue(a: Machine, op: Op, id: string)
    requires op.Enqueue? && op.uuid !in a.commands
    ensures Apply(a, op).Queue(id) == a.Queue(id) + if id in op.ids then [op.uuid] else []
  {
  }

  lemma SoundEnqueue(a: Machine, op: Op)
    requires Sound(a) && op.Enqueue? && ValidUuid(op.uuid)
    ensures Sound(Apply(a, op))
  {
    if op.uuid !in a.commands {
      var a' := Apply(a, op);
      forall id
        ensures Distinct(a'.Queue(id)) && forall u :: u in a'.Queue(id) ==> u in a'.commands
      {
        QueueAfterEnqueue(a, op, id);
        assert op.uuid !in a.Queue(id);
      }
    }
  }
}
