/** The key-value backend's queue: the bucket as a whole represents a queue machine, and every
    operation of the backend moves both in step. */
module KvQueue {
  import opened Strings
  import opened QueueKeys
  import opened QueueList
  import opened QueueMachine

  // ---------- what the bucket represents ----------

  ghost predicate CommandsStored(m: Store, a: Machine) {
    forall u: string :: NoDot(u) ==>
      && (Encode(Raw(u)) in m <==> u in a.commands)
      && (u in a.commands ==>
            && Encode(RequestType(u)) in m
            && Value(m, Raw(u)) == a.commands[u].raw
            && Value(m, RequestType(u)) == a.commands[u].requestType)
  }

  ghost predicate ResultsStored(m: Store, a: Machine) {
    forall q: string, u: string :: NoDot(u) ==>
      && (Encode(Status(q, u)) in m <==> (q, u) in a.results)
      && ((q, u) in a.results ==>
            && Value(m, Status(q, u)) == a.results[(q, u)].status
            && Value(m, Report(q, u)) == a.results[(q, u)].raw)
  }

  predicate IsLink(k: QueueKey) {
    k.Next? || k.Prev?
  }

  /** Every uuid with link keys in any queue has a stored command, so an unused uuid has none left over
      from earlier queues. */
  ghost predicate NoStrayKeys(m: Store, a: Machine) {
    forall k: QueueKey :: Plain(k) && IsLink(k) && k.uuid !in a.commands ==> Encode(k) !in m
  }

  ghost predicate QueuesLinked(m: Store, a: Machine) {
    forall q: string :: IsList(m, q, a.Queue(q))
  }

  ghost predicate Represents(m: Store, a: Machine) {
    && Sound(a)
    && QueuesLinked(m, a)
    && CommandsStored(m, a)
    && ResultsStored(m, a)
    && NoStrayKeys(m, a)
  }

  // ---------- frames ----------

  ghost predicate SameLinks(m: Store, m': Store) {
    forall k: QueueKey :: Plain(k) && (k.First? || k.Last? || k.Next? || k.Prev?) ==>
      Value(m, k) == Value(m', k)
  }

  lemma ListFrame(m: Store, m': Store, q: string, us: set<string>, q': string, s: seq<string>)
    requires SameExcept(m, m', q, us) && q' != q && IsList(m, q', s)
    ensures IsList(m', q', s)
  {
    hide Encode, Decode, Value, NoDot;
    forall i {:trigger Value(m', Next(q', s[i]))} | 0 <= i < |s|
      ensures Value(m', Next(q', s[i])) == At(s, i + 1)
    {
      assert Value(m, Next(q', s[i])) == At(s, i + 1);
    }
    forall i {:trigger Value(m', Prev(q', s[i]))} | 0 <= i < |s|
      ensures Value(m', Prev(q', s[i])) == At(s, i - 1)
    {
      assert Value(m, Prev(q', s[i])) == At(s, i - 1);
    }
  }

  lemma LinkFrame(m: Store, m': Store, q: string, s: seq<string>)
    requires SameLinks(m, m') && IsList(m, q, s)
    ensures IsList(m', q, s)
  {
    hide Encode, Decode, Value, NoDot;
    forall i {:trigger Value(m', Next(q, s[i]))} | 0 <= i < |s|
      ensures Value(m', Next(q, s[i])) == At(s, i + 1)
    {
      assert Value(m, Next(q, s[i])) == At(s, i + 1);
    }
    forall i {:trigger Value(m', Prev(q, s[i]))} | 0 <= i < |s|
      ensures Value(m', Prev(q, s[i])) == At(s, i - 1)
    {
      assert Value(m, Prev(q, s[i])) == At(s, i - 1);
    }
  }

  /** A change of one queue's links keeps everything else the bucket represents. */
  lemma LinksChanged(m: Store, m': Store, a: Machine, a': Machine, q: string, us: set<string>)
    requires Represents(m, a) && SameExcept(m, m', q, us)
    requires forall u :: u in us && u !in a.commands ==> Encode(Next(q, u)) !in m' && Encode(Prev(q, u)) !in m'
    requires Sound(a') && a'.commands == a.commands && a'.results == a.results
    requires forall q' :: q' != q ==> a'.Queue(q') == a.Queue(q')
    requires IsList(m', q, a'.Queue(q))
    ensures Represents(m', a')
  {
    hide Encode, Decode, Value, NoDot, IsList, Sound;
    forall q' ensures IsList(m', q', a'.Queue(q')) {
      if q' != q {
        ListFrame(m, m', q, us, q', a.Queue(q'));
      }
    }
  }

  // ---------- StoreCommandReport ----------

  function ResultStored(m: Store, q: string, u: string, r: Result): Store {
    m[Encode(Report(q, u)) := r.raw][Encode(Status(q, u)) := r.status]
  }

  /** The bucket after a report other than Idle. */
  function Reported(m: Store, q: string, u: string, r: Result): Store {
    var m' := ResultStored(m, q, u, r);
    if r.status == "NotNow" then m' else Unlinked(m', q, u)
  }

  function ReportedRepaired(m: Store, q: string, u: string, r: Result): Store {
    var m' := ResultStored(m, q, u, r);
    if r.status == "NotNow" then m' else UnlinkedRepaired(m', q, u)
  }

  ghost predicate OnlyResultChanged(m: Store, m': Store, q: string, u: string, r: Result) {
    forall k: QueueKey :: Plain(k) ==>
      && (Encode(k) in m' <==> Encode(k) in m || k == Status(q, u) || k == Report(q, u))
      && Value(m', k) == if k == Status(q, u) then r.status else if k == Report(q, u) then r.raw else Value(m, k)
  }

  lemma ResultStoredKeys(m: Store, q: string, u: string, r: Result)
    requires NoDot(u)
    ensures OnlyResultChanged(m, ResultStored(m, q, u, r), q, u, r)
  {
    hide Encode, Decode, NoDot;
    Layout();
  }

  lemma ResultsUpdated(m: Store, m': Store, a: Machine, q: string, u: string, r: Result)
    requires ResultsStored(m, a) && OnlyResultChanged(m, m', q, u, r) && NoDot(u)
    ensures ResultsStored(m', a.(results := a.results[(q, u) := r]))
  {
    hide Encode, Decode, Value, NoDot;
  }

  lemma OthersKept(m: Store, m': Store, a: Machine, q: string, u: string, r: Result)
    requires QueuesLinked(m, a) && CommandsStored(m, a) && NoStrayKeys(m, a)
    requires OnlyResultChanged(m, m', q, u, r)
    ensures QueuesLinked(m', a) && CommandsStored(m', a) && NoStrayKeys(m', a)
  {
    hide Encode, Decode, Value, NoDot, IsList;
    assert SameLinks(m, m');
    forall q' ensures IsList(m', q', a.Queue(q')) {
      LinkFrame(m, m', q', a.Queue(q'));
    }
  }

  lemma ResultStoredRefines(m: Store, a: Machine, q: string, u: string, r: Result)
    requires Represents(m, a) && NoDot(u)
    ensures Represents(ResultStored(m, q, u, r), a.(results := a.results[(q, u) := r]))
  {
    var m' := ResultStored(m, q, u, r);
    var a' := a.(results := a.results[(q, u) := r]);
    ResultStoredKeys(m, q, u, r);
    ResultsUpdated(m, m', a, q, u, r);
    OthersKept(m, m', a, q, u, r);
    SameQueues(m', a, a');
  }

  /** What a machine's queues and commands say does not depend on its results. */
  lemma SameQueues(m: Store, a: Machine, a': Machine)
    requires Sound(a) && QueuesLinked(m, a) && CommandsStored(m, a) && NoStrayKeys(m, a)
    requires a'.queues == a.queues && a'.commands == a.commands
    ensures Sound(a') && QueuesLinked(m, a') && CommandsStored(m, a') && NoStrayKeys(m, a')
  {
    hide Encode, Value, ValidUuid, NoDot, IsList;
    assert forall id :: a'.Queue(id) == a.Queue(id);
  }

  lemma AtMember(s: seq<string>, i: int)
    ensures At(s, i) != "" ==> At(s, i) in Items(s)
  {
  }

  /** Unlinking an item of a list changes links of that list's items only. */
  lemma UnlinkTouches(m: Store, q: string, s: seq<string>, u: string)
    requires IsList(m, q, s) && u in s
    ensures SameExcept(m, Unlinked(m, q, u), q, Items(s))
    ensures SameExcept(m, UnlinkedRepaired(m, q, u), q, Items(s))
  {
    hide Encode, Value, Unlinked, UnlinkedRepaired, UnlinkedValue, IsList, NoDot, At, IndexOf, Plain, SameExcept;
    Neighbours(m, q, s, u);
    UnlinkKeys(m, q, u);
    RepairedKeys(m, q, u);
    AtMember(s, IndexOf(s, u) - 1);
    AtMember(s, IndexOf(s, u) + 1);
    var us := {u} + ({Value(m, Prev(q, u)), Value(m, Next(q, u))} - {""});
    FewerTouched(m, Unlinked(m, q, u), q, us, Items(s));
    FewerTouched(m, UnlinkedRepaired(m, q, u), q, us, Items(s));
  }

  lemma FewerTouched(m: Store, m': Store, q: string, us: set<string>, vs: set<string>)
    requires SameExcept(m, m', q, us) && us <= vs
    ensures SameExcept(m, m', q, vs)
  {
    hide Encode, Value, Plain;
  }

  /** The link keys of a command name stored commands only. */
  predicate NeighboursKnown(m: Store, a: Machine, q: string, u: string) {
    && (Value(m, Prev(q, u)) == "" || Value(m, Prev(q, u)) in a.commands)
    && (Value(m, Next(q, u)) == "" || Value(m, Next(q, u)) in a.commands)
  }

  lemma KnownIsPlain(m: Store, a: Machine, q: string, u: string)
    requires Sound(a) && NeighboursKnown(m, a, q, u) && NoDot(u)
    ensures PlainNeighbours(m, q, u)
  {
    EmptyPlain();
    hide Value, NoDot;
  }

  lemma QueuedNeighboursKnown(m: Store, a: Machine, q: string, u: string)
    requires Sound(a) && IsList(m, q, a.Queue(q)) && u in a.Queue(q)
    ensures u in a.commands && NeighboursKnown(m, a, q, u)
  {
    Neighbours(m, q, a.Queue(q), u);
    hide Value, IsList;
    AtMember(a.Queue(q), IndexOf(a.Queue(q), u) - 1);
    AtMember(a.Queue(q), IndexOf(a.Queue(q), u) + 1);
  }

  lemma MachineAfterCompletion(a: Machine, op: Op)
    requires Sound(a) && Completes(op)
    requires (op.id, op.uuid) in a.results && a.results[(op.id, op.uuid)] == Result(op.status, op.raw)
    ensures var a' := Apply(a, op);
            && Sound(a') && a'.commands == a.commands && a'.results == a.results
            && forall id :: a'.Queue(id) == if id == op.id then Without(a.Queue(id), op.uuid) else a.Queue(id)
  {
    SoundStep(a, op);
    forall id
      ensures Apply(a, op).Queue(id) == if id == op.id then Without(a.Queue(id), op.uuid) else a.Queue(id)
    {
      QueueAfterOther(a, op, id);
    }
  }

  /** A completing report, on a bucket that has the result stored: whichever way the list comes out
      of the unlink, the bucket represents the machine's step exactly if the list is right. */
  lemma CompletionRefines(m: Store, m': Store, a: Machine, op: Op, us: set<string>)
    requires Represents(m, a) && Completes(op)
    requires (op.id, op.uuid) in a.results && a.results[(op.id, op.uuid)] == Result(op.status, op.raw)
    requires SameExcept(m, m', op.id, us) && us <= a.commands.Keys + {op.uuid}
    requires Encode(Next(op.id, op.uuid)) !in m' && Encode(Prev(op.id, op.uuid)) !in m'
    ensures Represents(m', Apply(a, op)) <==> IsList(m', op.id, Without(a.Queue(op.id), op.uuid))
  {
    MachineAfterCompletion(a, op);
    hide Encode, Value, SameExcept, IsList, ValidUuid, Apply, Without;
    if IsList(m', op.id, Without(a.Queue(op.id), op.uuid)) {
      LinksChanged(m, m', a, Apply(a, op), op.id, us);
    }
  }

  lemma UnlinkedKeysGone(m: Store, q: string, u: string)
    ensures Encode(Next(q, u)) !in Unlinked(m, q, u) && Encode(Prev(q, u)) !in Unlinked(m, q, u)
    ensures Encode(Next(q, u)) !in UnlinkedRepaired(m, q, u) && Encode(Prev(q, u)) !in UnlinkedRepaired(m, q, u)
  {
    hide Encode, Value;
  }

  /** Unlinking as written, on a bucket that has the result stored. */
  lemma UnlinkRefines(m: Store, a: Machine, op: Op, q: string, u: string, s: seq<string>)
    requires Represents(m, a) && Completes(op) && NoDot(op.uuid) && NeighboursKnown(m, a, op.id, op.uuid)
    requires (op.id, op.uuid) in a.results && a.results[(op.id, op.uuid)] == Result(op.status, op.raw)
    requires q == op.id && u == op.uuid && s == a.Queue(q)
    ensures Represents(Unlinked(m, q, u), Apply(a, op)) <==> UnlinkRight(m, q, s, u)
  {
    hide Encode, Value, Unlinked, UnlinkRight, SameExcept, Apply, Without, NoDot, CommandsStored, ResultsStored, NoStrayKeys, IsList;
    KnownIsPlain(m, a, q, u);
    UnlinkKeys(m, q, u);
    UnlinkedKeysGone(m, q, u);
    CompletionRefines(m, Unlinked(m, q, u), a, op, {u} + ({Value(m, Prev(q, u)), Value(m, Next(q, u))} - {""}));
    assert IsList(m, q, s);
    UnlinkExact(m, q, s, u);
  }

  /** The same for the repaired variant, which gets every queued command right. */
  lemma UnlinkRepairedRefines(m: Store, a: Machine, op: Op, q: string, u: string, s: seq<string>)
    requires Represents(m, a) && Completes(op) && NoDot(op.uuid) && NeighboursKnown(m, a, op.id, op.uuid)
    requires (op.id, op.uuid) in a.results && a.results[(op.id, op.uuid)] == Result(op.status, op.raw)
    requires q == op.id && u == op.uuid && s == a.Queue(q)
    ensures Represents(UnlinkedRepaired(m, q, u), Apply(a, op)) <==> u in s || StrangerHarmless(m, q, s, u)
  {
    hide Encode, Value, UnlinkedRepaired, StrangerHarmless, SameExcept, Apply, Without, NoDot, CommandsStored, ResultsStored, NoStrayKeys, IsList;
    KnownIsPlain(m, a, q, u);
    RepairedKeys(m, q, u);
    UnlinkedKeysGone(m, q, u);
    CompletionRefines(m, UnlinkedRepaired(m, q, u), a, op, {u} + ({Value(m, Prev(q, u)), Value(m, Next(q, u))} - {""}));
    assert IsList(m, q, s);
    if u in s {
      UnlinkRepairedMember(m, q, s, u);
    } else {
      UnlinkRepairedStranger(m, q, s, u);
      WithoutStranger(s, u);
    }
  }

  /** When a report leaves the queue as the report means it to be. */
  predicate ReportRight(m: Store, a: Machine, op: Op, repaired: bool) {
    Completes(op) ==>
      if repaired then op.uuid in a.Queue(op.id) || StrangerHarmless(m, op.id, a.Queue(op.id), op.uuid)
      else UnlinkRight(m, op.id, a.Queue(op.id), op.uuid)
  }

  /** StoreCommandReport on any command, queued, stored or never heard of, keeps the bucket in step with
      the machine exactly when the unlink is right. */
  lemma ReportRefines(m: Store, a: Machine, op: Op)
    requires Represents(m, a) && op.Session? && op.status != "Idle" && ValidUuid(op.uuid)
    requires NeighboursKnown(m, a, op.id, op.uuid)
    ensures var r := Result(op.status, op.raw);
            && (Represents(Reported(m, op.id, op.uuid, r), Apply(a, op)) <==> ReportRight(m, a, op, false))
            && (Represents(ReportedRepaired(m, op.id, op.uuid, r), Apply(a, op)) <==> ReportRight(m, a, op, true))
  {
    var q, u, r := op.id, op.uuid, Result(op.status, op.raw);
    var a1, m1 := a.(results := a.results[(q, u) := r]), ResultStored(m, q, u, r);
    ResultStoredRefines(m, a, q, u, r);
    StoringFirst(a, op);
    ResultStoredKeys(m, q, u, r);
    hide Represents, Value, Encode, Apply, NoDot, ResultStored, Unlinked, UnlinkedRepaired;
    SameStrangers(m, m1, q, u, a.Queue(q));
    hide OnlyResultChanged, StrangerHarmless;
    if op.status != "NotNow" {
      UnlinkRefines(m1, a1, op, q, u, a.Queue(q));
      UnlinkRepairedRefines(m1, a1, op, q, u, a.Queue(q));
    }
  }

  lemma SameStrangers(m: Store, m': Store, q: string, u: string, s: seq<string>)
    requires NoDot(u) && exists r :: OnlyResultChanged(m, m', q, u, r)
    ensures StrangerHarmless(m, q, s, u) <==> StrangerHarmless(m', q, s, u)
    ensures Value(m', Prev(q, u)) == Value(m, Prev(q, u)) && Value(m', Next(q, u)) == Value(m, Next(q, u))
  {
    hide Encode, Value, NoDot;
    assert Plain(Prev(q, u)) && Plain(Next(q, u));
  }

  /** For a queued command: as written exactly when it does not complete the tail of a longer queue; with
      the repaired unlink always. */
  lemma QueuedReportRefines(m: Store, a: Machine, op: Op)
    requires Represents(m, a) && op.Session? && op.status != "Idle" && op.uuid in a.Queue(op.id)
    ensures var r := Result(op.status, op.raw);
            && (Represents(Reported(m, op.id, op.uuid, r), Apply(a, op)) <==> SparesTail(a, op))
            && Represents(ReportedRepaired(m, op.id, op.uuid, r), Apply(a, op))
  {
    assert Sound(a) && IsList(m, op.id, a.Queue(op.id));
    hide Represents, Value, Encode, Apply, Reported, ReportedRepaired, IsList, StrangerHarmless;
    QueuedNeighboursKnown(m, a, op.id, op.uuid);
    ReportRefines(m, a, op);
    SoundUuid(a, op.id, op.uuid);
  }

  /** Storing the result first and taking the whole step after it are the same step. */
  lemma StoringFirst(a: Machine, op: Op)
    requires op.Session? && op.status != "Idle" && op.uuid != ""
    ensures var a1 := a.(results := a.results[(op.id, op.uuid) := Result(op.status, op.raw)]);
            && Apply(a1, op) == Apply(a, op)
            && a1.Queue(op.id) == a.Queue(op.id)
            && (op.status == "NotNow" ==> Apply(a, op) == a1)
  {
    hide Without;
  }

  lemma SoundUuid(a: Machine, q: string, u: string)
    requires Sound(a) && u in a.Queue(q)
    ensures ValidUuid(u) && u in a.commands
  {
  }

  // ---------- EnqueueCommand ----------

  function CommandStored(m: Store, u: string, c: Command): Store {
    m[Encode(Raw(u)) := c.raw][Encode(RequestType(u)) := c.requestType]
  }

  function EnqueuedAll(m: Store, ids: seq<string>, u: string): Store
    decreases |ids|
  {
    if ids == [] then m else EnqueuedAll(Enqueued(m, ids[0], u), ids[1..], u)
  }

  /** The bucket after EnqueueCommand accepts a new command. */
  function CommandEnqueued(m: Store, ids: seq<string>, u: string, c: Command): Store {
    EnqueuedAll(CommandStored(m, u, c), ids, u)
  }

  lemma EnqueueTouches(m: Store, q: string, s: seq<string>, u: string)
    requires IsList(m, q, s) && NoDot(u)
    ensures SameExcept(m, Enqueued(m, q, u), q, {u} + Items(s))
  {
    AtMember(s, |s| - 1);
    assert NoDot("");
    assert s != [] ==> ValidUuid(s[|s| - 1]);
    EnqueueKeys(m, q, u);
    hide Encode, Value, Enqueued, EnqueuedValue, NoDot, At;
  }

  lemma MachineAfterAppend(a: Machine, q: string, u: string)
    requires Sound(a) && u in a.commands && u !in a.Queue(q)
    ensures var a' := a.(queues := a.queues[q := a.Queue(q) + [u]]);
            && Sound(a')
            && forall id :: a'.Queue(id) == if id == q then a.Queue(q) + [u] else a.Queue(id)
  {
    hide ValidUuid;
    var a' := a.(queues := a.queues[q := a.Queue(q) + [u]]);
    assert forall id :: a'.Queue(id) == if id == q then a.Queue(q) + [u] else a.Queue(id);
  }

  lemma QueuedKnown(m: Store, a: Machine, q: string)
    requires Represents(m, a)
    ensures Sound(a) && Items(a.Queue(q)) <= a.commands.Keys
  {
  }

  lemma EnqueueOneRefines(m: Store, a: Machine, q: string, u: string)
    requires Represents(m, a) && u in a.commands && u !in a.Queue(q)
    requires Value(m, Prev(q, u)) == Value(m, Next(q, u)) == ""
    ensures Represents(Enqueued(m, q, u), a.(queues := a.queues[q := a.Queue(q) + [u]]))
  {
    assert ValidUuid(u) && IsList(m, q, a.Queue(q));
    hide Represents;
    EnqueueTouches(m, q, a.Queue(q), u);
    MachineAfterAppend(a, q, u);
    EnqueueExact(m, q, a.Queue(q), u);
    hide Encode, Value, Enqueued, SameExcept, IsList, ValidUuid, NoDot;
    var a' := a.(queues := a.queues[q := a.Queue(q) + [u]]);
    assert Items(a.Queue(q)) <= a.commands.Keys by { QueuedKnown(m, a, q); }
    LinksChanged(m, Enqueued(m, q, u), a, a', q, {u} + Items(a.Queue(q)));
  }

  ghost predicate OnlyCommandAdded(m: Store, m': Store, u: string, c: Command) {
    forall k: QueueKey :: Plain(k) ==>
      && (Encode(k) in m' <==> Encode(k) in m || k == Raw(u) || k == RequestType(u))
      && Value(m', k) == if k == Raw(u) then c.raw else if k == RequestType(u) then c.requestType else Value(m, k)
  }

  lemma CommandStoredKeys(m: Store, u: string, c: Command)
    requires NoDot(u)
    ensures OnlyCommandAdded(m, CommandStored(m, u, c), u, c)
  {
    hide Encode, Decode, NoDot;
    Layout();
  }

  lemma CommandsUpdated(m: Store, m': Store, a: Machine, u: string, c: Command)
    requires CommandsStored(m, a) && OnlyCommandAdded(m, m', u, c)
    ensures CommandsStored(m', a.(commands := a.commands[u := c]))
  {
    hide Encode, Decode, Value, NoDot;
  }

  lemma QueuesUntouched(m: Store, m': Store, a: Machine, u: string, c: Command)
    requires QueuesLinked(m, a) && ResultsStored(m, a) && NoStrayKeys(m, a) && OnlyCommandAdded(m, m', u, c)
    ensures var a' := a.(commands := a.commands[u := c]);
            QueuesLinked(m', a') && ResultsStored(m', a') && NoStrayKeys(m', a')
  {
    hide Encode, Decode, Value, NoDot, IsList;
    var a' := a.(commands := a.commands[u := c]);
    assert SameLinks(m, m');
    forall q' ensures IsList(m', q', a'.Queue(q')) {
      assert IsList(m, q', a.Queue(q'));
      LinkFrame(m, m', q', a.Queue(q'));
    }
  }

  lemma UnusedUuidUnlinked(m: Store, a: Machine, u: string)
    requires NoStrayKeys(m, a) && NoDot(u) && u !in a.commands
    ensures forall q :: Value(m, Prev(q, u)) == Value(m, Next(q, u)) == ""
  {
    hide Encode, NoDot;
    forall q ensures Value(m, Prev(q, u)) == Value(m, Next(q, u)) == "" {
      assert Plain(Prev(q, u)) && Plain(Next(q, u));
    }
  }

  /** Storing a new command leaves the queues alone; being new, it has no link keys anywhere. */
  lemma CommandStoredRefines(m: Store, a: Machine, u: string, c: Command)
    requires Represents(m, a) && ValidUuid(u) && u !in a.commands
    ensures Represents(CommandStored(m, u, c), a.(commands := a.commands[u := c]))
    ensures forall q :: Value(CommandStored(m, u, c), Prev(q, u)) == Value(CommandStored(m, u, c), Next(q, u)) == ""
  {
    var m' := CommandStored(m, u, c);
    CommandStoredKeys(m, u, c);
    CommandsUpdated(m, m', a, u, c);
    QueuesUntouched(m, m', a, u, c);
    UnusedUuidUnlinked(m, a, u);
    MachineWithCommand(a, u, c);
    hide Encode, Value, CommandStored, ResultsStored, CommandsStored, QueuesLinked, NoStrayKeys, NoDot, Sound;
    forall q ensures Value(m', Prev(q, u)) == Value(m', Next(q, u)) == "" {
      assert Plain(Prev(q, u)) && Plain(Next(q, u));
    }
  }

  lemma MachineWithCommand(a: Machine, u: string, c: Command)
    requires Sound(a) && ValidUuid(u)
    ensures Sound(a.(commands := a.commands[u := c]))
  {
    hide ValidUuid;
    var a' := a.(commands := a.commands[u := c]);
    forall id
      ensures Distinct(a'.Queue(id)) && forall x :: x in a'.Queue(id) ==> x in a'.commands
    {
      assert a'.Queue(id) == a.Queue(id);
    }
  }

  lemma StillNotLinked(m: Store, q: string, s: seq<string>, u: string, q': string)
    requires IsList(m, q, s) && NoDot(u) && q' != q
    ensures Value(Enqueued(m, q, u), Prev(q', u)) == Value(m, Prev(q', u))
    ensures Value(Enqueued(m, q, u), Next(q', u)) == Value(m, Next(q', u))
  {
    EnqueueTouches(m, q, s, u);
    hide Encode, Value, Enqueued, IsList, NoDot;
    assert Plain(Prev(q', u)) && Plain(Next(q', u));
  }

  /** Two machines that differ at most in how they write down the same queues. */
  ghost predicate SameMachine(a: Machine, a': Machine) {
    a'.commands == a.commands && a'.results == a.results && forall id :: a'.Queue(id) == a.Queue(id)
  }

  lemma SameMachineRepresented(m: Store, a: Machine, a': Machine)
    requires Represents(m, a) && SameMachine(a, a')
    ensures Represents(m, a')
  {
    hide Encode, Value, IsList, ValidUuid, NoDot;
  }

  ghost predicate AppendedTo(a: Machine, a': Machine, ids: seq<string>, u: string) {
    && a'.commands == a.commands && a'.results == a.results
    && forall id :: a'.Queue(id) == a.Queue(id) + if id in ids then [u] else []
  }

  lemma {:induction false} EnqueueAllRefines(m: Store, a: Machine, ids: seq<string>, u: string, a': Machine)
    requires Represents(m, a) && u in a.commands && Distinct(ids)
    requires forall q :: q in ids ==> u !in a.Queue(q)
    requires forall q :: q in ids ==> Value(m, Prev(q, u)) == Value(m, Next(q, u)) == ""
    requires AppendedTo(a, a', ids, u)
    ensures Represents(EnqueuedAll(m, ids, u), a')
    decreases |ids|
  {
    hide Represents, Encode, Value, Enqueued, AppendedTo;
    if ids == [] {
      assert SameMachine(a, a') by { NothingAppended(a, a', ids, u); }
      SameMachineRepresented(m, a, a');
    } else {
      var q, rest := ids[0], ids[1..];
      var m1, a1 := Enqueued(m, q, u), a.(queues := a.queues[q := a.Queue(q) + [u]]);
      assert forall i :: 0 <= i < |rest| ==> rest[i] == ids[i + 1];
      EnqueueOneRefines(m, a, q, u);
      RestNotLinked(m, a, q, rest, u);
      AppendedRest(a, a1, a', ids, u);
      EnqueueAllRefines(m1, a1, rest, u, a');
    }
  }

  lemma NothingAppended(a: Machine, a': Machine, ids: seq<string>, u: string)
    requires AppendedTo(a, a', ids, u) && ids == []
    ensures SameMachine(a, a')
  {
  }

  lemma RestNotLinked(m: Store, a: Machine, q: string, rest: seq<string>, u: string)
    requires Represents(m, a) && u in a.commands && q !in rest
    requires forall q' :: q' in rest ==> Value(m, Prev(q', u)) == Value(m, Next(q', u)) == ""
    ensures var m1 := Enqueued(m, q, u);
            forall q' :: q' in rest ==> Value(m1, Prev(q', u)) == Value(m1, Next(q', u)) == ""
  {
    assert IsList(m, q, a.Queue(q)) && ValidUuid(u);
    hide Represents, Encode, Value, NoDot, Enqueued, IsList;
    forall q' | q' in rest
      ensures Value(Enqueued(m, q, u), Prev(q', u)) == Value(Enqueued(m, q, u), Next(q', u)) == ""
    {
      StillNotLinked(m, q, a.Queue(q), u, q');
    }
  }

  lemma AppendedRest(a: Machine, a1: Machine, a': Machine, ids: seq<string>, u: string)
    requires ids != [] && Distinct(ids) && AppendedTo(a, a', ids, u)
    requires a1 == a.(queues := a.queues[ids[0] := a.Queue(ids[0]) + [u]])
    requires forall q :: q in ids ==> u !in a.Queue(q)
    ensures AppendedTo(a1, a', ids[1..], u)
    ensures forall q :: q in ids[1..] ==> u !in a1.Queue(q)
  {
    var q, rest := ids[0], ids[1..];
    assert ids == [q] + rest && q !in rest;
    forall id
      ensures a'.Queue(id) == a1.Queue(id) + if id in rest then [u] else []
      ensures id in rest ==> u !in a1.Queue(id)
    {
      assert id in ids <==> id == q || id in rest;
      assert a1.Queue(id) == if id == q then a.Queue(q) + [u] else a.Queue(id);
    }
  }

  /** The end of a queue is an item that is its own successor. */
  predicate SelfLinked(m: Store, q: string, u: string) {
    Value(m, Last(q)) == u && Value(m, Next(q, u)) == u
  }

  /** The walk from the head goes over `s` to `u`. */
  predicate PathTo(m: Store, q: string, s: seq<string>, u: string) {
    && (forall i :: 0 <= i < |s| ==> ValidUuid(s[i]) && s[i] != u)
    && Value(m, First(q)) == At(s + [u], 0)
    && forall i {:trigger Value(m, Next(q, s[i]))} :: 0 <= i < |s| ==> Value(m, Next(q, s[i])) == At(s + [u], i + 1)
  }

  /** The walk over the queue reaches an item that is its own successor, and never ends. */
  predicate Endless(m: Store, q: string, s: seq<string>, u: string) {
    PathTo(m, q, s, u) && SelfLinked(m, q, u)
  }

  ghost predicate PlainLasts(m: Store) {
    forall q: string :: NoDot(Value(m, Last(q)))
  }

  lemma EnqueuedLast(m: Store, q: string, u: string, q': string)
    requires PlainLasts(m) && ValidUuid(u)
    ensures PlainLasts(Enqueued(m, q, u))
    ensures Value(Enqueued(m, q, u), Last(q)) == u
    ensures Value(m, Last(q)) == u ==> SelfLinked(Enqueued(m, q, u), q, u)
    ensures SelfLinked(m, q', u) ==> SelfLinked(Enqueued(m, q, u), q', u)
    ensures q' != q ==> Value(Enqueued(m, q, u), Last(q')) == Value(m, Last(q'))
  {
    hide Encode, Value, Enqueued, NoDot;
    EnqueueKeys(m, q, u);
    assert forall k: QueueKey :: Plain(k) ==> Value(Enqueued(m, q, u), k) == EnqueuedValue(m, q, u, k);
    assert Plain(Next(q', u)) && Plain(Last(q')) && Plain(Last(q));
    forall x: string ensures NoDot(Value(Enqueued(m, q, u), Last(x))) {
      assert Plain(Last(x));
    }
  }

  /** Linking `u` to another queue, or once more to its own, leaves the path to it. */
  lemma PathKept(m: Store, q: string, u: string, q': string, s: seq<string>)
    requires PlainLasts(m) && ValidUuid(u) && PathTo(m, q', s, u)
    requires q' != q || Value(m, Last(q)) == u
    ensures PathTo(Enqueued(m, q, u), q', s, u)
  {
    hide Encode, Value, Enqueued, NoDot;
    EnqueueKeys(m, q, u);
    var m' := Enqueued(m, q, u);
    assert Plain(First(q'));
    forall i {:trigger Value(m', Next(q', s[i]))} | 0 <= i < |s|
      ensures Value(m', Next(q', s[i])) == At(s + [u], i + 1)
    {
      assert Value(m, Next(q', s[i])) == At(s + [u], i + 1);
      assert Plain(Next(q', s[i]));
    }
  }

  /** The first enqueue appends to a list, which makes the list the path. */
  lemma PathStarts(m: Store, q: string, u: string, s: seq<string>)
    requires IsList(m, q, s) && ValidUuid(u) && u !in s
    requires Value(m, Prev(q, u)) == Value(m, Next(q, u)) == ""
    ensures PathTo(Enqueued(m, q, u), q, s, u)
  {
    EnqueueExact(m, q, s, u);
    hide Encode, Value, Enqueued, NoDot;
    var m', t := Enqueued(m, q, u), s + [u];
    forall i {:trigger Value(m', Next(q, s[i]))} | 0 <= i < |s| ensures Value(m', Next(q, s[i])) == At(t, i + 1) {
      assert Value(m', Next(q, t[i])) == At(t, i + 1);
    }
  }

  predicate Fresh(m: Store, q: string, u: string, s: seq<string>) {
    IsList(m, q, s) && u !in s && Value(m, Prev(q, u)) == Value(m, Next(q, u)) == ""
  }

  lemma StillFresh(m: Store, q': string, u: string, q: string, s: seq<string>)
    requires Fresh(m, q, u, s) && PlainLasts(m) && ValidUuid(u) && q' != q
    ensures Fresh(Enqueued(m, q', u), q, u, s)
  {
    hide Encode, Value, Enqueued, NoDot;
    EnqueueKeys(m, q', u);
    var last := Value(m, Last(q'));
    ListFrame(m, Enqueued(m, q', u), q', {u} + ({last} - {""}), q, s);
    assert Plain(Prev(q, u)) && Plain(Next(q, u));
  }

  lemma {:induction false} RepeatedEndless(m: Store, ids: seq<string>, u: string, q: string, s: seq<string>)
    requires PlainLasts(m) && ValidUuid(u)
    requires || Endless(m, q, s, u)
             || (PathTo(m, q, s, u) && Value(m, Last(q)) == u && q in ids)
             || (Fresh(m, q, u, s) && exists i, j :: 0 <= i < j < |ids| && ids[i] == ids[j] == q)
    ensures Endless(EnqueuedAll(m, ids, u), q, s, u)
    decreases |ids|
  {
    hide Value, Enqueued, SelfLinked, PathTo, Fresh, PlainLasts, ValidUuid;
    if ids != [] {
      var m1, rest := Enqueued(m, ids[0], u), ids[1..];
      EnqueuedLast(m, ids[0], u, q);
      if Endless(m, q, s, u) || (PathTo(m, q, s, u) && Value(m, Last(q)) == u && q in ids) {
        SelfLast(m, q, u);
        PathKept(m, ids[0], u, q, s);
      } else {
        var i, j :| 0 <= i < j < |ids| && ids[i] == ids[j] == q;
        assert rest[j - 1] == q;
        if ids[0] == q {
          FreshPathStarts(m, q, u, s);
        } else {
          StillFresh(m, ids[0], u, q, s);
          assert rest[i - 1] == q;
        }
      }
      RepeatedEndless(m1, rest, u, q, s);
    }
  }

  lemma SelfLast(m: Store, q: string, u: string)
    ensures SelfLinked(m, q, u) ==> Value(m, Last(q)) == u
  {
  }

  lemma FreshPathStarts(m: Store, q: string, u: string, s: seq<string>)
    requires Fresh(m, q, u, s) && ValidUuid(u)
    ensures PathTo(Enqueued(m, q, u), q, s, u)
  {
    hide Value, Enqueued, IsList, PathTo;
    PathStarts(m, q, u, s);
  }

  lemma {:induction false} OnPath(m: Store, q: string, s: seq<string>, u: string, t: seq<string>, n: nat)
    requires PathTo(m, q, s, u) && u != "" && IsWalk(m, q, t) && n <= |s|
    ensures n < |t| && t[n] == (s + [u])[n]
  {
    hide Value, NoDot;
    if n > 0 {
      OnPath(m, q, s, u, t, n - 1);
      assert t[n - 1] == s[n - 1];
      assert Value(m, Next(q, s[n - 1])) == At(s + [u], n);
      assert Value(m, Next(q, t[n - 1])) == At(t, n);
    }
  }

  lemma {:induction false} StaysAt(m: Store, q: string, u: string, t: seq<string>, n: nat, k: nat)
    requires SelfLinked(m, q, u) && u != "" && IsWalk(m, q, t) && n < |t| && t[n] == u
    ensures n + k < |t| && t[n + k] == u
  {
    hide Value, NoDot;
    if k > 0 {
      StaysAt(m, q, u, t, n, k - 1);
      assert Value(m, Next(q, t[n + k - 1])) == At(t, n + k);
    }
  }

  lemma EndlessNoWalk(m: Store, q: string, s: seq<string>, u: string, t: seq<string>)
    requires Endless(m, q, s, u) && u != ""
    ensures !IsWalk(m, q, t)
  {
    hide PathTo, SelfLinked, IsWalk;
    if IsWalk(m, q, t) {
      OnPath(m, q, s, u, t, |s|);
      StaysAt(m, q, u, t, |s|, |t|);
    }
  }

  lemma LastsOfLists(m: Store, a: Machine)
    requires Sound(a) && QueuesLinked(m, a)
    ensures PlainLasts(m)
  {
    assert NoDot("");
    hide Value, NoDot;
    forall q: string ensures NoDot(Value(m, Last(q))) {
      assert IsList(m, q, a.Queue(q));
      var s := a.Queue(q);
      assert s != [] ==> ValidUuid(s[|s| - 1]);
    }
  }

  /** An enrollment named twice: the walk over its queue reaches the command and never ends. */
  lemma RepeatedIdEndless(m: Store, a: Machine, op: Op, q: string)
    requires Represents(m, a) && op.Enqueue? && ValidUuid(op.uuid) && op.uuid !in a.commands
    requires exists i, j :: 0 <= i < j < |op.ids| && op.ids[i] == op.ids[j] == q
    ensures Endless(CommandEnqueued(m, op.ids, op.uuid, op.command), q, a.Queue(q), op.uuid)
  {
    var a1 := a.(commands := a.commands[op.uuid := op.command]);
    CommandStoredRefines(m, a, op.uuid, op.command);
    hide Value, Encode, NoDot, CommandsStored, ResultsStored, NoStrayKeys, IsList, PlainLasts, Endless, PathTo;
    var m1 := CommandStored(m, op.uuid, op.command);
    LastsOfLists(m1, a1);
    assert IsList(m1, q, a1.Queue(q)) && op.uuid !in a.Queue(q);
    RepeatedEndless(m1, op.ids, op.uuid, q, a.Queue(q));
  }

  /** EnqueueCommand of a new command keeps the bucket in step exactly when no enrollment is named
      twice. */
  lemma EnqueueRefines(m: Store, a: Machine, op: Op)
    requires Represents(m, a) && op.Enqueue? && ValidUuid(op.uuid) && op.uuid !in a.commands
    ensures Represents(CommandEnqueued(m, op.ids, op.uuid, op.command), Apply(a, op)) <==> Distinct(op.ids)
  {
    var a1, a', m' := a.(commands := a.commands[op.uuid := op.command]), Apply(a, op), CommandEnqueued(m, op.ids, op.uuid, op.command);
    hide Value, Encode, NoDot, Apply, AppendedTo, CommandsStored, ResultsStored, NoStrayKeys, IsList, Endless, CommandEnqueued;
    if Distinct(op.ids) {
      DistinctRefines(m, a, op);
    } else {
      var i, j :| 0 <= i < j < |op.ids| && op.ids[i] == op.ids[j];
      var q := op.ids[i];
      RepeatedIdEndless(m, a, op, q);
      if Represents(m', a') {
        assert IsList(m', q, a'.Queue(q));
        ListIsWalk(m', q, a'.Queue(q));
        EndlessNoWalk(m', q, a.Queue(q), op.uuid, a'.Queue(q));
      }
    }
  }

  lemma DistinctRefines(m: Store, a: Machine, op: Op)
    requires Represents(m, a) && op.Enqueue? && ValidUuid(op.uuid) && op.uuid !in a.commands && Distinct(op.ids)
    ensures Represents(CommandEnqueued(m, op.ids, op.uuid, op.command), Apply(a, op))
  {
    var a1 := a.(commands := a.commands[op.uuid := op.command]);
    CommandStoredRefines(m, a, op.uuid, op.command);
    NewNotQueued(a, op, a1);
    hide Represents, Value, Encode, NoDot, Apply, AppendedTo;
    EnqueueAllRefines(CommandStored(m, op.uuid, op.command), a1, op.ids, op.uuid, Apply(a, op));
  }

  lemma ListIsWalk(m: Store, q: string, s: seq<string>)
    requires IsList(m, q, s)
    ensures IsWalk(m, q, s)
  {
  }

  lemma RepresentedWalkEnds(m: Store, a: Machine, q: string)
    requires Represents(m, a)
    ensures WalkEnds(m, q)
  {
    assert IsList(m, q, a.Queue(q));
    hide IsList, IsWalk, Represents;
    ListIsWalk(m, q, a.Queue(q));
  }

  lemma RepeatedNoWalk(m: Store, a: Machine, op: Op, q: string)
    requires Represents(m, a) && op.Enqueue? && ValidUuid(op.uuid) && op.uuid !in a.commands
    requires exists i, j :: 0 <= i < j < |op.ids| && op.ids[i] == op.ids[j] == q
    ensures !WalkEnds(CommandEnqueued(m, op.ids, op.uuid, op.command), q)
  {
    hide Represents, Endless, CommandEnqueued, IsWalk, NoDot;
    RepeatedIdEndless(m, a, op, q);
    var m' := CommandEnqueued(m, op.ids, op.uuid, op.command);
    forall t ensures !IsWalk(m', q, t) {
      EndlessNoWalk(m', q, a.Queue(q), op.uuid, t);
    }
  }

  /** Exactly when every walk ends after a new command is enqueued. */
  lemma WalksEndExactly(m: Store, a: Machine, op: Op)
    requires Represents(m, a) && op.Enqueue? && ValidUuid(op.uuid) && op.uuid !in a.commands
    ensures (forall q: string :: WalkEnds(CommandEnqueued(m, op.ids, op.uuid, op.command), q)) <==> Distinct(op.ids)
  {
    hide Represents, CommandEnqueued, WalkEnds, Apply, ValidUuid;
    var m' := CommandEnqueued(m, op.ids, op.uuid, op.command);
    if Distinct(op.ids) {
      DistinctRefines(m, a, op);
      forall q: string ensures WalkEnds(m', q) {
        RepresentedWalkEnds(m', Apply(a, op), q);
      }
    } else {
      var i, j :| 0 <= i < j < |op.ids| && op.ids[i] == op.ids[j];
      RepeatedNoWalk(m, a, op, op.ids[i]);
    }
  }

  lemma NewNotQueued(a: Machine, op: Op, a1: Machine)
    requires Sound(a) && op.Enqueue? && op.uuid !in a.commands
    requires a1 == a.(commands := a.commands[op.uuid := op.command])
    ensures AppendedTo(a1, Apply(a, op), op.ids, op.uuid)
    ensures forall q :: op.uuid !in a1.Queue(q)
  {
    forall id
      ensures Apply(a, op).Queue(id) == a1.Queue(id) + if id in op.ids then [op.uuid] else []
      ensures op.uuid !in a1.Queue(id)
    {
      assert a1.Queue(id) == a.Queue(id);
      QueueAfterEnqueue(a, op, id);
    }
  }

  // ---------- ClearQueue ----------

  function LinksDropped(m: Store, q: string, u: string): Store {
    m - {Encode(Next(q, u)), Encode(Prev(q, u))}
  }

  lemma Smaller(m: Store, q: string, u: string)
    requires Value(m, Next(q, u)) != ""
    ensures |LinksDropped(m, q, u).Keys| < |m.Keys|
  {
    hide Encode;
    var k := Encode(Next(q, u));
    assert LinksDropped(m, q, u).Keys <= m.Keys - {k};
    SubsetNotLarger(LinksDropped(m, q, u).Keys, m.Keys - {k});
  }

  lemma SubsetNotLarger(a: set<string>, b: set<string>)
    requires a <= b
    ensures |a| <= |b|
  {
    assert |b - a| == |b| - |a|;
  }

  /** The loop of `clear` at `id`, coming from `lastId`: it drops links one item behind. An item reached a
      second time has no next key left, so the loop ends on every bucket. */
  function ClearFrom(m: Store, q: string, lastId: string, id: string): Store
    requires lastId != "" ==> id == Value(m, Next(q, lastId))
    decreases if lastId == "" then 1 else 0, |m.Keys|
  {
    if id == "" then m - {Encode(First(q)), Encode(Last(q))}
    else if lastId == "" then ClearFrom(m, q, id, Value(m, Next(q, id)))
    else
      Smaller(m, q, lastId);
      var m1 := LinksDropped(m, q, lastId);
      ClearFrom(m1, q, id, Value(m1, Next(q, id)))
  }

  /** One round of the loop. */
  lemma ClearRound(m: Store, q: string, lastId: string, id: string)
    requires (lastId != "" ==> id == Value(m, Next(q, lastId))) && id != ""
    ensures var m1 := if lastId == "" then m else m - {Encode(Next(q, lastId))} - {Encode(Prev(q, lastId))};
            && ClearFrom(m, q, lastId, id) == ClearFrom(m1, q, id, Value(m1, Next(q, id)))
            && (lastId != "" ==> |m1.Keys| < |m.Keys|)
  {
    hide Encode, Value;
    if lastId != "" {
      Smaller(m, q, lastId);
      assert LinksDropped(m, q, lastId) == m - {Encode(Next(q, lastId))} - {Encode(Prev(q, lastId))};
    }
  }

  lemma ClearEnd(m: Store, q: string, lastId: string)
    requires lastId != "" ==> Value(m, Next(q, lastId)) == ""
    ensures ClearFrom(m, q, lastId, "") == m - {Encode(First(q))} - {Encode(Last(q))}
  {
    hide Encode;
  }

  /** The bucket after `clear`. */
  function Cleared(m: Store, q: string): Store {
    ClearFrom(m, q, "", Value(m, First(q)))
  }

  predicate Submap(m': Store, m: Store) {
    forall k :: k in m' ==> k in m && m'[k] == m[k]
  }

  lemma {:induction false} ClearFromEmpties(m: Store, q: string, lastId: string, id: string)
    requires lastId != "" ==> id == Value(m, Next(q, lastId))
    ensures var m' := ClearFrom(m, q, lastId, id);
            Submap(m', m) && Encode(First(q)) !in m' && Encode(Last(q)) !in m'
    decreases if lastId == "" then 1 else 0, |m.Keys|
  {
    hide Encode, Value;
    if id != "" {
      if lastId == "" {
        ClearFromEmpties(m, q, id, Value(m, Next(q, id)));
      } else {
        Smaller(m, q, lastId);
        var m1 := LinksDropped(m, q, lastId);
        ClearFromEmpties(m1, q, id, Value(m1, Next(q, id)));
      }
    }
  }

  /** On every bucket, whatever its links look like, `clear` comes to an end, only deletes, and leaves an
      empty list. */
  lemma ClearEmpties(m: Store, q: string)
    ensures IsList(Cleared(m, q), q, []) && Submap(Cleared(m, q), m)
  {
    ClearFromEmpties(m, q, "", Value(m, First(q)));
    hide Encode;
  }

  /** Keys of `m` that are gone in `m'` or unchanged. */
  ghost predicate Fewer(m: Store, m': Store) {
    forall k: QueueKey :: Plain(k) ==>
      (Encode(k) in m' ==> Encode(k) in m) && (Value(m', k) == "" || Value(m', k) == Value(m, k))
  }

  lemma SubmapFewer(m': Store, m: Store)
    requires Submap(m', m)
    ensures Fewer(m, m')
  {
    hide Encode, Plain;
  }

  lemma DropTouches(m: Store, q: string, u: string)
    requires NoDot(u)
    ensures var m' := LinksDropped(m, q, u);
            && SameExcept(m, m', q, {u}) && Submap(m', m)
            && forall v :: NoDot(v) && v != u ==> Value(m', Prev(q, v)) == Value(m, Prev(q, v))
  {
    hide Encode, Decode, NoDot;
    Layout();
    assert forall v :: NoDot(v) ==> Plain(Prev(q, v));
  }

  /** Items whose next keys stay among them. */
  predicate Closed(m: Store, q: string, us: set<string>) {
    forall u :: u in us ==> NoDot(u) && (Value(m, Next(q, u)) == "" || Value(m, Next(q, u)) in us)
  }

  lemma ClosedSubmap(m: Store, m': Store, q: string, us: set<string>)
    requires Closed(m, q, us) && Submap(m', m)
    ensures Closed(m', q, us)
  {
    hide Encode, NoDot;
  }

  lemma TouchedAfter(m: Store, m1: Store, m2: Store, q: string, us: set<string>, u: string)
    requires SameExcept(m, m1, q, {u}) && SameExcept(m1, m2, q, us) && u in us
    ensures SameExcept(m, m2, q, us)
  {
    hide Encode, Value, Plain;
  }

  lemma HeadsTouched(m: Store, q: string, us: set<string>)
    ensures SameExcept(m, m - {Encode(First(q)), Encode(Last(q))}, q, us)
    ensures forall v :: NoDot(v) ==> Value(m - {Encode(First(q)), Encode(Last(q))}, Prev(q, v)) == Value(m, Prev(q, v))
  {
    hide Encode, Decode, NoDot;
    Layout();
    assert forall v :: NoDot(v) ==> Plain(Prev(q, v));
  }

  lemma {:induction false} ClearFromTouches(m: Store, q: string, lastId: string, id: string, us: set<string>)
    requires lastId != "" ==> id == Value(m, Next(q, lastId))
    requires Closed(m, q, us) && (lastId == "" || lastId in us) && (id == "" || id in us)
    ensures SameExcept(m, ClearFrom(m, q, lastId, id), q, us)
    ensures forall z :: NoDot(z) && Value(m, Next(q, z)) == "" ==>
              Value(ClearFrom(m, q, lastId, id), Prev(q, z)) == Value(m, Prev(q, z))
    decreases if lastId == "" then 1 else 0, |m.Keys|
  {
    hide Encode, Value, NoDot, SameExcept, LinksDropped;
    if id == "" {
      HeadsTouched(m, q, us);
    } else if lastId == "" {
      ClearFromTouches(m, q, id, Value(m, Next(q, id)), us);
    } else {
      Smaller(m, q, lastId);
      var m1 := LinksDropped(m, q, lastId);
      DropTouches(m, q, lastId);
      ClosedSubmap(m, m1, q, us);
      ClearFromTouches(m1, q, id, Value(m1, Next(q, id)), us);
      TouchedAfter(m, m1, ClearFrom(m, q, lastId, id), q, us, lastId);
      forall z | NoDot(z) && Value(m, Next(q, z)) == "" ensures Value(m1, Next(q, z)) == "" && z != lastId {
        EmptySubmap(m, m1, Next(q, z));
      }
    }
  }

  lemma EmptySubmap(m: Store, m': Store, k: QueueKey)
    requires Submap(m', m) && Value(m, k) == ""
    ensures Value(m', k) == ""
  {
    hide Encode;
  }

  lemma ClearedTouches(m: Store, q: string, us: set<string>)
    requires Closed(m, q, us) && (Value(m, First(q)) == "" || Value(m, First(q)) in us)
    ensures SameExcept(m, Cleared(m, q), q, us)
    ensures Fewer(m, Cleared(m, q))
  {
    ClearFromTouches(m, q, "", Value(m, First(q)), us);
    ClearEmpties(m, q);
    SubmapFewer(Cleared(m, q), m);
  }

  lemma ListClosed(m: Store, q: string, s: seq<string>)
    requires IsList(m, q, s)
    ensures Closed(m, q, Items(s)) && (Value(m, First(q)) == "" || Value(m, First(q)) in Items(s))
  {
    hide Encode, Value, NoDot;
    forall u | u in Items(s) ensures NoDot(u) && (Value(m, Next(q, u)) == "" || Value(m, Next(q, u)) in Items(s)) {
      var i := IndexOf(s, u);
      assert Value(m, Next(q, s[i])) == At(s, i + 1);
      AtMember(s, i + 1);
    }
    AtMember(s, 0);
  }

  /** ClearQueue empties the queue of the enrollment and keeps the bucket in step. */
  lemma ClearRefines(m: Store, a: Machine, q: string)
    requires Represents(m, a)
    ensures Represents(Cleared(m, q), Apply(a, Clear(q)))
  {
    var a' := Apply(a, Clear(q));
    SoundStep(a, Clear(q));
    assert forall id :: a'.Queue(id) == if id == q then [] else a.Queue(id);
    assert IsList(m, q, a.Queue(q));
    ListClosed(m, q, a.Queue(q));
    ClearedTouches(m, q, Items(a.Queue(q)));
    ClearEmpties(m, q);
    QueuedKnown(m, a, q);
    hide Encode, Value, Cleared, SameExcept, IsList, ValidUuid, Closed, Submap, Fewer;
    LinksChanged(m, Cleared(m, q), a, a', q, Items(a.Queue(q)));
  }

  /** The last item of a cleared list keeps its prev key. Reporting on it afterwards makes that
      neighbour `last` of an empty list, and what is enqueued next is never reached. */
  lemma LateReportHidesQueue(m: Store, q: string, s: seq<string>, u: string)
    requires IsList(m, q, s) && |s| > 1 && ValidUuid(u) && u !in s
    ensures var m1 := Unlinked(Cleared(m, q), q, s[|s| - 1]);
            IsWalk(Enqueued(m1, q, u), q, [])
  {
    var n := |s|;
    var z, p := s[n - 1], s[n - 2];
    var m0 := Cleared(m, q);
    ClearedKeepsLastPrev(m, q, s);
    UnlinkKeys(m0, q, z);
    EnqueueKeys(Unlinked(m0, q, z), q, u);
    hide Encode, Value, Unlinked, Enqueued, NoDot, Cleared;
    assert Plain(First(q)) && Plain(Last(q));
  }

  lemma ClearedKeepsLastPrev(m: Store, q: string, s: seq<string>)
    requires IsList(m, q, s) && |s| > 1
    ensures var m0 := Cleared(m, q);
            && Value(m0, First(q)) == "" && Value(m0, Next(q, s[|s| - 1])) == ""
            && Value(m0, Prev(q, s[|s| - 1])) == s[|s| - 2]
  {
    hide Encode, NoDot, Value;
    var n := |s|;
    var z := s[n - 1];
    assert Value(m, Prev(q, z)) == At(s, n - 2);
    assert Value(m, Next(q, z)) == At(s, n);
    ListClosed(m, q, s);
    ClearFromTouches(m, q, "", Value(m, First(q)), Items(s));
    ClearEmpties(m, q);
    EmptySubmap(m, Cleared(m, q), Next(q, z));
  }
}
