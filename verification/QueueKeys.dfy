/** The key layout of the queue bucket: one flat bucket holds the list heads and items of
    every enrollment's queue as well as the commands themselves. */
module QueueKeys {
  import opened Strings

  /** What a key of the queue bucket stands for. */
  datatype QueueKey =
    | First(queue: string)
    | Last(queue: string)
    | Next(queue: string, uuid: string)
    | Prev(queue: string, uuid: string)
    | Status(queue: string, uuid: string)
    | Report(queue: string, uuid: string)
    | Raw(uuid: string)
    | RequestType(uuid: string)
    | Unknown

  const PRIMARY_QUEUE := "queue"

  function HeadKeyName(queue: string, name: string): string {
    Join([queue, "queuekey", PRIMARY_QUEUE, name])
  }

  function ItemKeyName(queue: string, uuid: string, name: string): string {
    Join([queue, uuid, "queueitem", name])
  }

  /** The string under which the bucket stores the key. */
  function Encode(k: QueueKey): string {
    match k
    case First(q) => HeadKeyName(q, "first")
    case Last(q) => HeadKeyName(q, "last")
    case Next(q, u) => ItemKeyName(q, u, "next")
    case Prev(q, u) => ItemKeyName(q, u, "prev")
    case Status(q, u) => ItemKeyName(q, u, "status")
    case Report(q, u) => ItemKeyName(q, u, "report")
    case Raw(u) => Join([u, "raw"])
    case RequestType(u) => Join([u, "req_type"])
    case Unknown => ""
  }

  /** Reads a stored key from its right-hand end. */
  function Decode(s: string): QueueKey {
    var (rest, name) := Cut(s);
    if name == "raw" then Raw(rest)
    else if name == "req_type" then RequestType(rest)
    else
      var (rest, _) := Cut(rest);
      var (queue, uuid) := Cut(rest);
      if name == "first" then First(queue)
      else if name == "last" then Last(queue)
      else if name == "next" then Next(queue, uuid)
      else if name == "prev" then Prev(queue, uuid)
      else if name == "status" then Status(queue, uuid)
      else if name == "report" then Report(queue, uuid)
      else Unknown
  }

  /** Only the command uuids need to be free of separators; the enrollment ids do not. */
  predicate Plain(k: QueueKey) {
    match k
    case First(_) => true
    case Last(_) => true
    case Unknown => false
    case _ => NoDot(k.uuid)
  }

  lemma EmptyPlain()
    ensures NoDot("")
  {
  }

  lemma DecodeItem(queue: string, uuid: string, name: string)
    requires NoDot(uuid) && NoDot(name)
    ensures Cut(ItemKeyName(queue, uuid, name)) == (queue + "." + uuid + ".queueitem", name)
    ensures Cut(queue + "." + uuid + ".queueitem") == (queue + "." + uuid, "queueitem")
    ensures Cut(queue + "." + uuid) == (queue, uuid)
  {
    JoinFour(queue, uuid, "queueitem", name);
    CutJoin(queue, uuid);
    CutJoin(queue + "." + uuid, "queueitem");
    assert queue + "." + uuid + ".queueitem" == (queue + "." + uuid) + "." + "queueitem";
    CutJoin(queue + "." + uuid + ".queueitem", name);
  }

  lemma DecodeHead(queue: string, name: string)
    requires NoDot(name)
    ensures Cut(HeadKeyName(queue, name)) == (queue + ".queuekey" + ".queue", name)
    ensures Cut(queue + ".queuekey" + ".queue") == (queue + ".queuekey", "queue")
    ensures Cut(queue + ".queuekey") == (queue, "queuekey")
  {
    JoinFour(queue, "queuekey", PRIMARY_QUEUE, name);
    assert queue + ".queuekey" == queue + "." + "queuekey";
    CutJoin(queue, "queuekey");
    assert queue + ".queuekey" + ".queue" == (queue + ".queuekey") + "." + "queue";
    CutJoin(queue + ".queuekey", "queue");
    CutJoin(queue + ".queuekey" + ".queue", name);
  }

  /** Every key can be read back from its stored form. */
  lemma DecodeEncode(k: QueueKey)
    requires Plain(k)
    ensures Decode(Encode(k)) == k
  {
    hide Cut, Join;
    match k
    case First(q) => DecodeHead(q, "first");
    case Last(q) => DecodeHead(q, "last");
    case Next(q, u) => DecodeItem(q, u, "next");
    case Prev(q, u) => DecodeItem(q, u, "prev");
    case Status(q, u) => DecodeItem(q, u, "status");
    case Report(q, u) => DecodeItem(q, u, "report");
    case Raw(u) => JoinTwo(u, "raw"); CutJoin(u, "raw");
    case RequestType(u) => JoinTwo(u, "req_type"); CutJoin(u, "req_type");
  }

  /** The layout is collision free: keys of different enrollments, commands, or purposes never
      share a string, even when enrollment ids contain separators. */
  lemma LayoutCollisionFree(a: QueueKey, b: QueueKey)
    requires Plain(a) && Plain(b)
    ensures Encode(a) == Encode(b) <==> a == b
  {
    DecodeEncode(a);
    DecodeEncode(b);
  }

  /** The separator-free uuid is needed: otherwise two enrollments can share an item key. */
  lemma DottedUuidCollides(queue: string, x: string, uuid: string)
    ensures Encode(Next(queue, x + "." + uuid)) == Encode(Next(queue + "." + x, uuid))
  {
    JoinFour(queue, x + "." + uuid, "queueitem", "next");
    JoinFour(queue + "." + x, uuid, "queueitem", "next");
    assert queue + "." + (x + "." + uuid) == (queue + "." + x) + "." + uuid;
  }

  /** The layout theorem for all keys at once, in the form the list proofs use. */
  lemma Layout()
    ensures forall k: QueueKey :: Plain(k) ==> Decode(Encode(k)) == k
  {
    forall k: QueueKey | Plain(k) ensures Decode(Encode(k)) == k {
      DecodeEncode(k);
    }
  }
}
