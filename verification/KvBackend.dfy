/** The key-value backend as the program runs it: a bucket updated in place, the linked queue
    over it, and the queue methods of the storage and the service that drives them. */
module KvBackend {
  import opened Options
  import opened QueueKeys
  import opened QueueList
  import opened QueueMachine
  import opened KvQueue
  import opened KvFetch
  import opened KvRuns

  class Bucket {
    var m: Store

    constructor ()
      ensures m == map[]
    {
      m := map[];
    }

    /** The stored bytes as a string; an absent key reads as empty. */
    method Get(key: string) returns (v: Bytes)
      ensures v == if key in m then m[key] else ""
    {
      v := if key in m then m[key] else "";
    }

    method Set(key: string, v: Bytes)
      modifies this
      ensures m == old(m)[key := v]
    {
      m := m[key := v];
    }

    method Delete(key: string)
      modifies this
      ensures m == old(m) - {key}
    {
      m := m - {key};
    }
  }

  /** The linked list of one enrollment inside the shared bucket. */
  class LinkedQueue {
    const b: Bucket
    const queueKey: string

    constructor (b: Bucket, queueKey: string)
      ensures this.b == b && this.queueKey == queueKey
    {
      this.b := b;
      this.queueKey := queueKey;
    }

    method Unlink(id: string)
      modifies b
      ensures b.m == Unlinked(old(b.m), queueKey, id)
    {
      hide Encode;
      var prev := b.Get(Encode(Prev(queueKey, id)));
      var next := b.Get(Encode(Next(queueKey, id)));
      if prev == "" {
        if next == "" {
          b.Delete(Encode(Last(queueKey)));
          b.Delete(Encode(First(queueKey)));
        } else {
          b.Set(Encode(First(queueKey)), next);
          b.Delete(Encode(Prev(queueKey, next)));
        }
      } else {
        if next == "" {
          b.Set(Encode(Last(queueKey)), prev);
        } else {
          b.Set(Encode(Next(queueKey, prev)), next);
          b.Set(Encode(Prev(queueKey, next)), prev);
        }
      }
      b.Delete(Encode(Prev(queueKey, id)));
      b.Delete(Encode(Next(queueKey, id)));
    }

    /** Repaired variant of Unlink: the new tail keeps no next key. */
    method UnlinkRepaired(id: string)
      modifies b
      ensures b.m == UnlinkedRepaired(old(b.m), queueKey, id)
    {
      hide Encode, Unlinked;
      var prev := b.Get(Encode(Prev(queueKey, id)));
      var next := b.Get(Encode(Next(queueKey, id)));
      Unlink(id);
      if prev != "" && next == "" {
        b.Delete(Encode(Next(queueKey, prev)));
      }
    }

    method Enqueue(id: string)
      modifies b
      ensures b.m == Enqueued(old(b.m), queueKey, id)
    {
      hide Encode;
      var last := b.Get(Encode(Last(queueKey)));
      if last == "" {
        b.Set(Encode(First(queueKey)), id);
        b.Set(Encode(Last(queueKey)), id);
        return;
      }
      b.Set(Encode(Next(queueKey, last)), id);
      b.Set(Encode(Prev(queueKey, id)), last);
      b.Set(Encode(Last(queueKey)), id);
    }

    /** Deletes the links of what the walk visits, one item behind it. It comes to an end on every bucket:
        an item reached again has lost its next key. */
    method Clear()
      modifies b
      ensures b.m == Cleared(old(b.m), queueKey)
    {
      hide Encode, ClearFrom;
      var lastId := "";
      var id := b.Get(Encode(First(queueKey)));
      while id != ""
        invariant lastId != "" ==> id == Value(b.m, Next(queueKey, lastId))
        invariant ClearFrom(b.m, queueKey, lastId, id) == Cleared(old(b.m), queueKey)
        decreases if lastId == "" then 1 else 0, |b.m.Keys|
      {
        ClearRound(b.m, queueKey, lastId, id);
        if lastId != "" {
          b.Delete(Encode(Next(queueKey, lastId)));
          b.Delete(Encode(Prev(queueKey, lastId)));
        }
        lastId := id;
        id := b.Get(Encode(Next(queueKey, id)));
      }
      ClearEnd(b.m, queueKey, lastId);
      b.Delete(Encode(First(queueKey)));
      b.Delete(Encode(Last(queueKey)));
    }
  }

  class KV {
    const queue: Bucket
    /** False for the backend as written, true for the repaired unlink. */
    const repaired: bool

    constructor (repaired: bool)
      ensures this.repaired == repaired && fresh(queue) && queue.m == map[]
    {
      this.repaired := repaired;
      this.queue := new Bucket();
    }

    /** Stores a report and unlinks the command unless it was deferred. */
    method StoreCommandReport(id: string, status: string, uuid: string, raw: Bytes) returns (ok: bool)
      modifies queue
      ensures ok <==> status == "Idle" || uuid != ""
      ensures queue.m ==
              if status == "Idle" || uuid == "" then old(queue.m)
              else if repaired then ReportedRepaired(old(queue.m), id, uuid, Result(status, raw))
              else Reported(old(queue.m), id, uuid, Result(status, raw))
    {
      hide Encode, Unlinked, UnlinkedRepaired;
      if status == "Idle" {
        return true;
      } else if uuid == "" {
        return false;
      }
      var q := new LinkedQueue(queue, id);
      queue.Set(Encode(Report(id, uuid)), raw);
      queue.Set(Encode(Status(id, uuid)), status);
      if status != "NotNow" {
        if repaired {
          q.UnlinkRepaired(uuid);
        } else {
          q.Unlink(uuid);
        }
      }
      return true;
    }

    /** Walks the queue for the first command that is not skipped; `ReturnsExactly` says when that comes to
        an end. */
    method RetrieveNextCommand(id: string, skipNotNow: bool) returns (r: Reply)
      requires Returns(queue.m, id, skipNotNow)
      ensures r == Fetched(queue.m, id, skipNotNow)
    {
      hide Encode;
      ghost var n: nat :| Fetch(queue.m, id, skipNotNow, Value(queue.m, First(id)), n).Some?;
      FetchedIs(queue.m, id, skipNotNow, n);
      var cmdUuid := queue.Get(Encode(First(id)));
      while cmdUuid != ""
        invariant Fetch(queue.m, id, skipNotNow, cmdUuid, n) == Some(Fetched(queue.m, id, skipNotNow))
        decreases n
      {
        var status := queue.Get(Encode(Status(id, cmdUuid)));
        if !(status == "NotNow" && skipNotNow) {
          if Encode(Raw(cmdUuid)) !in queue.m || Encode(RequestType(cmdUuid)) !in queue.m {
            return Failure;
          }
          var raw := queue.Get(Encode(Raw(cmdUuid)));
          var requestType := queue.Get(Encode(RequestType(cmdUuid)));
          return Deliver(cmdUuid, Command(requestType, raw));
        }
        cmdUuid := queue.Get(Encode(Next(id, cmdUuid)));
        n := n - 1;
      }
      return NoCommand;
    }

    method ClearQueue(id: string)
      modifies queue
      ensures queue.m == Cleared(old(queue.m), id)
    {
      var q := new LinkedQueue(queue, id);
      q.Clear();
    }

    /** Refuses a uuid whose command is stored already; otherwise stores it and links it to each id. */
    method EnqueueCommand(ids: seq<string>, uuid: string, command: Command) returns (ok: bool)
      modifies queue
      ensures ok <==> Encode(Raw(uuid)) !in old(queue.m)
      ensures queue.m == if ok then CommandEnqueued(old(queue.m), ids, uuid, command) else old(queue.m)
    {
      hide Encode, Enqueued;
      if Encode(Raw(uuid)) in queue.m {
        return false;
      }
      queue.Set(Encode(Raw(uuid)), command.raw);
      queue.Set(Encode(RequestType(uuid)), command.requestType);
      for i := 0 to |ids|
        invariant EnqueuedAll(queue.m, ids[i..], uuid) == CommandEnqueued(old(queue.m), ids, uuid, command)
      {
        var q := new LinkedQueue(queue, ids[i]);
        q.Enqueue(uuid);
      }
      return true;
    }

    /** The service's report-and-fetch: store the report, then look for the next command, skipping
        deferred ones when the report was itself a deferral. */
    method CommandAndReportResults(id: string, status: string, uuid: string, raw: Bytes) returns (r: Reply)
      requires Ends(queue.m, Session(id, status, uuid, raw), repaired)
      modifies queue
      ensures queue.m == Step(old(queue.m), Session(id, status, uuid, raw), repaired)
      ensures r == Answer(old(queue.m), Session(id, status, uuid, raw), repaired)
    {
      hide Encode, KvQueue.Reported, ReportedRepaired, Returns;
      var ok := StoreCommandReport(id, status, uuid, raw);
      if !ok {
        return Failure;
      }
      r := RetrieveNextCommand(id, status == "NotNow");
    }

    method ServeOne(op: Op) returns (r: Reply)
      requires Ends(queue.m, op, repaired)
      modifies queue
      ensures queue.m == Step(old(queue.m), op, repaired)
      ensures r == Answer(old(queue.m), op, repaired)
      ensures op.Enqueue? ==> r == if Encode(Raw(op.uuid)) in old(queue.m) then Failure else Done
      ensures op.Enqueue? && Encode(Raw(op.uuid)) in old(queue.m) ==> queue.m == old(queue.m)
      ensures op.Session? && op.status != "Idle" && op.uuid == "" ==> r == Failure && queue.m == old(queue.m)
    {
      hide Encode, CommandEnqueued, Cleared, KvQueue.Reported, ReportedRepaired, Returns;
      match op
      case Enqueue(ids, uuid, command) =>
        var ok := EnqueueCommand(ids, uuid, command);
        r := if ok then Done else Failure;
      case Session(id, status, uuid, raw) =>
        r := CommandAndReportResults(id, status, uuid, raw);
      case Clear(id) =>
        ClearQueue(id);
        r := Done;
    }

    /** Any run of the backend whose fetches return: the bucket and the replies are those the run
        theorems speak of. */
    method Serve(ops: seq<Op>) returns (replies: seq<Reply>)
      requires RunEnds(queue.m, ops, repaired)
      modifies queue
      ensures queue.m == Steps(old(queue.m), ops, repaired)
      ensures replies == Answers(old(queue.m), ops, repaired)
    {
      hide Encode, Step, Answer, Ends, Steps, Answers, RunEnds;
      replies := [];
      ghost var m0 := queue.m;
      assert ops[0..] == ops;
      for i := 0 to |ops|
        invariant RunEnds(queue.m, ops[i..], repaired)
        invariant Steps(queue.m, ops[i..], repaired) == Steps(m0, ops, repaired)
        invariant replies + Answers(queue.m, ops[i..], repaired) == Answers(m0, ops, repaired)
      {
        RunRest(queue.m, ops, i, repaired);
        ghost var rest := Answers(Step(queue.m, ops[i], repaired), ops[i + 1..], repaired);
        var r := ServeOne(ops[i]);
        assert replies + ([r] + rest) == (replies + [r]) + rest;
        replies := replies + [r];
      }
      RunOver(queue.m, repaired);
      assert ops[|ops|..] == [];
      assert replies + [] == replies;
    }
  }
}
