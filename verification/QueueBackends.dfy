/** The key-value and the relational command queues beside each other. */
module QueueBackends {
  import opened QueueMachine
  import KvQueue
  import KvLinks
  import KvRuns
  import KvBackend
  import SqlQueue

  /** Over a run served by the key-value backend, the relational query has, after every session of
      device `d`, one answer: the one the key-value backend gave. With the repaired unlink this is so
      for every comparable run, as written for those that spare the tail. */
  method ServeBoth(kv: KvBackend.KV, t: SqlQueue.Tables, rm: bool, ops: seq<Op>, now: nat, d: string, ghost a: Machine,
                   ghost ages: KvLinks.Ages)
    returns (replies: seq<Reply>)
    requires KvQueue.Represents(kv.queue.m, a) && KvLinks.Linked(kv.queue.m, ages, false)
    requires SqlQueue.Related(a, t, now) && SqlQueue.Simulates(a, t, d) && SqlQueue.ComparableRun(a, t, ops)
    requires kv.repaired || SparesTailRun(a, ops)
    modifies kv.queue
    ensures KvQueue.Represents(kv.queue.m, Run(a, ops))
    ensures |replies| == |ops|
    ensures SqlQueue.AnswersOnly(t, rm, ops, now, d, replies)
  {
    SqlQueue.SqlAgrees(a, t, now, rm, ops, d);
    KvRuns.LegalRunRefines(kv.queue.m, a, ages, ops, kv.repaired);
    replies := kv.Serve(ops);
  }

  /** Both start out alike: empty, with every enrollment known to the tables. */
  method ServeBothFromEmpty(repaired: bool, enrollments: map<string, string>, rm: bool, ops: seq<Op>, d: string)
    returns (replies: seq<Reply>)
    requires d in enrollments && enrollments[d] == d
    requires SqlQueue.ComparableRun(EMPTY, SqlQueue.NoRows(enrollments), ops)
    requires repaired || SparesTailRun(EMPTY, ops)
    ensures |replies| == |ops|
    ensures SqlQueue.AnswersOnly(SqlQueue.NoRows(enrollments), rm, ops, 0, d, replies)
  {
    var kv := new KvBackend.KV(repaired);
    KvRuns.EmptyStoreRepresented();
    SqlQueue.EmptyTablesRelated(enrollments, d);
    replies := ServeBoth(kv, SqlQueue.NoRows(enrollments), rm, ops, 0, d, EMPTY, map[]);
  }
}
