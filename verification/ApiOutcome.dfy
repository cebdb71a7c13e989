/** Enqueue-and-push requests: how the store's and the pusher's answers merge into one result per
    enrollment, and the outcome code drawn from it. */
module ApiOutcome {
  import opened Options
  import QueueList
  import PushWorkers
  import PushByIds

  /** One id's part of a result; None is no error. */
  datatype EnrollmentResult = EnrollmentResult(pushError: Option<string>, pushId: string, enqueueError: Option<string>)

  type Status = map<string, EnrollmentResult>

  /** The fields of a result that hold its outcome. */
  datatype Outcome = Outcome(status: Status, pushError: Option<string>, enqueueError: Option<string>)

  const EMPTY := Outcome(map[], None, None)

  type PushResponse = PushWorkers.Response

  /** What EnqueueCommand returns: errors per key, whose value may be nil, and an error for the call. */
  datatype Enqueued = Enqueued(errs: map<string, Option<string>>, err: Option<string>)

  /** What Push returns: responses per id, and an error for the call. */
  datatype Pushed = Pushed(responses: map<string, PushResponse>, err: Option<string>)

  /** A request, and the answers it meets. An absent store or pusher is None. */
  datatype Request = Request(
    command: bool,
    ids: seq<string>,
    noPush: bool,
    neverPush: bool,
    store: Option<Enqueued>,
    pusher: Option<Pushed>
  )

  function Entry(status: Status, id: string): EnrollmentResult {
    if id in status then status[id] else EnrollmentResult(None, "", None)
  }

  function ErrorOf(err: Option<string>): Option<string> {
    if err.None? then Some("unknown enqueue error") else err
  }

  // ---------- the merges ----------

  function WithErrors(status: Status, errs: map<string, Option<string>>): Status {
    map id | id in status.Keys + errs.Keys ::
      if id in errs then Entry(status, id).(enqueueError := ErrorOf(errs[id])) else status[id]
  }

  function Responded(er: EnrollmentResult, response: PushResponse): EnrollmentResult {
    er.(pushId := response.id, pushError := if response.err.Some? then response.err else er.pushError)
  }

  function WithResponses(status: Status, responses: map<string, PushResponse>): Status {
    map id | id in status.Keys + responses.Keys ::
      if id in responses then Responded(Entry(status, id), responses[id]) else status[id]
  }

  lemma OneMoreError(status: Status, errs: map<string, Option<string>>, todo: set<string>, id: string)
    requires id in todo && todo <= errs.Keys
    ensures WithErrors(status, errs - (todo - {id})) ==
            var s := WithErrors(status, errs - todo); s[id := Entry(s, id).(enqueueError := ErrorOf(errs[id]))]
  {
  }

  lemma OneMoreResponse(status: Status, responses: map<string, PushResponse>, todo: set<string>, id: string)
    requires id in todo && todo <= responses.Keys
    ensures WithResponses(status, responses - (todo - {id})) ==
            var s := WithResponses(status, responses - todo); s[id := Responded(Entry(s, id), responses[id])]
  {
  }

  function AfterEnqueue(o: Outcome, store: Option<Enqueued>): Outcome {
    match store
    case None => o.(enqueueError := Some("nil store"))
    case Some(answer) =>
      o.(status := WithErrors(o.status, answer.errs),
         enqueueError := if answer.err.Some? then answer.err else o.enqueueError)
  }

  function AfterPush(o: Outcome, pusher: Option<Pushed>): Outcome {
    match pusher
    case None => o.(pushError := Some("nil pusher"))
    case Some(answer) =>
      o.(status := WithResponses(o.status, answer.responses),
         pushError := if answer.err.Some? then answer.err else o.pushError)
  }

  predicate Failing(er: EnrollmentResult) {
    er.pushError.Some? || er.enqueueError.Some?
  }

  function FailingKeys(status: Status): set<string> {
    set id | id in status && Failing(status[id])
  }

  function CodeOf(o: Outcome, idCount: nat): int {
    if o.pushError.Some? || o.enqueueError.Some? then 500
    else
      var errCt := |FailingKeys(o.status)|;
      if errCt < 1 then 200 else if errCt == idCount then 500 else if errCt < idCount then 207 else 500
  }

  /** Nothing to do: no command, and the call forbids the push. */
  predicate Refused(q: Request) {
    !q.command && q.noPush
  }

  function Result(q: Request): Outcome {
    if Refused(q) then EMPTY
    else
      var o := if q.command then AfterEnqueue(EMPTY, q.store) else EMPTY;
      if !q.noPush && !q.neverPush && o.enqueueError.None? then AfterPush(o, q.pusher) else o
  }

  // ---------- what the answers say ----------

  /** The store was asked, and failed as a whole or is missing. */
  predicate EnqueueFailed(q: Request) {
    q.command && (q.store.None? || q.store.value.err.Some?)
  }

  predicate Pushes(q: Request) {
    !q.noPush && !q.neverPush && !EnqueueFailed(q)
  }

  predicate PushFailed(q: Request) {
    Pushes(q) && (q.pusher.None? || q.pusher.value.err.Some?)
  }

  predicate NotEnqueued(q: Request, id: string) {
    q.command && q.store.Some? && id in q.store.value.errs
  }

  /** The pusher answered for the id, with or without an error. */
  predicate AnsweredPush(q: Request, id: string) {
    Pushes(q) && q.pusher.Some? && id in q.pusher.value.responses
  }

  predicate NotPushed(q: Request, id: string) {
    Pushes(q) && q.pusher.Some? && id in q.pusher.value.responses && q.pusher.value.responses[id].err.Some?
  }

  predicate IdFailed(q: Request, id: string) {
    NotEnqueued(q, id) || NotPushed(q, id)
  }

  /** Errors are keyed by the ids asked for. */
  predicate KeyedByIds(q: Request) {
    && (q.store.Some? ==> forall id :: id in q.store.value.errs ==> id in q.ids)
    && (q.pusher.Some? ==> forall id :: id in q.pusher.value.responses ==> id in q.ids)
  }

  /** The merges lose nothing: a key is in the result exactly when an answer was for it, with its push id;
      it fails there exactly when an answer failed it, and the error of its enqueue survives the push. */
  lemma MergesKeepErrors(q: Request, id: string)
    requires !Refused(q)
    ensures var o := Result(q);
            && (id in FailingKeys(o.status) <==> IdFailed(q, id))
            && (NotEnqueued(q, id) ==>
                  var err := q.store.value.errs[id];
                  Entry(o.status, id).enqueueError.Some? && (err.Some? ==> Entry(o.status, id).enqueueError == err))
            && (!NotEnqueued(q, id) ==> Entry(o.status, id).enqueueError.None?)
            && (NotPushed(q, id) ==> Entry(o.status, id).pushError == q.pusher.value.responses[id].err)
            && (!NotPushed(q, id) ==> Entry(o.status, id).pushError.None?)
            && (id in o.status <==> NotEnqueued(q, id) || AnsweredPush(q, id))
            && Entry(o.status, id).pushId == (if AnsweredPush(q, id) then q.pusher.value.responses[id].id else "")
            && (o.enqueueError.Some? <==> EnqueueFailed(q))
            && (o.pushError.Some? <==> PushFailed(q))
  {
  }

  /** Which answers the result is made of: the push's exactly if neither setting forbids it and the
      enqueue, if any, did not fail as a whole. */
  lemma AnswersUsed(q: Request, id: string)
    requires q.command || !q.noPush
    ensures var o := Result(q);
            var enqueued := q.command && q.store.Some?;
            var pushed := !q.noPush && !q.neverPush && (q.command ==> q.store.Some? && q.store.value.err.None?);
            && o.enqueueError == (if !q.command then None else if q.store.None? then Some("nil store") else q.store.value.err)
            && o.pushError == (if !pushed then None else if q.pusher.None? then Some("nil pusher") else q.pusher.value.err)
            && (id in o.status <==>
                  (enqueued && id in q.store.value.errs) || (pushed && q.pusher.Some? && id in q.pusher.value.responses))
  {
  }

  // ---------- the codes ----------

  lemma {:induction false} DistinctSize(ids: seq<string>)
    ensures |QueueList.Items(ids)| <= |ids|
    ensures |QueueList.Items(ids)| == |ids| <==> QueueList.Distinct(ids)
  {
    if ids != [] {
      var n := |ids| - 1;
      hide QueueList.Distinct;
      DistinctSize(ids[..n]);
      assert ids == ids[..n] + [ids[n]];
      assert QueueList.Items(ids) == QueueList.Items(ids[..n]) + {ids[n]};
      if ids[n] in ids[..n] {
        LastRepeats(ids);
      } else {
        LastIsNew(ids);
      }
    }
  }

  lemma LastRepeats(ids: seq<string>)
    requires ids != [] && ids[|ids| - 1] in ids[..|ids| - 1]
    ensures !QueueList.Distinct(ids)
    ensures QueueList.Items(ids) == QueueList.Items(ids[..|ids| - 1])
  {
    var n := |ids| - 1;
    var i :| 0 <= i < n && ids[..n][i] == ids[n];
    assert ids[i] == ids[n];
    assert ids == ids[..n] + [ids[n]];
  }

  lemma LastIsNew(ids: seq<string>)
    requires ids != [] && ids[|ids| - 1] !in ids[..|ids| - 1]
    ensures QueueList.Distinct(ids) <==> QueueList.Distinct(ids[..|ids| - 1])
  {
    var n := |ids| - 1;
    assert forall i :: 0 <= i < n ==> ids[i] == ids[..n][i];
  }

  lemma SubsetSize(a: set<string>, b: set<string>)
    requires a <= b
    ensures |a| <= |b|
    ensures |a| == |b| <==> a == b
  {
    assert |b - a| == |b| - |a|;
  }

  lemma FailedIds(q: Request)
    requires !Refused(q) && KeyedByIds(q)
    ensures forall id :: id in FailingKeys(Result(q).status) <==> id in q.ids && IdFailed(q, id)
  {
    forall id ensures id in FailingKeys(Result(q).status) <==> id in q.ids && IdFailed(q, id) {
      MergesKeepErrors(q, id);
    }
  }

  function FailedSet(q: Request): set<string> {
    set id | id in q.ids && IdFailed(q, id)
  }

  /** The code the API promises, given the ids that did fail. 500: the store or the pusher failed as a
      whole, or every id failed. 200: nothing failed. 207: some ids failed and some did not. */
  function RightCode(q: Request, failed: set<string>): int {
    if EnqueueFailed(q) || PushFailed(q) then 500
    else if failed == {} then 200
    else if QueueList.Items(q.ids) <= failed then 500
    else 207
  }

  /** Exactly when the code is right, for errors keyed by the ids asked for: always, except that a
      complete failure of a list that repeats an id is not told. */
  lemma OutcomeExact(q: Request)
    requires !Refused(q) && KeyedByIds(q)
    ensures CodeOf(Result(q), |q.ids|) == RightCode(q, FailedSet(q)) <==>
            EnqueueFailed(q) || PushFailed(q) || QueueList.Distinct(q.ids) || exists id :: id in q.ids && !IdFailed(q, id)
  {
    MergesKeepErrors(q, "");
    FailedIds(q);
    DistinctSize(q.ids);
    hide Result, FailingKeys, IdFailed, Refused, KeyedByIds, EnqueueFailed, PushFailed;
    var failed, ids := FailedSet(q), QueueList.Items(q.ids);
    assert FailingKeys(Result(q).status) == failed;
    SubsetSize(failed, ids);
    assert (|failed| == 0) <==> failed == {};
    if failed == ids {
      assert q.ids == [] <==> ids == {} by { if q.ids != [] { assert q.ids[0] in ids; } }
      assert forall id :: id in q.ids ==> id in failed;
    } else {
      var id :| id in ids && id !in failed;
    }
  }

  /** An id the push service has no push data for counts as a failed push: it is reported with an error,
      and the code is not that of a success. */
  lemma UnknownIdReported(q: Request, infos: PushByIds.Infos, byToken: map<string, PushResponse>, id: string)
    requires Pushes(q) && q.pusher.Some? && PushByIds.ByIds(q.pusher.value.responses, q.ids, infos, byToken)
    requires id in q.ids && id !in infos
    ensures NotPushed(q, id) && IdFailed(q, id)
    ensures id in Result(q).status && Result(q).status[id].pushError.Some? && Result(q).status[id].pushId == ""
    ensures CodeOf(Result(q), |q.ids|) != 200
  {
    PushByIds.UnknownIdFails(q.pusher.value.responses, q.ids, infos, byToken, id);
    hide PushByIds.ByIds, Result, FailingKeys;
    MergesKeepErrors(q, id);
    assert id in FailingKeys(Result(q).status);
  }

  // ---------- errors filed under the command ----------

  /** The key-value store files an enqueue error under the command's uuid, whatever ids failed. */
  function KvErrors(failed: set<string>, uuid: string): map<string, Option<string>> {
    if failed == {} then map[] else map[uuid := Some("enqueue for " + uuid)]
  }

  function NotPushedSet(q: Request): set<string> {
    set id | id in q.ids && NotPushed(q, id)
  }

  /** The answers of the key-value store, which failed to enqueue for the ids `failed`, and of a pusher
      that answers for the ids it was asked for. */
  predicate KvAnswered(q: Request, failed: set<string>, uuid: string) {
    && q.command && q.store == Some(Enqueued(KvErrors(failed, uuid), None))
    && failed <= QueueList.Items(q.ids)
    && (q.pusher.Some? ==> forall id :: id in q.pusher.value.responses ==> id in q.ids)
  }

  /** The keys counted: the ids whose push failed, and the uuid for all enqueue errors together. */
  function KvKeys(q: Request, failed: set<string>, uuid: string): set<string> {
    NotPushedSet(q) + if failed == {} then {} else {uuid}
  }

  lemma KvFailingKeys(q: Request, failed: set<string>, uuid: string)
    requires KvAnswered(q, failed, uuid)
    ensures FailingKeys(Result(q).status) == KvKeys(q, failed, uuid)
  {
    forall id ensures id in FailingKeys(Result(q).status) <==> id in KvKeys(q, failed, uuid) {
      MergesKeepErrors(q, id);
    }
  }

  /** The code drawn from them, and exactly when it is right: without any failure, or when the keys are as
      many as the ids exactly if all ids failed. */
  lemma KvOutcomeExact(q: Request, failed: set<string>, uuid: string)
    requires KvAnswered(q, failed, uuid)
    ensures var code, n := CodeOf(Result(q), |q.ids|), |KvKeys(q, failed, uuid)|;
            var all := failed + NotPushedSet(q);
            && code == (if PushFailed(q) then 500 else if n == 0 then 200 else if n >= |q.ids| then 500 else 207)
            && (code == RightCode(q, all) <==>
                  PushFailed(q) || all == {} || (n >= |q.ids| <==> all == QueueList.Items(q.ids)))
  {
    KvFailingKeys(q, failed, uuid);
    MergesKeepErrors(q, "");
    hide Result, FailingKeys, PushFailed;
    if failed != {} {
      assert uuid in KvKeys(q, failed, uuid);
    }
    assert (|NotPushedSet(q)| == 0) <==> NotPushedSet(q) == {};
  }

  /** With distinct ids and some enqueue error: the code is right exactly if at most one id is without a
      failed push and none of those was enqueued, or there are more and some of them was. */
  lemma KvDistinctExact(q: Request, failed: set<string>, uuid: string)
    requires KvAnswered(q, failed, uuid) && failed != {} && !PushFailed(q)
    requires QueueList.Distinct(q.ids) && uuid !in q.ids
    ensures var pushed := QueueList.Items(q.ids) - NotPushedSet(q);
            && CodeOf(Result(q), |q.ids|) == (if |pushed| <= 1 then 500 else 207)
            && (CodeOf(Result(q), |q.ids|) == RightCode(q, failed + NotPushedSet(q)) <==> (|pushed| <= 1 <==> pushed <= failed))
  {
    KvOutcomeExact(q, failed, uuid);
    DistinctSize(q.ids);
    hide Result, CodeOf, PushFailed, NotPushed;
    var ids, p := QueueList.Items(q.ids), NotPushedSet(q);
    assert |ids - p| == |ids| - |p|;
    assert |KvKeys(q, failed, uuid)| == |p| + 1;
    assert failed + p == ids <==> ids - p <= failed;
  }

  /** A repeated id: the one enrollment asked for failed, and the code still reads partial success. */
  lemma RepeatedIdHidesFailure(id: string)
    ensures var q := Request(true, [id, id], true, false, Some(Enqueued(map[id := Some("error")], None)), None);
            && !Refused(q) && KeyedByIds(q)
            && (forall i :: 0 <= i < |q.ids| ==> IdFailed(q, q.ids[i]))
            && CodeOf(Result(q), |q.ids|) == 207
  {
    var q := Request(true, [id, id], true, false, Some(Enqueued(map[id := Some("error")], None)), None);
    FailedIds(q);
    assert FailingKeys(Result(q).status) == {id};
  }

  // ---------- as the program runs it ----------

  class APIResult {
    var status: Status
    var pushError: Option<string>
    var enqueueError: Option<string>

    constructor ()
      ensures Value() == EMPTY
    {
      status, pushError, enqueueError := map[], None, None;
    }

    function Value(): Outcome
      reads this
    {
      Outcome(status, pushError, enqueueError)
    }

    method DoEnqueue(store: Option<Enqueued>)
      modifies this
      ensures Value() == AfterEnqueue(old(Value()), store)
    {
      assert status == WithErrors(status, map[]);
      hide WithErrors, ErrorOf, Entry;
      if store.None? {
        enqueueError := Some("nil store");
        return;
      }
      var answer := store.value;
      if answer.err.Some? {
        enqueueError := answer.err;
      }
      var todo := answer.errs.Keys;
      assert answer.errs - todo == map[];
      while todo != {}
        invariant todo <= answer.errs.Keys
        invariant pushError == old(pushError)
        invariant enqueueError == if answer.err.Some? then answer.err else old(enqueueError)
        invariant status == WithErrors(old(status), answer.errs - todo)
      {
        var id :| id in todo;
        OneMoreError(old(status), answer.errs, todo, id);
        status := status[id := Entry(status, id).(enqueueError := ErrorOf(answer.errs[id]))];
        todo := todo - {id};
      }
      assert answer.errs - todo == answer.errs;
    }

    method DoPush(pusher: Option<Pushed>)
      modifies this
      ensures Value() == AfterPush(old(Value()), pusher)
    {
      assert status == WithResponses(status, map[]);
      hide WithResponses, Responded, Entry;
      if pusher.None? {
        pushError := Some("nil pusher");
        return;
      }
      var answer := pusher.value;
      if answer.err.Some? {
        pushError := answer.err;
      }
      var todo := answer.responses.Keys;
      assert answer.responses - todo == map[];
      while todo != {}
        invariant todo <= answer.responses.Keys
        invariant enqueueError == old(enqueueError)
        invariant pushError == if answer.err.Some? then answer.err else old(pushError)
        invariant status == WithResponses(old(status), answer.responses - todo)
      {
        var id :| id in todo;
        OneMoreResponse(old(status), answer.responses, todo, id);
        status := status[id := Responded(Entry(status, id), answer.responses[id])];
        todo := todo - {id};
      }
      assert answer.responses - todo == answer.responses;
    }

    method Code(idCount: nat) returns (code: int)
      ensures code == CodeOf(Value(), idCount)
    {
      if pushError.Some? || enqueueError.Some? {
        return 500;
      }
      hide Failing;
      var errCt := 0;
      var todo := status.Keys;
      ghost var counted: set<string> := {};
      while todo != {}
        invariant todo <= status.Keys
        invariant forall id :: id in counted <==> id in status && id !in todo && Failing(status[id])
        invariant errCt == |counted|
      {
        var id :| id in todo;
        if Failing(status[id]) {
          errCt, counted := errCt + 1, counted + {id};
        }
        todo := todo - {id};
      }
      assert counted == FailingKeys(status);
      if errCt < 1 {
        return 200;
      } else if errCt == idCount {
        return 500;
      } else if errCt < idCount {
        return 207;
      }
      return 500;
    }
  }

  /** The request's outcome; None stands for the error returned beside a refused request's empty result. */
  method EnqueueWithPush(q: Request) returns (o: Outcome, code: int, ok: bool)
    ensures ok <==> q.command || !q.noPush
    ensures !ok ==> o == Outcome(map[], None, None) && code == 500
    ensures ok && !q.command && q.neverPush ==> o == Outcome(map[], None, None) && code == 200
    ensures o == Result(q)
    ensures code == if Refused(q) then 500 else CodeOf(Result(q), |q.ids|)
  {
    var r := new APIResult();
    if !q.command && q.noPush {
      return r.Value(), 500, false;
    }
    if q.command {
      r.DoEnqueue(q.store);
    }
    if !q.noPush && !q.neverPush && r.enqueueError.None? {
      r.DoPush(q.pusher);
    }
    code := r.Code(|q.ids|);
    return r.Value(), code, true;
  }
}
