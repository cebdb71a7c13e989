/** The APNs provider's fan-out: a feeder, a pool of workers, a closer and a collector over two
    unbuffered channels, as a transition system that has to agree with the serial loop. */
module PushWorkers {
  import opened Options

  datatype Push = Push(magic: string, token: string, topic: string)

  datatype Response = Response(id: string, err: Option<string>)

  /** What APNs answers to a push. */
  type Sender = Push -> Response

  type Infos = seq<Option<Push>>

  // ---------- the serial loop ----------

  /** The responses by token, later pushes replacing earlier ones with the same token. */
  function Responses(send: Sender, s: seq<Push>): map<string, Response> {
    if s == [] then map[] else Responses(send, s[..|s| - 1])[s[|s| - 1].token := send(s[|s| - 1])]
  }

  function NonNil(infos: Infos): seq<Push> {
    if infos == [] then []
    else NonNil(infos[..|infos| - 1]) + if infos[|infos| - 1].Some? then [infos[|infos| - 1].value] else []
  }

  lemma FedOne(infos: Infos, k: nat)
    requires k < |infos|
    ensures NonNil(infos[..k + 1]) == if infos[k].Some? then NonNil(infos[..k]) + [infos[k].value] else NonNil(infos[..k])
  {
    assert infos[..k + 1][..k] == infos[..k];
  }

  lemma RespondedOne(send: Sender, s: seq<Push>, p: Push)
    ensures Responses(send, s + [p]) == Responses(send, s)[p.token := send(p)]
  {
    assert (s + [p])[..|s|] == s;
  }

  method PushSerial(send: Sender, infos: Infos) returns (ret: map<string, Response>)
    ensures ret == Responses(send, NonNil(infos))
  {
    ret := map[];
    for i := 0 to |infos|
      invariant ret == Responses(send, NonNil(infos[..i]))
    {
      FedOne(infos, i);
      hide NonNil;
      if infos[i].None? {
        continue;
      }
      var p := infos[i].value;
      RespondedOne(send, NonNil(infos[..i]), p);
      ret := ret[p.token := send(p)];
    }
    assert infos[..|infos|] == infos;
  }

  // ---------- the concurrent protocol ----------

  datatype Worker = Idle | Busy(p: Push) | Holding(p: Push, r: Response) | Exited

  /** `fed` is the feeder's position; `sent` and `done` record the pushes performed and the results
      collected so far, in the order they happened. */
  datatype State = State(
    fed: nat,
    jobsClosed: bool,
    workers: seq<Worker>,
    resultsClosed: bool,
    returned: bool,
    ret: map<string, Response>,
    sent: seq<Push>,
    done: seq<Push>
  )

  datatype Action =
    | SkipNil
    | Feed(w: nat)
    | CloseJobs
    | Send(w: nat)
    | Collect(w: nat)
    | Exit(w: nat)
    | CloseResults
    | Return

  function Start(workers: nat): State {
    State(0, false, seq(workers, _ => Idle), false, false, map[], [], [])
  }

  /** When an action may happen. Sends are guarded by the receiver only: whether the channel is
      still open is a theorem, not a guard. */
  predicate Enabled(infos: Infos, s: State, a: Action) {
    match a
    case SkipNil => s.fed < |infos| && infos[s.fed].None?
    case Feed(w) => s.fed < |infos| && infos[s.fed].Some? && w < |s.workers| && s.workers[w].Idle?
    case CloseJobs => s.fed == |infos| && !s.jobsClosed
    case Send(w) => w < |s.workers| && s.workers[w].Busy?
    case Collect(w) => !s.returned && w < |s.workers| && s.workers[w].Holding?
    case Exit(w) => s.jobsClosed && w < |s.workers| && s.workers[w].Idle?
    case CloseResults => !s.resultsClosed && forall w :: 0 <= w < |s.workers| ==> s.workers[w].Exited?
    case Return => s.resultsClosed && !s.returned
  }

  function Step(send: Sender, infos: Infos, s: State, a: Action): State
    requires Enabled(infos, s, a)
  {
    match a
    case SkipNil => s.(fed := s.fed + 1)
    case Feed(w) => s.(fed := s.fed + 1, workers := s.workers[w := Busy(infos[s.fed].value)])
    case CloseJobs => s.(jobsClosed := true)
    case Send(w) =>
      var p := s.workers[w].p;
      s.(workers := s.workers[w := Holding(p, send(p))], sent := s.sent + [p])
    case Collect(w) =>
      var h := s.workers[w];
      s.(workers := s.workers[w := Idle], ret := s.ret[h.p.token := h.r], done := s.done + [h.p])
    case Exit(w) => s.(workers := s.workers[w := Exited])
    case CloseResults => s.(resultsClosed := true)
    case Return => s.(returned := true)
  }

  // ---------- what every reachable state keeps ----------

  function Count(s: seq<Push>, x: Push): nat {
    multiset(s)[x]
  }

  lemma CountAppend(s: seq<Push>, p: Push, x: Push)
    ensures Count(s + [p], x) == Count(s, x) + if x == p then 1 else 0
  {
    assert multiset(s + [p]) == multiset(s) + multiset{p};
  }

  /** How often a push has been received by a worker and not performed yet. */
  function Received(ws: seq<Worker>, x: Push): nat {
    if ws == [] then 0 else Received(ws[..|ws| - 1], x) + if ws[|ws| - 1] == Busy(x) then 1 else 0
  }

  /** How often a push has been performed with its result still in a worker's hands. */
  function Held(ws: seq<Worker>, x: Push): nat {
    if ws == [] then 0
    else Held(ws[..|ws| - 1], x) + if ws[|ws| - 1].Holding? && ws[|ws| - 1].p == x then 1 else 0
  }

  lemma {:induction false} WorkerChanged(ws: seq<Worker>, i: nat, w: Worker, x: Push)
    requires i < |ws|
    ensures Received(ws[i := w], x) == Received(ws, x)
              - (if ws[i] == Busy(x) then 1 else 0) + (if w == Busy(x) then 1 else 0)
    ensures Held(ws[i := w], x) == Held(ws, x)
              - (if ws[i].Holding? && ws[i].p == x then 1 else 0) + (if w.Holding? && w.p == x then 1 else 0)
  {
    var n := |ws| - 1;
    if i < n {
      WorkerChanged(ws[..n], i, w, x);
      assert ws[i := w][..n] == ws[..n][i := w];
    } else {
      assert ws[i := w][..n] == ws[..n];
    }
  }

  /** Order in which the phases end. */
  predicate Phased(infos: Infos, s: State) {
    && s.fed <= |infos|
    && (s.jobsClosed ==> s.fed == |infos|)
    && (forall w :: 0 <= w < |s.workers| && s.workers[w].Exited? ==> s.jobsClosed)
    && (s.resultsClosed ==> forall w :: 0 <= w < |s.workers| ==> s.workers[w].Exited?)
    && (s.returned ==> s.resultsClosed)
  }

  /** Every push handed out is in exactly one place: with a worker, or performed once; every push
      performed is held by a worker or collected once. */
  ghost predicate Accounted(infos: Infos, s: State)
    requires s.fed <= |infos|
  {
    forall x ::
      && Count(NonNil(infos[..s.fed]), x) == Count(s.sent, x) + Received(s.workers, x)
      && Count(s.sent, x) == Count(s.done, x) + Held(s.workers, x)
  }

  /** Results in hand and collected are what APNs answered. */
  ghost predicate Truthful(send: Sender, s: State) {
    && (forall w :: 0 <= w < |s.workers| && s.workers[w].Holding? ==> s.workers[w].r == send(s.workers[w].p))
    && s.ret == Responses(send, s.done)
  }

  ghost predicate Inv(send: Sender, infos: Infos, s: State) {
    Phased(infos, s) && Accounted(infos, s) && Truthful(send, s)
  }

  lemma {:induction false} NoneInHand(ws: seq<Worker>, x: Push)
    requires forall w :: 0 <= w < |ws| ==> ws[w].Idle? || ws[w].Exited?
    ensures Received(ws, x) == 0 && Held(ws, x) == 0
  {
    if ws != [] {
      NoneInHand(ws[..|ws| - 1], x);
    }
  }

  lemma StartKept(send: Sender, infos: Infos, workers: nat)
    ensures Inv(send, infos, Start(workers))
  {
    var s := Start(workers);
    forall x
      ensures Count(NonNil(infos[..s.fed]), x) == Count(s.sent, x) + Received(s.workers, x)
      ensures Count(s.sent, x) == Count(s.done, x) + Held(s.workers, x)
    {
      NoneInHand(s.workers, x);
    }
  }

  lemma StepPhased(send: Sender, infos: Infos, s: State, a: Action)
    requires Phased(infos, s) && Enabled(infos, s, a)
    ensures Phased(infos, Step(send, infos, s, a))
  {
  }

  lemma StepAccounted(send: Sender, infos: Infos, s: State, a: Action, x: Push)
    requires Inv(send, infos, s) && Enabled(infos, s, a)
    ensures var s' := Step(send, infos, s, a);
            && s'.fed <= |infos|
            && Count(NonNil(infos[..s'.fed]), x) == Count(s'.sent, x) + Received(s'.workers, x)
            && Count(s'.sent, x) == Count(s'.done, x) + Held(s'.workers, x)
  {
    hide Count, NonNil, Received, Held, Responses, Truthful;
    var s' := Step(send, infos, s, a);
    match a
    case SkipNil => FedOne(infos, s.fed);
    case Feed(w) =>
      FedOne(infos, s.fed);
      CountAppend(NonNil(infos[..s.fed]), infos[s.fed].value, x);
      WorkerChanged(s.workers, w, s'.workers[w], x);
    case Send(w) =>
      CountAppend(s.sent, s.workers[w].p, x);
      WorkerChanged(s.workers, w, s'.workers[w], x);
    case Collect(w) =>
      CountAppend(s.done, s.workers[w].p, x);
      WorkerChanged(s.workers, w, s'.workers[w], x);
    case Exit(w) => WorkerChanged(s.workers, w, s'.workers[w], x);
    case _ =>
  }

  lemma StepTruthful(send: Sender, infos: Infos, s: State, a: Action)
    requires Truthful(send, s) && Enabled(infos, s, a)
    ensures Truthful(send, Step(send, infos, s, a))
  {
    hide Responses;
    var s' := Step(send, infos, s, a);
    match a
    case Send(w) =>
    case Collect(w) => RespondedOne(send, s.done, s.workers[w].p);
    case _ => assert s'.ret == s.ret && s'.done == s.done;
  }

  lemma StepKept(send: Sender, infos: Infos, s: State, a: Action)
    requires Inv(send, infos, s) && Enabled(infos, s, a)
    ensures Inv(send, infos, Step(send, infos, s, a))
  {
    StepPhased(send, infos, s, a);
    StepTruthful(send, infos, s, a);
    hide Count, NonNil, Received, Held, Responses, Truthful, Phased, Step, Enabled;
    var s' := Step(send, infos, s, a);
    assert s'.fed <= |infos| by { StepAccounted(send, infos, s, a, Push("", "", "")); }
    forall x
      ensures Count(NonNil(infos[..s'.fed]), x) == Count(s'.sent, x) + Received(s'.workers, x)
      ensures Count(s'.sent, x) == Count(s'.done, x) + Held(s'.workers, x)
    {
      StepAccounted(send, infos, s, a, x);
    }
  }

  /** Nothing is handed to a worker after the jobs are closed, and no result is under way after the
      results are. */
  lemma NoSendOnClosed(send: Sender, infos: Infos, s: State, a: Action)
    requires Inv(send, infos, s) && Enabled(infos, s, a)
    ensures a.Feed? ==> !s.jobsClosed
    ensures a.Send? || a.Collect? ==> !s.resultsClosed
  {
  }

  /** The action a worker can take next, whatever the others do. */
  function WorkerAction(s: State, w: nat): Action
    requires w < |s.workers|
  {
    match s.workers[w]
    case Idle => if s.jobsClosed then Exit(w) else Feed(w)
    case Busy(_) => Send(w)
    case _ => Collect(w)
  }

  /** Until the collector returns, some action is possible. */
  lemma NoDeadlock(send: Sender, infos: Infos, s: State)
    requires Inv(send, infos, s) && !s.returned && (|s.workers| > 0 || infos == [])
    ensures exists a :: Enabled(infos, s, a)
  {
    var a :=
      if s.fed < |infos| then if infos[s.fed].None? then SkipNil else WorkerAction(s, 0)
      else if !s.jobsClosed then CloseJobs
      else if s.resultsClosed then Return
      else if w: nat :| w < |s.workers| && !s.workers[w].Exited? then WorkerAction(s, w)
      else CloseResults;
    assert Enabled(infos, s, a);
  }

  function Weight(w: Worker): nat {
    match w
    case Exited => 0
    case Idle => 1
    case Holding(_, _) => 2
    case Busy(_) => 3
  }

  function Weights(ws: seq<Worker>): nat {
    if ws == [] then 0 else Weights(ws[..|ws| - 1]) + Weight(ws[|ws| - 1])
  }

  function Measure(infos: Infos, s: State): int {
    4 * (|infos| - s.fed) + Weights(s.workers)
    + (if s.jobsClosed then 0 else 1) + (if s.resultsClosed then 0 else 1) + (if s.returned then 0 else 1)
  }

  lemma {:induction false} WeightChanged(ws: seq<Worker>, i: nat, w: Worker)
    requires i < |ws|
    ensures Weights(ws[i := w]) + Weight(ws[i]) == Weights(ws) + Weight(w)
  {
    var n := |ws| - 1;
    if i < n {
      WeightChanged(ws[..n], i, w);
      assert ws[i := w][..n] == ws[..n][i := w];
    } else {
      assert ws[i := w][..n] == ws[..n];
    }
  }

  /** Every action brings the end nearer, so no schedule runs forever. */
  lemma MeasureDecreases(send: Sender, infos: Infos, s: State, a: Action)
    requires Enabled(infos, s, a)
    ensures Measure(infos, Step(send, infos, s, a)) < Measure(infos, s)
  {
    match a
    case Feed(w) => WeightChanged(s.workers, w, Busy(infos[s.fed].value));
    case Send(w) => WeightChanged(s.workers, w, Step(send, infos, s, a).workers[w]);
    case Collect(w) => WeightChanged(s.workers, w, Idle);
    case Exit(w) => WeightChanged(s.workers, w, Exited);
    case _ =>
  }

  // ---------- the outcome ----------

  /** Pushes with the same token get the same answer; in particular when tokens are distinct. */
  ghost predicate Agreeing(send: Sender, s: seq<Push>) {
    forall i, j :: 0 <= i < |s| && 0 <= j < |s| && s[i].token == s[j].token ==> send(s[i]) == send(s[j])
  }

  /** Each response belongs to the last push with its token. */
  ghost predicate LastWithToken(s: seq<Push>, i: int) {
    0 <= i < |s| && forall j :: i < j < |s| ==> s[j].token != s[i].token
  }

  lemma {:induction false} ResponseOfLast(send: Sender, s: seq<Push>, i: nat)
    requires LastWithToken(s, i)
    ensures s[i].token in Responses(send, s) && Responses(send, s)[s[i].token] == send(s[i])
  {
    var n := |s| - 1;
    if i < n {
      assert s[n].token != s[i].token;
      ResponseOfLast(send, s[..n], i);
    }
  }

  lemma {:induction false} LastOfResponse(send: Sender, s: seq<Push>, t: string) returns (i: nat)
    requires t in Responses(send, s)
    ensures LastWithToken(s, i) && s[i].token == t
  {
    var n := |s| - 1;
    if t == s[n].token {
      i := n;
    } else {
      i := LastOfResponse(send, s[..n], t);
      forall j | i < j < |s| ensures s[j].token != s[i].token {
        assert j < n ==> s[..n][j] == s[j];
      }
    }
  }

  lemma {:induction false} SomeLast(s: seq<Push>, i: nat) returns (l: nat)
    requires i < |s|
    ensures i <= l && LastWithToken(s, l) && s[l].token == s[i].token
    decreases |s| - i
  {
    if j :| i < j < |s| && s[j].token == s[i].token {
      l := SomeLast(s, j);
    } else {
      l := i;
    }
  }

  lemma MemberOf(s: seq<Push>, t: seq<Push>, i: nat) returns (j: nat)
    requires multiset(s) == multiset(t) && i < |s|
    ensures j < |t| && t[j] == s[i]
  {
    assert s[i] in multiset(s);
    assert s[i] in t;
    j :| j < |t| && t[j] == s[i];
  }

  lemma OrderIrrelevantAt(send: Sender, s: seq<Push>, t: seq<Push>, k: string)
    requires multiset(s) == multiset(t) && Agreeing(send, s) && k in Responses(send, t)
    ensures k in Responses(send, s) && Responses(send, s)[k] == Responses(send, t)[k]
  {
    var i := LastOfResponse(send, t, k);
    ResponseOfLast(send, t, i);
    var j := MemberOf(t, s, i);
    var l := SomeLast(s, j);
    ResponseOfLast(send, s, l);
  }

  lemma AgreeingBag(send: Sender, s: seq<Push>, t: seq<Push>)
    requires multiset(s) == multiset(t) && Agreeing(send, s)
    ensures Agreeing(send, t)
  {
    forall i, j | 0 <= i < |t| && 0 <= j < |t| && t[i].token == t[j].token ensures send(t[i]) == send(t[j]) {
      var i' := MemberOf(t, s, i);
      var j' := MemberOf(t, s, j);
    }
  }

  /** With agreeing answers, the order in which results arrive does not matter. */
  lemma AnyOrder(send: Sender, s: seq<Push>, t: seq<Push>)
    requires multiset(s) == multiset(t) && Agreeing(send, s)
    ensures Responses(send, t) == Responses(send, s)
  {
    AgreeingBag(send, s, t);
    forall k | k in Responses(send, t) ensures k in Responses(send, s) && Responses(send, s)[k] == Responses(send, t)[k] {
      OrderIrrelevantAt(send, s, t, k);
    }
    forall k | k in Responses(send, s) ensures k in Responses(send, t) {
      OrderIrrelevantAt(send, t, s, k);
    }
  }

  /** When the collector returns, every non-nil push has been performed and collected exactly once. */
  lemma ExactlyOnce(send: Sender, infos: Infos, s: State)
    requires Inv(send, infos, s) && s.returned && (|s.workers| > 0 || infos == [])
    ensures multiset(s.sent) == multiset(NonNil(infos)) == multiset(s.done)
    ensures s.ret == Responses(send, s.done)
  {
    hide Responses, NonNil;
    assert |s.workers| > 0 ==> s.workers[0].Exited?;
    assert infos[..s.fed] == infos;
    forall x ensures multiset(s.sent)[x] == multiset(NonNil(infos))[x] == multiset(s.done)[x] {
      NoneInHand(s.workers, x);
      assert Count(NonNil(infos[..s.fed]), x) == Count(s.sent, x) + Received(s.workers, x);
      assert Count(s.sent, x) == Count(s.done, x) + Held(s.workers, x);
    }
  }

  /** What the only worker has in hand. */
  function InHand(w: Worker): seq<Push> {
    if w.Busy? || w.Holding? then [w.p] else []
  }

  /** A single worker collects in feeding order. */
  predicate Single(infos: Infos, s: State) {
    && |s.workers| == 1 && s.fed <= |infos|
    && NonNil(infos[..s.fed]) == s.done + InHand(s.workers[0])
  }

  lemma SingleKept(send: Sender, infos: Infos, s: State, a: Action)
    requires Single(infos, s) && Enabled(infos, s, a)
    ensures Single(infos, Step(send, infos, s, a))
  {
    hide NonNil;
    if a.SkipNil? || a.Feed? {
      FedOne(infos, s.fed);
    }
  }

  /** Starts as many workers as there are pushes at most, and lets them run in any order. */
  method PushConcurrent(send: Sender, infos: Infos, workers: nat) returns (ret: map<string, Response>, ghost sent: seq<Push>)
    requires workers >= 1
    ensures multiset(sent) == multiset(NonNil(infos))
    ensures workers == 1 || |infos| <= 1 || Agreeing(send, NonNil(infos)) ==> ret == Responses(send, NonNil(infos))
    ensures exists done :: multiset(done) == multiset(NonNil(infos)) && ret == Responses(send, done)
  {
    var n := if |infos| < workers then |infos| else workers;
    var s := Start(n);
    StartKept(send, infos, n);
    assert infos[..0] == [];
    while !s.returned
      invariant Inv(send, infos, s)
      invariant |s.workers| == n
      invariant n == 1 ==> Single(infos, s)
      decreases Measure(infos, s)
    {
      NoDeadlock(send, infos, s);
      var a :| Enabled(infos, s, a);
      StepKept(send, infos, s, a);
      MeasureDecreases(send, infos, s, a);
      if n == 1 {
        SingleKept(send, infos, s, a);
      }
      hide Inv, Single;
      s := Step(send, infos, s, a);
    }
    ret, sent := s.ret, s.sent;
    ExactlyOnce(send, infos, s);
    if |infos| == 0 {
      assert NonNil(infos) == [];
      assert s.done == [];
    } else if n == 1 {
      assert infos[..s.fed] == infos;
      assert s.done + [] == s.done;
    } else if Agreeing(send, NonNil(infos)) {
      AnyOrder(send, NonNil(infos), s.done);
    }
  }

  datatype PushResult = Sent(responses: map<string, Response>) | NoPushData

  /** One push is sent serially, more of them concurrently, none is an error. */
  method PushAll(send: Sender, infos: Infos, workers: nat) returns (r: PushResult)
    requires workers >= 1
    ensures r.NoPushData? <==> infos == []
    ensures infos != [] && (workers == 1 || |infos| == 1 || Agreeing(send, NonNil(infos))) ==>
              r == Sent(Responses(send, NonNil(infos)))
    ensures infos != [] ==>
              exists done :: multiset(done) == multiset(NonNil(infos)) && r == Sent(Responses(send, done))
  {
    if |infos| < 1 {
      return NoPushData;
    } else if |infos| == 1 {
      var ret := PushSerial(send, infos);
      return Sent(ret);
    } else {
      var ret, _ := PushConcurrent(send, infos, workers);
      return Sent(ret);
    }
  }

  // ---------- runs ----------

  /** The actions happen one after the other from `s`. */
  predicate Possible(send: Sender, infos: Infos, s: State, acts: seq<Action>)
    decreases |acts|
  {
    acts == [] || (Enabled(infos, s, acts[0]) && Possible(send, infos, Step(send, infos, s, acts[0]), acts[1..]))
  }

  function After(send: Sender, infos: Infos, s: State, acts: seq<Action>): State
    requires Possible(send, infos, s, acts)
    decreases |acts|
  {
    if acts == [] then s else After(send, infos, Step(send, infos, s, acts[0]), acts[1..])
  }

  ghost predicate Reaches(send: Sender, infos: Infos, s: State, s': State) {
    exists acts :: Possible(send, infos, s, acts) && After(send, infos, s, acts) == s'
  }

  lemma ReachesSelf(send: Sender, infos: Infos, s: State)
    ensures Reaches(send, infos, s, s)
  {
    assert Possible(send, infos, s, []) && After(send, infos, s, []) == s;
  }

  lemma {:induction false} AppendAction(send: Sender, infos: Infos, s: State, acts: seq<Action>, a: Action)
    requires Possible(send, infos, s, acts) && Enabled(infos, After(send, infos, s, acts), a)
    ensures Possible(send, infos, s, acts + [a])
    ensures After(send, infos, s, acts + [a]) == Step(send, infos, After(send, infos, s, acts), a)
    decreases |acts|
  {
    if acts == [] {
      var s' := Step(send, infos, s, a);
      assert ([] + [a])[1..] == [];
      assert Possible(send, infos, s', []);
    } else {
      AppendAction(send, infos, Step(send, infos, s, acts[0]), acts[1..], a);
      assert (acts + [a])[1..] == acts[1..] + [a];
    }
  }

  lemma ReachesStep(send: Sender, infos: Infos, s: State, s': State, a: Action)
    requires Reaches(send, infos, s, s') && Enabled(infos, s', a)
    ensures Reaches(send, infos, s, Step(send, infos, s', a))
  {
    var acts :| Possible(send, infos, s, acts) && After(send, infos, s, acts) == s';
    AppendAction(send, infos, s, acts, a);
  }

  lemma {:induction false} RunKept(send: Sender, infos: Infos, s: State, acts: seq<Action>)
    requires Possible(send, infos, s, acts) && Inv(send, infos, s)
    ensures Inv(send, infos, After(send, infos, s, acts))
    ensures Single(infos, s) ==> Single(infos, After(send, infos, s, acts))
    ensures |After(send, infos, s, acts).workers| == |s.workers|
    decreases |acts|
  {
    if acts != [] {
      StepKept(send, infos, s, acts[0]);
      if Single(infos, s) {
        SingleKept(send, infos, s, acts[0]);
      }
      hide Inv, Single;
      RunKept(send, infos, Step(send, infos, s, acts[0]), acts[1..]);
    }
  }

  // ---------- a schedule that reorders results ----------

  /** Feeds the next item, lets worker 0 perform it and collects it. */
  lemma DriveOne(send: Sender, infos: Infos, s0: State, s: State) returns (s': State)
    requires Reaches(send, infos, s0, s)
    requires !s.returned && !s.jobsClosed && s.fed < |infos| && |s.workers| > 0 && s.workers[0].Idle?
    ensures Reaches(send, infos, s0, s')
    ensures s'.fed == s.fed + 1 && s'.workers == s.workers && !s'.returned && !s'.jobsClosed && !s'.resultsClosed == !s.resultsClosed
    ensures s'.ret == if infos[s.fed].None? then s.ret
                      else s.ret[infos[s.fed].value.token := send(infos[s.fed].value)]
  {
    if infos[s.fed].None? {
      ReachesStep(send, infos, s0, s, SkipNil);
      s' := Step(send, infos, s, SkipNil);
    } else {
      hide Reaches;
      ReachesStep(send, infos, s0, s, Feed(0));
      var s1 := Step(send, infos, s, Feed(0));
      ReachesStep(send, infos, s0, s1, Send(0));
      var s2 := Step(send, infos, s1, Send(0));
      ReachesStep(send, infos, s0, s2, Collect(0));
      s' := Step(send, infos, s2, Collect(0));
      assert s'.workers == s.workers;
    }
  }

  /** Drives worker 0 through all items up to position `k`. */
  lemma {:induction false} DriveTo(send: Sender, infos: Infos, s0: State, s: State, k: nat) returns (s': State)
    requires Reaches(send, infos, s0, s) && s.fed <= k <= |infos|
    requires !s.returned && !s.jobsClosed && |s.workers| > 0 && s.workers[0].Idle?
    ensures Reaches(send, infos, s0, s')
    ensures s'.fed == k && s'.workers == s.workers && !s'.returned && !s'.jobsClosed && !s'.resultsClosed == !s.resultsClosed
    decreases k - s.fed
  {
    if s.fed == k {
      s' := s;
    } else {
      var s1 := DriveOne(send, infos, s0, s);
      s' := DriveTo(send, infos, s0, s1, k);
    }
  }

  /** Once the jobs are closed, idle workers leave one by one. */
  lemma {:induction false} LeaveAll(send: Sender, infos: Infos, s0: State, s: State, k: nat) returns (s': State)
    requires Reaches(send, infos, s0, s) && k <= |s.workers| && s.jobsClosed
    requires forall w :: 0 <= w < |s.workers| ==> s.workers[w] == if w < k then Exited else Idle
    ensures Reaches(send, infos, s0, s')
    ensures s' == s.(workers := s'.workers) && |s'.workers| == |s.workers|
    ensures forall w :: 0 <= w < |s'.workers| ==> s'.workers[w].Exited?
    decreases |s.workers| - k
  {
    if k == |s.workers| {
      s' := s;
    } else {
      hide Reaches;
      ReachesStep(send, infos, s0, s, Exit(k));
      s' := LeaveAll(send, infos, s0, Step(send, infos, s, Exit(k)), k + 1);
    }
  }

  /** With two workers, a push that shares its token with a later one but is answered differently
      can have its result collected last. */
  lemma LateResult(send: Sender, infos: Infos, n: nat, e: nat) returns (s: State)
    requires n >= 2 && e < |infos| && infos[e].Some?
    ensures Reaches(send, infos, Start(n), s) && s.returned
    ensures infos[e].value.token in s.ret && s.ret[infos[e].value.token] == send(infos[e].value)
  {
    var p := infos[e].value;
    var s0 := Start(n);
    ReachesSelf(send, infos, s0);
    hide Reaches;
    var s1 := DriveTo(send, infos, s0, s0, e);
    ReachesStep(send, infos, s0, s1, Feed(1));
    var s2 := Step(send, infos, s1, Feed(1));
    ReachesStep(send, infos, s0, s2, Send(1));
    var s3 := Step(send, infos, s2, Send(1));
    var s4 := DriveTo(send, infos, s0, s3, |infos|);
    ReachesStep(send, infos, s0, s4, CloseJobs);
    var s5 := Step(send, infos, s4, CloseJobs);
    assert s5.workers[1] == Holding(p, send(p));
    ReachesStep(send, infos, s0, s5, Collect(1));
    var s6 := Step(send, infos, s5, Collect(1));
    var s7 := LeaveAll(send, infos, s0, s6, 0);
    ReachesStep(send, infos, s0, s7, CloseResults);
    var s8 := Step(send, infos, s7, CloseResults);
    ReachesStep(send, infos, s0, s8, Return);
    s := Step(send, infos, s8, Return);
  }

  /** The worker count `pushConcurrent` uses. */
  function Pool(infos: Infos, workers: nat): nat {
    if |infos| < workers then |infos| else workers
  }

  ghost predicate AlwaysSerial(send: Sender, infos: Infos, workers: nat) {
    forall s :: Reaches(send, infos, Start(Pool(infos, workers)), s) && s.returned ==> s.ret == Responses(send, NonNil(infos))
  }

  lemma FinalResponses(send: Sender, infos: Infos, workers: nat, s: State)
    requires workers >= 1 && (workers == 1 || Agreeing(send, NonNil(infos)))
    requires Reaches(send, infos, Start(Pool(infos, workers)), s) && s.returned
    ensures s.ret == Responses(send, NonNil(infos))
  {
    var n := Pool(infos, workers);
    var acts :| Possible(send, infos, Start(n), acts) && After(send, infos, Start(n), acts) == s;
    StartKept(send, infos, n);
    assert infos[..0] == [];
    RunKept(send, infos, Start(n), acts);
    ExactlyOnce(send, infos, s);
    FinalOrder(send, infos, n, s);
  }

  lemma FinalOrder(send: Sender, infos: Infos, n: nat, s: State)
    requires Inv(send, infos, s) && s.returned && |s.workers| == n && (n > 0 || infos == [])
    requires multiset(s.done) == multiset(NonNil(infos))
    requires n == 0 || (n == 1 && Single(infos, s)) || Agreeing(send, NonNil(infos))
    ensures s.ret == Responses(send, NonNil(infos))
  {
    if n == 0 {
      assert NonNil(infos) == [] && s.done == [];
    } else if n == 1 && Single(infos, s) {
      assert s.workers[0].Exited? && s.fed == |infos|;
      assert infos[..s.fed] == infos;
      assert s.done + [] == s.done;
    } else {
      AnyOrder(send, NonNil(infos), s.done);
    }
  }

  lemma {:induction false} IndexOfNonNil(infos: Infos, i: nat) returns (k: nat)
    requires i < |NonNil(infos)|
    ensures k < |infos| && infos[k] == Some(NonNil(infos)[i])
    ensures |NonNil(infos)| <= |infos|
  {
    var n := |infos| - 1;
    NonNilShorter(infos);
    if i < |NonNil(infos[..n])| {
      k := IndexOfNonNil(infos[..n], i);
    } else {
      k := n;
    }
  }

  lemma {:induction false} NonNilShorter(infos: Infos)
    ensures |NonNil(infos)| <= |infos|
  {
    if infos != [] {
      NonNilShorter(infos[..|infos| - 1]);
    }
  }

  /** Two pushes that share a token and are answered differently: some schedule differs from the
      serial loop. */
  lemma SomeScheduleDiffers(send: Sender, infos: Infos, workers: nat, i: nat, j: nat)
    requires workers >= 2
    requires i < |NonNil(infos)| && j < |NonNil(infos)|
    requires NonNil(infos)[i].token == NonNil(infos)[j].token && send(NonNil(infos)[i]) != send(NonNil(infos)[j])
    ensures !AlwaysSerial(send, infos, workers)
  {
    hide Reaches, NonNil, Responses, Start;
    var s := NonNil(infos);
    var l := SomeLast(s, i);
    ResponseOfLast(send, s, l);
    var e := if send(s[i]) != send(s[l]) then i else j;
    var k := IndexOfNonNil(infos, e);
    var final := LateResult(send, infos, Pool(infos, workers), k);
    assert final.ret[s[e].token] != Responses(send, s)[s[e].token];
  }

  /** Exactly when the concurrent form refines the serial one: every schedule returns what the serial
      loop returns if and only if there is one worker, or pushes that share a token get the same
      answer. */
  lemma RefinesSerialIff(send: Sender, infos: Infos, workers: nat)
    requires workers >= 1
    ensures AlwaysSerial(send, infos, workers) <==> workers == 1 || Agreeing(send, NonNil(infos))
  {
    hide Reaches;
    if workers == 1 || Agreeing(send, NonNil(infos)) {
      forall s | Reaches(send, infos, Start(Pool(infos, workers)), s) && s.returned
        ensures s.ret == Responses(send, NonNil(infos))
      {
        FinalResponses(send, infos, workers, s);
      }
    } else {
      var i, j :| 0 <= i < |NonNil(infos)| && 0 <= j < |NonNil(infos)|
        && NonNil(infos)[i].token == NonNil(infos)[j].token && send(NonNil(infos)[i]) != send(NonNil(infos)[j]);
      SomeScheduleDiffers(send, infos, workers, i, j);
    }
  }
}
