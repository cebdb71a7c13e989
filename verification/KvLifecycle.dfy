/** What runs of check-in messages leave of each enrollment: its push details, tally, bootstrap token
    and whether it is enabled, as functions of the messages it sent itself. */
module KvLifecycle {
  import opened Strings
  import opened Options
  import opened Enrollment
  import opened EnrollKeys
  import opened KvEnroll

  function Messages(rs: seq<Request>): seq<Checkin> {
    seq(|rs|, i requires 0 <= i < |rs| => rs[i].msg)
  }

  predicate From(m: Checkin, id: string) {
    Normalize(m.e).Some? && Normalize(m.e).value.id == id
  }

  predicate OnDevice(m: Checkin) {
    Normalize(m.e).Some? && Normalize(m.e).value.parent == ""
  }

  /** The last TokenUpdate of an enrollment. */
  function LastToken(ms: seq<Checkin>, id: string): (r: Option<Checkin>)
    ensures r.Some? ==> r.value.TokenUpdate? && From(r.value, id)
  {
    if ms == [] then None
    else
      var m := ms[|ms| - 1];
      if From(m, id) && m.TokenUpdate? then Some(m) else LastToken(ms[..|ms| - 1], id)
  }

  datatype Effect<T> = Untouched | Now(value: T)

  /** What a run of messages does to a device's bootstrap token: enrolling anew clears it. */
  function BootstrapEffect(ms: seq<Checkin>, id: string): Effect<Option<string>> {
    if ms == [] then Untouched
    else
      var m := ms[|ms| - 1];
      if From(m, id) && OnDevice(m) && m.Authenticate? then Now(None)
      else if From(m, id) && OnDevice(m) && m.SetBootstrapToken? then Now(Some(m.bootstrap))
      else BootstrapEffect(ms[..|ms| - 1], id)
  }

  /** Whether a run of messages leaves an enrollment enabled: its last lifecycle message decides. */
  function EnabledEffect(ms: seq<Checkin>, id: string): Effect<bool> {
    if ms == [] then Untouched
    else
      var m := ms[|ms| - 1];
      if From(m, id) && m.TokenUpdate? then Now(true)
      else if From(m, id) && (m.CheckOut? || m.UserAuthenticate? || (m.Authenticate? && OnDevice(m))) then Now(false)
      else EnabledEffect(ms[..|ms| - 1], id)
  }

  /** The TokenUpdates of an enrollment since its last Authenticate; a user channel never sends one. */
  function TokensSinceAuthenticate(ms: seq<Checkin>, id: string): nat {
    if ms == [] then 0
    else
      var m := ms[|ms| - 1];
      if From(m, id) && m.Authenticate? && OnDevice(m) then 0
      else TokensSinceAuthenticate(ms[..|ms| - 1], id) + if From(m, id) && m.TokenUpdate? then 1 else 0
  }

  // ---------- the record of an enrollment after a run ----------

  datatype Push = Push(topic: string, magic: string, token: string)

  function PushOf(m: Checkin): Push
    requires m.TokenUpdate?
  {
    Push(m.topic, m.magic, m.token)
  }

  /** The push details a record holds, if all three keys are there. */
  function PushIn(rec: Record): Option<Push> {
    match (At(rec.enrollment, Topic), At(rec.enrollment, PushMagic), At(rec.enrollment, Token))
    case (Some(Text(t)), Some(Text(p)), Some(Text(k))) => Some(Push(t, p, k))
    case _ => None
  }

  function BootstrapIn(rec: Record): Option<string> {
    match At(rec.device, BsToken)
    case Some(Text(t)) => Some(t)
    case _ => None
  }

  predicate EnabledIn(rec: Record) {
    DisabledMark !in rec.enrollment
  }

  /** The token message a record holds, in the devices bucket for a device and in the users bucket
      for a user channel. */
  function TokenIn(rec: Record): Option<Val> {
    if TokUpd in rec.device then Some(rec.device[TokUpd]) else At(rec.user, TokUpd)
  }

  function RecordRun(rs: seq<Request>, id: string): Record {
    if rs == [] then NO_RECORD else RecordAfter(RecordRun(rs[..|rs| - 1], id), id, rs[|rs| - 1])
  }

  lemma {:induction false} ObservedRun(rs: seq<Request>, id: string)
    requires ValidRun(rs) && ValidId(id)
    ensures Observed(Run(EMPTY, rs), id) == RecordRun(rs, id)
  {
    if rs != [] {
      var n := |rs| - 1;
      hide Served, Observed, RecordAfter, ValidRequest, ValidId;
      ObservedRun(rs[..n], id);
      RecordStep(Run(EMPTY, rs[..n]), rs[n], id);
    } else {
      assert Row(map[], id) == map[];
    }
  }

  lemma MessagesInit(rs: seq<Request>)
    requires rs != []
    ensures Messages(rs) != [] && Messages(rs)[|Messages(rs)| - 1] == rs[|rs| - 1].msg
    ensures Messages(rs)[..|Messages(rs)| - 1] == Messages(rs[..|rs| - 1])
  {
  }

  // ---------- records match messages ----------

  ghost predicate TellsToken(rec: Record, ms: seq<Checkin>, id: string) {
    match LastToken(ms, id)
    case Some(m) => TokenIn(rec) == Some(Raw(m)) && PushIn(rec) == Some(PushOf(m))
    case None => TokenIn(rec).None? && Topic !in rec.enrollment && PushMagic !in rec.enrollment && Token !in rec.enrollment
  }

  ghost predicate TellsBootstrap(rec: Record, ms: seq<Checkin>, id: string) {
    match BootstrapEffect(ms, id)
    case Now(Some(t)) => At(rec.device, BsToken) == Some(Text(t))
    case _ => BsToken !in rec.device
  }

  ghost predicate TellsEnabled(rec: Record, ms: seq<Checkin>, id: string) {
    EnabledIn(rec) == (EnabledEffect(ms, id) != Now(false))
  }

  ghost predicate TellsTally(rec: Record, ms: seq<Checkin>, id: string) {
    var n := TokensSinceAuthenticate(ms, id);
    && At(rec.enrollment, TokTal) == (if n == 0 then None else Some(Text(Print(n))))
    && (EnrolledAt in rec.enrollment <==> n >= 1)
  }

  /** A device keeps its token message in the devices bucket only, a user channel in the users bucket
      only; only a device has an Authenticate message. */
  ghost predicate Placed(rec: Record, id: string) {
    if ValidDevice(id) then TokUpd !in rec.user
    else TokUpd !in rec.device && BsToken !in rec.device && Auth !in rec.device
  }

  ghost predicate Tells(rec: Record, ms: seq<Checkin>, id: string) {
    Placed(rec, id) && TellsToken(rec, ms, id) && TellsBootstrap(rec, ms, id) && TellsEnabled(rec, ms, id) && TellsTally(rec, ms, id)
  }

  lemma TallyOf(n: nat)
    ensures Tally(if n == 0 then None else Some(Text(Print(n)))) == n
  {
    AtoiItoa(n);
  }

  lemma UpdatedLookups(row: map<Name, Val>, k: EnrollType, r: Request)
    requires r.msg.TokenUpdate?
    ensures var row' := RowUpdated(row, k, r);
            var n := Tally(At(row, TokTal)) + 1;
            && At(row', Topic) == Some(Text(r.msg.topic)) && At(row', PushMagic) == Some(Text(r.msg.magic))
            && At(row', Token) == Some(Text(r.msg.token))
            && At(row', TokTal) == Some(Text(Print(n)))
            && (EnrolledAt in row' <==> n == 1 || EnrolledAt in row)
            && DisabledMark !in row'
  {
    hide Tally, Print, TypeName;
  }

  lemma TokenStep(rec: Record, ms: seq<Checkin>, i: EnrollId, r: Request, id: string, ms': seq<Checkin>)
    requires Tells(rec, ms, id) && Normalize(r.msg.e) == Some(i) && i.id == id && (i.parent == "" <==> ValidDevice(id))
    requires ms' != [] && ms'[|ms'| - 1] == r.msg && ms'[..|ms'| - 1] == ms
    requires r.msg.TokenUpdate?
    ensures Tells(Changed(rec, i, r), ms', id)
  {
    UpdatedLookups(rec.enrollment, i.kind, r);
    TallyOf(TokensSinceAuthenticate(ms, id));
    hide RowUpdated, Normalize, ValidDevice, Tally, Print;
  }

  lemma OtherStep(rec: Record, ms: seq<Checkin>, i: EnrollId, r: Request, id: string, ms': seq<Checkin>)
    requires Tells(rec, ms, id) && Normalize(r.msg.e) == Some(i) && i.id == id && (i.parent == "" <==> ValidDevice(id))
    requires ms' != [] && ms'[|ms'| - 1] == r.msg && ms'[..|ms'| - 1] == ms
    requires !r.msg.TokenUpdate? && !r.msg.Authenticate?
    ensures Tells(Changed(rec, i, r), ms', id)
  {
    hide Normalize, ValidDevice, Print;
  }

  lemma AuthenticateStep(rec: Record, ms: seq<Checkin>, i: EnrollId, r: Request, id: string, ms': seq<Checkin>)
    requires Tells(rec, ms, id) && Normalize(r.msg.e) == Some(i) && i.id == id && (i.parent == "" <==> ValidDevice(id))
    requires ms' != [] && ms'[|ms'| - 1] == r.msg && ms'[..|ms'| - 1] == ms
    requires r.msg.Authenticate?
    ensures Tells(Changed(rec, i, r), ms', id)
  {
    hide Normalize, ValidDevice, Print;
  }

  lemma TellsStep(rec: Record, ms: seq<Checkin>, r: Request, id: string, ms': seq<Checkin>)
    requires Tells(rec, ms, id) && ValidRequest(r)
    requires ms' != [] && ms'[|ms'| - 1] == r.msg && ms'[..|ms'| - 1] == ms
    ensures Tells(RecordAfter(rec, id, r), ms', id)
  {
    if From(r.msg, id) {
      NormalizeValid(r);
      hide Tells, Changed, ValidRequest, ValidDevice, Normalize;
      var i := Normalize(r.msg.e).value;
      match r.msg
      case TokenUpdate(_, _, _, _, _) => TokenStep(rec, ms, i, r, id, ms');
      case Authenticate(_, _) => AuthenticateStep(rec, ms, i, r, id, ms');
      case _ => OtherStep(rec, ms, i, r, id, ms');
    } else {
      hide Normalize, Print;
    }
  }

  lemma {:induction false} RecordTells(rs: seq<Request>, id: string)
    requires ValidRun(rs)
    ensures Tells(RecordRun(rs, id), Messages(rs), id)
  {
    if rs != [] {
      var n := |rs| - 1;
      RecordTells(rs[..n], id);
      MessagesInit(rs);
      TellsStep(RecordRun(rs[..n], id), Messages(rs[..n]), rs[n], id, Messages(rs));
    }
  }

  /** On every run, what the store says about an enrollment is decided by the messages it sent itself:
      a device's tally counts its TokenUpdates since it last authenticated, it has an enrolment time
      exactly when the tally is at least 1, and it is disabled exactly when its last lifecycle message
      was no TokenUpdate. A user channel's tally and state follow its own messages only: as written,
      nothing its device sends resets or disables it. */
  lemma Lifecycle(rs: seq<Request>, id: string)
    requires ValidRun(rs) && ValidId(id)
    ensures var row := Row(Run(EMPTY, rs).enrollments, id);
            var n := TokensSinceAuthenticate(Messages(rs), id);
            && Tally(At(row, TokTal)) == n
            && (EnrolledAt in row <==> n >= 1)
            && (DisabledMark in row <==> EnabledEffect(Messages(rs), id) == Now(false))
  {
    ObservedRun(rs, id);
    RecordTells(rs, id);
    TallyOf(TokensSinceAuthenticate(Messages(rs), id));
    hide ValidId, Tally, Row;
  }
}
