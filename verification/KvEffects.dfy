/** What each check-in message leaves under the keys of the enrollment that sent it, told by the fields of
    the message. No other enrollment's keys change (`KvEnroll.RecordStep`). */
module KvEffects {
  import opened Strings
  import opened Options
  import opened Enrollment
  import opened EnrollKeys
  import opened KvEnroll
  import opened KvLifecycle

  /** The device a request names. */
  function DeviceIn(e: Fields): string {
    if e.udid != "" then e.udid else e.enrollmentId
  }

  /** The user field of a request; empty on a device channel. */
  function UserIn(e: Fields): string {
    if e.udid != "" then e.userId else e.enrollmentUserId
  }

  predicate Usable(r: Request) {
    WellIdentified(r.msg.e) && DeviceIn(r.msg.e) != ""
  }

  lemma After(s: State, r: Request)
    requires Usable(r)
    ensures Normalize(r.msg.e).Some?
    ensures var i := Normalize(r.msg.e).value;
            && ValidId(i.id) && (i.parent == "" <==> UserIn(r.msg.e) == "") && (i.parent == "" ==> i.id == DeviceIn(r.msg.e))
            && Observed(Served(s, r), i.id) == Changed(Observed(s, i.id), i, r)
  {
    NormalizeByFields(r.msg.e);
    NormalizeValid(r);
    hide Normalize, ValidId, ValidDevice, DeviceOf, Served, Changed, Observed;
    RecordStep(s, r, Normalize(r.msg.e).value.id);
  }

  lemma Rows(s: State, id: string)
    ensures forall n :: && Lookup(s.devices, id, n) == At(Observed(s, id).device, n)
                        && Lookup(s.users, id, n) == At(Observed(s, id).user, n)
                        && Lookup(s.enrollments, id, n) == At(Observed(s, id).enrollment, n)
  {
  }

  /** Requests without an identity, and Authenticate messages of a user channel, change nothing. */
  lemma RefusedChangesNothing(s: State, r: Request)
    requires DeviceIn(r.msg.e) == "" || (r.msg.Authenticate? && UserIn(r.msg.e) != "")
    ensures Served(s, r) == s
  {
    NormalizeByFields(r.msg.e);
  }

  lemma AuthenticateRows(rec: Record, i: EnrollId, r: Request)
    requires r.msg.Authenticate? && i.parent == ""
    ensures var rec' := Changed(rec, i, r);
            && At(rec'.device, Auth) == Some(Raw(r.msg))
            && At(rec'.device, Cert) == (if r.cert.Some? then Some(Text(r.cert.value)) else None)
            && At(rec'.device, Serial) == (if r.msg.serial != "" then Some(Text(r.msg.serial)) else None)
            && At(rec'.device, BsToken) == None
            && (forall n :: n != Auth && n != Cert && n != Serial && n != BsToken ==> At(rec'.device, n) == At(rec.device, n))
  {
  }

  lemma ResetRow(rec: Record, i: EnrollId, r: Request)
    requires r.msg.Authenticate? && i.parent == ""
    ensures var rec' := Changed(rec, i, r);
            && At(rec'.enrollment, UnlTok) == None && At(rec'.enrollment, TokTal) == None
            && At(rec'.enrollment, EnrolledAt) == None
            && At(rec'.enrollment, LastSeenAt) == Some(Text(r.now))
            && At(rec'.enrollment, DisabledMark).Some?
            && (forall n :: n != UnlTok && n != TokTal && n != EnrolledAt && n != LastSeenAt && n != DisabledMark ==>
                  At(rec'.enrollment, n) == At(rec.enrollment, n))
  {
    hide RowAuthenticated;
  }

  /** A device enrolls anew: its message, certificate and serial number are kept, what the last enrollment
      left goes, and it is disabled until a token comes. */
  lemma AuthenticateLeaves(s: State, r: Request)
    requires Usable(r) && r.msg.Authenticate? && UserIn(r.msg.e) == ""
    ensures var s', d := Served(s, r), DeviceIn(r.msg.e);
            && Lookup(s'.devices, d, Auth) == Some(Raw(r.msg))
            && Lookup(s'.devices, d, Cert) == (if r.cert.Some? then Some(Text(r.cert.value)) else None)
            && Lookup(s'.devices, d, Serial) == (if r.msg.serial != "" then Some(Text(r.msg.serial)) else None)
            && Lookup(s'.devices, d, BsToken) == None
            && Lookup(s'.enrollments, d, UnlTok) == None && Lookup(s'.enrollments, d, TokTal) == None
            && Lookup(s'.enrollments, d, EnrolledAt) == None
            && Lookup(s'.enrollments, d, LastSeenAt) == Some(Text(r.now))
            && Lookup(s'.enrollments, d, DisabledMark).Some?
            && (forall n :: n != Auth && n != Cert && n != Serial && n != BsToken ==>
                  Lookup(s'.devices, d, n) == Lookup(s.devices, d, n))
            && (forall n :: n != UnlTok && n != TokTal && n != EnrolledAt && n != LastSeenAt && n != DisabledMark ==>
                  Lookup(s'.enrollments, d, n) == Lookup(s.enrollments, d, n))
  {
    After(s, r);
    hide Normalize, Served, Observed, Lookup, WellIdentified, ValidId, Changed, At;
    var i := Normalize(r.msg.e).value;
    AuthenticateRows(Observed(s, i.id), i, r);
    ResetRow(Observed(s, i.id), i, r);
    Rows(Served(s, r), i.id);
    Rows(s, i.id);
  }

  /** The names the program gives the kinds of enrollments. */
  function KindOf(e: Fields): string {
    if e.udid != "" then
      if e.userId == "" then "Device"
      else if e.userId == "FFFFFFFF-FFFF-FFFF-FFFF-FFFFFFFFFFFF" then "Shared iPad"
      else "User"
    else if e.enrollmentUserId == "" then "User Enrollment (Device)"
    else "User Enrollment"
  }

  lemma SenderKind(e: Fields)
    requires DeviceIn(e) != ""
    ensures Normalize(e).Some?
    ensures var i := Normalize(e).value; TypeName(i.kind) == KindOf(e) && (i.parent == "" || i.parent == DeviceIn(e))
  {
    NormalizeByFields(e);
    hide Normalize;
  }

  /** A token enrolls its sender: push details, kind and time are kept, the unlock token if it came with
      one, and the enrollment is enabled. */
  lemma TokenLeaves(s: State, r: Request)
    requires Usable(r) && r.msg.TokenUpdate?
    ensures Normalize(r.msg.e).Some?
    ensures var s', id := Served(s, r), Normalize(r.msg.e).value.id;
            && Lookup(s'.enrollments, id, Topic) == Some(Text(r.msg.topic))
            && Lookup(s'.enrollments, id, PushMagic) == Some(Text(r.msg.magic))
            && Lookup(s'.enrollments, id, Token) == Some(Text(r.msg.token))
            && Lookup(s'.enrollments, id, TypeOf) == Some(Text(KindOf(r.msg.e)))
            && Lookup(s'.enrollments, id, LastSeenAt) == Some(Text(r.now))
            && Lookup(s'.enrollments, id, UnlTok) ==
                 (if r.msg.unlock != "" then Some(Text(r.msg.unlock)) else Lookup(s.enrollments, id, UnlTok))
            && Lookup(s'.enrollments, id, DisabledMark) == None
            && (if UserIn(r.msg.e) == "" then Lookup(s'.devices, id, TokUpd) == Some(Raw(r.msg))
                else Lookup(s'.users, id, TokUpd) == Some(Raw(r.msg))
                     && Lookup(s'.users, id, DeviceCh) == Some(Text(DeviceIn(r.msg.e))))
  {
    hide Normalize, Served, Observed, Lookup, WellIdentified, ValidId, TypeName, KindOf, DeviceIn, UserIn, Changed, At, RowUpdated;
    After(s, r);
    SenderKind(r.msg.e);
    var i := Normalize(r.msg.e).value;
    Rows(Served(s, r), i.id);
    Rows(s, i.id);
    KeptByCounting(Observed(s, i.id).enrollment, i.kind, r);
    TokenRows(Observed(s, i.id), i, r);
  }

  lemma KeptByCounting(row: map<Name, Val>, k: EnrollType, r: Request)
    requires r.msg.TokenUpdate?
    ensures var row' := RowUpdated(row, k, r);
            && At(row', Topic) == Some(Text(r.msg.topic)) && At(row', PushMagic) == Some(Text(r.msg.magic))
            && At(row', Token) == Some(Text(r.msg.token)) && At(row', TypeOf) == Some(Text(TypeName(k)))
            && At(row', LastSeenAt) == Some(Text(r.now)) && At(row', DisabledMark) == None
            && At(row', UnlTok) == if r.msg.unlock != "" then Some(Text(r.msg.unlock)) else At(row, UnlTok)
  {
    hide Print, Tally, TypeName;
  }

  lemma TokenRows(rec: Record, i: EnrollId, r: Request)
    requires r.msg.TokenUpdate?
    ensures var rec' := Changed(rec, i, r);
            && rec'.enrollment == RowUpdated(rec.enrollment, i.kind, r)
            && (if i.parent == "" then At(rec'.device, TokUpd) == Some(Raw(r.msg))
                else At(rec'.user, TokUpd) == Some(Raw(r.msg)) && At(rec'.user, DeviceCh) == Some(Text(i.parent)))
  {
    hide RowUpdated;
  }

  lemma DisabledRows(rec: Record, i: EnrollId, r: Request)
    requires r.msg.CheckOut? || r.msg.UserAuthenticate?
    ensures var rec' := Changed(rec, i, r);
            && At(rec'.enrollment, LastSeenAt) == Some(Text(r.now))
            && At(rec'.enrollment, DisabledMark).Some?
            && (forall n :: n != LastSeenAt && n != DisabledMark ==> At(rec'.enrollment, n) == At(rec.enrollment, n))
            && rec'.device == rec.device
            && (forall n :: At(rec'.user, n) ==
                  if r.msg.UserAuthenticate? && n == (if r.msg.digest != "" then UserAuthDigest else UserAuth)
                  then Some(Raw(r.msg)) else At(rec.user, n))
  {
  }

  /** Checking out and the first messages of a user channel leave the sender disabled. */
  lemma DisabledLeaves(s: State, r: Request)
    requires Usable(r) && (r.msg.CheckOut? || r.msg.UserAuthenticate?)
    ensures Normalize(r.msg.e).Some?
    ensures var s', id := Served(s, r), Normalize(r.msg.e).value.id;
            && Lookup(s'.enrollments, id, LastSeenAt) == Some(Text(r.now))
            && Lookup(s'.enrollments, id, DisabledMark).Some?
            && (forall n :: n != LastSeenAt && n != DisabledMark ==> Lookup(s'.enrollments, id, n) == Lookup(s.enrollments, id, n))
            && (forall n :: Lookup(s'.devices, id, n) == Lookup(s.devices, id, n))
            && (forall n :: Lookup(s'.users, id, n) ==
                  if r.msg.UserAuthenticate? && n == (if r.msg.digest != "" then UserAuthDigest else UserAuth)
                  then Some(Raw(r.msg)) else Lookup(s.users, id, n))
  {
    After(s, r);
    var i := Normalize(r.msg.e).value;
    hide Normalize, Served, Observed, Lookup, WellIdentified, ValidId, Changed, At;
    DisabledRows(Observed(s, i.id), i, r);
    Rows(Served(s, r), i.id);
    Rows(s, i.id);
  }

  /** A bootstrap token is escrowed for a device; a user channel only has its time noted. */
  lemma BootstrapLeaves(s: State, r: Request)
    requires Usable(r) && r.msg.SetBootstrapToken?
    ensures Normalize(r.msg.e).Some?
    ensures var s', id := Served(s, r), Normalize(r.msg.e).value.id;
            && Lookup(s'.enrollments, id, LastSeenAt) == Some(Text(r.now))
            && (forall n :: n != LastSeenAt ==> Lookup(s'.enrollments, id, n) == Lookup(s.enrollments, id, n))
            && (forall n :: Lookup(s'.users, id, n) == Lookup(s.users, id, n))
            && (forall n :: Lookup(s'.devices, id, n) ==
                  if n == BsToken && UserIn(r.msg.e) == "" then Some(Text(r.msg.bootstrap)) else Lookup(s.devices, id, n))
  {
    After(s, r);
    var id := Normalize(r.msg.e).value.id;
    hide Normalize, Served, Observed, Lookup, WellIdentified, ValidId;
    Rows(Served(s, r), id);
    Rows(s, id);
  }

  /** After every run the push keys of an enrollment hold the topic, magic and token of its last
      TokenUpdate. */
  lemma PushKeysLatest(rs: seq<Request>, id: string, i: nat)
    requires ValidRun(rs) && ValidId(id) && i < |rs| && rs[i].msg.TokenUpdate? && From(rs[i].msg, id)
    requires forall j :: i < j < |rs| ==> !(rs[j].msg.TokenUpdate? && From(rs[j].msg, id))
    ensures var b := Run(EMPTY, rs).enrollments;
            && Lookup(b, id, Topic) == Some(Text(rs[i].msg.topic))
            && Lookup(b, id, PushMagic) == Some(Text(rs[i].msg.magic))
            && Lookup(b, id, Token) == Some(Text(rs[i].msg.token))
  {
    hide Run, ValidId, From, Observed, Lookup, RecordRun, LastToken, ValidRun, Tells, At, Messages;
    ObservedRun(rs, id);
    RecordTells(rs, id);
    assert Messages(rs)[i] == rs[i].msg && |Messages(rs)| == |rs| by { MessageAt(rs, i); }
    forall j | i < j < |rs| ensures !(Messages(rs)[j].TokenUpdate? && From(Messages(rs)[j], id)) {
      MessageAt(rs, j);
    }
    LastTokenAt(Messages(rs), id, i);
    ToldKeys(RecordRun(rs, id), Messages(rs), id, rs[i].msg);
    Rows(Run(EMPTY, rs), id);
  }

  lemma MessageAt(rs: seq<Request>, i: nat)
    requires i < |rs|
    ensures |Messages(rs)| == |rs| && Messages(rs)[i] == rs[i].msg
  {
  }

  lemma ToldKeys(rec: Record, ms: seq<Checkin>, id: string, m: Checkin)
    requires Tells(rec, ms, id) && LastToken(ms, id) == Some(m)
    ensures m.TokenUpdate?
    ensures At(rec.enrollment, Topic) == Some(Text(m.topic)) && At(rec.enrollment, PushMagic) == Some(Text(m.magic))
    ensures At(rec.enrollment, Token) == Some(Text(m.token))
  {
    hide From, ValidDevice;
  }

  lemma {:induction false} LastTokenAt(ms: seq<Checkin>, id: string, i: nat)
    requires i < |ms| && ms[i].TokenUpdate? && From(ms[i], id)
    requires forall j :: i < j < |ms| ==> !(ms[j].TokenUpdate? && From(ms[j], id))
    ensures LastToken(ms, id) == Some(ms[i])
  {
    hide From;
    if i < |ms| - 1 {
      LastTokenAt(ms[..|ms| - 1], id, i);
    }
  }
}
