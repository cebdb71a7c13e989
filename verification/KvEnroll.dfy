/** The enrollment state of the key-value backend: three buckets of string keys, changed by the
    check-in messages the service hands to the storage. */
module KvEnroll {
  import opened Strings
  import opened Options
  import opened Enrollment
  import opened EnrollKeys

  datatype Checkin =
    | Authenticate(e: Fields, serial: string)
    | TokenUpdate(e: Fields, topic: string, magic: string, token: string, unlock: string)
    | CheckOut(e: Fields)
    | SetBootstrapToken(e: Fields, bootstrap: string)
    | UserAuthenticate(e: Fields, digest: string)

  /** Stored bytes: text, or the raw form of a message, which decodes to that message. */
  datatype Val = Text(s: string) | Raw(m: Checkin)

  type Bucket = map<string, Val>

  datatype State = State(devices: Bucket, users: Bucket, enrollments: Bucket)

  const EMPTY := State(map[], map[], map[])

  /** A message with the identity certificate of its request and the time it is handled. */
  datatype Request = Request(msg: Checkin, cert: Option<string>, now: string)

  const MARK := Text("1")

  /** The names a plain key may end in. */
  datatype Name =
    | Auth | Cert | Serial | TokUpd | BsToken
    | DeviceCh | UserAuth | UserAuthDigest
    | UnlTok | TokTal | EnrolledAt | LastSeenAt | DisabledMark | TypeOf | Topic | PushMagic | Token

  function NameString(n: Name): string {
    match n
    case Auth => "auth"
    case Cert => "cert"
    case Serial => "serial"
    case TokUpd => "tok_upd"
    case BsToken => "bstoken"
    case DeviceCh => "device_ch"
    case UserAuth => "user_auth"
    case UserAuthDigest => "user_auth_digest"
    case UnlTok => "unl_tok"
    case TokTal => "tok_tal"
    case EnrolledAt => "enrolled_at"
    case LastSeenAt => "last_seen_at"
    case DisabledMark => "disabled"
    case TypeOf => "type"
    case Topic => "topic"
    case PushMagic => "push_magic"
    case Token => "token"
  }

  /** Reads a name from its length and one or two of its letters. */
  function ReadName(s: string): Name {
    if |s| == 4 then if s[0] == 'a' then Auth else if s[0] == 'c' then Cert else TypeOf
    else if |s| == 5 then if s[2] == 'p' then Topic else Token
    else if |s| == 6 then Serial
    else if |s| == 7 then
      if s[0] == 'b' then BsToken else if s[0] == 'u' then UnlTok else if s[4] == 'u' then TokUpd else TokTal
    else if |s| == 8 then DisabledMark
    else if |s| == 9 then if s[0] == 'd' then DeviceCh else UserAuth
    else if |s| == 10 then PushMagic
    else if |s| == 11 then EnrolledAt
    else if |s| == 12 then LastSeenAt
    else UserAuthDigest
  }

  lemma NamesApart(n: Name)
    ensures ReadName(NameString(n)) == n && NoDot(NameString(n))
  {
  }

  function NameKey(id: string, n: Name): string {
    Key(id, NameString(n))
  }

  lemma NameKeyInjective(id: string, n: Name, id': string, n': Name)
    ensures NameKey(id, n) == NameKey(id', n') <==> id == id' && n == n'
  {
    NamesApart(n);
    NamesApart(n');
    KeyInjective(id, NameString(n), id', NameString(n'));
    hide Key, NameString, ReadName, NoDot;
  }

  function Lookup(b: Bucket, id: string, n: Name): Option<Val> {
    if NameKey(id, n) in b then Some(b[NameKey(id, n)]) else None
  }

  /** Everything a bucket holds under one id. */
  function Row(b: Bucket, id: string): map<Name, Val> {
    map n: Name | NameKey(id, n) in b :: b[NameKey(id, n)]
  }

  function Put(b: Bucket, id: string, n: Name, v: Val): Bucket {
    b[NameKey(id, n) := v]
  }

  function Del(b: Bucket, id: string, n: Name): Bucket {
    b - {NameKey(id, n)}
  }

  function PutAssoc(b: Bucket, device: string, id: string): Bucket {
    b[AssocKey(device, id) := MARK]
  }

  // ---------- user channels ----------

  predicate HasUserChannel(b: Bucket, device: string) {
    exists k :: k in b && AssocPrefix(device) <= k
  }

  /** The keys the cascade of Disable sets: as written, the prefix itself is taken for the id. */
  function ChannelsDisabled(b: Bucket, device: string): Bucket {
    if HasUserChannel(b, device) then Put(b, AssocPrefix(device), DisabledMark, MARK) else b
  }

  function ChannelTalliesDropped(b: Bucket, device: string): Bucket {
    if HasUserChannel(b, device) then Del(b, AssocPrefix(device), TokTal) else b
  }

  // ---------- the storage operations ----------

  function DeviceAuthenticated(b: Bucket, id: string, r: Request): Bucket
    requires r.msg.Authenticate?
  {
    var d1 := Put(b, id, Auth, Raw(r.msg));
    var d2 := if r.cert.Some? then Put(d1, id, Cert, Text(r.cert.value)) else Del(d1, id, Cert);
    var d3 := if r.msg.serial != "" then Put(d2, id, Serial, Text(r.msg.serial)) else Del(d2, id, Serial);
    Del(d3, id, BsToken)
  }

  /** The enrollments bucket when a device enrolls anew: the one-time keys go. */
  function EnrollmentReset(b: Bucket, id: string): Bucket {
    ChannelTalliesDropped(Del(Del(Del(b, id, UnlTok), id, TokTal), id, EnrolledAt), id)
  }

  function AuthenticateStored(s: State, id: string, r: Request): State
    requires r.msg.Authenticate?
  {
    s.(devices := DeviceAuthenticated(s.devices, id, r), enrollments := EnrollmentReset(s.enrollments, id))
  }

  function EnrollmentDisabled(b: Bucket, id: string, parent: string, now: string): Bucket {
    var e := Put(Put(b, id, LastSeenAt, Text(now)), id, DisabledMark, MARK);
    if parent == "" then ChannelsDisabled(e, id) else e
  }

  function Disabled(s: State, id: string, parent: string, now: string): State {
    s.(enrollments := EnrollmentDisabled(s.enrollments, id, parent, now))
  }

  function Tally(v: Option<Val>): int {
    match v
    case Some(Text(t)) => (match Atoi(t) case Number(n) => n case NotANumber => 0)
    case _ => 0
  }

  /** Writing the push details, and the association of a user channel. */
  function Pushed(b: Bucket, id: EnrollId, r: Request): Bucket
    requires r.msg.TokenUpdate?
  {
    var e1 := Put(Put(b, id.id, LastSeenAt, Text(r.now)), id.id, TypeOf, Text(TypeName(id.kind)));
    var e2 := Put(Put(Put(e1, id.id, Topic, Text(r.msg.topic)), id.id, PushMagic, Text(r.msg.magic)),
                  id.id, Token, Text(r.msg.token));
    var e3 := if r.msg.unlock != "" then Put(e2, id.id, UnlTok, Text(r.msg.unlock)) else e2;
    if id.parent != "" then PutAssoc(e3, id.parent, id.id) else e3
  }

  /** The enrollments bucket after a TokenUpdate: push details, one more on the tally, enabled. */
  function EnrollmentUpdated(b: Bucket, id: EnrollId, r: Request): Bucket
    requires r.msg.TokenUpdate?
  {
    var e := Pushed(b, id, r);
    Counted(e, id.id, Tally(Lookup(e, id.id, TokTal)) + 1, r.now)
  }

  /** Writing the new tally; the first one is also the moment of enrolling. The enrollment is enabled. */
  function Counted(b: Bucket, id: string, tally: int, now: string): Bucket {
    var e1 := Put(b, id, TokTal, Text(Print(tally)));
    var e2 := if tally == 1 then Put(e1, id, EnrolledAt, Text(now)) else e1;
    Del(e2, id, DisabledMark)
  }

  function TokenStored(s: State, id: EnrollId, r: Request): State
    requires r.msg.TokenUpdate?
  {
    State(
      if id.parent == "" then Put(s.devices, id.id, TokUpd, Raw(r.msg)) else s.devices,
      if id.parent == "" then s.users
      else Put(Put(s.users, id.id, DeviceCh, Text(id.parent)), id.id, TokUpd, Raw(r.msg)),
      EnrollmentUpdated(s.enrollments, id, r))
  }

  function TypeName(k: EnrollType): string {
    match k
    case Device => "Device"
    case User => "User"
    case UserEnrollmentDevice => "User Enrollment (Device)"
    case UserEnrollment => "User Enrollment"
    case SharediPad => "Shared iPad"
  }

  /** Refused on a user channel, but only after the time has been noted. */
  function BootstrapStored(s: State, id: EnrollId, r: Request): State
    requires r.msg.SetBootstrapToken?
  {
    var s' := s.(enrollments := Put(s.enrollments, id.id, LastSeenAt, Text(r.now)));
    if id.parent != "" then s' else s'.(devices := Put(s.devices, id.id, BsToken, Text(r.msg.bootstrap)))
  }

  function UserAuthenticateStored(s: State, id: EnrollId, r: Request): State
    requires r.msg.UserAuthenticate?
  {
    var name := if r.msg.digest != "" then UserAuthDigest else UserAuth;
    s.(users := Put(s.users, id.id, name, Raw(r.msg)),
       enrollments := Put(Put(s.enrollments, id.id, LastSeenAt, Text(r.now)), id.id, DisabledMark, MARK))
  }

  // ---------- the service ----------

  /** One check-in message through the service; a message without a usable identity changes nothing,
      and a user channel may not authenticate. */
  function Served(s: State, r: Request): State {
    match Normalize(r.msg.e)
    case None => s
    case Some(id) =>
      match r.msg
      case Authenticate(_, _) =>
        if id.parent != "" then s else Disabled(AuthenticateStored(s, id.id, r), id.id, id.parent, r.now)
      case TokenUpdate(_, _, _, _, _) => TokenStored(s, id, r)
      case CheckOut(_) => Disabled(s, id.id, id.parent, r.now)
      case SetBootstrapToken(_, _) => BootstrapStored(s, id, r)
      case UserAuthenticate(_, _) => UserAuthenticateStored(s, id, r)
  }

  function Run(s: State, rs: seq<Request>): State {
    if rs == [] then s else Served(Run(s, rs[..|rs| - 1]), rs[|rs| - 1])
  }

  /** Device ids without separators, so that keys and ids can be told apart. */
  predicate WellIdentified(e: Fields) {
    if e.udid != "" then ValidDevice(e.udid) else e.enrollmentId != "" ==> ValidDevice(e.enrollmentId)
  }

  predicate ValidRequest(r: Request) {
    WellIdentified(r.msg.e)
  }

  predicate ValidRun(rs: seq<Request>) {
    forall i :: 0 <= i < |rs| ==> ValidRequest(rs[i])
  }

  lemma UserIdInjective(d: string, u: string, d': string, u': string)
    requires ValidDevice(d) && ValidDevice(d')
    ensures UserId(d, u) == UserId(d', u') <==> d == d' && u == u'
    ensures UserId(d, u) != d'
  {
    UserIsValid(d, u);
    UserIsValid(d', u');
    hide ValidDevice, DeviceOf, ValidId;
    assert UserId(d, u)[|d| + 1..] == u && UserId(d', u')[|d'| + 1..] == u';
  }

  /** Enrollment ids tell channels apart: two requests get the same id exactly when their fields name the
      same device and the same user, or both none. On a Shared iPad the user is the short name. */
  lemma NormalizeInjective(e: Fields, e': Fields)
    requires WellIdentified(e) && (e.udid != "" || e.enrollmentId != "")
    requires WellIdentified(e') && (e'.udid != "" || e'.enrollmentId != "")
    ensures var device := if e.udid != "" then e.udid else e.enrollmentId;
            var device' := if e'.udid != "" then e'.udid else e'.enrollmentId;
            var userId := if e.udid != "" then e.userId else e.enrollmentUserId;
            var userId' := if e'.udid != "" then e'.userId else e'.enrollmentUserId;
            var shared := e.udid != "" && e.userId == "FFFFFFFF-FFFF-FFFF-FFFF-FFFFFFFFFFFF";
            var shared' := e'.udid != "" && e'.userId == "FFFFFFFF-FFFF-FFFF-FFFF-FFFFFFFFFFFF";
            Normalize(e).value.id == Normalize(e').value.id <==>
            && device == device' && (userId == "" <==> userId' == "")
            && (userId != "" ==> (if shared then e.userShortName else userId) == (if shared' then e'.userShortName else userId'))
  {
    hide Normalize, ValidDevice;
    NormalizeByFields(e);
    NormalizeByFields(e');
    var d, d' := if e.udid != "" then e.udid else e.enrollmentId, if e'.udid != "" then e'.udid else e'.enrollmentId;
    var u := if e.udid != "" then if e.userId == SHARED_IPAD_USER_ID then e.userShortName else e.userId else e.enrollmentUserId;
    var u' := if e'.udid != "" then if e'.userId == SHARED_IPAD_USER_ID then e'.userShortName else e'.userId else e'.enrollmentUserId;
    UserIdInjective(d, u, d', u');
    UserIdInjective(d', u', d, u);
  }

  /** With a colon in a device id they do not. */
  lemma ColonDeviceCollides(d: string, u: string)
    requires d != "" && u != "" && u != SHARED_IPAD_USER_ID
    ensures Normalize(Fields(d, u, "", "", "")).value.id == Normalize(Fields(d + ":" + u, "", "", "", "")).value.id
  {
  }

  lemma NormalizeValid(r: Request)
    requires ValidRequest(r) && Normalize(r.msg.e).Some?
    ensures var id := Normalize(r.msg.e).value;
            && ValidId(id.id)
            && (id.parent == "" <==> ValidDevice(id.id))
            && ValidDevice(DeviceOf(id.id))
            && (id.parent != "" ==> DeviceOf(id.id) == id.parent)
  {
    NormalizeByFields(r.msg.e);
    var e := r.msg.e;
    var d := if e.udid != "" then e.udid else e.enrollmentId;
    DeviceIsValid(d);
    UserIsValid(d, e.userId);
    UserIsValid(d, e.userShortName);
    UserIsValid(d, e.enrollmentUserId);
    hide Normalize, ValidDevice, ValidId, DeviceOf;
  }

  // ---------- the record of one enrollment ----------

  /** Everything the three buckets hold under one enrollment id. */
  datatype Record = Record(device: map<Name, Val>, user: map<Name, Val>, enrollment: map<Name, Val>)

  const NO_RECORD := Record(map[], map[], map[])

  function Observed(s: State, id: string): Record {
    Record(Row(s.devices, id), Row(s.users, id), Row(s.enrollments, id))
  }

  function RowAuthenticated(row: map<Name, Val>, r: Request): map<Name, Val>
    requires r.msg.Authenticate?
  {
    var d1 := row[Auth := Raw(r.msg)];
    var d2 := if r.cert.Some? then d1[Cert := Text(r.cert.value)] else d1 - {Cert};
    var d3 := if r.msg.serial != "" then d2[Serial := Text(r.msg.serial)] else d2 - {Serial};
    d3 - {BsToken}
  }

  function At(row: map<Name, Val>, n: Name): Option<Val> {
    if n in row then Some(row[n]) else None
  }

  function RowPushed(row: map<Name, Val>, k: EnrollType, r: Request): map<Name, Val>
    requires r.msg.TokenUpdate?
  {
    var e1 := row[LastSeenAt := Text(r.now)][TypeOf := Text(TypeName(k))];
    var e2 := e1[Topic := Text(r.msg.topic)][PushMagic := Text(r.msg.magic)][Token := Text(r.msg.token)];
    if r.msg.unlock != "" then e2[UnlTok := Text(r.msg.unlock)] else e2
  }

  function RowUpdated(row: map<Name, Val>, k: EnrollType, r: Request): map<Name, Val>
    requires r.msg.TokenUpdate?
  {
    RowCounted(RowPushed(row, k, r), Tally(At(row, TokTal)) + 1, r.now)
  }

  function RowCounted(row: map<Name, Val>, tally: int, now: string): map<Name, Val> {
    var e1 := row[TokTal := Text(Print(tally))];
    (if tally == 1 then e1[EnrolledAt := Text(now)] else e1) - {DisabledMark}
  }

  function RowDisabled(row: map<Name, Val>, r: Request): map<Name, Val> {
    row[LastSeenAt := Text(r.now)][DisabledMark := MARK]
  }

  /** What a message of the enrollment itself does to its record. */
  function Changed(rec: Record, id: EnrollId, r: Request): Record {
    match r.msg
    case Authenticate(_, _) =>
      if id.parent != "" then rec
      else Record(RowAuthenticated(rec.device, r), rec.user, RowDisabled(rec.enrollment - {UnlTok} - {TokTal} - {EnrolledAt}, r))
    case TokenUpdate(_, _, _, _, _) =>
      Record(
        if id.parent == "" then rec.device[TokUpd := Raw(r.msg)] else rec.device,
        if id.parent != "" then rec.user[DeviceCh := Text(id.parent)][TokUpd := Raw(r.msg)] else rec.user,
        RowUpdated(rec.enrollment, id.kind, r))
    case CheckOut(_) => rec.(enrollment := RowDisabled(rec.enrollment, r))
    case SetBootstrapToken(_, t) =>
      Record(if id.parent != "" then rec.device else rec.device[BsToken := Text(t)],
             rec.user, rec.enrollment[LastSeenAt := Text(r.now)])
    case UserAuthenticate(_, digest) =>
      Record(rec.device,
             rec.user[if digest != "" then UserAuthDigest else UserAuth := Raw(r.msg)],
             RowDisabled(rec.enrollment, r))
  }

  /** A message only changes the record of the enrollment that sent it. */
  function RecordAfter(rec: Record, id: string, r: Request): Record {
    match Normalize(r.msg.e)
    case Some(sender) => if sender.id == id then Changed(rec, sender, r) else rec
    case None => rec
  }

  // ---------- what each change does to a row ----------

  lemma RowLookup(b: Bucket, id: string, n: Name)
    ensures Lookup(b, id, n) == At(Row(b, id), n)
  {
  }

  lemma PutRow(b: Bucket, i: string, n: Name, v: Val, id: string)
    ensures Row(Put(b, i, n, v), id) == if id == i then Row(b, id)[n := v] else Row(b, id)
  {
    forall n' { NameKeyInjective(i, n, id, n'); }
    hide NameKey;
  }

  lemma DelRow(b: Bucket, i: string, n: Name, id: string)
    ensures Row(Del(b, i, n), id) == if id == i then Row(b, id) - {n} else Row(b, id)
  {
    forall n' { NameKeyInjective(i, n, id, n'); }
    hide NameKey;
  }

  lemma AssocRow(b: Bucket, device: string, i: string, id: string)
    requires ValidDevice(device) && ValidId(id)
    ensures Row(PutAssoc(b, device, i), id) == Row(b, id)
    ensures Row(b - {AssocKey(device, i)}, id) == Row(b, id)
  {
    AssocParts(device, i);
    forall n' ensures NameKey(id, n') != AssocKey(device, i) {
      NamesApart(n');
      KeyIsNoAssoc(id, NameString(n'));
    }
    hide NameKey, AssocKey;
  }

  /** What the cascade sets and deletes is no key of an enrollment. */
  lemma CascadeAsAssoc(b: Bucket, device: string)
    requires ValidDevice(device)
    ensures ChannelsDisabled(b, device) ==
            if HasUserChannel(b, device) then PutAssoc(b, device, "." + "disabled") else b
    ensures ChannelTalliesDropped(b, device) ==
            if HasUserChannel(b, device) then b - {AssocKey(device, "." + "tok_tal")} else b
  {
    NamesApart(DisabledMark);
    NamesApart(TokTal);
    SlicedPrefixKey(device, "disabled");
    SlicedPrefixKey(device, "tok_tal");
    hide Key, AssocKey, HasUserChannel;
  }

  lemma CascadeRow(b: Bucket, device: string, id: string)
    requires ValidDevice(device) && ValidId(id)
    ensures Row(ChannelsDisabled(b, device), id) == Row(b, id)
    ensures Row(ChannelTalliesDropped(b, device), id) == Row(b, id)
  {
    CascadeAsAssoc(b, device);
    AssocRow(b, device, "." + "disabled", id);
    AssocRow(b, device, "." + "tok_tal", id);
    hide Row;
  }

  lemma DeviceAuthenticatedRow(b: Bucket, i: string, r: Request, id: string)
    requires r.msg.Authenticate?
    ensures Row(DeviceAuthenticated(b, i, r), id) == if id == i then RowAuthenticated(Row(b, id), r) else Row(b, id)
  {
    hide Row, Put, Del;
    var d1 := Put(b, i, Auth, Raw(r.msg));
    PutRow(b, i, Auth, Raw(r.msg), id);
    var d2 := if r.cert.Some? then Put(d1, i, Cert, Text(r.cert.value)) else Del(d1, i, Cert);
    if r.cert.Some? { PutRow(d1, i, Cert, Text(r.cert.value), id); } else { DelRow(d1, i, Cert, id); }
    var d3 := if r.msg.serial != "" then Put(d2, i, Serial, Text(r.msg.serial)) else Del(d2, i, Serial);
    if r.msg.serial != "" { PutRow(d2, i, Serial, Text(r.msg.serial), id); } else { DelRow(d2, i, Serial, id); }
    DelRow(d3, i, BsToken, id);
  }

  lemma PushedRow(b: Bucket, i: EnrollId, r: Request, id: string)
    requires r.msg.TokenUpdate? && (i.parent != "" ==> ValidDevice(i.parent)) && ValidId(id)
    ensures Row(Pushed(b, i, r), id) == if id == i.id then RowPushed(Row(b, id), i.kind, r) else Row(b, id)
  {
    hide Row, Put, Del, PutAssoc, ValidId, ValidDevice, TypeName;
    var b1 := Put(b, i.id, LastSeenAt, Text(r.now));
    PutRow(b, i.id, LastSeenAt, Text(r.now), id);
    var b2 := Put(b1, i.id, TypeOf, Text(TypeName(i.kind)));
    PutRow(b1, i.id, TypeOf, Text(TypeName(i.kind)), id);
    var b3 := Put(b2, i.id, Topic, Text(r.msg.topic));
    PutRow(b2, i.id, Topic, Text(r.msg.topic), id);
    var b4 := Put(b3, i.id, PushMagic, Text(r.msg.magic));
    PutRow(b3, i.id, PushMagic, Text(r.msg.magic), id);
    var b5 := Put(b4, i.id, Token, Text(r.msg.token));
    PutRow(b4, i.id, Token, Text(r.msg.token), id);
    var b6 := if r.msg.unlock != "" then Put(b5, i.id, UnlTok, Text(r.msg.unlock)) else b5;
    PutRow(b5, i.id, UnlTok, Text(r.msg.unlock), id);
    if i.parent != "" { AssocRow(b6, i.parent, i.id, id); }
  }

  /** Writing the push details does not touch the tally. */
  lemma TallyRead(b: Bucket, i: EnrollId, r: Request)
    requires r.msg.TokenUpdate? && (i.parent != "" ==> ValidDevice(i.parent)) && ValidId(i.id)
    ensures Lookup(Pushed(b, i, r), i.id, TokTal) == At(Row(b, i.id), TokTal)
  {
    PushedRow(b, i, r, i.id);
    RowLookup(Pushed(b, i, r), i.id, TokTal);
    hide Row, Pushed, Lookup, ValidId, ValidDevice, TypeName;
  }

  lemma EnrollmentUpdatedRow(b: Bucket, i: EnrollId, r: Request, id: string)
    requires r.msg.TokenUpdate? && (i.parent != "" ==> ValidDevice(i.parent)) && ValidId(id) && ValidId(i.id)
    ensures Row(EnrollmentUpdated(b, i, r), id) == if id == i.id then RowUpdated(Row(b, id), i.kind, r) else Row(b, id)
  {
    hide Row, Pushed, RowPushed, ValidId, ValidDevice, Tally, Lookup, At, Counted, RowCounted;
    var b1 := Pushed(b, i, r);
    var n := Tally(Lookup(b1, i.id, TokTal)) + 1;
    assert EnrollmentUpdated(b, i, r) == Counted(b1, i.id, n, r.now);
    CountedRow(b1, i.id, n, r.now, id);
    hide EnrollmentUpdated;
    PushedRow(b, i, r, id);
    if id == i.id {
      TallyRead(b, i, r);
    }
  }

  lemma CountedRow(b: Bucket, i: string, tally: int, now: string, id: string)
    ensures Row(Counted(b, i, tally, now), id) == if id == i then RowCounted(Row(b, id), tally, now) else Row(b, id)
  {
    hide Row, Put, Del, Print;
    var b1 := Put(b, i, TokTal, Text(Print(tally)));
    PutRow(b, i, TokTal, Text(Print(tally)), id);
    if tally == 1 {
      PutRow(b1, i, EnrolledAt, Text(now), id);
      DelRow(Put(b1, i, EnrolledAt, Text(now)), i, DisabledMark, id);
    } else {
      DelRow(b1, i, DisabledMark, id);
    }
  }

  lemma DisabledRow(b: Bucket, i: string, parent: string, r: Request, id: string)
    requires (parent == "" ==> ValidDevice(i)) && ValidId(id)
    ensures Row(EnrollmentDisabled(b, i, parent, r.now), id) == if id == i then RowDisabled(Row(b, id), r) else Row(b, id)
  {
    hide Row, Put, ChannelsDisabled, ValidId, ValidDevice;
    var e1 := Put(b, i, LastSeenAt, Text(r.now));
    PutRow(b, i, LastSeenAt, Text(r.now), id);
    PutRow(e1, i, DisabledMark, MARK, id);
    if parent == "" { CascadeRow(Put(e1, i, DisabledMark, MARK), i, id); }
  }

  lemma AuthenticateRow(b: Bucket, i: string, id: string)
    requires ValidDevice(i) && ValidId(id)
    ensures Row(EnrollmentReset(b, i), id) ==
            if id == i then Row(b, id) - {UnlTok} - {TokTal} - {EnrolledAt} else Row(b, id)
  {
    hide Row, Del, ChannelTalliesDropped, ValidId, ValidDevice;
    var e1 := Del(b, i, UnlTok);
    DelRow(b, i, UnlTok, id);
    var e2 := Del(e1, i, TokTal);
    DelRow(e1, i, TokTal, id);
    DelRow(e2, i, EnrolledAt, id);
    CascadeRow(Del(e2, i, EnrolledAt), i, id);
  }

  lemma AuthenticateRecord(s: State, i: EnrollId, r: Request, id: string)
    requires r.msg.Authenticate? && i.parent == "" && ValidDevice(i.id) && ValidId(id)
    ensures Observed(Disabled(AuthenticateStored(s, i.id, r), i.id, "", r.now), id) ==
            if id != i.id then Observed(s, id) else Changed(Observed(s, id), i, r)
  {
    DeviceAuthenticatedRow(s.devices, i.id, r, id);
    AuthenticateRow(s.enrollments, i.id, id);
    DisabledRow(EnrollmentReset(s.enrollments, i.id), i.id, "", r, id);
    hide Row, RowAuthenticated, RowDisabled, DeviceAuthenticated, EnrollmentReset, EnrollmentDisabled;
  }

  lemma TokenRecord(s: State, i: EnrollId, r: Request, id: string)
    requires r.msg.TokenUpdate? && (i.parent != "" ==> ValidDevice(i.parent)) && ValidId(id) && ValidId(i.id)
    ensures Observed(TokenStored(s, i, r), id) ==
            if id != i.id then Observed(s, id) else Changed(Observed(s, id), i, r)
  {
    EnrollmentUpdatedRow(s.enrollments, i, r, id);
    hide Row, RowUpdated, EnrollmentUpdated, Put, ValidId, ValidDevice;
    if i.parent == "" {
      PutRow(s.devices, i.id, TokUpd, Raw(r.msg), id);
    } else {
      PutRow(s.users, i.id, DeviceCh, Text(i.parent), id);
      PutRow(Put(s.users, i.id, DeviceCh, Text(i.parent)), i.id, TokUpd, Raw(r.msg), id);
    }
  }

  lemma BootstrapRecord(s: State, i: EnrollId, r: Request, id: string)
    requires r.msg.SetBootstrapToken?
    ensures Observed(BootstrapStored(s, i, r), id) ==
            if id != i.id then Observed(s, id) else Changed(Observed(s, id), i, r)
  {
    hide Row, Put;
    PutRow(s.enrollments, i.id, LastSeenAt, Text(r.now), id);
    if i.parent == "" {
      PutRow(s.devices, i.id, BsToken, Text(r.msg.bootstrap), id);
    }
  }

  lemma UserAuthenticateRecord(s: State, i: EnrollId, r: Request, id: string)
    requires r.msg.UserAuthenticate?
    ensures Observed(UserAuthenticateStored(s, i, r), id) ==
            if id != i.id then Observed(s, id) else Changed(Observed(s, id), i, r)
  {
    hide Row, Put;
    var e := Put(s.enrollments, i.id, LastSeenAt, Text(r.now));
    PutRow(s.enrollments, i.id, LastSeenAt, Text(r.now), id);
    PutRow(e, i.id, DisabledMark, MARK, id);
    PutRow(s.users, i.id, if r.msg.digest != "" then UserAuthDigest else UserAuth, Raw(r.msg), id);
  }

  /** A message changes the record of the enrollment it comes from as `Changed` says, and no other:
      in particular, as written, a device's messages leave its user channels alone. */
  lemma RecordStep(s: State, r: Request, id: string)
    requires ValidRequest(r) && ValidId(id)
    ensures Observed(Served(s, r), id) == RecordAfter(Observed(s, id), id, r)
  {
    if Normalize(r.msg.e).Some? {
      NormalizeValid(r);
      var i := Normalize(r.msg.e).value;
      match r.msg
      case Authenticate(_, _) =>
        if i.parent == "" {
          AuthenticateRecord(s, i, r, id);
        }
      case TokenUpdate(_, _, _, _, _) => TokenRecord(s, i, r, id);
      case CheckOut(_) => DisabledRow(s.enrollments, i.id, i.parent, r, id);
      case SetBootstrapToken(_, _) => BootstrapRecord(s, i, r, id);
      case UserAuthenticate(_, _) => UserAuthenticateRecord(s, i, r, id);
      hide Normalize, ValidId, ValidDevice, TokenStored, AuthenticateStored, BootstrapStored, UserAuthenticateStored, Row, RowUpdated, RowDisabled, RowAuthenticated, EnrollmentDisabled;
    }
  }
}
