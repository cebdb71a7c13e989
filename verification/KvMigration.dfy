/** Exporting the enrollments of a key-value store as check-in messages, and replaying them into an
    empty store. */
module KvMigration {
  import opened Strings
  import opened Enrollment
  import opened EnrollKeys
  import opened KvEnroll
  import opened KvLifecycle

  // ---------- enumerating keys ----------

  const AUTH_SUFFIX := ".auth"

  predicate HasSuffix(k: string, suffix: string) {
    |k| >= |suffix| && k[|k| - |suffix|..] == suffix
  }

  /** The device ids found in an enumeration of the devices bucket. */
  function DeviceIds(keys: seq<string>): seq<string> {
    if keys == [] then []
    else if HasSuffix(keys[0], AUTH_SUFFIX) then [keys[0][..|keys[0]| - |AUTH_SUFFIX|]] + DeviceIds(keys[1..])
    else DeviceIds(keys[1..])
  }

  /** The user channels of a device found in an enumeration of the enrollments bucket. */
  function UserIds(keys: seq<string>, device: string): seq<string> {
    if keys == [] then []
    else if AssocPrefix(device) <= keys[0] then [keys[0][|AssocPrefix(device)|..]] + UserIds(keys[1..], device)
    else UserIds(keys[1..], device)
  }

  // ---------- the messages of one enrollment ----------

  /** A stored message, if there is one. */
  function Stored(b: Bucket, id: string, n: Name): seq<Checkin> {
    match Lookup(b, id, n)
    case Some(Raw(m)) => [m]
    case _ => []
  }

  predicate IsDisabled(s: State, id: string) {
    Lookup(s.enrollments, id, DisabledMark).Some?
  }

  function UserBlock(s: State, id: string): seq<Checkin> {
    if IsDisabled(s, id) then []
    else Stored(s.users, id, UserAuth) + Stored(s.users, id, UserAuthDigest) + Stored(s.users, id, TokUpd)
  }

  function UserBlocks(s: State, ids: seq<string>): seq<Checkin> {
    if ids == [] then [] else UserBlock(s, ids[0]) + UserBlocks(s, ids[1..])
  }

  /** The bootstrap token as a message, addressed by UDID whatever the kind of device. */
  function BootstrapBlock(s: State, id: string): seq<Checkin> {
    match Lookup(s.devices, id, BsToken)
    case Some(Text(t)) => [SetBootstrapToken(Fields(id, "", "", "", ""), t)]
    case _ => []
  }

  /** A disabled device is skipped; one without a token message gives its Authenticate alone. */
  function DeviceBlock(s: State, id: string, enrollmentKeys: seq<string>): seq<Checkin> {
    if IsDisabled(s, id) || Stored(s.devices, id, Auth) == [] then []
    else if Stored(s.devices, id, TokUpd) == [] then Stored(s.devices, id, Auth)
    else Stored(s.devices, id, Auth) + Stored(s.devices, id, TokUpd) + BootstrapBlock(s, id)
         + UserBlocks(s, UserIds(enrollmentKeys, id))
  }

  function DeviceBlocks(s: State, ids: seq<string>, enrollmentKeys: seq<string>): seq<Checkin>
    decreases |ids|
  {
    if ids == [] then [] else DeviceBlock(s, ids[0], enrollmentKeys) + DeviceBlocks(s, ids[1..], enrollmentKeys)
  }

  /** The stream of messages for given enumerations of the two buckets. */
  function Export(s: State, deviceKeys: seq<string>, enrollmentKeys: seq<string>): seq<Checkin> {
    DeviceBlocks(s, DeviceIds(deviceKeys), enrollmentKeys)
  }

  ghost predicate Enumerates(keys: seq<string>, b: Bucket) {
    forall k :: k in keys <==> k in b
  }

  /** The relay forwards enrolling, token and bootstrap messages and drops the others. */
  function Forwarded(ms: seq<Checkin>): seq<Checkin> {
    if ms == [] then []
    else if ms[0].Authenticate? || ms[0].TokenUpdate? || ms[0].SetBootstrapToken? then [ms[0]] + Forwarded(ms[1..])
    else Forwarded(ms[1..])
  }

  // ---------- what reachable stores look like ----------

  predicate IsUserOf(id: string, device: string) {
    ValidId(id) && !ValidDevice(id) && DeviceOf(id) == device
  }

  /** An association key names a user channel of the device that has sent a token, or the pseudo
      channel; every user channel that has sent a token has its key. */
  ghost predicate Associated(s: State) {
    && (forall d: string, u: string :: ValidDevice(d) && AssocKey(d, u) in s.enrollments ==>
          u == ".disabled" || (IsUserOf(u, d) && TokUpd in Row(s.users, u)))
    && (forall u: string :: ValidId(u) && TokUpd in Row(s.users, u) ==> AssocKey(DeviceOf(u), u) in s.enrollments)
  }

  ghost predicate OwnKeys(s: State) {
    && (forall id: string :: NameKey(id, Auth) in s.devices ==> ValidDevice(id))
    && (forall id: string, n: Name :: NameKey(id, n) in s.users ==> ValidId(id))
  }

  predicate IsAuthOf(v: Val, id: string) {
    v.Raw? && v.m.Authenticate? && From(v.m, id) && OnDevice(v.m)
  }

  predicate IsTokenOf(v: Val, id: string, parent: string) {
    v.Raw? && v.m.TokenUpdate? && From(v.m, id) && Normalize(v.m.e).value.parent == parent
  }

  predicate IsUserAuthOf(v: Val, id: string, answered: bool) {
    v.Raw? && v.m.UserAuthenticate? && From(v.m, id) && (answered <==> v.m.digest != "")
  }

  /** What is stored under a message name is a message of that enrollment. */
  ghost predicate MessagesOwn(rec: Record, id: string) {
    && (Auth in rec.device ==> IsAuthOf(rec.device[Auth], id))
    && (TokUpd in rec.device ==> IsTokenOf(rec.device[TokUpd], id, ""))
    && (BsToken in rec.device ==> rec.device[BsToken].Text?)
    && (TokUpd in rec.user ==> IsTokenOf(rec.user[TokUpd], id, DeviceOf(id)))
    && (UserAuth in rec.user ==> IsUserAuthOf(rec.user[UserAuth], id, false))
    && (UserAuthDigest in rec.user ==> IsUserAuthOf(rec.user[UserAuthDigest], id, true))
    && (Auth in rec.device && DisabledMark !in rec.enrollment ==> TokUpd in rec.device)
  }

  lemma MessagesOwnStep(rec: Record, r: Request, id: string)
    requires MessagesOwn(rec, id) && Placed(rec, id) && ValidRequest(r)
    ensures MessagesOwn(RecordAfter(rec, id, r), id) && Placed(RecordAfter(rec, id, r), id)
  {
    if From(r.msg, id) {
      NormalizeValid(r);
      hide ValidId, Normalize, DeviceOf, ValidDevice, RowUpdated, IsUserAuthOf;
      if r.msg.TokenUpdate? {
        UpdatedLookups(rec.enrollment, Normalize(r.msg.e).value.kind, r);
      } else {
        OtherMessagesOwn(rec, r, id);
      }
    }
  }

  lemma OtherMessagesOwn(rec: Record, r: Request, id: string)
    requires MessagesOwn(rec, id) && Placed(rec, id) && From(r.msg, id) && !r.msg.TokenUpdate?
    requires Normalize(r.msg.e).value.parent == "" <==> ValidDevice(id)
    ensures MessagesOwn(RecordAfter(rec, id, r), id) && Placed(RecordAfter(rec, id, r), id)
  {
    hide Normalize, DeviceOf, ValidDevice;
  }

  lemma {:induction false} RecordMessagesOwn(rs: seq<Request>, id: string)
    requires ValidRun(rs)
    ensures MessagesOwn(RecordRun(rs, id), id) && Placed(RecordRun(rs, id), id)
  {
    if rs != [] {
      hide MessagesOwn, Placed, RecordAfter, ValidRequest;
      RecordMessagesOwn(rs[..|rs| - 1], id);
      MessagesOwnStep(RecordRun(rs[..|rs| - 1], id), rs[|rs| - 1], id);
    }
  }

  // ---------- association keys over a run ----------

  lemma AssocAfterPut(b: Bucket, i: string, n: Name, v: Val, d: string, u: string)
    requires ValidId(i) && ValidDevice(d)
    ensures AssocKey(d, u) in Put(b, i, n, v) <==> AssocKey(d, u) in b
    ensures AssocKey(d, u) in Del(b, i, n) <==> AssocKey(d, u) in b
  {
    NamesApart(n);
    KeyIsNoAssoc(i, NameString(n));
    AssocParts(d, u);
    hide Key, AssocKey;
  }

  lemma AssocInjective(d: string, u: string, d': string, u': string)
    requires ValidDevice(d) && ValidDevice(d')
    ensures AssocKey(d, u) == AssocKey(d', u') <==> d == d' && u == u'
  {
    AssocParts(d, u);
    AssocParts(d', u');
    hide AssocKey;
  }

  lemma AssocAfterCascade(b: Bucket, i: string, d: string, u: string)
    requires ValidDevice(i) && ValidDevice(d)
    ensures AssocKey(d, u) in ChannelsDisabled(b, i) ==> AssocKey(d, u) in b || u == ".disabled"
    ensures AssocKey(d, u) in b ==> AssocKey(d, u) in ChannelsDisabled(b, i)
    ensures AssocKey(d, u) in ChannelTalliesDropped(b, i) ==> AssocKey(d, u) in b
    ensures AssocKey(d, u) in b && u != ".tok_tal" ==> AssocKey(d, u) in ChannelTalliesDropped(b, i)
  {
    CascadeAsAssoc(b, i);
    AssocInjective(d, u, i, "." + "disabled");
    AssocInjective(d, u, i, "." + "tok_tal");
    hide AssocKey, ChannelsDisabled, ChannelTalliesDropped, HasUserChannel;
  }

  /** The association keys an enrollments bucket gains and keeps. */
  ghost predicate AssocStep(b: Bucket, b': Bucket, d: string, u: string, added: bool) {
    && (AssocKey(d, u) in b' ==> AssocKey(d, u) in b || added || u == ".disabled")
    && (AssocKey(d, u) in b && u != ".tok_tal" ==> AssocKey(d, u) in b')
    && (added ==> AssocKey(d, u) in b')
  }

  lemma AssocReset(b: Bucket, i: string, d: string, u: string)
    requires ValidDevice(i) && ValidDevice(d)
    ensures AssocStep(b, EnrollmentReset(b, i), d, u, false)
  {
    DeviceIsValid(i);
    hide Put, Del, AssocKey, ChannelTalliesDropped;
    AssocAfterPut(b, i, UnlTok, MARK, d, u);
    AssocAfterPut(Del(b, i, UnlTok), i, TokTal, MARK, d, u);
    AssocAfterPut(Del(Del(b, i, UnlTok), i, TokTal), i, EnrolledAt, MARK, d, u);
    AssocAfterCascade(Del(Del(Del(b, i, UnlTok), i, TokTal), i, EnrolledAt), i, d, u);
  }

  lemma AssocDisabled(b: Bucket, i: string, parent: string, now: string, d: string, u: string)
    requires (parent == "" ==> ValidDevice(i)) && ValidId(i) && ValidDevice(d)
    ensures AssocStep(b, EnrollmentDisabled(b, i, parent, now), d, u, false)
  {
    hide Put, Del, AssocKey, ChannelsDisabled, ValidId;
    var e1 := Put(b, i, LastSeenAt, Text(now));
    AssocAfterPut(b, i, LastSeenAt, Text(now), d, u);
    AssocAfterPut(e1, i, DisabledMark, MARK, d, u);
    if parent == "" {
      AssocAfterCascade(Put(e1, i, DisabledMark, MARK), i, d, u);
    }
  }

  lemma AssocPushed(b: Bucket, i: EnrollId, r: Request, d: string, u: string)
    requires r.msg.TokenUpdate? && ValidId(i.id) && (i.parent != "" ==> ValidDevice(i.parent)) && ValidDevice(d)
    ensures AssocStep(b, Pushed(b, i, r), d, u, i.parent == d && i.id == u)
  {
    assert d != "";
    hide Put, Del, AssocKey, ValidId, ValidDevice, TypeName;
    var b1 := Put(b, i.id, LastSeenAt, Text(r.now));
    AssocAfterPut(b, i.id, LastSeenAt, Text(r.now), d, u);
    var b2 := Put(b1, i.id, TypeOf, Text(TypeName(i.kind)));
    AssocAfterPut(b1, i.id, TypeOf, Text(TypeName(i.kind)), d, u);
    var b3 := Put(b2, i.id, Topic, Text(r.msg.topic));
    AssocAfterPut(b2, i.id, Topic, Text(r.msg.topic), d, u);
    var b4 := Put(b3, i.id, PushMagic, Text(r.msg.magic));
    AssocAfterPut(b3, i.id, PushMagic, Text(r.msg.magic), d, u);
    var b5 := Put(b4, i.id, Token, Text(r.msg.token));
    AssocAfterPut(b4, i.id, Token, Text(r.msg.token), d, u);
    AssocAfterPut(b5, i.id, UnlTok, Text(r.msg.unlock), d, u);
    if i.parent != "" { AssocInjective(d, u, i.parent, i.id); }
  }

  lemma AssocCounted(b: Bucket, i: string, tally: int, now: string, d: string, u: string)
    requires ValidId(i) && ValidDevice(d)
    ensures AssocKey(d, u) in Counted(b, i, tally, now) <==> AssocKey(d, u) in b
  {
    hide Put, Del, AssocKey, ValidId, Print;
    var b1 := Put(b, i, TokTal, Text(Print(tally)));
    AssocAfterPut(b, i, TokTal, Text(Print(tally)), d, u);
    AssocAfterPut(b1, i, EnrolledAt, Text(now), d, u);
    AssocAfterPut(if tally == 1 then Put(b1, i, EnrolledAt, Text(now)) else b1, i, DisabledMark, MARK, d, u);
  }

  predicate AddsChannel(r: Request, d: string, u: string) {
    r.msg.TokenUpdate? && Normalize(r.msg.e).Some? && Normalize(r.msg.e).value.id == u && Normalize(r.msg.e).value.parent == d
  }

  lemma AssocServed(s: State, r: Request, d: string, u: string)
    requires ValidRequest(r) && ValidDevice(d)
    ensures AssocStep(s.enrollments, Served(s, r).enrollments, d, u, AddsChannel(r, d, u))
  {
    if Normalize(r.msg.e).Some? {
      NormalizeValid(r);
      hide Normalize, ValidId, ValidDevice, AssocKey, Put, EnrollmentDisabled, EnrollmentReset, Pushed, Counted, DeviceAuthenticated;
      var i := Normalize(r.msg.e).value;
      var b := s.enrollments;
      match r.msg
      case Authenticate(_, _) =>
        if i.parent == "" {
          AssocReset(b, i.id, d, u);
          AssocDisabled(EnrollmentReset(b, i.id), i.id, "", r.now, d, u);
        }
      case TokenUpdate(_, _, _, _, _) =>
        AssocPushed(b, i, r, d, u);
        AssocCounted(Pushed(b, i, r), i.id, Tally(Lookup(Pushed(b, i, r), i.id, TokTal)) + 1, r.now, d, u);
      case CheckOut(_) => AssocDisabled(b, i.id, i.parent, r.now, d, u);
      case SetBootstrapToken(_, _) => AssocAfterPut(b, i.id, LastSeenAt, Text(r.now), d, u);
      case UserAuthenticate(_, _) =>
        AssocAfterPut(b, i.id, LastSeenAt, Text(r.now), d, u);
        AssocAfterPut(Put(b, i.id, LastSeenAt, Text(r.now)), i.id, DisabledMark, MARK, d, u);
    } else {
      hide Normalize, AssocKey;
    }
  }

  lemma UserTokenKept(rec: Record, r: Request, id: string)
    ensures TokUpd in rec.user ==> TokUpd in RecordAfter(rec, id, r).user
    ensures TokUpd in RecordAfter(rec, id, r).user ==> TokUpd in rec.user || AddsChannel(r, Normalize(r.msg.e).value.parent, id)
    ensures AddsChannel(r, DeviceOf(id), id) && DeviceOf(id) != "" ==> TokUpd in RecordAfter(rec, id, r).user
  {
    hide Normalize, DeviceOf, RowUpdated;
  }

  lemma AssociatedStep(s: State, r: Request)
    requires Associated(s) && ValidRequest(r)
    ensures Associated(Served(s, r))
  {
    var s' := Served(s, r);
    if Normalize(r.msg.e).Some? {
      NormalizeValid(r);
    }
    hide Served, Normalize, ValidId, AssocKey, Row, RecordAfter, DeviceOf;
    forall d: string, u: string | ValidDevice(d) && AssocKey(d, u) in s'.enrollments
      ensures u == ".disabled" || (IsUserOf(u, d) && TokUpd in Row(s'.users, u))
    {
      AssocServed(s, r, d, u);
      if u != ".disabled" {
        assert IsUserOf(u, d);
        RecordStep(s, r, u);
        UserTokenKept(Observed(s, u), r, u);
      }
    }
    forall u: string | ValidId(u) && TokUpd in Row(s'.users, u) ensures AssocKey(DeviceOf(u), u) in s'.enrollments {
      RecordStep(s, r, u);
      UserTokenKept(Observed(s, u), r, u);
      TokTalInvalid(u);
      DeviceOfValid(u);
      AssocServed(s, r, DeviceOf(u), u);
    }
  }

  lemma TokTalInvalid(u: string)
    requires ValidId(u)
    ensures u != ".tok_tal" && u != ".disabled"
  {
    PseudoIdInvalid("tok_tal");
    PseudoIdInvalid("disabled");
    assert "." + "tok_tal" == ".tok_tal" && "." + "disabled" == ".disabled";
    hide ValidId;
  }

  lemma DeviceOfValid(u: string)
    requires ValidId(u)
    ensures ValidDevice(DeviceOf(u)) && (ValidDevice(u) ==> DeviceOf(u) == u)
  {
    SplitJoins(u);
    if ValidDevice(u) {
      DeviceIsValid(u);
    }
  }

  /** A message leaves the devices and users buckets alone under every id but its sender's. */
  lemma RowsElsewhere(s: State, r: Request, id: string)
    requires !From(r.msg, id)
    ensures Row(Served(s, r).devices, id) == Row(s.devices, id) && Row(Served(s, r).users, id) == Row(s.users, id)
  {
    if Normalize(r.msg.e).Some? {
      var i := Normalize(r.msg.e).value;
      hide Row, Put, Del, Normalize, EnrollmentUpdated, EnrollmentReset, EnrollmentDisabled, DeviceAuthenticated;
      match r.msg
      case Authenticate(_, _) => DeviceAuthenticatedRow(s.devices, i.id, r, id);
      case TokenUpdate(_, _, _, _, _) =>
        PutRow(s.devices, i.id, TokUpd, Raw(r.msg), id);
        PutRow(s.users, i.id, DeviceCh, Text(i.parent), id);
        PutRow(Put(s.users, i.id, DeviceCh, Text(i.parent)), i.id, TokUpd, Raw(r.msg), id);
      case CheckOut(_) =>
      case SetBootstrapToken(_, t) => PutRow(s.devices, i.id, BsToken, Text(t), id);
      case UserAuthenticate(_, digest) =>
        PutRow(s.users, i.id, if digest != "" then UserAuthDigest else UserAuth, Raw(r.msg), id);
    }
  }

  lemma AuthKept(rec: Record, r: Request, id: string)
    requires Auth in RecordAfter(rec, id, r).device
    ensures Auth in rec.device || (From(r.msg, id) && OnDevice(r.msg))
  {
    hide Normalize, RowUpdated;
  }

  lemma OwnKeysStep(s: State, r: Request)
    requires OwnKeys(s) && ValidRequest(r)
    ensures OwnKeys(Served(s, r))
  {
    var s' := Served(s, r);
    if Normalize(r.msg.e).Some? {
      NormalizeValid(r);
    }
    hide Served, Normalize, ValidId, ValidDevice, NameKey, RecordAfter;
    forall id: string | NameKey(id, Auth) in s'.devices ensures ValidDevice(id) {
      assert Auth in Row(s'.devices, id);
      if From(r.msg, id) {
        RecordStep(s, r, id);
        AuthKept(Observed(s, id), r, id);
        assert Auth in Row(s.devices, id) ==> NameKey(id, Auth) in s.devices;
      } else {
        RowsElsewhere(s, r, id);
        assert NameKey(id, Auth) in s.devices;
      }
    }
    forall id: string, n: Name | NameKey(id, n) in s'.users ensures ValidId(id) {
      if !From(r.msg, id) {
        RowsElsewhere(s, r, id);
        assert n in Row(s'.users, id);
        assert NameKey(id, n) in s.users;
      }
    }
  }

  lemma {:induction false} RunShaped(rs: seq<Request>)
    requires ValidRun(rs)
    ensures Associated(Run(EMPTY, rs)) && OwnKeys(Run(EMPTY, rs))
  {
    if rs != [] {
      var n := |rs| - 1;
      RunShaped(rs[..n]);
      hide Associated, OwnKeys, Served, ValidRequest;
      AssociatedStep(Run(EMPTY, rs[..n]), rs[n]);
      OwnKeysStep(Run(EMPTY, rs[..n]), rs[n]);
    }
  }
}
