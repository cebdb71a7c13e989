/** Replaying an exported store into an empty one gives back the push details and bootstrap tokens of
    exactly the exported enrollments. */
module KvRoundTrip {
  import opened Strings
  import opened Options
  import opened Enrollment
  import opened EnrollKeys
  import opened KvEnroll
  import opened KvLifecycle
  import opened KvMigration

  // ---------- what a stream of messages does to one enrollment ----------

  datatype Summary = Summary(token: Option<Checkin>, bootstrap: Effect<Option<string>>, enabled: Effect<bool>)

  const NOTHING := Summary(None, Untouched, Untouched)

  function Summarize(ms: seq<Checkin>, id: string): Summary {
    Summary(LastToken(ms, id), BootstrapEffect(ms, id), EnabledEffect(ms, id))
  }

  function Then(a: Summary, b: Summary): Summary {
    Summary(if b.token.Some? then b.token else a.token,
            if b.bootstrap.Now? then b.bootstrap else a.bootstrap,
            if b.enabled.Now? then b.enabled else a.enabled)
  }

  lemma {:induction false} SummaryConcat(a: seq<Checkin>, b: seq<Checkin>, id: string)
    ensures Summarize(a + b, id) == Then(Summarize(a, id), Summarize(b, id))
  {
    hide From, OnDevice;
    if b == [] {
      assert a + b == a;
    } else {
      var n := |b| - 1;
      SummaryConcat(a, b[..n], id);
      assert (a + b)[..|a| + n] == a + b[..n];
      assert (a + b)[|a| + n] == b[n];
    }
  }

  lemma {:induction false} ForwardedConcat(a: seq<Checkin>, b: seq<Checkin>)
    ensures Forwarded(a + b) == Forwarded(a) + Forwarded(b)
  {
    if a == [] {
      assert a + b == b;
    } else {
      ForwardedConcat(a[1..], b);
      assert (a + b)[1..] == a[1..] + b && (a + b)[0] == a[0];
    }
  }

  /** The effect of the relayed part of a block. */
  function Relayed(ms: seq<Checkin>, id: string): Summary {
    Summarize(Forwarded(ms), id)
  }

  lemma RelayedConcat(a: seq<Checkin>, b: seq<Checkin>, id: string)
    ensures Relayed(a + b, id) == Then(Relayed(a, id), Relayed(b, id))
  {
    ForwardedConcat(a, b);
    SummaryConcat(Forwarded(a), Forwarded(b), id);
    hide Summarize, Forwarded;
  }

  // ---------- the store that is exported ----------

  /** What the theorems need of a store; every run from empty leaves such a store. */
  ghost predicate Good(s: State) {
    && Associated(s)
    && OwnKeys(s)
    && forall id :: ValidId(id) ==> MessagesOwn(Observed(s, id), id) && Placed(Observed(s, id), id)
  }

  lemma RunGood(rs: seq<Request>)
    requires ValidRun(rs)
    ensures Good(Run(EMPTY, rs))
  {
    RunShaped(rs);
    hide ValidId, MessagesOwn, Placed, Associated, OwnKeys, Run;
    forall id | ValidId(id)
      ensures MessagesOwn(Observed(Run(EMPTY, rs), id), id) && Placed(Observed(Run(EMPTY, rs), id), id)
    {
      ObservedRun(rs, id);
      RecordMessagesOwn(rs, id);
    }
  }

  /** Reading a store through the record of one id. */
  lemma ReadRecord(s: State, id: string)
    ensures var rec := Observed(s, id);
            && (forall n :: Lookup(s.devices, id, n) == At(rec.device, n))
            && (forall n :: Lookup(s.users, id, n) == At(rec.user, n))
            && (forall n :: Lookup(s.enrollments, id, n) == At(rec.enrollment, n))
  {
  }

  /** The enrollments whose messages are exported and relayed: enabled, with a token message, under an
      enabled device with an Authenticate message. */
  predicate Exported(s: State, id: string) {
    && Auth in Row(s.devices, DeviceOf(id)) && !IsDisabled(s, DeviceOf(id))
    && TokenIn(Observed(s, id)).Some? && !IsDisabled(s, id)
  }

  // ---------- the blocks of the export ----------

  lemma RelayedOne(m: Checkin, id: string)
    ensures Relayed([m], id) ==
            if !From(m, id) then NOTHING
            else match m
              case TokenUpdate(_, _, _, _, _) => Summary(Some(m), Untouched, Now(true))
              case Authenticate(_, _) => if OnDevice(m) then Summary(None, Now(None), Now(false)) else NOTHING
              case SetBootstrapToken(_, t) => if OnDevice(m) then Summary(None, Now(Some(t)), Untouched) else NOTHING
              case _ => NOTHING
  {
    hide From, OnDevice;
    assert [m][1..] == [] && [m][..0] == [];
    assert Summarize([], id) == NOTHING;
    if m.Authenticate? || m.TokenUpdate? || m.SetBootstrapToken? {
      assert Forwarded([m]) == [m];
    } else {
      assert Forwarded([m]) == [];
    }
  }

  lemma RelayedNone(id: string)
    ensures Relayed([], id) == NOTHING
  {
  }

  lemma UserBlockSummary(s: State, u: string, id: string)
    requires Good(s) && ValidId(u)
    ensures Relayed(UserBlock(s, u), id) ==
            if id == u && !IsDisabled(s, u) && TokUpd in Row(s.users, u)
            then Summary(Some(Row(s.users, u)[TokUpd].m), Untouched, Now(true)) else NOTHING
  {
    ReadRecord(s, u);
    assert MessagesOwn(Observed(s, u), u);
    hide Relayed, Row, Lookup, ValidId, ValidDevice, Normalize, DeviceOf, Associated, OwnKeys, Placed;
    RelayedNone(id);
    var a, b, c := Stored(s.users, u, UserAuth), Stored(s.users, u, UserAuthDigest), Stored(s.users, u, TokUpd);
    RelayedConcat(a + b, c, id);
    RelayedConcat(a, b, id);
    if a != [] { RelayedOne(a[0], id); assert a == [a[0]]; }
    if b != [] { RelayedOne(b[0], id); assert b == [b[0]]; }
    if c != [] { RelayedOne(c[0], id); assert c == [c[0]]; }
  }

  /** The user channels an enumeration of the enrollments bucket yields for a device. */
  lemma {:induction false} UserIdsMembers(keys: seq<string>, device: string, u: string)
    requires ValidDevice(device)
    ensures u in UserIds(keys, device) <==> AssocKey(device, u) in keys
  {
    hide AssocKey, ValidDevice;
    if keys != [] {
      UserIdsMembers(keys[1..], device, u);
      AssocParts(device, u);
      if AssocPrefix(device) <= keys[0] {
        PrefixedIsAssoc(device, keys[0]);
      }
      assert keys == [keys[0]] + keys[1..];
    }
  }

  /** Every id among a device's channels is a valid id or the pseudo channel, which has no messages. */
  lemma ChannelIds(s: State, device: string, u: string)
    requires Good(s) && ValidDevice(device) && AssocKey(device, u) in s.enrollments
    ensures IsUserOf(u, device) || UserBlock(s, u) == []
  {
    if !IsUserOf(u, device) {
      DisabledMarkInvalid();
      hide AssocKey, ValidId, ValidDevice, DeviceOf, MessagesOwn, Placed;
      assert u == ".disabled";
      forall n ensures Lookup(s.users, u, n) == None {
        assert NameKey(u, n) in s.users ==> ValidId(u);
      }
    }
  }

  lemma DisabledMarkInvalid()
    ensures !ValidId(".disabled")
  {
    PseudoIdInvalid("disabled");
    assert "." + "disabled" == ".disabled";
  }

  lemma {:induction false} UserBlocksSummary(s: State, d: string, ids: seq<string>, id: string)
    requires Good(s) && ValidDevice(d)
    requires forall u :: u in ids ==> AssocKey(d, u) in s.enrollments
    ensures Relayed(UserBlocks(s, ids), id) ==
            if id in ids && IsUserOf(id, d) && !IsDisabled(s, id) && TokUpd in Row(s.users, id)
            then Summary(Some(Row(s.users, id)[TokUpd].m), Untouched, Now(true)) else NOTHING
  {
    hide Relayed, Row, Good, UserBlock, AssocKey, ValidDevice, IsUserOf, IsDisabled;
    RelayedNone(id);
    if ids != [] {
      var u := ids[0];
      UserBlocksSummary(s, d, ids[1..], id);
      RelayedConcat(UserBlock(s, u), UserBlocks(s, ids[1..]), id);
      ChannelIds(s, d, u);
      if IsUserOf(u, d) {
        IsUserValid(u, d);
        UserBlockSummary(s, u, id);
      }
    }
  }

  lemma IsUserValid(u: string, d: string)
    requires IsUserOf(u, d)
    ensures ValidId(u) && !ValidDevice(u) && DeviceOf(u) == d
  {
  }

  // ---------- a device's block ----------

  /** A device that is exported has, being reachable, sent a token message. */
  lemma ExportedHasToken(s: State, d: string)
    requires Good(s) && ValidDevice(d) && Auth in Row(s.devices, d) && !IsDisabled(s, d)
    ensures var row := Row(s.devices, d);
            TokUpd in row && IsAuthOf(row[Auth], d) && IsTokenOf(row[TokUpd], d, "")
    ensures !TokUpdInUsers(s, d)
    ensures BsToken in Row(s.devices, d) ==> Row(s.devices, d)[BsToken].Text?
  {
    DeviceIsValid(d);
    ReadRecord(s, d);
    assert MessagesOwn(Observed(s, d), d) && Placed(Observed(s, d), d);
    hide Row, Lookup, ValidId, ValidDevice, Normalize, DeviceOf, Associated, OwnKeys;
  }

  predicate TokUpdInUsers(s: State, id: string) {
    TokUpd in Row(s.users, id)
  }

  /** The messages of a device itself: Authenticate, TokenUpdate and the bootstrap token. */
  function HeadBlock(s: State, d: string): seq<Checkin> {
    Stored(s.devices, d, Auth) + Stored(s.devices, d, TokUpd) + BootstrapBlock(s, d)
  }

  lemma BootstrapMessage(d: string, t: string, id: string)
    requires ValidDevice(d)
    ensures var m := SetBootstrapToken(Fields(d, "", "", "", ""), t);
            OnDevice(m) && (From(m, id) <==> id == d)
  {
  }

  /** What those messages bring to the device. */
  ghost function HeadBrought(s: State, d: string): Summary
    requires Good(s) && ValidDevice(d) && Auth in Row(s.devices, d) && !IsDisabled(s, d)
  {
    ExportedHasToken(s, d);
    var row := Row(s.devices, d);
    Summary(Some(row[TokUpd].m), Now(if BsToken in row then Some(row[BsToken].s) else None), Now(true))
  }

  lemma HeadBlockSummary(s: State, d: string, id: string)
    requires Good(s) && ValidDevice(d) && Auth in Row(s.devices, d) && !IsDisabled(s, d)
    ensures Relayed(HeadBlock(s, d), id) ==
            if id == d then HeadBrought(s, d) else NOTHING
  {
    ExportedHasToken(s, d);
    ReadRecord(s, d);
    hide Relayed, Row, Lookup, ValidDevice, Normalize, Good, IsDisabled;
    var row := Row(s.devices, d);
    var a, t, b := row[Auth].m, row[TokUpd].m, BootstrapBlock(s, d);
    assert HeadBlock(s, d) == ([a] + [t]) + b;
    RelayedConcat([a] + [t], b, id);
    RelayedConcat([a], [t], id);
    RelayedOne(a, id);
    RelayedOne(t, id);
    if BsToken in row {
      BootstrapMessage(d, row[BsToken].s, id);
      RelayedOne(b[0], id);
    } else {
      RelayedNone(id);
    }
  }

  /** What one device's block brings to any enrollment. */
  ghost function Brought(s: State, d: string, id: string): Summary
    requires Good(s) && ValidDevice(d)
  {
    if Auth !in Row(s.devices, d) || IsDisabled(s, d) then NOTHING
    else if id == d then HeadBrought(s, d)
    else if IsUserOf(id, d) && !IsDisabled(s, id) && TokUpd in Row(s.users, id) then
      assert MessagesOwn(Observed(s, id), id);
      Summary(Some(Row(s.users, id)[TokUpd].m), Untouched, Now(true))
    else NOTHING
  }

  lemma DeviceBlockSummary(s: State, d: string, keys: seq<string>, id: string)
    requires Good(s) && ValidDevice(d) && Enumerates(keys, s.enrollments)
    ensures Relayed(DeviceBlock(s, d, keys), id) == Brought(s, d, id)
  {
    ReadRecord(s, d);
    RelayedNone(id);
    if Auth in Row(s.devices, d) && !IsDisabled(s, d) {
      ExportedHasToken(s, d);
      HeadBlockSummary(s, d, id);
      ChannelsOfDevice(s, d, keys, id);
      StoredBlocks(s, d);
      hide Relayed, Row, Lookup, ValidDevice, Good, Stored, AssocKey, MessagesOwn, HeadBrought;
      RelayedConcat(HeadBlock(s, d), UserBlocks(s, UserIds(keys, d)), id);
    } else {
      hide Relayed, Row, ValidDevice, Good, Normalize;
    }
  }

  lemma StoredBlocks(s: State, d: string)
    requires Good(s) && ValidDevice(d) && Auth in Row(s.devices, d) && !IsDisabled(s, d)
    ensures Stored(s.devices, d, Auth) != [] && Stored(s.devices, d, TokUpd) != []
  {
    ExportedHasToken(s, d);
    ReadRecord(s, d);
    hide Row, Lookup, Normalize;
  }

  /** The channels' part of the block. */
  lemma ChannelsOfDevice(s: State, d: string, keys: seq<string>, id: string)
    requires Good(s) && ValidDevice(d) && Enumerates(keys, s.enrollments)
    ensures Relayed(UserBlocks(s, UserIds(keys, d)), id) ==
            if IsUserOf(id, d) && !IsDisabled(s, id) && TokUpd in Row(s.users, id)
            then Summary(Some(Row(s.users, id)[TokUpd].m), Untouched, Now(true)) else NOTHING
    ensures IsUserOf(id, d) ==> id != d
  {
    hide AssocKey, ValidDevice, ValidId, DeviceOf, Relayed, Row, MessagesOwn, Placed, OwnKeys;
    forall u ensures u in UserIds(keys, d) <==> AssocKey(d, u) in s.enrollments {
      UserIdsMembers(keys, d, u);
    }
    UserBlocksSummary(s, d, UserIds(keys, d), id);
  }

  // ---------- the whole export ----------

  lemma {:induction false} DeviceBlocksSummary(s: State, ids: seq<string>, keys: seq<string>, id: string)
    requires Good(s) && Enumerates(keys, s.enrollments) && ValidId(id) && ValidDevice(DeviceOf(id))
    requires forall d :: d in ids ==> ValidDevice(d)
    ensures Relayed(DeviceBlocks(s, ids, keys), id) == if DeviceOf(id) in ids then Brought(s, DeviceOf(id), id) else NOTHING
    decreases |ids|
  {
    hide Relayed, Good, ValidDevice, ValidId, DeviceOf, DeviceBlock;
    RelayedNone(id);
    if ids != [] {
      var d := ids[0];
      DeviceBlocksSummary(s, ids[1..], keys, id);
      DeviceBlockSummary(s, d, keys, id);
      RelayedConcat(DeviceBlock(s, d, keys), DeviceBlocks(s, ids[1..], keys), id);
      if d != DeviceOf(id) {
        BroughtElsewhere(s, d, id);
      }
      hide Brought;
    }
  }

  lemma BroughtElsewhere(s: State, d: string, id: string)
    requires Good(s) && ValidDevice(d) && d != DeviceOf(id)
    ensures Brought(s, d, id) == NOTHING
  {
    DeviceIsValid(d);
  }

  lemma {:induction false} DeviceIdsMembers(keys: seq<string>, d: string)
    ensures d in DeviceIds(keys) <==> NameKey(d, Auth) in keys
  {
    if keys != [] {
      DeviceIdsMembers(keys[1..], d);
      JoinTwo(d, "auth");
      var k := keys[0];
      assert d + "." + "auth" == d + AUTH_SUFFIX;
      assert HasSuffix(k, AUTH_SUFFIX) ==> k == k[..|k| - |AUTH_SUFFIX|] + AUTH_SUFFIX;
      assert HasSuffix(d + AUTH_SUFFIX, AUTH_SUFFIX) && (d + AUTH_SUFFIX)[..|d|] == d;
      assert keys == [k] + keys[1..];
    }
  }

  /** The relayed export brings an enrollment its token, its device's bootstrap token, and its enabled
      state exactly when it is exported, and nothing otherwise. */
  lemma ExportSummary(s: State, deviceKeys: seq<string>, enrollmentKeys: seq<string>, id: string)
    requires Good(s) && Enumerates(deviceKeys, s.devices) && Enumerates(enrollmentKeys, s.enrollments)
    requires ValidId(id)
    ensures ValidDevice(DeviceOf(id))
    ensures Relayed(Export(s, deviceKeys, enrollmentKeys), id) == Brought(s, DeviceOf(id), id)
  {
    DeviceOfValid(id);
    var d := DeviceOf(id);
    hide Relayed, Brought, ValidDevice, ValidId, DeviceOf, Row;
    forall x ensures x in DeviceIds(deviceKeys) <==> NameKey(x, Auth) in s.devices {
      DeviceIdsMembers(deviceKeys, x);
    }
    DeviceBlocksSummary(s, DeviceIds(deviceKeys), enrollmentKeys, id);
    if d !in DeviceIds(deviceKeys) {
      NoAuthNothing(s, d, id);
    }
  }

  lemma NoAuthNothing(s: State, d: string, id: string)
    requires Good(s) && ValidDevice(d) && NameKey(d, Auth) !in s.devices
    ensures Brought(s, d, id) == NOTHING
  {
  }

  // ---------- the relayed messages are well identified ----------

  predicate IsRelayed(m: Checkin) {
    m.Authenticate? || m.TokenUpdate? || m.SetBootstrapToken?
  }

  ghost predicate AllIdentified(ms: seq<Checkin>) {
    forall m :: m in ms && IsRelayed(m) ==> WellIdentified(m.e)
  }

  lemma OnValidDevice(m: Checkin, id: string, parent: string)
    requires From(m, id) && Normalize(m.e).value.parent == parent
    requires if parent == "" then ValidDevice(id) else ValidDevice(parent)
    ensures WellIdentified(m.e)
  {
  }

  lemma UserBlockIdentified(s: State, u: string)
    requires Good(s) && ValidId(u)
    ensures AllIdentified(UserBlock(s, u))
  {
    ReadRecord(s, u);
    DeviceOfValid(u);
    assert MessagesOwn(Observed(s, u), u);
    hide Row, Lookup, ValidId, ValidDevice, Normalize, DeviceOf, Associated, OwnKeys, Placed, WellIdentified, Observed;
    forall m | m in UserBlock(s, u) && IsRelayed(m) ensures WellIdentified(m.e) {
      assert m in Stored(s.users, u, TokUpd);
      OnValidDevice(m, u, DeviceOf(u));
    }
  }

  lemma {:induction false} UserBlocksIdentified(s: State, d: string, ids: seq<string>)
    requires Good(s) && ValidDevice(d)
    requires forall u :: u in ids ==> AssocKey(d, u) in s.enrollments
    ensures AllIdentified(UserBlocks(s, ids))
  {
    hide Good, UserBlock, AssocKey, ValidDevice, IsUserOf, WellIdentified;
    if ids != [] {
      UserBlocksIdentified(s, d, ids[1..]);
      ChannelIds(s, d, ids[0]);
      if IsUserOf(ids[0], d) {
        IsUserValid(ids[0], d);
        UserBlockIdentified(s, ids[0]);
      }
    }
  }

  /** The block of an exported device, and that nothing is exported for any other. */
  lemma DeviceBlockParts(s: State, d: string, keys: seq<string>)
    requires Good(s) && ValidDevice(d)
    ensures DeviceBlock(s, d, keys) ==
            if Auth in Row(s.devices, d) && !IsDisabled(s, d) then HeadBlock(s, d) + UserBlocks(s, UserIds(keys, d)) else []
  {
    ReadRecord(s, d);
    if Auth in Row(s.devices, d) && !IsDisabled(s, d) {
      StoredBlocks(s, d);
      hide Good, Row, Lookup, Stored, ValidDevice, UserBlocks, BootstrapBlock;
      assert DeviceBlock(s, d, keys) == HeadBlock(s, d) + UserBlocks(s, UserIds(keys, d));
    } else {
      hide Good, Row, ValidDevice, UserBlocks;
    }
  }

  lemma DeviceBlockIdentified(s: State, d: string, keys: seq<string>)
    requires Good(s) && ValidDevice(d) && Enumerates(keys, s.enrollments)
    ensures AllIdentified(DeviceBlock(s, d, keys))
  {
    hide Row, Lookup, ValidDevice, Normalize, Good, AssocKey, UserBlocks, WellIdentified, From, OnDevice, IsDisabled, DeviceBlock, HeadBlock, UserIds;
    DeviceBlockParts(s, d, keys);
    forall u | u in UserIds(keys, d) ensures AssocKey(d, u) in s.enrollments {
      UserIdsMembers(keys, d, u);
    }
    UserBlocksIdentified(s, d, UserIds(keys, d));
    if Auth in Row(s.devices, d) && !IsDisabled(s, d) {
      forall m | m in HeadBlock(s, d) ensures WellIdentified(m.e) {
        HeadIdentified(s, d, m);
      }
    }
  }

  lemma HeadIdentified(s: State, d: string, m: Checkin)
    requires Good(s) && ValidDevice(d) && Auth in Row(s.devices, d) && !IsDisabled(s, d)
    requires m in HeadBlock(s, d)
    ensures WellIdentified(m.e)
  {
    ReadRecord(s, d);
    ExportedHasToken(s, d);
    hide Row, Lookup, Good, IsDisabled, Normalize, ValidDevice, WellIdentified;
    if m in BootstrapBlock(s, d) {
      BootstrapMessage(d, m.bootstrap, d);
      OnValidDevice(m, d, "");
    } else {
      OnValidDevice(m, d, "");
    }
  }

  lemma {:induction false} DeviceBlocksIdentified(s: State, ids: seq<string>, keys: seq<string>)
    requires Good(s) && Enumerates(keys, s.enrollments) && forall d :: d in ids ==> ValidDevice(d)
    ensures AllIdentified(DeviceBlocks(s, ids, keys))
    decreases |ids|
  {
    hide Good, ValidDevice, DeviceBlock, WellIdentified;
    if ids != [] {
      DeviceBlocksIdentified(s, ids[1..], keys);
      DeviceBlockIdentified(s, ids[0], keys);
    }
  }

  lemma {:induction false} ForwardedMembers(ms: seq<Checkin>)
    ensures forall m :: m in Forwarded(ms) ==> m in ms && IsRelayed(m)
  {
    if ms != [] {
      ForwardedMembers(ms[1..]);
    }
  }

  /** A replay of the relayed export: the same messages, under any certificates and at any times. */
  ghost predicate Replays(replay: seq<Request>, ms: seq<Checkin>) {
    Messages(replay) == Forwarded(ms)
  }

  lemma ReplayValid(s: State, deviceKeys: seq<string>, enrollmentKeys: seq<string>, replay: seq<Request>)
    requires Good(s) && Enumerates(deviceKeys, s.devices) && Enumerates(enrollmentKeys, s.enrollments)
    requires Replays(replay, Export(s, deviceKeys, enrollmentKeys))
    ensures ValidRun(replay)
  {
    hide ValidDevice;
    forall d | d in DeviceIds(deviceKeys) ensures ValidDevice(d) {
      DeviceIdsMembers(deviceKeys, d);
    }
    DeviceBlocksIdentified(s, DeviceIds(deviceKeys), enrollmentKeys);
    ForwardedMembers(Export(s, deviceKeys, enrollmentKeys));
    forall i | 0 <= i < |replay| ensures ValidRequest(replay[i]) {
      assert Messages(replay)[i] == replay[i].msg;
      assert replay[i].msg in Forwarded(Export(s, deviceKeys, enrollmentKeys));
    }
  }

  // ---------- the round trip ----------

  /** Migration round trip. For every store left by a run of check-in messages, and any order in which
      its keys are enumerated, replaying the relayed export into an empty store gives every exported
      enrollment the push details and bootstrap token it had, enabled, and no other enrollment any. */
  lemma RoundTrip(rs: seq<Request>, deviceKeys: seq<string>, enrollmentKeys: seq<string>, replay: seq<Request>, id: string)
    requires ValidRun(rs) && ValidId(id)
    requires var s := Run(EMPTY, rs);
             && Enumerates(deviceKeys, s.devices) && Enumerates(enrollmentKeys, s.enrollments)
             && Replays(replay, Export(s, deviceKeys, enrollmentKeys))
    ensures var before, after := Observed(Run(EMPTY, rs), id), Observed(Run(EMPTY, replay), id);
            var exported := Exported(Run(EMPTY, rs), id);
            && PushIn(after) == (if exported then PushIn(before) else None)
            && BootstrapIn(after) == (if exported then BootstrapIn(before) else None)
            && (exported ==> EnabledIn(after) && PushIn(before).Some?)
  {
    var s := Run(EMPTY, rs);
    RunGood(rs);
    ReplayValid(s, deviceKeys, enrollmentKeys, replay);
    ExportSummary(s, deviceKeys, enrollmentKeys, id);
    ObservedRun(rs, id);
    ObservedRun(replay, id);
    RecordTells(rs, id);
    RecordTells(replay, id);
    BroughtMatches(s, Messages(rs), id);
    hide Run, Good, Export, ValidId, ValidDevice, Enumerates, RecordRun, DeviceOf, Brought, Exported, Observed, From, OnDevice;
  }

  /** What the export brings, compared with what the store holds. */
  ghost predicate Matches(b: Summary, s: State, ms: seq<Checkin>, id: string) {
    if Exported(s, id)
    then && b.token == LastToken(ms, id) && b.token.Some? && b.enabled == Now(true)
         && (match b.bootstrap
             case Now(v) => v == BootstrapIn(Observed(s, id))
             case Untouched => BootstrapIn(Observed(s, id)).None?)
    else b == NOTHING
  }

  lemma BroughtMatches(s: State, ms: seq<Checkin>, id: string)
    requires Good(s) && ValidId(id) && ValidDevice(DeviceOf(id)) && Tells(Observed(s, id), ms, id)
    ensures Matches(Brought(s, DeviceOf(id), id), s, ms, id)
  {
    DeviceOfValid(id);
    if ValidDevice(id) {
      DeviceMatches(s, ms, id);
    } else {
      UserMatches(s, ms, id);
    }
  }

  lemma DeviceMatches(s: State, ms: seq<Checkin>, id: string)
    requires Good(s) && ValidDevice(id) && DeviceOf(id) == id && TellsToken(Observed(s, id), ms, id)
    ensures Matches(Brought(s, id, id), s, ms, id)
  {
    ReadRecord(s, id);
    if Auth in Row(s.devices, id) && !IsDisabled(s, id) {
      ExportedHasToken(s, id);
      hide Good, ValidDevice, ValidId, DeviceOf, Row, Lookup, IsTokenOf, IsAuthOf, LastToken, PushIn;
    } else {
      hide Good, ValidDevice, ValidId, DeviceOf, Row, Lookup, LastToken, PushIn;
    }
  }

  lemma UserMatches(s: State, ms: seq<Checkin>, id: string)
    requires Good(s) && ValidId(id) && !ValidDevice(id) && ValidDevice(DeviceOf(id)) && TellsToken(Observed(s, id), ms, id)
    ensures Matches(Brought(s, DeviceOf(id), id), s, ms, id)
  {
    ReadRecord(s, id);
    assert Placed(Observed(s, id), id) && MessagesOwn(Observed(s, id), id);
    assert id != DeviceOf(id);
    hide Good, ValidDevice, DeviceOf, Row, Lookup, IsTokenOf, IsAuthOf, LastToken, PushIn;
  }
}
