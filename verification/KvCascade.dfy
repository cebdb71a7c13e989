/** Disabling the user channels of a device and dropping their tallies: what the two cascades promise,
    when the code as written keeps the promise, a run on which it does not, and variants that always do. */
module KvCascade {
  import opened Options
  import opened Enrollment
  import opened EnrollKeys
  import opened KvEnroll
  import opened KvLifecycle
  import opened KvMigration

  /** Every user channel associated with the device is disabled. */
  ghost predicate ChannelsOff(b: Bucket, device: string) {
    forall u :: IsUserOf(u, device) && AssocKey(device, u) in b ==> DisabledMark in Row(b, u)
  }

  /** As written, disabling a device disables all its user channels exactly when they were all
      disabled already: the cascade itself changes none of them. */
  lemma CascadeExact(b: Bucket, device: string, now: string)
    requires ValidDevice(device)
    ensures ChannelsOff(EnrollmentDisabled(b, device, "", now), device) <==> ChannelsOff(b, device)
  {
    DeviceIsValid(device);
    var b' := EnrollmentDisabled(b, device, "", now);
    var r := Request(CheckOut(Fields("", "", "", "", "")), None, now);
    hide EnrollmentDisabled, AssocKey, Row, ValidDevice, ValidId, DeviceOf;
    forall u | IsUserOf(u, device)
      ensures AssocKey(device, u) in b' <==> AssocKey(device, u) in b
      ensures Row(b', u) == Row(b, u)
    {
      DisabledRow(b, device, "", r, u);
      AssocDisabled(b, device, "", now, device, u);
      TokTalInvalid(u);
      assert u != device;
    }
  }

  /** No user channel associated with the device has a tally. */
  ghost predicate TalliesGone(b: Bucket, device: string) {
    forall u :: IsUserOf(u, device) && AssocKey(device, u) in b ==> TokTal !in Row(b, u)
  }

  /** As written, a device that authenticates anew leaves no tally on its user channels exactly when none
      had one before. */
  lemma TallyCascadeExact(b: Bucket, device: string)
    requires ValidDevice(device)
    ensures TalliesGone(EnrollmentReset(b, device), device) <==> TalliesGone(b, device)
  {
    DeviceIsValid(device);
    var b' := EnrollmentReset(b, device);
    hide EnrollmentReset, AssocKey, Row, ValidDevice, ValidId, DeviceOf;
    forall u | IsUserOf(u, device)
      ensures AssocKey(device, u) in b' <==> AssocKey(device, u) in b
      ensures Row(b', u) == Row(b, u)
    {
      AuthenticateRow(b, device, u);
      AssocReset(b, device, device, u);
      TokTalInvalid(u);
      assert u != device;
    }
  }

  // ---------- runs on which the cascade fails ----------

  lemma IdsOfChannels(d: string, u: string)
    requires ValidDevice(d) && u != "" && u != SHARED_IPAD_USER_ID
    ensures Normalize(Fields(d, "", "", "", "")) == Some(EnrollId(Device, d, ""))
    ensures Normalize(Fields(d, u, "", "", "")) == Some(EnrollId(User, UserId(d, u), d))
    ensures ValidId(UserId(d, u)) && IsUserOf(UserId(d, u), d) && UserId(d, u) != d
  {
    DeviceIsValid(d);
    UserIsValid(d, u);
  }

  /** A device and one of its users enroll; then the device checks out, or authenticates anew. Its user
      channel stays enabled and keeps its tally. */
  lemma ChannelSurvives(d: string, u: string, m: Checkin, rs: seq<Request>)
    requires ValidDevice(d) && u != "" && u != SHARED_IPAD_USER_ID
    requires var device, user := Fields(d, "", "", "", ""), Fields(d, u, "", "", "");
             && (m == CheckOut(device) || m == Authenticate(device, ""))
             && Messages(rs) == [Authenticate(device, ""), TokenUpdate(device, "topic", "magic", "token1", ""),
                                 TokenUpdate(user, "topic", "magic", "token2", ""), m]
    ensures ValidRun(rs)
    ensures !ChannelsOff(Run(EMPTY, rs).enrollments, d) && !TalliesGone(Run(EMPTY, rs).enrollments, d)
  {
    IdsOfChannels(d, u);
    var id, ms := UserId(d, u), Messages(rs);
    forall i | 0 <= i < |rs| ensures ValidRequest(rs[i]) {
      assert ms[i] == rs[i].msg;
    }
    hide Normalize, ValidRequest, ValidDevice, ValidId, UserId, DeviceOf, Run, Associated, OwnKeys, RecordRun;
    OneTokenSent(ms, id);
    ObservedRun(rs, id);
    RecordTells(rs, id);
    RunShaped(rs);
    StoredChannel(Run(EMPTY, rs), ms, id, d);
  }

  lemma OneTokenSent(ms: seq<Checkin>, id: string)
    requires |ms| == 4 && From(ms[2], id) && ms[2].TokenUpdate?
    requires !From(ms[0], id) && !From(ms[1], id) && !From(ms[3], id)
    ensures LastToken(ms, id).Some? && EnabledEffect(ms, id) == Now(true) && TokensSinceAuthenticate(ms, id) == 1
  {
    hide Normalize;
    assert ms[..3][..2] == ms[..2] && ms[..2][..1] == ms[..1] && ms[..1][..0] == [];
    assert TokensSinceAuthenticate(ms[..1], id) == 0;
    assert TokensSinceAuthenticate(ms[..2], id) == 0;
    assert TokensSinceAuthenticate(ms[..3], id) == 1;
  }

  lemma StoredChannel(s: State, ms: seq<Checkin>, id: string, d: string)
    requires Associated(s) && Tells(Observed(s, id), ms, id) && IsUserOf(id, d)
    requires LastToken(ms, id).Some? && EnabledEffect(ms, id) == Now(true) && TokensSinceAuthenticate(ms, id) == 1
    ensures AssocKey(d, id) in s.enrollments
    ensures DisabledMark !in Row(s.enrollments, id) && TokTal in Row(s.enrollments, id)
  {
    hide ValidId, ValidDevice, DeviceOf, LastToken, EnabledEffect, TokensSinceAuthenticate, AssocKey;
  }

  // ---------- the variant that slices the id out of the key ----------

  /** The ids found behind the device's prefix. */
  function Channels(b: Bucket, device: string): set<string> {
    set k | k in b && AssocPrefix(device) <= k :: k[|AssocPrefix(device)|..]
  }

  function Marks(ids: set<string>): Bucket {
    map u | u in ids :: NameKey(u, DisabledMark) := MARK
  }

  /** Repaired variant of the cascade: the disabled key of every channel is set. */
  function ChannelsDisabledRepaired(b: Bucket, device: string): Bucket {
    b + Marks(Channels(b, device))
  }

  lemma ChannelsMembers(b: Bucket, device: string, u: string)
    requires ValidDevice(device)
    ensures u in Channels(b, device) <==> AssocKey(device, u) in b
  {
    AssocParts(device, u);
    hide AssocKey, ValidDevice;
    if u in Channels(b, device) {
      var k :| k in b && AssocPrefix(device) <= k && k[|AssocPrefix(device)|..] == u;
      PrefixedIsAssoc(device, k);
    } else {
      assert AssocPrefix(device) <= AssocKey(device, u);
      assert AssocKey(device, u)[|AssocPrefix(device)|..] == u;
    }
  }

  /** The repaired cascade disables exactly the channels of the device, and changes nothing else of any
      enrollment. */
  lemma RepairedCascade(b: Bucket, device: string, id: string)
    requires ValidDevice(device) && ValidId(id)
    ensures Row(ChannelsDisabledRepaired(b, device), id) ==
            if AssocKey(device, id) in b then Row(b, id)[DisabledMark := MARK] else Row(b, id)
  {
    ChannelsMembers(b, device, id);
    hide Channels, AssocKey, ValidDevice, ValidId, Row, NameKey, Marks;
    var marks := Marks(Channels(b, device));
    var row := if id in Channels(b, device) then Row(b, id)[DisabledMark := MARK] else Row(b, id);
    forall n ensures Lookup(b + marks, id, n) == At(row, n) {
      MarksAt(Channels(b, device), id, n);
      RowLookup(b, id, n);
    }
    RowByLookups(b + marks, id, row);
  }

  function TallyKeys(ids: set<string>): set<string> {
    set u | u in ids :: NameKey(u, TokTal)
  }

  /** Repaired variant of the cascade of an Authenticate: the tally of every channel is dropped. */
  function ChannelTalliesDroppedRepaired(b: Bucket, device: string): Bucket {
    b - TallyKeys(Channels(b, device))
  }

  /** It drops the tallies of exactly the channels of the device. */
  lemma RepairedTallyCascade(b: Bucket, device: string, id: string)
    requires ValidDevice(device) && ValidId(id)
    ensures Row(ChannelTalliesDroppedRepaired(b, device), id) ==
            if AssocKey(device, id) in b then Row(b, id) - {TokTal} else Row(b, id)
  {
    ChannelsMembers(b, device, id);
    hide Channels, AssocKey, ValidDevice, ValidId, Row, NameKey, TallyKeys;
    var keys := TallyKeys(Channels(b, device));
    var row := if id in Channels(b, device) then Row(b, id) - {TokTal} else Row(b, id);
    forall n ensures Lookup(b - keys, id, n) == At(row, n) {
      TallyKeysAt(Channels(b, device), id, n);
      RowLookup(b, id, n);
    }
    RowByLookups(b - keys, id, row);
  }

  lemma TallyKeysAt(ids: set<string>, id: string, n: Name)
    ensures NameKey(id, n) in TallyKeys(ids) <==> n == TokTal && id in ids
  {
    hide NameKey;
    if NameKey(id, n) in TallyKeys(ids) {
      var u :| u in ids && NameKey(u, TokTal) == NameKey(id, n);
      NameKeyInjective(id, n, u, TokTal);
    }
  }

  /** A row is determined by its lookups. */
  lemma RowByLookups(b: Bucket, id: string, row: map<Name, Val>)
    requires forall n :: Lookup(b, id, n) == At(row, n)
    ensures Row(b, id) == row
  {
    hide NameKey;
    forall n ensures n in Row(b, id) <==> n in row {
      assert Lookup(b, id, n) == At(row, n);
    }
    forall n | n in row ensures Row(b, id)[n] == row[n] {
      assert Lookup(b, id, n) == At(row, n);
    }
  }

  lemma MarksAt(ids: set<string>, id: string, n: Name)
    ensures NameKey(id, n) in Marks(ids) <==> n == DisabledMark && id in ids
    ensures NameKey(id, n) in Marks(ids) ==> Marks(ids)[NameKey(id, n)] == MARK
  {
    hide NameKey;
    if NameKey(id, n) in Marks(ids) {
      var u :| u in ids && NameKey(u, DisabledMark) == NameKey(id, n);
      NameKeyInjective(id, n, u, DisabledMark);
    }
  }
}
