/** What the migration stream holds, told by what the store holds: which messages are sent, in which order
    those of one enrollment come, and that none is sent twice. */
module KvExport {
  import opened Options
  import opened Enrollment
  import opened EnrollKeys
  import opened KvEnroll
  import opened KvLifecycle
  import opened KvMigration
  import opened KvRoundTrip
  import opened KvExportOrder

  // ---------- told by the store ----------

  /** The device has an Authenticate message and is not disabled. */
  predicate SendsDevice(s: State, d: string) {
    Lookup(s.devices, d, Auth).Some? && Lookup(s.enrollments, d, DisabledMark).None?
  }

  /** A channel associated with such a device, not disabled itself. */
  predicate SendsChannel(s: State, d: string, u: string) {
    SendsDevice(s, d) && AssocKey(d, u) in s.enrollments && Lookup(s.enrollments, u, DisabledMark).None?
  }

  /** Whether a message is one of those to be sent. */
  ghost predicate Sends(s: State, m: Checkin) {
    match m
    case Authenticate(_, _) =>
      exists d :: SendsDevice(s, d) && Lookup(s.devices, d, Auth) == Some(Raw(m))
    case TokenUpdate(_, _, _, _, _) =>
      || (exists d :: SendsDevice(s, d) && Lookup(s.devices, d, TokUpd) == Some(Raw(m)))
      || (exists d, u :: SendsChannel(s, d, u) && Lookup(s.users, u, TokUpd) == Some(Raw(m)))
    case SetBootstrapToken(e, t) =>
      exists d :: SendsDevice(s, d) && Lookup(s.devices, d, BsToken) == Some(Text(t)) && e == Fields(d, "", "", "", "")
    case UserAuthenticate(_, _) =>
      exists d, u :: SendsChannel(s, d, u) &&
        (Lookup(s.users, u, UserAuth) == Some(Raw(m)) || Lookup(s.users, u, UserAuthDigest) == Some(Raw(m)))
    case CheckOut(_) => false
  }

  function Message(v: Option<Val>): seq<Checkin> {
    match v
    case Some(Raw(m)) => [m]
    case _ => []
  }

  predicate OccursAt(out: seq<Checkin>, p: seq<Checkin>, k: nat) {
    k + |p| <= |out| && out[k..k + |p|] == p
  }

  ghost predicate Consecutive(out: seq<Checkin>, p: seq<Checkin>) {
    exists k: nat :: OccursAt(out, p, k)
  }

  predicate NoRepeat(ms: seq<Checkin>) {
    forall i, j :: 0 <= i < j < |ms| ==> ms[i] != ms[j]
  }

  predicate Once(keys: seq<string>) {
    forall i, j :: 0 <= i < j < |keys| ==> keys[i] != keys[j]
  }

  /** The stream is the messages to be sent and no others; a device's come as Authenticate, TokenUpdate and
      bootstrap token, a channel's as user_auth, user_auth_digest and tok_upd, without any between. */
  ghost predicate Complete(s: State, out: seq<Checkin>) {
    && (forall m :: m in out <==> Sends(s, m))
    && (forall d :: SendsDevice(s, d) ==>
          Consecutive(out, Message(Lookup(s.devices, d, Auth)) + Message(Lookup(s.devices, d, TokUpd)) +
                           match Lookup(s.devices, d, BsToken)
                           case Some(Text(t)) => [SetBootstrapToken(Fields(d, "", "", "", ""), t)]
                           case _ => []))
    && (forall d, u :: SendsChannel(s, d, u) ==>
          Consecutive(out, Message(Lookup(s.users, u, UserAuth)) + Message(Lookup(s.users, u, UserAuthDigest)) +
                           Message(Lookup(s.users, u, TokUpd))))
  }

  // ---------- members of the blocks ----------

  lemma InUserBlock(s: State, u: string, m: Checkin)
    ensures m in UserBlock(s, u) <==>
            && Lookup(s.enrollments, u, DisabledMark).None?
            && (Lookup(s.users, u, UserAuth) == Some(Raw(m)) || Lookup(s.users, u, UserAuthDigest) == Some(Raw(m))
                || Lookup(s.users, u, TokUpd) == Some(Raw(m)))
  {
    hide Lookup;
  }

  lemma {:induction false} InUserBlocks(s: State, ids: seq<string>, m: Checkin)
    ensures m in UserBlocks(s, ids) <==> exists u :: u in ids && m in UserBlock(s, u)
  {
    hide UserBlock;
    if ids != [] {
      InUserBlocks(s, ids[1..], m);
      assert ids == [ids[0]] + ids[1..];
    }
  }

  lemma {:induction false} InDeviceBlocks(s: State, ids: seq<string>, keys: seq<string>, m: Checkin)
    ensures m in DeviceBlocks(s, ids, keys) <==> exists d :: d in ids && m in DeviceBlock(s, d, keys)
    decreases |ids|
  {
    hide DeviceBlock;
    if ids != [] {
      InDeviceBlocks(s, ids[1..], keys, m);
      assert ids == [ids[0]] + ids[1..];
    }
  }

  lemma SendsDeviceIs(s: State, d: string)
    ensures SendsDevice(s, d) <==> Auth in Row(s.devices, d) && !IsDisabled(s, d)
    ensures SendsDevice(s, d) ==> NameKey(d, Auth) in s.devices
  {
    RowLookup(s.devices, d, Auth);
  }

  lemma InDeviceBlock(s: State, d: string, keys: seq<string>, m: Checkin)
    requires Good(s) && ValidDevice(d) && Enumerates(keys, s.enrollments)
    ensures m in DeviceBlock(s, d, keys) <==>
            SendsDevice(s, d) && (m in HeadBlock(s, d) || exists u :: AssocKey(d, u) in s.enrollments && m in UserBlock(s, u))
  {
    hide Good, Row, Lookup, AssocKey, ValidDevice, IsDisabled, DeviceBlock, HeadBlock, UserBlocks, UserBlock, UserIds, SendsDevice;
    SendsDeviceIs(s, d);
    DeviceBlockParts(s, d, keys);
    InUserBlocks(s, UserIds(keys, d), m);
    forall u ensures u in UserIds(keys, d) <==> AssocKey(d, u) in s.enrollments {
      UserIdsMembers(keys, d, u);
    }
  }

  lemma InExport(s: State, deviceKeys: seq<string>, enrollmentKeys: seq<string>, m: Checkin)
    requires Good(s) && Enumerates(deviceKeys, s.devices) && Enumerates(enrollmentKeys, s.enrollments)
    ensures m in Export(s, deviceKeys, enrollmentKeys) <==>
            || (exists d :: SendsDevice(s, d) && m in HeadBlock(s, d))
            || (exists d, u :: SendsChannel(s, d, u) && m in UserBlock(s, u))
  {
    hide Row, Lookup, AssocKey, DeviceBlock, HeadBlock, DeviceIds, SendsDevice, Associated, MessagesOwn, Placed, ValidId;
    InDeviceBlocks(s, DeviceIds(deviceKeys), enrollmentKeys, m);
    forall d ensures d in DeviceIds(deviceKeys) <==> NameKey(d, Auth) in s.devices {
      DeviceIdsMembers(deviceKeys, d);
    }
    forall d | d in DeviceIds(deviceKeys) && m in DeviceBlock(s, d, enrollmentKeys)
      ensures (SendsDevice(s, d) && m in HeadBlock(s, d)) || exists u :: SendsChannel(s, d, u) && m in UserBlock(s, u)
    {
      InDeviceBlock(s, d, enrollmentKeys, m);
      if m !in HeadBlock(s, d) {
        var u :| AssocKey(d, u) in s.enrollments && m in UserBlock(s, u);
        InUserBlock(s, u, m);
        assert SendsChannel(s, d, u);
      }
    }
    forall d | SendsDevice(s, d) ensures d in DeviceIds(deviceKeys) && ValidDevice(d) {
      SendsDeviceIs(s, d);
    }
    if d :| SendsDevice(s, d) && m in HeadBlock(s, d) {
      InDeviceBlock(s, d, enrollmentKeys, m);
    }
    if d, u :| SendsChannel(s, d, u) && m in UserBlock(s, u) {
      InDeviceBlock(s, d, enrollmentKeys, m);
    }
  }

  // ---------- the kinds of messages ----------

  lemma HeadMembers(s: State, d: string, m: Checkin)
    requires Good(s) && SendsDevice(s, d)
    ensures m in HeadBlock(s, d) <==>
            match m
            case Authenticate(_, _) => Lookup(s.devices, d, Auth) == Some(Raw(m))
            case TokenUpdate(_, _, _, _, _) => Lookup(s.devices, d, TokUpd) == Some(Raw(m))
            case SetBootstrapToken(e, t) => Lookup(s.devices, d, BsToken) == Some(Text(t)) && e == Fields(d, "", "", "", "")
            case _ => false
  {
    SendsDeviceIs(s, d);
    DeviceOwn(s, d);
    hide Good, Lookup, Row, IsDisabled, From, OnDevice, SendsDevice;
  }

  /** What the devices bucket holds for an exported device. */
  lemma DeviceOwn(s: State, d: string)
    requires Good(s) && SendsDevice(s, d)
    ensures ValidDevice(d)
    ensures Lookup(s.devices, d, Auth).Some? && IsAuthOf(Lookup(s.devices, d, Auth).value, d)
    ensures Lookup(s.devices, d, TokUpd).Some? && IsTokenOf(Lookup(s.devices, d, TokUpd).value, d, "")
    ensures Lookup(s.devices, d, BsToken).Some? ==> Lookup(s.devices, d, BsToken).value.Text?
  {
    SendsDeviceIs(s, d);
    assert ValidDevice(d);
    ReadRecord(s, d);
    ExportedHasToken(s, d);
    hide Good, Row, Lookup, ValidDevice, IsAuthOf, IsTokenOf, IsDisabled;
  }

  /** What the users bucket holds for an associated channel. */
  lemma ChannelOwn(s: State, d: string, u: string)
    requires Good(s) && SendsChannel(s, d, u)
    ensures Lookup(s.users, u, UserAuth).Some? ==> IsUserAuthOf(Lookup(s.users, u, UserAuth).value, u, false)
    ensures Lookup(s.users, u, UserAuthDigest).Some? ==> IsUserAuthOf(Lookup(s.users, u, UserAuthDigest).value, u, true)
    ensures Lookup(s.users, u, TokUpd).Some? ==> IsTokenOf(Lookup(s.users, u, TokUpd).value, u, d)
    ensures IsUserOf(u, d) || (forall n :: Lookup(s.users, u, n).None?)
  {
    DeviceOwn(s, d);
    assert u == ".disabled" || IsUserOf(u, d);
    if u == ".disabled" {
      DisabledMarkInvalid();
      forall n ensures Lookup(s.users, u, n).None? {
      }
    } else {
      ReadRecord(s, u);
      assert MessagesOwn(Observed(s, u), u);
      hide Good, Row, Lookup, ValidDevice, ValidId, DeviceOf, IsTokenOf, IsUserAuthOf;
    }
  }

  lemma ChannelMembers(s: State, d: string, u: string, m: Checkin)
    requires Good(s) && SendsChannel(s, d, u)
    ensures m in UserBlock(s, u) <==>
            match m
            case TokenUpdate(_, _, _, _, _) => Lookup(s.users, u, TokUpd) == Some(Raw(m))
            case UserAuthenticate(_, _) =>
              Lookup(s.users, u, UserAuth) == Some(Raw(m)) || Lookup(s.users, u, UserAuthDigest) == Some(Raw(m))
            case _ => false
  {
    ChannelOwn(s, d, u);
    InUserBlock(s, u, m);
    hide Good, Lookup, UserBlock, From, AssocKey;
  }

  lemma SentExactly(s: State, deviceKeys: seq<string>, enrollmentKeys: seq<string>, m: Checkin)
    requires Good(s) && Enumerates(deviceKeys, s.devices) && Enumerates(enrollmentKeys, s.enrollments)
    ensures m in Export(s, deviceKeys, enrollmentKeys) <==> Sends(s, m)
  {
    InExport(s, deviceKeys, enrollmentKeys, m);
    forall d | SendsDevice(s, d) ensures m in HeadBlock(s, d) <==> HeadHas(s, d, m) {
      HeadMembers(s, d, m);
    }
    forall d, u | SendsChannel(s, d, u) ensures m in UserBlock(s, u) <==> ChannelHas(s, u, m) {
      ChannelMembers(s, d, u, m);
    }
    hide Good, Lookup, HeadBlock, UserBlock, SendsDevice, SendsChannel, Export;
  }

  predicate HeadHas(s: State, d: string, m: Checkin) {
    match m
    case Authenticate(_, _) => Lookup(s.devices, d, Auth) == Some(Raw(m))
    case TokenUpdate(_, _, _, _, _) => Lookup(s.devices, d, TokUpd) == Some(Raw(m))
    case SetBootstrapToken(e, t) => Lookup(s.devices, d, BsToken) == Some(Text(t)) && e == Fields(d, "", "", "", "")
    case _ => false
  }

  predicate ChannelHas(s: State, u: string, m: Checkin) {
    match m
    case TokenUpdate(_, _, _, _, _) => Lookup(s.users, u, TokUpd) == Some(Raw(m))
    case UserAuthenticate(_, _) =>
      Lookup(s.users, u, UserAuth) == Some(Raw(m)) || Lookup(s.users, u, UserAuthDigest) == Some(Raw(m))
    case _ => false
  }

  // ---------- blocks in the stream ----------

  lemma ConsecutiveIn(a: seq<Checkin>, p: seq<Checkin>, b: seq<Checkin>)
    ensures Consecutive(a + p + b, p)
  {
    assert OccursAt(a + p + b, p, |a|);
  }

  lemma ConsecutiveAround(a: seq<Checkin>, q: seq<Checkin>, b: seq<Checkin>, p: seq<Checkin>)
    requires Consecutive(q, p)
    ensures Consecutive(a + q + b, p)
  {
    var k: nat :| OccursAt(q, p, k);
    assert (a + q + b)[|a|..|a| + |q|] == q;
    assert (a + q + b)[|a| + k..|a| + k + |p|] == q[k..k + |p|];
    assert OccursAt(a + q + b, p, |a| + k);
  }

  lemma {:induction false} UserBlockConsecutive(s: State, ids: seq<string>, u: string)
    requires u in ids
    ensures Consecutive(UserBlocks(s, ids), UserBlock(s, u))
  {
    hide UserBlock;
    if ids[0] == u {
      ConsecutiveIn([], UserBlock(s, u), UserBlocks(s, ids[1..]));
      assert [] + UserBlock(s, u) == UserBlock(s, u);
    } else {
      UserBlockConsecutive(s, ids[1..], u);
      ConsecutiveAround(UserBlock(s, ids[0]), UserBlocks(s, ids[1..]), [], UserBlock(s, u));
      assert UserBlock(s, ids[0]) + UserBlocks(s, ids[1..]) + [] == UserBlocks(s, ids);
    }
  }

  lemma {:induction false} DeviceBlockConsecutive(s: State, ids: seq<string>, keys: seq<string>, d: string)
    requires d in ids
    ensures Consecutive(DeviceBlocks(s, ids, keys), DeviceBlock(s, d, keys))
    decreases |ids|
  {
    hide DeviceBlock;
    if ids[0] == d {
      ConsecutiveIn([], DeviceBlock(s, d, keys), DeviceBlocks(s, ids[1..], keys));
      assert [] + DeviceBlock(s, d, keys) == DeviceBlock(s, d, keys);
    } else {
      DeviceBlockConsecutive(s, ids[1..], keys, d);
      ConsecutiveAround(DeviceBlock(s, ids[0], keys), DeviceBlocks(s, ids[1..], keys), [], DeviceBlock(s, d, keys));
      assert DeviceBlock(s, ids[0], keys) + DeviceBlocks(s, ids[1..], keys) + [] == DeviceBlocks(s, ids, keys);
    }
  }

  lemma ConsecutiveInPart(out: seq<Checkin>, q: seq<Checkin>, p: seq<Checkin>)
    requires Consecutive(out, q) && Consecutive(q, p)
    ensures Consecutive(out, p)
  {
    var k: nat :| OccursAt(out, q, k);
    assert out == out[..k] + q + out[k + |q|..];
    ConsecutiveAround(out[..k], q, out[k + |q|..], p);
  }

  lemma PartsInExport(s: State, deviceKeys: seq<string>, enrollmentKeys: seq<string>, d: string)
    requires Good(s) && Enumerates(deviceKeys, s.devices) && Enumerates(enrollmentKeys, s.enrollments) && SendsDevice(s, d)
    ensures Consecutive(Export(s, deviceKeys, enrollmentKeys), HeadBlock(s, d))
    ensures Consecutive(Export(s, deviceKeys, enrollmentKeys), UserBlocks(s, UserIds(enrollmentKeys, d)))
  {
    hide Good, Row, Lookup, IsDisabled, SendsDevice, DeviceBlock, HeadBlock, UserBlocks, DeviceIds, UserIds, Consecutive, ValidDevice, IsAuthOf, IsTokenOf;
    DeviceOwn(s, d);
    SendsDeviceIs(s, d);
    DeviceIdsMembers(deviceKeys, d);
    DeviceBlockParts(s, d, enrollmentKeys);
    var h, us := HeadBlock(s, d), UserBlocks(s, UserIds(enrollmentKeys, d));
    DeviceBlockConsecutive(s, DeviceIds(deviceKeys), enrollmentKeys, d);
    ConsecutiveIn([], h, us);
    ConsecutiveIn(h, us, []);
    assert [] + h + us == h + us && h + us + [] == h + us;
    ConsecutiveInPart(Export(s, deviceKeys, enrollmentKeys), h + us, h);
    ConsecutiveInPart(Export(s, deviceKeys, enrollmentKeys), h + us, us);
  }

  lemma ChannelInExport(s: State, deviceKeys: seq<string>, enrollmentKeys: seq<string>, d: string, u: string)
    requires Good(s) && Enumerates(deviceKeys, s.devices) && Enumerates(enrollmentKeys, s.enrollments) && SendsChannel(s, d, u)
    ensures Consecutive(Export(s, deviceKeys, enrollmentKeys), UserBlock(s, u))
  {
    DeviceOwn(s, d);
    UserIdsMembers(enrollmentKeys, d, u);
    hide Good, Lookup, SendsDevice, UserBlock, UserBlocks, UserIds, Consecutive, ValidDevice, AssocKey, Export, IsAuthOf, IsTokenOf;
    PartsInExport(s, deviceKeys, enrollmentKeys, d);
    UserBlockConsecutive(s, UserIds(enrollmentKeys, d), u);
    ConsecutiveInPart(Export(s, deviceKeys, enrollmentKeys), UserBlocks(s, UserIds(enrollmentKeys, d)), UserBlock(s, u));
  }

  /** For every reachable store and any enumeration of its keys the stream is complete. */
  lemma ExportComplete(s: State, deviceKeys: seq<string>, enrollmentKeys: seq<string>)
    requires Good(s) && Enumerates(deviceKeys, s.devices) && Enumerates(enrollmentKeys, s.enrollments)
    ensures Complete(s, Export(s, deviceKeys, enrollmentKeys))
  {
    var out := Export(s, deviceKeys, enrollmentKeys);
    hide Good, Lookup, SendsDevice, SendsChannel, Sends, Consecutive, Export;
    forall m ensures m in out <==> Sends(s, m) {
      SentExactly(s, deviceKeys, enrollmentKeys, m);
    }
    forall d | SendsDevice(s, d)
      ensures Consecutive(out, Message(Lookup(s.devices, d, Auth)) + Message(Lookup(s.devices, d, TokUpd)) +
                               match Lookup(s.devices, d, BsToken)
                               case Some(Text(t)) => [SetBootstrapToken(Fields(d, "", "", "", ""), t)]
                               case _ => [])
    {
      PartsInExport(s, deviceKeys, enrollmentKeys, d);
    }
    forall d, u | SendsChannel(s, d, u)
      ensures Consecutive(out, Message(Lookup(s.users, u, UserAuth)) + Message(Lookup(s.users, u, UserAuthDigest)) +
                               Message(Lookup(s.users, u, TokUpd)))
    {
      ChannelInExport(s, deviceKeys, enrollmentKeys, d, u);
      ChannelBlockIs(s, d, u);
    }
  }

  lemma ChannelBlockIs(s: State, d: string, u: string)
    requires SendsChannel(s, d, u)
    ensures UserBlock(s, u) ==
            Message(Lookup(s.users, u, UserAuth)) + Message(Lookup(s.users, u, UserAuthDigest)) + Message(Lookup(s.users, u, TokUpd))
  {
    hide Lookup, SendsDevice, AssocKey;
  }

  // ---------- nothing is sent twice ----------

  lemma NoRepeatConcat(a: seq<Checkin>, b: seq<Checkin>)
    requires NoRepeat(a) && NoRepeat(b) && forall m :: m in a ==> m !in b
    ensures NoRepeat(a + b)
  {
    forall i, j | 0 <= i < j < |a + b| ensures (a + b)[i] != (a + b)[j] {
      if i < |a| <= j {
        assert a[i] in a && b[j - |a|] in b;
      }
    }
  }

  lemma {:induction false} UserIdsOnce(keys: seq<string>, d: string)
    requires Once(keys) && ValidDevice(d)
    ensures Once(UserIds(keys, d))
  {
    hide AssocKey, AssocPrefix, ValidDevice;
    if keys != [] {
      assert forall i :: 0 <= i < |keys[1..]| ==> keys[1..][i] == keys[i + 1];
      UserIdsOnce(keys[1..], d);
      if AssocPrefix(d) <= keys[0] {
        var u := keys[0][|AssocPrefix(d)|..];
        PrefixedIsAssoc(d, keys[0]);
        UserIdsMembers(keys[1..], d, u);
      }
    }
  }

  lemma {:induction false} DeviceIdsOnce(keys: seq<string>)
    requires Once(keys)
    ensures Once(DeviceIds(keys))
  {
    hide NameKey, HasSuffix;
    if keys != [] {
      assert forall i :: 0 <= i < |keys[1..]| ==> keys[1..][i] == keys[i + 1];
      DeviceIdsOnce(keys[1..]);
      if HasSuffix(keys[0], AUTH_SUFFIX) {
        var d := SuffixCutOf(keys[0]);
        DeviceIdsMembers(keys[1..], d);
        DeviceIdsMembers([keys[0]], d);
        assert [keys[0]][1..] == [] && d in DeviceIds([keys[0]]);
      }
    }
  }

  function SuffixCutOf(k: string): string
    requires HasSuffix(k, AUTH_SUFFIX)
  {
    k[..|k| - |AUTH_SUFFIX|]
  }

  lemma UserBlockFrom(s: State, d: string, u: string, m: Checkin)
    requires Good(s) && SendsDevice(s, d) && AssocKey(d, u) in s.enrollments && m in UserBlock(s, u)
    ensures From(m, u) && IsUserOf(u, d)
  {
    InUserBlock(s, u, m);
    ChannelOwn(s, d, u);
    hide Good, Lookup, UserBlock, From, IsUserOf, AssocKey, SendsDevice;
  }

  lemma UserBlockOnce(s: State, d: string, u: string)
    requires Good(s) && SendsDevice(s, d) && AssocKey(d, u) in s.enrollments
    ensures NoRepeat(UserBlock(s, u))
  {
    if SendsChannel(s, d, u) {
      ChannelOwn(s, d, u);
      ChannelBlockIs(s, d, u);
    }
    hide Good, Lookup, From, AssocKey, SendsDevice;
  }

  lemma {:induction false} UserBlocksOnce(s: State, d: string, ids: seq<string>)
    requires Good(s) && SendsDevice(s, d) && Once(ids) && forall u :: u in ids ==> AssocKey(d, u) in s.enrollments
    ensures NoRepeat(UserBlocks(s, ids))
  {
    hide Good, SendsDevice, UserBlock, AssocKey, NoRepeat;
    if ids != [] {
      var u, rest := ids[0], ids[1..];
      assert forall i :: 0 <= i < |rest| ==> rest[i] == ids[i + 1];
      UserBlocksOnce(s, d, rest);
      UserBlockOnce(s, d, u);
      forall m | m in UserBlock(s, u) ensures m !in UserBlocks(s, rest) {
        UserBlockFrom(s, d, u, m);
        InUserBlocks(s, rest, m);
        if u' :| u' in rest && m in UserBlock(s, u') {
          UserBlockFrom(s, d, u', m);
        }
      }
      NoRepeatConcat(UserBlock(s, u), UserBlocks(s, rest));
    } else {
      EmptyNoRepeat();
    }
  }

  lemma EmptyNoRepeat()
    ensures NoRepeat([])
  {
  }

  lemma HeadOnce(s: State, d: string)
    requires Good(s) && SendsDevice(s, d)
    ensures NoRepeat(HeadBlock(s, d)) && forall m :: m in HeadBlock(s, d) ==> From(m, d)
  {
    DeviceOwn(s, d);
    SendsDeviceIs(s, d);
    HeadOrdered(s, d);
    hide Good, Lookup, Row, From, OnDevice, SendsDevice, IsDisabled, ValidDevice, Ordered;
  }

  /** All of a device's block comes from the device or its channels. */
  lemma DeviceBlockOnce(s: State, d: string, keys: seq<string>)
    requires Good(s) && ValidDevice(d) && Enumerates(keys, s.enrollments) && Once(keys)
    ensures NoRepeat(DeviceBlock(s, d, keys))
    ensures forall m :: m in DeviceBlock(s, d, keys) ==> Normalize(m.e).Some? && DeviceOf(Normalize(m.e).value.id) == d
  {
    hide Good, Row, IsDisabled, SendsDevice, DeviceBlock, HeadBlock, UserBlocks, UserBlock, UserIds, NoRepeat, AssocKey, Normalize, DeviceOf, ValidDevice, ValidId;
    SendsDeviceIs(s, d);
    DeviceBlockParts(s, d, keys);
    DeviceIsValid(d);
    if SendsDevice(s, d) {
      var h, ids := HeadBlock(s, d), UserIds(keys, d);
      forall u | u in ids ensures AssocKey(d, u) in s.enrollments {
        UserIdsMembers(keys, d, u);
      }
      HeadOnce(s, d);
      UserIdsOnce(keys, d);
      UserBlocksOnce(s, d, ids);
      forall m | m in UserBlocks(s, ids) ensures m !in h && Normalize(m.e).Some? && DeviceOf(Normalize(m.e).value.id) == d {
        InUserBlocks(s, ids, m);
        var u :| u in ids && m in UserBlock(s, u);
        UserBlockFrom(s, d, u, m);
      }
      NoRepeatConcat(h, UserBlocks(s, ids));
    } else {
      EmptyNoRepeat();
    }
  }

  lemma {:induction false} DeviceBlocksOnce(s: State, ids: seq<string>, keys: seq<string>)
    requires Good(s) && Enumerates(keys, s.enrollments) && Once(keys) && Once(ids) && forall d :: d in ids ==> ValidDevice(d)
    ensures NoRepeat(DeviceBlocks(s, ids, keys))
    decreases |ids|
  {
    hide Good, ValidDevice, DeviceBlock, NoRepeat, Normalize, DeviceOf;
    if ids != [] {
      var d, rest := ids[0], ids[1..];
      assert forall i :: 0 <= i < |rest| ==> rest[i] == ids[i + 1];
      DeviceBlocksOnce(s, rest, keys);
      DeviceBlockOnce(s, d, keys);
      forall m | m in DeviceBlock(s, d, keys) ensures m !in DeviceBlocks(s, rest, keys) {
        InDeviceBlocks(s, rest, keys, m);
        if d' :| d' in rest && m in DeviceBlock(s, d', keys) {
          DeviceBlockOnce(s, d', keys);
        }
      }
      NoRepeatConcat(DeviceBlock(s, d, keys), DeviceBlocks(s, rest, keys));
    } else {
      EmptyNoRepeat();
    }
  }

  /** If the enumerations name each key once, no message is sent twice. */
  lemma ExportOnce(s: State, deviceKeys: seq<string>, enrollmentKeys: seq<string>)
    requires Good(s) && Enumerates(deviceKeys, s.devices) && Enumerates(enrollmentKeys, s.enrollments)
    requires Once(deviceKeys) && Once(enrollmentKeys)
    ensures NoRepeat(Export(s, deviceKeys, enrollmentKeys))
  {
    hide Row, AssocKey, DeviceBlocks, DeviceIds, MessagesOwn, Placed, Associated, NoRepeat, Once;
    DeviceIdsOnce(deviceKeys);
    forall d | d in DeviceIds(deviceKeys) ensures ValidDevice(d) {
      DeviceIdsMembers(deviceKeys, d);
    }
    DeviceBlocksOnce(s, DeviceIds(deviceKeys), enrollmentKeys);
  }

  /** Over every run and any enumeration of the keys it leaves: the stream is complete, and nothing in it
      is sent twice. */
  lemma ReachableExport(rs: seq<Request>, deviceKeys: seq<string>, enrollmentKeys: seq<string>)
    requires ValidRun(rs)
    requires var s := Run(EMPTY, rs); Enumerates(deviceKeys, s.devices) && Enumerates(enrollmentKeys, s.enrollments)
    requires Once(deviceKeys) && Once(enrollmentKeys)
    ensures var out := Export(Run(EMPTY, rs), deviceKeys, enrollmentKeys);
            Complete(Run(EMPTY, rs), out) && NoRepeat(out)
  {
    RunGood(rs);
    hide Run, Good, Complete, NoRepeat, Export, Enumerates;
    ExportComplete(Run(EMPTY, rs), deviceKeys, enrollmentKeys);
    ExportOnce(Run(EMPTY, rs), deviceKeys, enrollmentKeys);
  }
}
