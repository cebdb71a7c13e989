/** The order of the migration stream: messages come after the ones they depend on, and nothing of a
    disabled enrollment or under a disabled device is exported. */
module KvExportOrder {
  import opened Enrollment
  import opened EnrollKeys
  import opened KvEnroll
  import opened KvLifecycle
  import opened KvMigration
  import opened KvRoundTrip

  /** A device's token message follows an Authenticate of that device, a user channel's follows a token
      message of its device. */
  ghost predicate FollowsAt(ms: seq<Checkin>, i: nat)
    requires i < |ms|
  {
    ms[i].TokenUpdate? && Normalize(ms[i].e).Some? ==>
      var sender := Normalize(ms[i].e).value;
      if sender.parent == "" then exists j :: 0 <= j < i && ms[j].Authenticate? && From(ms[j], sender.id)
      else exists j :: 0 <= j < i && ms[j].TokenUpdate? && From(ms[j], sender.parent)
  }

  ghost predicate Ordered(ms: seq<Checkin>) {
    forall i: nat :: i < |ms| ==> FollowsAt(ms, i)
  }

  /** Sent by an enabled enrollment under an enabled device. */
  predicate SentEnabled(s: State, m: Checkin) {
    Normalize(m.e).Some? && !IsDisabled(s, Normalize(m.e).value.id) && !IsDisabled(s, DeviceOf(Normalize(m.e).value.id))
  }

  ghost predicate AllEnabled(s: State, ms: seq<Checkin>) {
    forall m :: m in ms ==> SentEnabled(s, m)
  }

  lemma FollowsLeft(a: seq<Checkin>, b: seq<Checkin>, i: nat)
    requires i < |a| && FollowsAt(a, i)
    ensures FollowsAt(a + b, i)
  {
    hide FollowsAt;
    FollowsLater(a, a + b, i, i, 0);
  }

  lemma FollowsRight(a: seq<Checkin>, b: seq<Checkin>, i: nat)
    requires i < |b| && FollowsAt(b, i)
    ensures FollowsAt(a + b, |a| + i)
  {
    hide FollowsAt;
    FollowsLater(b, a + b, i, |a| + i, |a|);
  }

  lemma OrderedConcat(a: seq<Checkin>, b: seq<Checkin>)
    requires Ordered(a) && Ordered(b)
    ensures Ordered(a + b)
  {
    hide FollowsAt;
    forall i: nat | i < |a + b| ensures FollowsAt(a + b, i) {
      if i < |a| {
        FollowsLeft(a, b, i);
      } else {
        FollowsRight(a, b, i - |a|);
      }
    }
  }

  /** Placing a message and what it follows further on in a longer stream. */
  lemma FollowsLater(a: seq<Checkin>, c: seq<Checkin>, i: nat, k: nat, offset: nat)
    requires i < |a| && k < |c| && k == i + offset && FollowsAt(a, i)
    requires forall j :: 0 <= j <= i ==> j + offset < |c| && c[j + offset] == a[j]
    ensures FollowsAt(c, k)
  {
    hide Normalize, From;
    assert c[i + offset] == a[i];
    if a[i].TokenUpdate? && Normalize(a[i].e).Some? {
      var sender := Normalize(a[i].e).value;
      if sender.parent == "" {
        var j :| 0 <= j < i && a[j].Authenticate? && From(a[j], sender.id);
        assert c[j + offset] == a[j];
      } else {
        var j :| 0 <= j < i && a[j].TokenUpdate? && From(a[j], sender.parent);
        assert c[j + offset] == a[j];
      }
    }
  }

  /** What a channel's block holds: messages of that channel, its token message naming the device. */
  lemma UserBlockSenders(s: State, u: string, d: string, m: Checkin)
    requires Good(s) && IsUserOf(u, d) && m in UserBlock(s, u)
    ensures From(m, u) && !IsDisabled(s, u)
    ensures m.TokenUpdate? ==> Normalize(m.e).value.parent == d
  {
    ReadRecord(s, u);
    assert MessagesOwn(Observed(s, u), u);
    hide Row, Lookup, ValidId, ValidDevice, Normalize, DeviceOf, Associated, OwnKeys, Placed;
  }

  lemma {:induction false} UserBlocksSenders(s: State, d: string, ids: seq<string>, m: Checkin)
    requires Good(s) && ValidDevice(d) && m in UserBlocks(s, ids)
    requires forall u :: u in ids ==> AssocKey(d, u) in s.enrollments
    ensures Normalize(m.e).Some? && DeviceOf(Normalize(m.e).value.id) == d
    ensures !IsDisabled(s, Normalize(m.e).value.id)
    ensures m.TokenUpdate? ==> Normalize(m.e).value.parent == d
  {
    hide Good, UserBlock, AssocKey, ValidDevice, ValidId, Normalize, IsDisabled, DeviceOf;
    if m in UserBlock(s, ids[0]) {
      ChannelIds(s, d, ids[0]);
      UserBlockSenders(s, ids[0], d, m);
    } else {
      UserBlocksSenders(s, d, ids[1..], m);
    }
  }

  lemma HeadOrdered(s: State, d: string)
    requires Good(s) && ValidDevice(d) && Auth in Row(s.devices, d) && !IsDisabled(s, d)
    ensures var h := HeadBlock(s, d);
            && |h| >= 2 && h[0].Authenticate? && From(h[0], d) && h[1].TokenUpdate? && From(h[1], d)
            && Ordered(h)
            && forall m :: m in h ==> From(m, d)
  {
    ReadRecord(s, d);
    ExportedHasToken(s, d);
    hide Row, Lookup, Good, IsDisabled, Normalize, ValidDevice;
    var h := HeadBlock(s, d);
    assert h[0].Authenticate? && From(h[0], d) && h[1].TokenUpdate? && From(h[1], d);
    forall m | m in BootstrapBlock(s, d) ensures From(m, d) {
      BootstrapMessage(d, m.bootstrap, d);
    }
    forall i: nat | i < |h| ensures FollowsAt(h, i) {
      if i == 1 {
        assert h[0].Authenticate? && From(h[0], Normalize(h[1].e).value.id);
      }
    }
  }

  /** Token messages of a device's channels may follow whatever holds the device's own. */
  lemma ChannelsFollow(h: seq<Checkin>, us: seq<Checkin>, d: string)
    requires Ordered(h) && d != "" && |h| >= 2 && h[1].TokenUpdate? && From(h[1], d)
    requires forall m :: m in us && m.TokenUpdate? ==> Normalize(m.e).Some? && Normalize(m.e).value.parent == d
    ensures Ordered(h + us)
  {
    hide Normalize, From;
    forall i: nat | i < |h + us| ensures FollowsAt(h + us, i) {
      if i < |h| {
        FollowsLater(h, h + us, i, i, 0);
      } else {
        assert (h + us)[i] in us;
        assert (h + us)[1] == h[1];
      }
    }
  }

  lemma DeviceBlockOrdered(s: State, d: string, keys: seq<string>)
    requires Good(s) && ValidDevice(d) && Enumerates(keys, s.enrollments)
    ensures Ordered(DeviceBlock(s, d, keys)) && AllEnabled(s, DeviceBlock(s, d, keys))
  {
    DeviceIsValid(d);
    hide Good, Row, Lookup, Stored, AssocKey, ValidDevice, ValidId, Normalize, IsDisabled, DeviceOf, DeviceBlock, HeadBlock, UserBlocks, FollowsAt;
    DeviceBlockParts(s, d, keys);
    if Auth in Row(s.devices, d) && !IsDisabled(s, d) {
      HeadOrdered(s, d);
      var h, us := HeadBlock(s, d), UserBlocks(s, UserIds(keys, d));
      forall u | u in UserIds(keys, d) ensures AssocKey(d, u) in s.enrollments {
        UserIdsMembers(keys, d, u);
      }
      forall m | m in us
        ensures SentEnabled(s, m) && (m.TokenUpdate? ==> Normalize(m.e).Some? && Normalize(m.e).value.parent == d)
      {
        UserBlocksSenders(s, d, UserIds(keys, d), m);
      }
      assert d != "" by { DeviceNonEmpty(d); }
      ChannelsFollow(h, us, d);
    }
  }

  lemma DeviceNonEmpty(d: string)
    requires ValidDevice(d)
    ensures d != ""
  {
  }

  lemma {:induction false} DeviceBlocksOrdered(s: State, ids: seq<string>, keys: seq<string>)
    requires Good(s) && Enumerates(keys, s.enrollments) && forall d :: d in ids ==> ValidDevice(d)
    ensures Ordered(DeviceBlocks(s, ids, keys)) && AllEnabled(s, DeviceBlocks(s, ids, keys))
    decreases |ids|
  {
    hide Good, ValidDevice, DeviceBlock, SentEnabled, FollowsAt;
    if ids != [] {
      DeviceBlocksOrdered(s, ids[1..], keys);
      DeviceBlockOrdered(s, ids[0], keys);
      OrderedConcat(DeviceBlock(s, ids[0], keys), DeviceBlocks(s, ids[1..], keys));
    }
  }

  /** For every store left by a run and any order in which its keys are enumerated, the migration
      stream is ordered and holds no message of a disabled enrollment or under a disabled device. */
  lemma ExportOrdered(rs: seq<Request>, deviceKeys: seq<string>, enrollmentKeys: seq<string>)
    requires ValidRun(rs)
    requires var s := Run(EMPTY, rs); Enumerates(deviceKeys, s.devices) && Enumerates(enrollmentKeys, s.enrollments)
    ensures var s := Run(EMPTY, rs);
            Ordered(Export(s, deviceKeys, enrollmentKeys)) && AllEnabled(s, Export(s, deviceKeys, enrollmentKeys))
  {
    var s := Run(EMPTY, rs);
    RunGood(rs);
    hide ValidDevice, Run, Ordered, AllEnabled;
    forall d | d in DeviceIds(deviceKeys) ensures ValidDevice(d) {
      DeviceIdsMembers(deviceKeys, d);
    }
    DeviceBlocksOrdered(s, DeviceIds(deviceKeys), enrollmentKeys);
  }
}
