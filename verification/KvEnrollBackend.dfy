/** The enrollment storage as the program runs it: three buckets updated in place, the service that
    drives them, and the migration export. */
module KvEnrollBackend {
  import opened Strings
  import opened Options
  import opened Enrollment
  import opened EnrollKeys
  import opened KvEnroll
  import opened KvLifecycle
  import opened KvMigration
  import opened KvRoundTrip
  import opened KvExport

  class KV {
    var devices: Bucket
    var users: Bucket
    var enrollments: Bucket

    constructor ()
      ensures Contents() == EMPTY
    {
      devices, users, enrollments := map[], map[], map[];
    }

    function Contents(): State
      reads this
    {
      State(devices, users, enrollments)
    }

    /** The ids the cascades work on: one per key under the device's prefix, each the prefix itself. */
    method UserChannelEnrollments(id: string) returns (ids: seq<string>)
      ensures (ids != []) <==> HasUserChannel(enrollments, id)
      ensures forall i :: 0 <= i < |ids| ==> ids[i] == AssocPrefix(id)
    {
      ids := [];
      var pfx := AssocPrefix(id);
      var keys := set k | k in enrollments && pfx <= k;
      if HasUserChannel(enrollments, id) {
        var k :| k in enrollments && pfx <= k;
        assert k in keys;
      }
      while keys != {}
        invariant forall k :: k in keys ==> k in enrollments && pfx <= k
        invariant keys == {} && ids == [] ==> !HasUserChannel(enrollments, id)
        invariant ids != [] ==> HasUserChannel(enrollments, id)
        invariant forall i :: 0 <= i < |ids| ==> ids[i] == pfx
        decreases keys
      {
        var key :| key in keys;
        ids := ids + [key[0..|pfx|]];
        keys := keys - {key};
      }
    }

    method StoreAuthenticate(id: EnrollId, r: Request) returns (ok: bool)
      requires r.msg.Authenticate?
      modifies this
      ensures ok <==> id.parent == ""
      ensures Contents() == if ok then AuthenticateStored(old(Contents()), id.id, r) else old(Contents())
    {
      if id.parent != "" {
        return false;
      }
      hide Put, Del, AssocPrefix;
      devices := Put(devices, id.id, Auth, Raw(r.msg));
      if r.cert.Some? {
        devices := Put(devices, id.id, Cert, Text(r.cert.value));
      } else {
        devices := Del(devices, id.id, Cert);
      }
      if r.msg.serial != "" {
        devices := Put(devices, id.id, Serial, Text(r.msg.serial));
      } else {
        devices := Del(devices, id.id, Serial);
      }
      devices := Del(devices, id.id, BsToken);
      enrollments := Del(Del(Del(enrollments, id.id, UnlTok), id.id, TokTal), id.id, EnrolledAt);
      ghost var before := enrollments;
      var ids := UserChannelEnrollments(id.id);
      for i := 0 to |ids|
        invariant devices == DeviceAuthenticated(old(devices), id.id, r) && users == old(users)
        invariant enrollments == if i == 0 then before else Del(before, AssocPrefix(id.id), TokTal)
      {
        DelTwice(before, AssocPrefix(id.id), TokTal);
        enrollments := Del(enrollments, ids[i], TokTal);
      }
      return true;
    }

    method Disable(id: EnrollId, now: string)
      modifies this
      ensures Contents() == Disabled(old(Contents()), id.id, id.parent, now)
    {
      hide Put, AssocPrefix;
      enrollments := Put(enrollments, id.id, LastSeenAt, Text(now));
      enrollments := Put(enrollments, id.id, DisabledMark, MARK);
      if id.parent != "" {
        return;
      }
      ghost var before := enrollments;
      var ids := UserChannelEnrollments(id.id);
      for i := 0 to |ids|
        invariant devices == old(devices) && users == old(users)
        invariant enrollments == if i == 0 then before else Put(before, AssocPrefix(id.id), DisabledMark, MARK)
      {
        PutTwice(before, AssocPrefix(id.id), DisabledMark, MARK);
        enrollments := Put(enrollments, ids[i], DisabledMark, MARK);
      }
    }

    /** One more on the tally; an absent or unreadable one counts as zero. */
    method BumpTally(id: string) returns (tally: int)
      modifies this
      ensures tally == Tally(Lookup(old(enrollments), id, TokTal)) + 1
      ensures Contents() == old(Contents()).(enrollments := Put(old(enrollments), id, TokTal, Text(Print(tally))))
    {
      tally := Tally(Lookup(enrollments, id, TokTal)) + 1;
      enrollments := Put(enrollments, id, TokTal, Text(Print(tally)));
    }

    method StoreTokenUpdate(id: EnrollId, r: Request)
      requires r.msg.TokenUpdate?
      modifies this
      ensures Contents() == TokenStored(old(Contents()), id, r)
    {
      hide Put, Del, Lookup, PutAssoc, Print, Tally, TypeName;
      if id.parent != "" {
        users := Put(users, id.id, DeviceCh, Text(id.parent));
        users := Put(users, id.id, TokUpd, Raw(r.msg));
      } else {
        devices := Put(devices, id.id, TokUpd, Raw(r.msg));
      }
      enrollments := Put(enrollments, id.id, LastSeenAt, Text(r.now));
      enrollments := Put(enrollments, id.id, TypeOf, Text(TypeName(id.kind)));
      enrollments := Put(enrollments, id.id, Topic, Text(r.msg.topic));
      enrollments := Put(enrollments, id.id, PushMagic, Text(r.msg.magic));
      enrollments := Put(enrollments, id.id, Token, Text(r.msg.token));
      if r.msg.unlock != "" {
        enrollments := Put(enrollments, id.id, UnlTok, Text(r.msg.unlock));
      }
      if id.parent != "" {
        enrollments := PutAssoc(enrollments, id.parent, id.id);
      }
      var tally := BumpTally(id.id);
      if tally == 1 {
        enrollments := Put(enrollments, id.id, EnrolledAt, Text(r.now));
      }
      enrollments := Del(enrollments, id.id, DisabledMark);
    }

    method StoreBootstrapToken(id: EnrollId, r: Request) returns (ok: bool)
      requires r.msg.SetBootstrapToken?
      modifies this
      ensures ok <==> id.parent == ""
      ensures Contents() == BootstrapStored(old(Contents()), id, r)
    {
      enrollments := Put(enrollments, id.id, LastSeenAt, Text(r.now));
      if id.parent != "" {
        return false;
      }
      devices := Put(devices, id.id, BsToken, Text(r.msg.bootstrap));
      return true;
    }

    /** The escrowed token, if any; asking for it only notes the time. */
    method RetrieveBootstrapToken(id: EnrollId, now: string) returns (ok: bool, t: Option<string>)
      modifies this
      ensures Contents() == old(Contents()).(enrollments := Put(old(enrollments), id.id, LastSeenAt, Text(now)))
      ensures ok <==> id.parent == ""
      ensures t == if ok then BootstrapIn(Observed(old(Contents()), id.id)) else None
      ensures var stored := Lookup(devices, id.id, BsToken);
              t == if id.parent == "" && stored.Some? && stored.value.Text? then Some(stored.value.s) else None
    {
      ReadRecord(Contents(), id.id);
      hide Lookup, Put, Observed;
      enrollments := Put(enrollments, id.id, LastSeenAt, Text(now));
      if id.parent != "" {
        return false, None;
      }
      match Lookup(devices, id.id, BsToken)
      case Some(Text(v)) => return true, Some(v);
      case _ => return true, None;
    }

    method RetrieveTokenUpdateTally(id: string) returns (n: int)
      ensures n == Tally(At(Row(enrollments, id), TokTal))
    {
      ReadRecord(Contents(), id);
      n := Tally(Lookup(enrollments, id, TokTal));
    }

    method StoreUserAuthenticate(id: EnrollId, r: Request)
      requires r.msg.UserAuthenticate?
      modifies this
      ensures Contents() == UserAuthenticateStored(old(Contents()), id, r)
    {
      enrollments := Put(enrollments, id.id, LastSeenAt, Text(r.now));
      var name := if r.msg.digest != "" then UserAuthDigest else UserAuth;
      users := Put(users, id.id, name, Raw(r.msg));
      enrollments := Put(enrollments, id.id, DisabledMark, MARK);
    }

    /** The push details of the ids that have all three of them; others are left out. */
    method RetrievePushInfo(ids: seq<string>) returns (ret: map<string, Push>)
      ensures forall id :: id in ret <==> id in ids && PushIn(Observed(Contents(), id)).Some?
      ensures forall id :: id in ret ==> PushIn(Observed(Contents(), id)) == Some(ret[id])
      ensures forall id :: id in ret ==>
                && Lookup(enrollments, id, Topic) == Some(Text(ret[id].topic))
                && Lookup(enrollments, id, PushMagic) == Some(Text(ret[id].magic))
                && Lookup(enrollments, id, Token) == Some(Text(ret[id].token))
    {
      hide Row;
      ret := map[];
      for i := 0 to |ids|
        invariant forall id :: id in ret <==> id in ids[..i] && PushIn(Observed(Contents(), id)).Some?
        invariant forall id :: id in ret ==> PushIn(Observed(Contents(), id)) == Some(ret[id])
        invariant forall id :: id in ret ==>
                    && Lookup(enrollments, id, Topic) == Some(Text(ret[id].topic))
                    && Lookup(enrollments, id, PushMagic) == Some(Text(ret[id].magic))
                    && Lookup(enrollments, id, Token) == Some(Text(ret[id].token))
      {
        var id := ids[i];
        assert ids[..i + 1] == ids[..i] + [id];
        ReadRecord(Contents(), id);
        var topic, magic, token := Lookup(enrollments, id, Topic), Lookup(enrollments, id, PushMagic), Lookup(enrollments, id, Token);
        if topic.Some? && topic.value.Text? && magic.Some? && magic.value.Text? && token.Some? && token.value.Text? {
          ret := ret[id := Push(topic.value.s, magic.value.s, token.value.s)];
        }
      }
      assert ids[..|ids|] == ids;
    }

    // ---------- the service ----------

    /** Dispatches a check-in message; the identity in the message decides whose keys are written. */
    method Serve(r: Request) returns (ok: bool)
      modifies this
      ensures Contents() == Served(old(Contents()), r)
      ensures ok <==> && (r.msg.e.udid != "" || r.msg.e.enrollmentId != "")
                      && (r.msg.Authenticate? || r.msg.SetBootstrapToken? ==>
                            (if r.msg.e.udid != "" then r.msg.e.userId else r.msg.e.enrollmentUserId) == "")
    {
      hide AuthenticateStored, Disabled, TokenStored, BootstrapStored, UserAuthenticateStored;
      NormalizeByFields(r.msg.e);
      var n := Normalize(r.msg.e);
      if n.None? {
        return false;
      }
      var id := n.value;
      match r.msg
      case Authenticate(_, _) =>
        ok := StoreAuthenticate(id, r);
        if ok {
          Disable(id, r.now);
        }
      case TokenUpdate(_, _, _, _, _) =>
        StoreTokenUpdate(id, r);
        ok := true;
      case CheckOut(_) =>
        Disable(id, r.now);
        ok := true;
      case SetBootstrapToken(_, _) =>
        ok := StoreBootstrapToken(id, r);
      case UserAuthenticate(_, _) =>
        StoreUserAuthenticate(id, r);
        ok := true;
    }

    /** A whole run of check-in messages. */
    method ServeAll(rs: seq<Request>)
      modifies this
      ensures Contents() == Run(old(Contents()), rs)
    {
      hide Served;
      for i := 0 to |rs|
        invariant Contents() == Run(old(Contents()), rs[..i])
      {
        assert rs[..i + 1][..i] == rs[..i];
        var _ := Serve(rs[i]);
      }
      assert rs[..|rs|] == rs;
    }

    // ---------- the migration export ----------

    /** A stored message decoded; stored text that is no message is an error. */
    method GetDecodeCheckIn(b: Bucket, id: string, n: Name) returns (ok: bool, m: Option<Checkin>)
      ensures ok ==> Stored(b, id, n) == match m case Some(c) => [c] case None => []
      ensures ok <==> Lookup(b, id, n) == None || Lookup(b, id, n).value.Raw?
    {
      var v := Lookup(b, id, n);
      match v
      case None => return true, None;
      case Some(Raw(c)) => return true, Some(c);
      case Some(Text(_)) => return false, None;
    }

    method ExportUser(id: string) returns (ok: bool, out: seq<Checkin>)
      ensures ok ==> out == UserBlock(Contents(), id)
      ensures UserDecodes(Contents(), id) ==> ok
    {
      hide Lookup, Stored, IsDisabled;
      out := [];
      if IsDisabled(Contents(), id) {
        return true, [];
      }
      var ok1, a := GetDecodeCheckIn(users, id, UserAuth);
      if !ok1 { return false, out; }
      if a.Some? { out := out + [a.value]; }
      var ok2, b := GetDecodeCheckIn(users, id, UserAuthDigest);
      if !ok2 { return false, out; }
      if b.Some? { out := out + [b.value]; }
      var ok3, c := GetDecodeCheckIn(users, id, TokUpd);
      if !ok3 { return false, out; }
      if c.Some? { out := out + [c.value]; }
      return true, out;
    }

    method ExportUsers(device: string, enrollmentKeys: seq<string>) returns (ok: bool, out: seq<Checkin>)
      ensures ok ==> out == UserBlocks(Contents(), UserIds(enrollmentKeys, device))
      ensures (forall u :: u in UserIds(enrollmentKeys, device) ==> UserDecodes(Contents(), u)) ==> ok
    {
      hide UserBlock, UserDecodes, AssocPrefix;
      var userIds := [];
      for i := 0 to |enrollmentKeys|
        invariant userIds == UserIds(enrollmentKeys[..i], device)
      {
        var key := enrollmentKeys[i];
        assert enrollmentKeys[..i + 1] == enrollmentKeys[..i] + [key];
        UserIdsConcat(enrollmentKeys[..i], [key], device);
        if AssocPrefix(device) <= key {
          userIds := userIds + [key[|AssocPrefix(device)|..]];
        }
      }
      assert enrollmentKeys[..|enrollmentKeys|] == enrollmentKeys;
      out := [];
      for i := 0 to |userIds|
        invariant out == UserBlocks(Contents(), userIds[..i])
      {
        assert userIds[..i + 1] == userIds[..i] + [userIds[i]];
        UserBlocksConcat(Contents(), userIds[..i], [userIds[i]]);
        assert UserBlocks(Contents(), [userIds[i]]) == UserBlock(Contents(), userIds[i]);
        var good, block := ExportUser(userIds[i]);
        if !good {
          return false, out;
        }
        out := out + block;
      }
      assert userIds[..|userIds|] == userIds;
      return true, out;
    }

    method ExportDevice(id: string, enrollmentKeys: seq<string>) returns (ok: bool, out: seq<Checkin>)
      ensures ok ==> out == DeviceBlock(Contents(), id, enrollmentKeys)
      ensures Good(Contents()) && ValidDevice(id) && Enumerates(enrollmentKeys, enrollments) ==> ok
    {
      hide Good, ValidDevice, Enumerates, UserDecodes, UserBlocks, UserIds, Stored, Lookup, IsDisabled;
      if Good(Contents()) && ValidDevice(id) && Enumerates(enrollmentKeys, enrollments) {
        DeviceDecodes(Contents(), id, enrollmentKeys);
      }
      out := [];
      if IsDisabled(Contents(), id) {
        return true, [];
      }
      var ok1, auth := GetDecodeCheckIn(devices, id, Auth);
      if !ok1 { return false, out; }
      if auth.None? { return true, out; }
      out := out + [auth.value];
      var ok2, token := GetDecodeCheckIn(devices, id, TokUpd);
      if !ok2 { return false, out; }
      if token.None? { return true, out; }
      out := out + [token.value];
      out := out + BootstrapBlock(Contents(), id);
      var ok3, block := ExportUsers(id, enrollmentKeys);
      if !ok3 { return false, out; }
      out := out + block;
      return true, out;
    }

    /** Collects the device ids, then sends each enabled device's messages; it fails only on a stored
        message that does not decode, which no store left by a run holds. */
    method RetrieveMigrationCheckins(deviceKeys: seq<string>, enrollmentKeys: seq<string>)
      returns (ok: bool, out: seq<Checkin>)
      requires Enumerates(deviceKeys, devices) && Enumerates(enrollmentKeys, enrollments)
      ensures ok ==> out == Export(Contents(), deviceKeys, enrollmentKeys)
      ensures Good(Contents()) ==> ok && Complete(Contents(), out)
      ensures Good(Contents()) && Once(deviceKeys) && Once(enrollmentKeys) ==> NoRepeat(out)
    {
      hide Good, DeviceBlock, HasSuffix, ValidDevice, Complete, NoRepeat, Once;
      if Good(Contents()) {
        ExportComplete(Contents(), deviceKeys, enrollmentKeys);
        if Once(deviceKeys) && Once(enrollmentKeys) {
          ExportOnce(Contents(), deviceKeys, enrollmentKeys);
        }
      }
      var ids := [];
      for i := 0 to |deviceKeys|
        invariant ids == DeviceIds(deviceKeys[..i])
      {
        DeviceIdsStep(deviceKeys, i);
        var key := deviceKeys[i];
        if HasSuffix(key, AUTH_SUFFIX) {
          ids := ids + [SuffixCut(key)];
        }
      }
      assert deviceKeys[..|deviceKeys|] == deviceKeys;
      forall d | d in ids && Good(Contents()) ensures ValidDevice(d) {
        DeviceIdsMembers(deviceKeys, d);
        AuthKeysValid(Contents(), d);
      }
      out := [];
      for i := 0 to |ids|
        invariant out == DeviceBlocks(Contents(), ids[..i], enrollmentKeys)
      {
        assert ids[..i + 1] == ids[..i] + [ids[i]];
        DeviceBlocksConcat(Contents(), ids[..i], [ids[i]], enrollmentKeys);
        DeviceBlocksOne(Contents(), ids[i], enrollmentKeys);
        var good, block := ExportDevice(ids[i], enrollmentKeys);
        if !good {
          return false, out;
        }
        out := out + block;
      }
      assert ids[..|ids|] == ids;
      return true, out;
    }
  }

  function SuffixCut(k: string): string
    requires HasSuffix(k, AUTH_SUFFIX)
  {
    k[..|k| - |AUTH_SUFFIX|]
  }

  lemma DeviceBlocksOne(s: State, id: string, keys: seq<string>)
    ensures DeviceBlocks(s, [id], keys) == DeviceBlock(s, id, keys)
  {
    hide DeviceBlock;
    assert DeviceBlocks(s, [], keys) == [];
  }

  lemma AuthKeysValid(s: State, d: string)
    requires Good(s) && NameKey(d, Auth) in s.devices
    ensures ValidDevice(d)
  {
  }

  lemma DeviceIdsStep(keys: seq<string>, i: nat)
    requires i < |keys|
    ensures var k := keys[i];
            DeviceIds(keys[..i + 1]) ==
            DeviceIds(keys[..i]) + if HasSuffix(k, AUTH_SUFFIX) then [k[..|k| - |AUTH_SUFFIX|]] else []
  {
    assert keys[..i + 1] == keys[..i] + [keys[i]];
    DeviceIdsConcat(keys[..i], [keys[i]]);
    assert DeviceIds([]) == [];
  }

  lemma {:induction false} DeviceIdsConcat(a: seq<string>, b: seq<string>)
    ensures DeviceIds(a + b) == DeviceIds(a) + DeviceIds(b)
  {
    if a == [] {
      assert a + b == b;
    } else {
      DeviceIdsConcat(a[1..], b);
      assert (a + b)[1..] == a[1..] + b && (a + b)[0] == a[0];
      hide HasSuffix;
    }
  }

  lemma {:induction false} UserIdsConcat(a: seq<string>, b: seq<string>, d: string)
    ensures UserIds(a + b, d) == UserIds(a, d) + UserIds(b, d)
  {
    hide AssocPrefix;
    if a == [] {
      assert a + b == b;
    } else {
      UserIdsConcat(a[1..], b, d);
      assert (a + b)[1..] == a[1..] + b && (a + b)[0] == a[0];
    }
  }

  lemma {:induction false} UserBlocksConcat(s: State, a: seq<string>, b: seq<string>)
    ensures UserBlocks(s, a + b) == UserBlocks(s, a) + UserBlocks(s, b)
  {
    hide UserBlock;
    if a == [] {
      assert a + b == b;
    } else {
      UserBlocksConcat(s, a[1..], b);
      assert (a + b)[1..] == a[1..] + b && (a + b)[0] == a[0];
    }
  }

  lemma {:induction false} DeviceBlocksConcat(s: State, a: seq<string>, b: seq<string>, keys: seq<string>)
    ensures DeviceBlocks(s, a + b, keys) == DeviceBlocks(s, a, keys) + DeviceBlocks(s, b, keys)
    decreases |a|
  {
    hide DeviceBlock;
    if a == [] {
      assert a + b == b;
    } else {
      DeviceBlocksConcat(s, a[1..], b, keys);
      assert (a + b)[1..] == a[1..] + b && (a + b)[0] == a[0];
    }
  }

  /** In a store left by a run, what is stored under a message name decodes. */
  lemma Decodes(s: State, d: string)
    requires Good(s) && ValidDevice(d)
    ensures forall n :: n == Auth || n == TokUpd ==> Lookup(s.devices, d, n) == None || Lookup(s.devices, d, n).value.Raw?
    ensures forall u :: AssocKey(d, u) in s.enrollments ==> UserDecodes(s, u)
  {
    DeviceIsValid(d);
    ReadRecord(s, d);
    assert MessagesOwn(Observed(s, d), d);
    hide Row, Lookup, ValidDevice, ValidId, Normalize, DeviceOf, Placed, AssocKey, Associated, OwnKeys, Observed;
    forall u | AssocKey(d, u) in s.enrollments ensures UserDecodes(s, u) {
      UserMessagesDecode(s, d, u);
    }
  }

  ghost predicate UserDecodes(s: State, u: string) {
    forall n :: n == UserAuth || n == UserAuthDigest || n == TokUpd ==>
      Lookup(s.users, u, n) == None || Lookup(s.users, u, n).value.Raw?
  }

  lemma DeviceDecodes(s: State, d: string, keys: seq<string>)
    requires Good(s) && ValidDevice(d) && Enumerates(keys, s.enrollments)
    ensures Lookup(s.devices, d, Auth) == None || Lookup(s.devices, d, Auth).value.Raw?
    ensures Lookup(s.devices, d, TokUpd) == None || Lookup(s.devices, d, TokUpd).value.Raw?
    ensures forall u :: u in UserIds(keys, d) ==> UserDecodes(s, u)
  {
    Decodes(s, d);
    hide Good, ValidDevice, AssocKey, UserDecodes, Lookup;
    forall u | u in UserIds(keys, d) ensures UserDecodes(s, u) {
      UserIdsMembers(keys, d, u);
    }
  }

  lemma UserMessagesDecode(s: State, d: string, u: string)
    requires Good(s) && ValidDevice(d) && AssocKey(d, u) in s.enrollments
    ensures UserDecodes(s, u)
  {
    ReadRecord(s, u);
    if IsUserOf(u, d) {
      assert MessagesOwn(Observed(s, u), u);
      hide Row, Lookup, ValidDevice, ValidId, Normalize, DeviceOf, Placed, AssocKey, Associated, OwnKeys;
    } else {
      DisabledMarkInvalid();
      hide ValidDevice, ValidId, DeviceOf, AssocKey, NameKey, MessagesOwn, Placed;
      assert u == ".disabled";
      forall n ensures Lookup(s.users, u, n) == None {
        assert NameKey(u, n) in s.users ==> ValidId(u);
      }
    }
  }

  lemma DelTwice(b: Bucket, id: string, n: Name)
    ensures Del(Del(b, id, n), id, n) == Del(b, id, n)
  {
    hide NameKey;
  }

  lemma PutTwice(b: Bucket, id: string, n: Name, v: Val)
    ensures Put(Put(b, id, n, v), id, n, v) == Put(b, id, n, v)
  {
    hide NameKey;
  }
}
