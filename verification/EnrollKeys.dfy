/** The key layout of the enrollment buckets: plain keys of enrollments, and keys that associate a
    user channel with its device. */
module EnrollKeys {
  import opened Strings

  const USER_CHANNEL := "user_ch"

  predicate Special(c: char) {
    c == '.' || c == ':'
  }

  /** A device's id is free of the characters that structure ids and keys. */
  predicate ValidDevice(id: string) {
    id != "" && forall i :: 0 <= i < |id| ==> !Special(id[i])
  }

  /** Splits a string before its first special character. */
  function Split(s: string): (string, string) {
    if s == "" || Special(s[0]) then ("", s)
    else
      var (head, rest) := Split(s[1..]);
      ([s[0]] + head, rest)
  }

  /** An enrollment id: a device's, or a device's followed by a colon and the user's. */
  predicate ValidId(id: string) {
    var (head, rest) := Split(id);
    head != "" && (rest == "" || rest[0] == ':')
  }

  function UserId(device: string, user: string): string {
    device + ":" + user
  }

  function DeviceOf(id: string): string {
    Split(id).0
  }

  function AssocPrefix(device: string): string {
    Join([device, USER_CHANNEL]) + [SEPARATOR]
  }

  function AssocKey(device: string, id: string): string {
    Join([device, USER_CHANNEL, id])
  }

  /** The device and user channel an association key names. */
  datatype Assoc = Assoc(device: string, id: string) | NoAssoc

  const ASSOC_MARK := ".user_ch."

  function ReadAssoc(k: string): Assoc {
    var (head, rest) := Split(k);
    if head != "" && ASSOC_MARK <= rest then Assoc(head, rest[|ASSOC_MARK|..]) else NoAssoc
  }

  // ---------- splitting ----------

  lemma {:induction false} SplitAt(device: string, rest: string)
    requires forall i :: 0 <= i < |device| ==> !Special(device[i])
    requires rest == "" || Special(rest[0])
    ensures Split(device + rest) == (device, rest)
  {
    if device == "" {
      assert device + rest == rest;
    } else {
      SplitAt(device[1..], rest);
      assert (device + rest)[1..] == device[1..] + rest;
      assert device == [device[0]] + device[1..];
    }
  }

  lemma {:induction false} SplitJoins(s: string)
    ensures s == Split(s).0 + Split(s).1
    ensures forall i :: 0 <= i < |Split(s).0| ==> !Special(Split(s).0[i])
    ensures Split(s).1 == "" || Special(Split(s).1[0])
  {
    if s != "" && !Special(s[0]) {
      SplitJoins(s[1..]);
    }
  }

  lemma DeviceIsValid(device: string)
    requires ValidDevice(device)
    ensures ValidId(device) && DeviceOf(device) == device
  {
    SplitAt(device, "");
    assert device + "" == device;
  }

  lemma UserIsValid(device: string, user: string)
    requires ValidDevice(device)
    ensures ValidId(UserId(device, user)) && DeviceOf(UserId(device, user)) == device
    ensures !ValidDevice(UserId(device, user))
  {
    SplitAt(device, ":" + user);
    assert UserId(device, user) == device + (":" + user);
    assert Special(UserId(device, user)[|device|]);
  }

  // ---------- plain keys and association keys never meet ----------

  lemma KeyParts(id: string, name: string)
    requires NoDot(name)
    ensures Cut(Key(id, name)) == (id, name)
  {
    JoinTwo(id, name);
    CutJoin(id, name);
  }

  lemma AssocParts(device: string, id: string)
    requires ValidDevice(device)
    ensures ReadAssoc(AssocKey(device, id)) == Assoc(device, id)
    ensures AssocKey(device, id) == AssocPrefix(device) + id
  {
    JoinThree(device, USER_CHANNEL, id);
    JoinTwo(device, USER_CHANNEL);
    assert AssocKey(device, id) == device + (ASSOC_MARK + id);
    SplitAt(device, ASSOC_MARK + id);
    assert (ASSOC_MARK + id)[|ASSOC_MARK|..] == id;
    assert ASSOC_MARK <= ASSOC_MARK + id;
  }

  lemma KeyIsNoAssoc(id: string, name: string)
    requires ValidId(id) && NoDot(name)
    ensures ReadAssoc(Key(id, name)) == NoAssoc
  {
    JoinTwo(id, name);
    SplitJoins(id);
    var (head, rest) := Split(id);
    var tail := rest + "." + name;
    assert Key(id, name) == head + tail;
    SplitAt(head, tail);
    if rest == "" {
      assert tail == "." + name;
      assert |tail| > 8 ==> tail[8] == name[7] && name[7] in name;
      assert ASSOC_MARK[8] == SEPARATOR;
    } else {
      assert tail[0] == ':' != ASSOC_MARK[0];
    }
  }

  /** Every key under a device's prefix is the association key of what follows the prefix. */
  lemma PrefixedIsAssoc(device: string, k: string)
    requires ValidDevice(device) && AssocPrefix(device) <= k
    ensures k == AssocKey(device, k[|AssocPrefix(device)|..])
  {
    AssocParts(device, k[|AssocPrefix(device)|..]);
  }

  /** As written, the cascade over user channels slices the prefix itself out of each key: the keys
      it touches are the association keys of a pseudo channel, not keys of any enrollment. */
  lemma SlicedPrefixKey(device: string, name: string)
    requires ValidDevice(device) && NoDot(name)
    ensures Key(AssocPrefix(device), name) == AssocKey(device, "." + name)
  {
    JoinTwo(AssocPrefix(device), name);
    AssocParts(device, "." + name);
  }

  lemma PseudoIdInvalid(name: string)
    ensures !ValidId("." + name)
  {
    assert Split("." + name) == ("", "." + name);
  }

  /** The layout for all keys at once, in the form the proofs use. */
  lemma Layout()
    ensures forall id: string, name: string {:trigger Key(id, name)} :: NoDot(name) ==> Cut(Key(id, name)) == (id, name)
    ensures forall id: string, name: string {:trigger Key(id, name)} :: ValidId(id) && NoDot(name) ==>
              ReadAssoc(Key(id, name)) == NoAssoc
    ensures forall device: string, id: string {:trigger AssocKey(device, id)} :: ValidDevice(device) ==>
              ReadAssoc(AssocKey(device, id)) == Assoc(device, id)
  {
    forall id: string, name: string | NoDot(name) ensures Cut(Key(id, name)) == (id, name) {
      KeyParts(id, name);
    }
    forall id: string, name: string | ValidId(id) && NoDot(name) ensures ReadAssoc(Key(id, name)) == NoAssoc {
      KeyIsNoAssoc(id, name);
    }
    forall device: string, id: string | ValidDevice(device)
      ensures ReadAssoc(AssocKey(device, id)) == Assoc(device, id)
    {
      AssocParts(device, id);
    }
  }
}
