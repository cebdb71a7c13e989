/** The doubly linked list kept inside the queue bucket: pointers are strings stored under
    per-item keys, an absent key and an empty string both mean "no item". */
module QueueList {
  import opened Strings
  import opened QueueKeys

  type Bytes = string
  type Store = map<string, Bytes>

  predicate ValidUuid(u: string) {
    u != "" && NoDot(u)
  }

  /** The stored bytes as a string, empty when the key is absent. */
  function Value(m: Store, k: QueueKey): Bytes {
    if Encode(k) in m then m[Encode(k)] else ""
  }

  // ---------- the operations as functions of the bucket ----------

  /** The bucket after `unlink` of `id` as the code performs it. */
  function Unlinked(m: Store, q: string, id: string): Store {
    var prev := Value(m, Prev(q, id));
    var next := Value(m, Next(q, id));
    var stitched :=
      if prev == "" && next == "" then m - {Encode(Last(q)), Encode(First(q))}
      else if prev == "" then m[Encode(First(q)) := next] - {Encode(Prev(q, next))}
      else if next == "" then m[Encode(Last(q)) := prev]
      else m[Encode(Next(q, prev)) := next][Encode(Prev(q, next)) := prev];
    stitched - {Encode(Prev(q, id)), Encode(Next(q, id))}
  }

  /** Repaired variant: when the tail is unlinked, the previous item's next key goes as well. */
  function UnlinkedRepaired(m: Store, q: string, id: string): Store {
    var prev := Value(m, Prev(q, id));
    var next := Value(m, Next(q, id));
    var m' := Unlinked(m, q, id);
    if prev != "" && next == "" then m' - {Encode(Next(q, prev))} else m'
  }

  /** The bucket after `enqueue` of `id`. */
  function Enqueued(m: Store, q: string, id: string): Store {
    var last := Value(m, Last(q));
    if last == "" then m[Encode(First(q)) := id][Encode(Last(q)) := id]
    else m[Encode(Next(q, last)) := id][Encode(Prev(q, id)) := last][Encode(Last(q)) := id]
  }

  // ---------- the sequence a bucket represents ----------

  predicate Distinct(s: seq<string>) {
    forall i, j :: 0 <= i < j < |s| ==> s[i] != s[j]
  }

  /** The item at an index, empty outside the sequence. */
  function At(s: seq<string>, i: int): string {
    if 0 <= i < |s| then s[i] else ""
  }

  predicate Members(s: seq<string>) {
    Distinct(s) && forall i :: 0 <= i < |s| ==> ValidUuid(s[i])
  }

  predicate NextLinks(m: Store, q: string, s: seq<string>) {
    forall i {:trigger Value(m, Next(q, s[i]))} :: 0 <= i < |s| ==> Value(m, Next(q, s[i])) == At(s, i + 1)
  }

  predicate PrevLinks(m: Store, q: string, s: seq<string>) {
    forall i {:trigger Value(m, Prev(q, s[i]))} :: 0 <= i < |s| ==> Value(m, Prev(q, s[i])) == At(s, i - 1)
  }

  /** The bucket holds exactly the list `s` for queue `q`: heads and both link directions agree. */
  predicate IsList(m: Store, q: string, s: seq<string>) {
    && Members(s)
    && Value(m, First(q)) == At(s, 0)
    && Value(m, Last(q)) == At(s, |s| - 1)
    && NextLinks(m, q, s)
    && PrevLinks(m, q, s)
  }

  /** What following `next` from `first` visits, ignoring `last` and `prev`. */
  predicate IsWalk(m: Store, q: string, t: seq<string>) {
    && (forall i :: 0 <= i < |t| ==> ValidUuid(t[i]))
    && Value(m, First(q)) == At(t, 0)
    && NextLinks(m, q, t)
  }

  ghost predicate WalkEnds(m: Store, q: string) {
    exists t :: IsWalk(m, q, t)
  }

  function Without(s: seq<string>, u: string): (r: seq<string>)
    ensures u !in r || !Distinct(s)
  {
    if s == [] then []
    else if s[0] == u then s[1..]
    else [s[0]] + Without(s[1..], u)
  }

  function IndexOf(s: seq<string>, u: string): (i: nat)
    requires u in s
    ensures i < |s| && s[i] == u && u !in s[..i]
  {
    if s[0] == u then 0 else 1 + IndexOf(s[1..], u)
  }

  lemma {:induction false} WithoutAt(s: seq<string>, i: nat)
    requires i < |s| && Distinct(s)
    ensures Without(s, s[i]) == s[..i] + s[i + 1..]
  {
    if i > 0 {
      WithoutAt(s[1..], i - 1);
      assert s[1..][..i - 1] == s[1..i];
      assert s[1..][i..] == s[i + 1..];
    }
  }

  // ---------- frames ----------

  /** The keys an operation on queue `q` about the items `us` may change. */
  predicate Touches(k: QueueKey, q: string, us: set<string>) {
    || k == First(q)
    || k == Last(q)
    || ((k.Next? || k.Prev?) && k.queue == q && k.uuid in us)
  }

  ghost predicate SameExcept(m: Store, m': Store, q: string, us: set<string>) {
    forall k: QueueKey :: Plain(k) && !Touches(k, q, us) ==>
      && (Encode(k) in m <==> Encode(k) in m')
      && Value(m, k) == Value(m', k)
  }

  function Items(s: seq<string>): set<string> {
    set u | u in s
  }

  // ---------- the operations key by key ----------

  /** What a key holds after `unlink`, given what it held before. */
  function UnlinkedValue(m: Store, q: string, id: string, k: QueueKey): Bytes {
    var prev := Value(m, Prev(q, id));
    var next := Value(m, Next(q, id));
    if k == Prev(q, id) || k == Next(q, id) then ""
    else if prev == "" && next == "" then
      if k == First(q) || k == Last(q) then "" else Value(m, k)
    else if prev == "" then
      if k == Prev(q, next) then "" else if k == First(q) then next else Value(m, k)
    else if next == "" then
      if k == Last(q) then prev else Value(m, k)
    else
      if k == Prev(q, next) then prev else if k == Next(q, prev) then next else Value(m, k)
  }

  ghost predicate PlainNeighbours(m: Store, q: string, id: string) {
    NoDot(id) && NoDot(Value(m, Prev(q, id))) && NoDot(Value(m, Next(q, id)))
  }

  lemma UnlinkKeys(m: Store, q: string, id: string)
    requires PlainNeighbours(m, q, id)
    ensures forall k: QueueKey :: Plain(k) ==> Value(Unlinked(m, q, id), k) == UnlinkedValue(m, q, id, k)
    ensures SameExcept(m, Unlinked(m, q, id), q, {id} + ({Value(m, Prev(q, id)), Value(m, Next(q, id))} - {""}))
  {
    hide Encode, Decode;
    Layout();
  }

  function EnqueuedValue(m: Store, q: string, id: string, k: QueueKey): Bytes {
    var last := Value(m, Last(q));
    if k == Last(q) then id
    else if last == "" then if k == First(q) then id else Value(m, k)
    else if k == Prev(q, id) then last else if k == Next(q, last) then id else Value(m, k)
  }

  lemma EnqueueKeys(m: Store, q: string, id: string)
    requires NoDot(id) && NoDot(Value(m, Last(q)))
    ensures forall k: QueueKey :: Plain(k) ==> Value(Enqueued(m, q, id), k) == EnqueuedValue(m, q, id, k)
    ensures SameExcept(m, Enqueued(m, q, id), q, {id} + ({Value(m, Last(q))} - {""}))
  {
    hide Encode, Decode;
    Layout();
  }

  // ---------- the list refines a sequence ----------

  lemma {:induction false} WalkPrefix(m: Store, q: string, s: seq<string>, t: seq<string>, i: nat)
    requires IsWalk(m, q, s) && IsWalk(m, q, t)
    requires i <= |s| && i <= |t|
    ensures s[..i] == t[..i] && At(s, i) == At(t, i)
  {
    hide Value, Encode;
    if i > 0 {
      WalkPrefix(m, q, s, t, i - 1);
      assert s[i - 1] == t[i - 1];
      assert At(s, i) == Value(m, Next(q, s[i - 1])) == At(t, i);
    }
  }

  /** A bucket represents at most one sequence. */
  lemma WalkUnique(m: Store, q: string, s: seq<string>, t: seq<string>)
    requires IsWalk(m, q, s) && IsWalk(m, q, t)
    ensures s == t
  {
    hide Value, Encode;
    WalkPrefix(m, q, s, t, if |s| <= |t| then |s| else |t|);
  }

  /** Neighbours of an item are at the indices beside it. */
  lemma Neighbours(m: Store, q: string, s: seq<string>, id: string)
    requires IsList(m, q, s) && id in s
    ensures var i := IndexOf(s, id);
            Value(m, Prev(q, id)) == At(s, i - 1) && Value(m, Next(q, id)) == At(s, i + 1)
    ensures PlainNeighbours(m, q, id)
  {
    hide Encode, Value;
    assert s[IndexOf(s, id)] == id;
  }

  /** `unlink` as written removes exactly the named item, except for the tail of a longer list. */
  lemma UnlinkMember(m: Store, q: string, s: seq<string>, id: string)
    requires IsList(m, q, s) && id in s
    requires id != s[|s| - 1] || |s| == 1
    ensures IsList(Unlinked(m, q, id), q, Without(s, id))
  {
    hide Encode, Decode, Value, Unlinked, ValidUuid;
    Neighbours(m, q, s, id);
    var i := IndexOf(s, id);
    WithoutAt(s, i);
    UnlinkKeys(m, q, id);
    UnlinkAt(m, Unlinked(m, q, id), q, s, i);
  }

  ghost predicate KeyByKey(m: Store, m': Store, q: string, id: string) {
    forall k: QueueKey :: Plain(k) ==> Value(m', k) == UnlinkedValue(m, q, id, k)
  }

  lemma UnlinkNext(m: Store, m': Store, q: string, s: seq<string>, i: nat)
    requires IsList(m, q, s) && i < |s| && (i < |s| - 1 || |s| == 1)
    requires KeyByKey(m, m', q, s[i])
    ensures NextLinks(m', q, s[..i] + s[i + 1..])
  {
    hide Encode, Decode, Value, NoDot;
    var t := s[..i] + s[i + 1..];
    assert Value(m, Next(q, s[i])) == At(s, i + 1);
    assert Value(m, Prev(q, s[i])) == At(s, i - 1);
    forall j {:trigger Value(m', Next(q, t[j]))} | 0 <= j < |t|
      ensures Value(m', Next(q, t[j])) == At(t, j + 1)
    {
      var o := if j < i then j else j + 1;
      assert t[j] == s[o];
      assert Value(m, Next(q, s[o])) == At(s, o + 1);
    }
  }

  lemma UnlinkPrev(m: Store, m': Store, q: string, s: seq<string>, i: nat)
    requires IsList(m, q, s) && i < |s| && (i < |s| - 1 || |s| == 1)
    requires KeyByKey(m, m', q, s[i])
    ensures PrevLinks(m', q, s[..i] + s[i + 1..])
  {
    hide Encode, Decode, Value, NoDot;
    var t := s[..i] + s[i + 1..];
    assert Value(m, Next(q, s[i])) == At(s, i + 1);
    assert Value(m, Prev(q, s[i])) == At(s, i - 1);
    forall j {:trigger Value(m', Prev(q, t[j]))} | 0 <= j < |t|
      ensures Value(m', Prev(q, t[j])) == At(t, j - 1)
    {
      var o := if j < i then j else j + 1;
      assert t[j] == s[o];
      assert Value(m, Prev(q, s[o])) == At(s, o - 1);
    }
  }

  lemma UnlinkAt(m: Store, m': Store, q: string, s: seq<string>, i: nat)
    requires IsList(m, q, s) && i < |s| && (i < |s| - 1 || |s| == 1)
    requires KeyByKey(m, m', q, s[i])
    ensures IsList(m', q, s[..i] + s[i + 1..])
  {
    UnlinkNext(m, m', q, s, i);
    UnlinkPrev(m, m', q, s, i);
    hide Encode, Decode, Value, NoDot;
    assert Value(m, Next(q, s[i])) == At(s, i + 1);
    assert Value(m, Prev(q, s[i])) == At(s, i - 1);
    hide NextLinks, PrevLinks;
    var t := s[..i] + s[i + 1..];
    assert |s| > 1 ==> t[|t| - 1] == s[|s| - 1];
  }

  /** After unlinking the tail of a longer list as written, the previous item's next key still
      names the removed tail: the walk is unchanged while `last` has moved. */
  lemma UnlinkTail(m: Store, q: string, s: seq<string>)
    requires IsList(m, q, s) && |s| > 1
    ensures var m' := Unlinked(m, q, s[|s| - 1]);
            && IsWalk(m', q, s)
            && Value(m', Last(q)) == s[|s| - 2]
            && Value(m', Prev(q, s[|s| - 1])) == Value(m', Next(q, s[|s| - 1])) == ""
  {
    hide Encode, Decode, Value, Unlinked, NoDot;
    var n := |s|;
    var z := s[n - 1];
    Neighbours(m, q, s, z);
    assert IndexOf(s, z) == n - 1;
    UnlinkKeys(m, q, z);
    var m' := Unlinked(m, q, z);
    forall j {:trigger Value(m', Next(q, s[j]))} | 0 <= j < |s|
      ensures Value(m', Next(q, s[j])) == At(s, j + 1)
    {
      assert Value(m, Next(q, s[j])) == At(s, j + 1);
    }
  }

  /** Such a bucket represents no list at all. */
  lemma UnlinkTailBreaks(m: Store, q: string, s: seq<string>, t: seq<string>)
    requires IsList(m, q, s) && |s| > 1
    ensures !IsList(Unlinked(m, q, s[|s| - 1]), q, t)
  {
    hide Encode, Decode, Value, Unlinked, NoDot;
    var m' := Unlinked(m, q, s[|s| - 1]);
    UnlinkTail(m, q, s);
    if IsList(m', q, t) {
      WalkUnique(m', q, s, t);
    }
  }

  /** Unlinking an id that is not linked takes the "only item" branch and empties the list. */
  lemma UnlinkStranger(m: Store, q: string, s: seq<string>, id: string)
    requires IsList(m, q, s) && id !in s && NoDot(id)
    requires Value(m, Prev(q, id)) == Value(m, Next(q, id)) == ""
    ensures IsList(Unlinked(m, q, id), q, [])
  {
    hide Encode, Decode, Value, Unlinked;
    UnlinkKeys(m, q, id);
  }

  /** When unlinking an id that is not in the list leaves the list alone, by what the id's own link keys
      say: without any, when the list is empty; with one, when it names the end that is there already;
      with both, when they name neighbours in the list or nothing in it. */
  predicate StrangerHarmless(m: Store, q: string, s: seq<string>, id: string) {
    var p, n := Value(m, Prev(q, id)), Value(m, Next(q, id));
    if p == "" && n == "" then s == []
    else if p == "" then At(s, 0) == n
    else if n == "" then At(s, |s| - 1) == p
    else (p in s <==> n in s) && (p in s ==> At(s, IndexOf(s, p) + 1) == n)
  }

  /** When unlinking an id, in the list or not, leaves exactly the list without it. */
  predicate UnlinkRight(m: Store, q: string, s: seq<string>, id: string) {
    if id in s then |s| == 1 || id != s[|s| - 1] else StrangerHarmless(m, q, s, id)
  }

  lemma StrangerNext(m: Store, m': Store, q: string, s: seq<string>, id: string)
    requires Members(s) && NextLinks(m, q, s) && id !in s && StrangerHarmless(m, q, s, id) && KeyByKey(m, m', q, id)
    ensures NextLinks(m', q, s)
  {
    hide Encode, Decode, Value, NoDot;
    forall i {:trigger Value(m', Next(q, s[i]))} | 0 <= i < |s|
      ensures Value(m', Next(q, s[i])) == At(s, i + 1)
    {
      assert Value(m, Next(q, s[i])) == At(s, i + 1);
    }
  }

  lemma StrangerPrev(m: Store, m': Store, q: string, s: seq<string>, id: string)
    requires Members(s) && PrevLinks(m, q, s) && id !in s && StrangerHarmless(m, q, s, id) && KeyByKey(m, m', q, id)
    ensures PrevLinks(m', q, s)
  {
    hide Encode, Decode, Value, NoDot;
    forall i {:trigger Value(m', Prev(q, s[i]))} | 0 <= i < |s|
      ensures Value(m', Prev(q, s[i])) == At(s, i - 1)
    {
      assert Value(m, Prev(q, s[i])) == At(s, i - 1);
    }
  }

  lemma StrangerKeeps(m: Store, q: string, s: seq<string>, id: string)
    requires IsList(m, q, s) && id !in s && PlainNeighbours(m, q, id) && StrangerHarmless(m, q, s, id)
    ensures IsList(Unlinked(m, q, id), q, s)
  {
    UnlinkKeys(m, q, id);
    StrangerNext(m, Unlinked(m, q, id), q, s, id);
    StrangerPrev(m, Unlinked(m, q, id), q, s, id);
    hide Encode, Decode, Value, Unlinked, NoDot, NextLinks, PrevLinks;
  }

  lemma StrangerBreaks(m: Store, q: string, s: seq<string>, id: string)
    requires IsList(m, q, s) && id !in s && PlainNeighbours(m, q, id) && IsList(Unlinked(m, q, id), q, s)
    ensures StrangerHarmless(m, q, s, id)
  {
    hide Encode, Decode, Value, Unlinked, NoDot;
    var m' := Unlinked(m, q, id);
    UnlinkKeys(m, q, id);
    var p, n := Value(m, Prev(q, id)), Value(m, Next(q, id));
    if p != "" && n != "" {
      if p in s {
        assert Value(m', Next(q, s[IndexOf(s, p)])) == At(s, IndexOf(s, p) + 1);
      }
      if n in s {
        assert Value(m', Prev(q, s[IndexOf(s, n)])) == At(s, IndexOf(s, n) - 1);
      }
    }
  }

  /** Exactly when `unlink` as written leaves the list without the id: for a linked id, when it is not
      the tail of a longer list; for any other id, whatever link keys it has left over, when those keys
      say nothing new. */
  lemma UnlinkExact(m: Store, q: string, s: seq<string>, id: string)
    requires IsList(m, q, s) && PlainNeighbours(m, q, id)
    ensures IsList(Unlinked(m, q, id), q, Without(s, id)) <==> UnlinkRight(m, q, s, id)
  {
    hide Encode, Decode, Value, Unlinked, NoDot, IsList, StrangerHarmless, PlainNeighbours;
    if id !in s {
      WithoutStranger(s, id);
      if StrangerHarmless(m, q, s, id) {
        StrangerKeeps(m, q, s, id);
      } else if IsList(Unlinked(m, q, id), q, s) {
        StrangerBreaks(m, q, s, id);
      }
    } else if |s| == 1 || id != s[|s| - 1] {
      UnlinkMember(m, q, s, id);
    } else {
      UnlinkTailBreaks(m, q, s, Without(s, id));
    }
  }

  lemma {:induction false} WithoutStranger(s: seq<string>, u: string)
    requires u !in s
    ensures Without(s, u) == s
  {
    if s != [] {
      WithoutStranger(s[1..], u);
    }
  }

  /** A tail unlinked as written is delivered again; acknowledging it again drops every other
      item of the list. */
  lemma TailUnlinkedTwiceLosesQueue(m: Store, q: string, s: seq<string>)
    requires IsList(m, q, s) && |s| > 1
    ensures var z := s[|s| - 1];
            var m1 := Unlinked(m, q, z);
            IsWalk(m1, q, s) && IsList(Unlinked(m1, q, z), q, [])
  {
    hide Encode, Decode, Value, Unlinked;
    var z := s[|s| - 1];
    UnlinkTail(m, q, s);
    UnlinkKeys(Unlinked(m, q, z), q, z);
  }

  /** The repaired `unlink` removes exactly the named item wherever it is in the list. */
  lemma UnlinkRepairedMember(m: Store, q: string, s: seq<string>, id: string)
    requires IsList(m, q, s) && id in s
    ensures IsList(UnlinkedRepaired(m, q, id), q, Without(s, id))
  {
    var i := IndexOf(s, id);
    if i == |s| - 1 && |s| > 1 {
      RepairedAtTail(m, q, s);
    } else {
      RepairedAsWritten(m, q, s, id);
      UnlinkMember(m, q, s, id);
    }
  }

  /** For an id that is not linked the repaired variant is right exactly when `unlink` as written is. */
  lemma UnlinkRepairedStranger(m: Store, q: string, s: seq<string>, id: string)
    requires IsList(m, q, s) && id !in s && PlainNeighbours(m, q, id)
    ensures IsList(UnlinkedRepaired(m, q, id), q, s) <==> StrangerHarmless(m, q, s, id)
  {
    hide Encode, Decode, Value, Unlinked, UnlinkedRepaired, NoDot, StrangerHarmless;
    var p, n := Value(m, Prev(q, id)), Value(m, Next(q, id));
    RepairedKeys(m, q, id);
    if p != "" && n == "" {
      RepairedStrangerTail(m, UnlinkedRepaired(m, q, id), q, s, id, p);
    } else {
      UnlinkExact(m, q, s, id);
      WithoutStranger(s, id);
    }
  }

  lemma RepairedStrangerTail(m: Store, m': Store, q: string, s: seq<string>, id: string, p: string)
    requires IsList(m, q, s) && id !in s && NoDot(p)
    requires p == Value(m, Prev(q, id)) != "" && Value(m, Next(q, id)) == ""
    requires forall k: QueueKey :: Plain(k) ==> Value(m', k) == if k == Next(q, p) then "" else UnlinkedValue(m, q, id, k)
    ensures IsList(m', q, s) <==> StrangerHarmless(m, q, s, id)
  {
    hide Encode, Decode, Value, Unlinked, NoDot;
    if At(s, |s| - 1) == p {
      forall i {:trigger Value(m', Next(q, s[i]))} | 0 <= i < |s|
        ensures Value(m', Next(q, s[i])) == At(s, i + 1)
      {
        assert Value(m, Next(q, s[i])) == At(s, i + 1);
      }
      forall i {:trigger Value(m', Prev(q, s[i]))} | 0 <= i < |s|
        ensures Value(m', Prev(q, s[i])) == At(s, i - 1)
      {
        assert Value(m, Prev(q, s[i])) == At(s, i - 1);
      }
    }
  }

  lemma RepairedAsWritten(m: Store, q: string, s: seq<string>, id: string)
    requires IsList(m, q, s) && id in s && (id != s[|s| - 1] || |s| == 1)
    ensures UnlinkedRepaired(m, q, id) == Unlinked(m, q, id)
  {
    hide Encode, Value, Unlinked, NoDot;
    Neighbours(m, q, s, id);
    var i: int := IndexOf(s, id);
    assert At(s, i - 1) == "" || At(s, i + 1) != "";
  }

  lemma RepairedAtTail(m: Store, q: string, s: seq<string>)
    requires IsList(m, q, s) && |s| > 1
    ensures IsList(UnlinkedRepaired(m, q, s[|s| - 1]), q, Without(s, s[|s| - 1]))
  {
    hide Encode, Decode, Value, Unlinked, NoDot, UnlinkedRepaired, UnlinkedValue;
    var n := |s|;
    Neighbours(m, q, s, s[n - 1]);
    assert IndexOf(s, s[n - 1]) == n - 1;
    RepairedKeys(m, q, s[n - 1]);
    WithoutAt(s, n - 1);
    assert s[..n - 1] + s[n..] == s[..n - 1];
    assert At(s, n - 2) == s[n - 2] != "" && At(s, n) == "";
    UnlinkRepairedTail(m, UnlinkedRepaired(m, q, s[n - 1]), q, s);
  }

  lemma UnlinkRepairedTail(m: Store, m': Store, q: string, s: seq<string>)
    requires IsList(m, q, s) && |s| > 1
    requires forall k: QueueKey :: Plain(k) ==>
               Value(m', k) == if k == Next(q, s[|s| - 2]) then "" else UnlinkedValue(m, q, s[|s| - 1], k)
    ensures IsList(m', q, s[..|s| - 1])
  {
    hide Encode, Decode, Value, NoDot;
    var n := |s|;
    var t := s[..n - 1];
    assert Value(m, Next(q, s[n - 1])) == At(s, n) == "";
    assert Value(m, Prev(q, s[n - 1])) == At(s, n - 2) == t[n - 2];
    forall j {:trigger Value(m', Next(q, t[j]))} | 0 <= j < |t|
      ensures Value(m', Next(q, t[j])) == At(t, j + 1)
    {
      assert Value(m, Next(q, s[j])) == At(s, j + 1);
    }
    forall j {:trigger Value(m', Prev(q, t[j]))} | 0 <= j < |t|
      ensures Value(m', Prev(q, t[j])) == At(t, j - 1)
    {
      assert Value(m, Prev(q, s[j])) == At(s, j - 1);
    }
    assert At(t, 0) == At(s, 0);
  }

  lemma RepairedKeys(m: Store, q: string, id: string)
    requires PlainNeighbours(m, q, id)
    ensures var prev := Value(m, Prev(q, id));
            var tail := prev != "" && Value(m, Next(q, id)) == "";
            && (!tail ==> UnlinkedRepaired(m, q, id) == Unlinked(m, q, id))
            && (tail ==> forall k: QueueKey :: Plain(k) ==>
                  Value(UnlinkedRepaired(m, q, id), k) ==
                  if k == Next(q, prev) then "" else UnlinkedValue(m, q, id, k))
    ensures SameExcept(m, UnlinkedRepaired(m, q, id), q, {id} + ({Value(m, Prev(q, id)), Value(m, Next(q, id))} - {""}))
  {
    hide Encode, Decode, Unlinked;
    UnlinkKeys(m, q, id);
    Layout();
  }

  /** `enqueue` appends, and keeps the bucket a list exactly when the id is not linked already;
      enqueueing a linked id leaves a bucket that represents no list. */
  lemma EnqueueExact(m: Store, q: string, s: seq<string>, id: string)
    requires IsList(m, q, s) && ValidUuid(id)
    requires id !in s ==> Value(m, Prev(q, id)) == Value(m, Next(q, id)) == ""
    ensures id !in s ==> IsList(Enqueued(m, q, id), q, s + [id])
    ensures (exists t :: IsList(Enqueued(m, q, id), q, t)) <==> id !in s
  {
    assert NoDot("");
    hide Encode, Decode, Value, Enqueued, NoDot;
    assert s != [] ==> At(s, |s| - 1) == s[|s| - 1];
    EnqueueKeys(m, q, id);
    var m' := Enqueued(m, q, id);
    if id !in s {
      EnqueueAppends(m, m', q, s, id);
    } else {
      forall t ensures !IsList(m', q, t) {
        EnqueueLinkedBreaks(m, q, s, id, t);
      }
    }
  }

  lemma EnqueueLinkedBreaks(m: Store, q: string, s: seq<string>, id: string, t: seq<string>)
    requires IsList(m, q, s) && id in s
    ensures !IsList(Enqueued(m, q, id), q, t)
  {
    hide Encode, Decode, Value, Enqueued, NoDot;
    var n := |s|;
    assert At(s, n - 1) == s[n - 1];
    EnqueueKeys(m, q, id);
    var m' := Enqueued(m, q, id);
    var i := IndexOf(s, id);
    assert Value(m, Next(q, s[i])) == At(s, i + 1);
    assert i < n - 1 ==> s[i + 1] != "";
    assert Value(m', Next(q, id)) != "";
    assert Value(m', Last(q)) == id != "";
    assert At(t, |t| - 1) == id ==> Value(m', Next(q, t[|t| - 1])) != At(t, |t|);
  }

  lemma EnqueueAppends(m: Store, m': Store, q: string, s: seq<string>, id: string)
    requires IsList(m, q, s) && ValidUuid(id) && id !in s
    requires Value(m, Prev(q, id)) == Value(m, Next(q, id)) == ""
    requires forall k: QueueKey :: Plain(k) ==> Value(m', k) == EnqueuedValue(m, q, id, k)
    ensures IsList(m', q, s + [id])
  {
    hide Encode, Decode, Value, Enqueued, NoDot;
    var t := s + [id];
    assert s != [] ==> At(s, |s| - 1) == s[|s| - 1];
    forall j {:trigger Value(m', Next(q, t[j]))} | 0 <= j < |t|
      ensures Value(m', Next(q, t[j])) == At(t, j + 1)
    {
      if j < |s| {
        assert t[j] == s[j];
        assert Value(m, Next(q, s[j])) == At(s, j + 1);
      }
    }
    forall j {:trigger Value(m', Prev(q, t[j]))} | 0 <= j < |t|
      ensures Value(m', Prev(q, t[j])) == At(t, j - 1)
    {
      if j < |s| {
        assert t[j] == s[j];
        assert Value(m, Prev(q, s[j])) == At(s, j - 1);
      }
    }
    assert Distinct(t);
    assert At(t, 0) == if s == [] then id else At(s, 0);
  }
}
