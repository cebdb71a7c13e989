/** The loop that fetches the next command, on any bucket whatever its links look like: what it answers,
    and exactly when it returns. */
module KvFetch {
  import opened Options
  import opened Strings
  import opened QueueKeys
  import opened QueueList
  import opened QueueMachine

  predicate Skips(m: Store, q: string, u: string, skipNotNow: bool) {
    skipNotNow && Value(m, Status(q, u)) == "NotNow"
  }

  function Delivery(m: Store, u: string): Reply {
    if Encode(Raw(u)) in m && Encode(RequestType(u)) in m then
      Deliver(u, Command(Value(m, RequestType(u)), Value(m, Raw(u))))
    else Failure
  }

  /** The loop at `u`, passing over at most `n` more items; None if it is still going then. */
  function Fetch(m: Store, q: string, skipNotNow: bool, u: string, n: nat): Option<Reply>
    decreases n
  {
    if u == "" then Some(NoCommand)
    else if !Skips(m, q, u, skipNotNow) then Some(Delivery(m, u))
    else if n == 0 then None
    else Fetch(m, q, skipNotNow, Value(m, QueueKey.Next(q, u)), n - 1)
  }

  ghost predicate Returns(m: Store, q: string, skipNotNow: bool) {
    exists n: nat :: Fetch(m, q, skipNotNow, Value(m, First(q)), n).Some?
  }

  ghost function Fetched(m: Store, q: string, skipNotNow: bool): Reply
    requires Returns(m, q, skipNotNow)
  {
    var n: nat :| Fetch(m, q, skipNotNow, Value(m, First(q)), n).Some?;
    Fetch(m, q, skipNotNow, Value(m, First(q)), n).value
  }

  lemma {:induction false} FetchMore(m: Store, q: string, skipNotNow: bool, u: string, n: nat, n': nat)
    requires Fetch(m, q, skipNotNow, u, n).Some? && n <= n'
    ensures Fetch(m, q, skipNotNow, u, n') == Fetch(m, q, skipNotNow, u, n)
    decreases n
  {
    hide Encode, Value, Delivery;
    if u != "" && Skips(m, q, u, skipNotNow) {
      FetchMore(m, q, skipNotNow, Value(m, QueueKey.Next(q, u)), n - 1, n' - 1);
    }
  }

  lemma FetchedIs(m: Store, q: string, skipNotNow: bool, n: nat)
    requires Fetch(m, q, skipNotNow, Value(m, First(q)), n).Some?
    ensures Returns(m, q, skipNotNow)
    ensures Fetch(m, q, skipNotNow, Value(m, First(q)), n) == Some(Fetched(m, q, skipNotNow))
  {
    hide Fetch, Value, Encode;
    var n': nat :| Fetch(m, q, skipNotNow, Value(m, First(q)), n').Some? &&
                   Fetch(m, q, skipNotNow, Value(m, First(q)), n').value == Fetched(m, q, skipNotNow);
    if n <= n' {
      FetchMore(m, q, skipNotNow, Value(m, First(q)), n, n');
    } else {
      FetchMore(m, q, skipNotNow, Value(m, First(q)), n', n);
    }
  }

  // ---------- what following next keys visits ----------

  /** The first items that following next keys from the head visits. */
  predicate Path(m: Store, q: string, t: seq<string>) {
    && (forall i :: 0 <= i < |t| ==> t[i] != "")
    && (t != [] ==> t[0] == Value(m, First(q)))
    && forall i {:trigger Value(m, QueueKey.Next(q, t[i]))} :: 0 <= i < |t| - 1 ==> Value(m, QueueKey.Next(q, t[i])) == t[i + 1]
  }

  function After(m: Store, q: string, t: seq<string>): string {
    if t == [] then Value(m, First(q)) else Value(m, QueueKey.Next(q, t[|t| - 1]))
  }

  /** All it ever visits: it stops after `t`, or comes back to an item of it. */
  predicate Trail(m: Store, q: string, t: seq<string>) {
    Path(m, q, t) && Distinct(t) && (After(m, q, t) == "" || After(m, q, t) in t)
  }

  lemma NextInjective(q: string, u: string, v: string)
    requires Encode(QueueKey.Next(q, u)) == Encode(QueueKey.Next(q, v))
    ensures u == v
  {
    JoinFour(q, u, "queueitem", "next");
    JoinFour(q, v, "queueitem", "next");
    hide Join;
    var a, b := q + "." + u, q + "." + v;
    var tail := ".queueitem" + ".next";
    assert Encode(QueueKey.Next(q, u)) == a + tail;
    assert Encode(QueueKey.Next(q, v)) == b + tail;
    assert |a| == |b|;
    assert a == (a + tail)[..|a|] == (b + tail)[..|b|] == b;
    assert u == a[|q| + 1..] == b[|q| + 1..] == v;
  }

  /** The next keys of all items of a path but the last are different keys of the bucket. */
  lemma {:induction false} PathKeys(m: Store, q: string, t: seq<string>, n: nat) returns (keys: set<string>)
    requires Path(m, q, t) && Distinct(t) && n < |t|
    ensures |keys| == n && keys <= m.Keys
    ensures forall k :: k in keys ==> exists i :: 0 <= i < n && k == Encode(QueueKey.Next(q, t[i]))
  {
    hide Encode;
    if n == 0 {
      keys := {};
    } else {
      var rest := PathKeys(m, q, t, n - 1);
      var k := Encode(QueueKey.Next(q, t[n - 1]));
      assert Value(m, QueueKey.Next(q, t[n - 1])) == t[n];
      if k in rest {
        var i :| 0 <= i < n - 1 && k == Encode(QueueKey.Next(q, t[i]));
        NextInjective(q, t[n - 1], t[i]);
      }
      keys := rest + {k};
    }
  }

  lemma PathShort(m: Store, q: string, t: seq<string>)
    requires Path(m, q, t) && Distinct(t)
    ensures |t| <= |m.Keys| + 1
  {
    hide Encode, Value;
    if t != [] {
      var keys := PathKeys(m, q, t, |t| - 1);
      assert |m.Keys - keys| == |m.Keys| - |keys|;
    }
  }

  lemma {:induction false} TrailFrom(m: Store, q: string, t: seq<string>) returns (r: seq<string>)
    requires Path(m, q, t) && Distinct(t)
    ensures Trail(m, q, r)
    decreases |m.Keys| + 1 - |t|
  {
    hide Encode, Value;
    var u := After(m, q, t);
    if u == "" || u in t {
      r := t;
    } else {
      var t' := t + [u];
      forall i {:trigger Value(m, QueueKey.Next(q, t'[i]))} | 0 <= i < |t'| - 1
        ensures Value(m, QueueKey.Next(q, t'[i])) == t'[i + 1]
      {
        assert i < |t| - 1 ==> Value(m, QueueKey.Next(q, t[i])) == t[i + 1];
      }
      PathShort(m, q, t');
      r := TrailFrom(m, q, t');
    }
  }

  /** Every bucket has a trail for every queue. */
  lemma TrailExists(m: Store, q: string) returns (t: seq<string>)
    ensures Trail(m, q, t)
  {
    hide Encode, Value;
    t := TrailFrom(m, q, []);
  }

  lemma {:induction false} FetchAlong(m: Store, q: string, skipNotNow: bool, t: seq<string>, i: nat)
    requires Path(m, q, t) && i < |t|
    requires After(m, q, t) == "" || exists j :: i <= j < |t| && !Skips(m, q, t[j], skipNotNow)
    ensures Fetch(m, q, skipNotNow, t[i], |t| - i).Some?
    decreases |t| - i
  {
    hide Encode, Value, Delivery;
    if Skips(m, q, t[i], skipNotNow) {
      if i < |t| - 1 {
        assert Value(m, QueueKey.Next(q, t[i])) == t[i + 1];
        FetchAlong(m, q, skipNotNow, t, i + 1);
      }
    }
  }

  lemma {:induction false} FetchCircles(m: Store, q: string, skipNotNow: bool, t: seq<string>, i: nat, n: nat)
    requires Path(m, q, t) && After(m, q, t) in t && i < |t|
    requires forall j :: 0 <= j < |t| ==> Skips(m, q, t[j], skipNotNow)
    ensures Fetch(m, q, skipNotNow, t[i], n).None?
    decreases n
  {
    hide Encode, Value, Delivery, Skips;
    if n > 0 {
      var v := Value(m, QueueKey.Next(q, t[i]));
      if i < |t| - 1 {
        assert v == t[i + 1];
        FetchCircles(m, q, skipNotNow, t, i + 1, n - 1);
      } else {
        var j :| 0 <= j < |t| && t[j] == v;
        FetchCircles(m, q, skipNotNow, t, j, n - 1);
      }
    }
  }

  /** Exactly when a fetch returns, on any bucket: its trail comes to an end, or holds a command that is
      not skipped. */
  lemma ReturnsExactly(m: Store, q: string, skipNotNow: bool, t: seq<string>)
    requires Trail(m, q, t)
    ensures Returns(m, q, skipNotNow) <==> After(m, q, t) == "" || exists u :: u in t && !Skips(m, q, u, skipNotNow)
  {
    hide Encode, Value, Fetch, Skips;
    if t == [] {
      EmptyReturns(m, q, skipNotNow);
    } else if After(m, q, t) == "" || exists u :: u in t && !Skips(m, q, u, skipNotNow) {
      FetchAlong(m, q, skipNotNow, t, 0);
    } else {
      forall n: nat ensures Fetch(m, q, skipNotNow, Value(m, First(q)), n).None? {
        FetchCircles(m, q, skipNotNow, t, 0, n);
      }
    }
  }

  lemma EmptyReturns(m: Store, q: string, skipNotNow: bool)
    requires Value(m, First(q)) == ""
    ensures Returns(m, q, skipNotNow)
  {
    hide Encode, Value;
    assert Fetch(m, q, skipNotNow, Value(m, First(q)), 0).Some?;
  }

  /** A fetch that skips nothing returns from every bucket. */
  lemma NoSkipReturns(m: Store, q: string)
    ensures Returns(m, q, false)
  {
    hide Encode, Value;
    assert Fetch(m, q, false, Value(m, First(q)), 0).Some?;
  }

  /** What a fetch finds on a walk that ends. */
  function Found(m: Store, q: string, t: seq<string>, skipNotNow: bool): Reply {
    if t == [] then NoCommand
    else if Skips(m, q, t[0], skipNotNow) then Found(m, q, t[1..], skipNotNow)
    else Delivery(m, t[0])
  }

  lemma {:induction false} FetchOnWalk(m: Store, q: string, skipNotNow: bool, t: seq<string>, i: nat)
    requires IsWalk(m, q, t) && i <= |t|
    ensures Fetch(m, q, skipNotNow, At(t, i), |t| - i) == Some(Found(m, q, t[i..], skipNotNow))
    decreases |t| - i
  {
    hide Encode, Value, Delivery, Skips, NoDot;
    if i < |t| {
      assert Value(m, QueueKey.Next(q, t[i])) == At(t, i + 1);
      assert t[i..][1..] == t[i + 1..];
      FetchOnWalk(m, q, skipNotNow, t, i + 1);
    }
  }

  lemma WalkReturns(m: Store, q: string, skipNotNow: bool, t: seq<string>)
    requires IsWalk(m, q, t)
    ensures Returns(m, q, skipNotNow) && Fetched(m, q, skipNotNow) == Found(m, q, t, skipNotNow)
  {
    hide Encode, Value, Fetch, Found, NoDot;
    FetchOnWalk(m, q, skipNotNow, t, 0);
    assert t[0..] == t;
    FetchedIs(m, q, skipNotNow, |t|);
  }
}
