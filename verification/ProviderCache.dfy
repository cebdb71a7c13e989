/** The cache of push providers against the store of push certificates: many calls look a provider
    up while certificates are replaced, and a stale token tells them apart. */
module ProviderCache {
  import opened Options
  import opened Strings

  type Bytes = string
  type Store = map<string, Bytes>

  datatype Cert = Cert(pem: Bytes, key: Bytes)

  /** A provider is known by the certificate it was built from. */
  datatype Provider = Provider(cert: Cert)

  datatype Cached = Cached(provider: Provider, staleToken: string)

  // ---------- the certificate store ----------

  /** The token a newly stored certificate gets. */
  function NextToken(m: Store, topic: string): int {
    if Key(topic, "stale_token") !in m then 0
    else match Atoi(m[Key(topic, "stale_token")]) case Number(n) => n + 1 case NotANumber => 0
  }

  function Stored(m: Store, topic: string, c: Cert, token: string): Store {
    m[Key(topic, "pem") := c.pem][Key(topic, "key") := c.key][Key(topic, "stale_token") := token]
  }

  predicate HasCert(m: Store, topic: string) {
    Key(topic, "pem") in m && Key(topic, "key") in m && Key(topic, "stale_token") in m
  }

  function CertAt(m: Store, topic: string): Cert
    requires HasCert(m, topic)
  {
    Cert(m[Key(topic, "pem")], m[Key(topic, "key")])
  }

  function TokenAt(m: Store, topic: string): string
    requires HasCert(m, topic)
  {
    m[Key(topic, "stale_token")]
  }

  lemma StoredKeys(m: Store, topic: string, c: Cert, token: string, topic': string)
    ensures var m' := Stored(m, topic, c, token);
            && HasCert(m', topic) && CertAt(m', topic) == c && TokenAt(m', topic) == token
            && (topic' != topic ==>
                  && (forall name | name in ["pem", "key", "stale_token"] ::
                        Key(topic', name) in m' <==> Key(topic', name) in m)
                  && (HasCert(m, topic') ==> CertAt(m', topic') == CertAt(m, topic') && TokenAt(m', topic') == TokenAt(m, topic')))
  {
    hide Key;
    forall a, b | a in ["pem", "key", "stale_token"] && b in ["pem", "key", "stale_token"]
      ensures (Key(topic, a) == Key(topic, b) <==> a == b) && (Key(topic, a) == Key(topic', b) ==> topic == topic')
    {
      KeyInjective(topic, a, topic, b);
      KeyInjective(topic, a, topic', b);
    }
  }

  // ---------- calls interleaved with certificate changes ----------

  /** A value read from the store, and how many certificates the topic had seen by then. */
  datatype Part = Part(v: Bytes, at: nat)

  /** A cached provider and its token, with how many certificates the topic had seen when the certificate,
      its key and the token were read. */
  datatype Entry = Entry(cached: Cached, pemAt: nat, keyAt: nat, tokenAt: nat)

  /** No certificate of the topic was stored between the first and the last of the three reads. */
  predicate Whole(e: Entry) {
    e.pemAt == e.keyAt == e.tokenAt
  }

  /** Where a call to getProvider stands. `since` and `until` record how many certificates its
      topic had seen when the call began and when it returned. */
  datatype Call =
    | Begun(topic: string, since: nat)
    | Checking(topic: string, since: nat, entry: Entry)
    | Fetching(topic: string, since: nat, pem: Option<Part>, key: Option<Part>, token: Option<Part>)
    | Fetched(topic: string, since: nat, entry: Entry)
    | Returned(topic: string, since: nat, until: nat, entry: Entry)
    | Failed(topic: string, since: nat)

  /** `history` records, per topic, every certificate ever stored. */
  datatype System = System(
    store: Store,
    providers: map<string, Entry>,
    calls: map<nat, Call>,
    history: map<string, seq<Cert>>
  ) {
    function History(topic: string): seq<Cert> {
      if topic in history then history[topic] else []
    }
  }

  const START := System(map[], map[], map[], map[])

  datatype CertPart = Pem | PrivateKey | StaleToken

  function PartName(p: CertPart): string {
    match p
    case Pem => "pem"
    case PrivateKey => "key"
    case StaleToken => "stale_token"
  }

  datatype Event =
    | StorePushCert(topic: string, cert: Cert)
    | Call(id: nat, topic: string)
    | ReadCache(id: nat)
    | CheckStale(id: nat)
    | Read(id: nat, part: CertPart)
    | Install(id: nat)
    | Fail(id: nat)

  predicate Unread(c: Call, p: CertPart) {
    && c.Fetching?
    && match p
       case Pem => c.pem.None?
       case PrivateKey => c.key.None?
       case StaleToken => c.token.None?
  }

  predicate Fits(c: Call, e: Event) {
    match e
    case ReadCache(_) => c.Begun?
    case CheckStale(_) => c.Checking?
    case Read(_, p) => Unread(c, p)
    case Install(_) => c.Fetched?
    case Fail(_) => c.Checking? || c.Fetching? || c.Fetched?
    case _ => false
  }

  predicate Possible(s: System, e: Event) {
    match e
    case StorePushCert(_, _) => true
    case Call(id, _) => id !in s.calls
    case _ => e.id in s.calls && Fits(s.calls[e.id], e)
  }

  function WithPart(c: Call, p: CertPart, v: Part): Call
    requires Unread(c, p)
  {
    match p
    case Pem => c.(pem := Some(v))
    case PrivateKey => c.(key := Some(v))
    case StaleToken => c.(token := Some(v))
  }

  /** With all three parts read, the provider can be built. */
  function Completed(c: Call): Call
    requires c.Fetching?
  {
    if c.pem.Some? && c.key.Some? && c.token.Some? then
      Fetched(c.topic, c.since, Entry(Cached(Provider(Cert(c.pem.value.v, c.key.value.v)), c.token.value.v),
                                      c.pem.value.at, c.key.value.at, c.token.value.at))
    else c
  }

  /** Where a call stands after its next piece. */
  function Advanced(s: System, c: Call, e: Event): Call
    requires Fits(c, e)
  {
    match e
    case ReadCache(_) =>
      if c.topic in s.providers then Checking(c.topic, c.since, s.providers[c.topic])
      else Fetching(c.topic, c.since, None, None, None)
    case CheckStale(_) =>
      if Key(c.topic, "stale_token") !in s.store then Failed(c.topic, c.since)
      else if c.entry.cached.staleToken != s.store[Key(c.topic, "stale_token")] then Fetching(c.topic, c.since, None, None, None)
      else Returned(c.topic, c.since, |s.History(c.topic)|, c.entry)
    case Read(_, p) =>
      var k := Key(c.topic, PartName(p));
      if k in s.store then Completed(WithPart(c, p, Part(s.store[k], |s.History(c.topic)|)))
      else Failed(c.topic, c.since)
    case Install(_) => Returned(c.topic, c.since, |s.History(c.topic)|, c.entry)
    case _ => Failed(c.topic, c.since)
  }

  /** One atomic piece of the program: a store transaction, a locked access to the cache, or the read of
      one key of the store. */
  function Next(s: System, e: Event): System
    requires Possible(s, e)
  {
    match e
    case StorePushCert(topic, c) =>
      s.(store := Stored(s.store, topic, c, Print(NextToken(s.store, topic))),
         history := s.history[topic := s.History(topic) + [c]])
    case Call(id, topic) => s.(calls := s.calls[id := Begun(topic, |s.History(topic)|)])
    case Install(id) =>
      var c := s.calls[id];
      s.(providers := s.providers[c.topic := c.entry], calls := s.calls[id := Advanced(s, c, e)])
    case _ => s.(calls := s.calls[e.id := Advanced(s, s.calls[e.id], e)])
  }

  // ---------- what every reachable state keeps ----------

  /** A certificate and its token belong together: the token is its number in the topic's history. */
  ghost predicate Numbered(history: seq<Cert>, n: int, c: Cert, token: string) {
    0 <= n < |history| && c == history[n] && token == Itoa(n)
  }

  /** The store holds the latest certificate under its number. */
  ghost predicate StoreCurrent(m: Store, topic: string, history: seq<Cert>) {
    if history == [] then forall name | name in ["pem", "key", "stale_token"] :: Key(topic, name) !in m
    else HasCert(m, topic) && Numbered(history, |history| - 1, CertAt(m, topic), TokenAt(m, topic))
  }

  /** The cached provider was built from the certificate stored under exactly its token. */
  ghost predicate CacheConsistent(c: Cached, history: seq<Cert>) {
    exists n :: Numbered(history, n, c.provider.cert, c.staleToken)
  }

  /** The certificate was current at some moment between the topic having seen `since` of them and having
      seen `until`. */
  ghost predicate CurrentDuring(p: Provider, since: nat, until: nat, history: seq<Cert>) {
    exists n: int :: since <= n + 1 && 0 <= n < until && n < |history| && history[n] == p.cert
  }

  predicate Seen(at: nat, history: seq<Cert>) {
    1 <= at <= |history|
  }

  /** Certificate, key and token are those that were current when they were read. */
  predicate AsRead(e: Entry, history: seq<Cert>) {
    && Seen(e.pemAt, history) && Seen(e.keyAt, history) && Seen(e.tokenAt, history)
    && e.cached == Cached(Provider(Cert(history[e.pemAt - 1].pem, history[e.keyAt - 1].key)), Itoa(e.tokenAt - 1))
  }

  predicate PemRead(p: Option<Part>, since: nat, history: seq<Cert>) {
    p.Some? ==> since <= p.value.at && Seen(p.value.at, history) && p.value.v == history[p.value.at - 1].pem
  }

  predicate KeyRead(p: Option<Part>, since: nat, history: seq<Cert>) {
    p.Some? ==> since <= p.value.at && Seen(p.value.at, history) && p.value.v == history[p.value.at - 1].key
  }

  predicate TokenRead(p: Option<Part>, since: nat, history: seq<Cert>) {
    p.Some? ==> since <= p.value.at && Seen(p.value.at, history) && p.value.v == Itoa(p.value.at - 1)
  }

  ghost predicate CallConsistent(c: Call, history: seq<Cert>) {
    && c.since <= |history|
    && match c
       case Checking(_, _, e) => AsRead(e, history)
       case Fetching(_, since, pem, key, token) =>
         PemRead(pem, since, history) && KeyRead(key, since, history) && TokenRead(token, since, history)
       case Fetched(_, since, e) => AsRead(e, history) && since <= e.pemAt && since <= e.keyAt && since <= e.tokenAt
       case Returned(_, since, until, e) => until <= |history| && AsRead(e, history) && since <= e.tokenAt <= until
       case _ => true
  }

  ghost predicate Inv(s: System) {
    && (forall topic :: StoreCurrent(s.store, topic, s.History(topic)))
    && (forall topic :: topic in s.providers ==> AsRead(s.providers[topic], s.History(topic)))
    && (forall id :: id in s.calls ==> CallConsistent(s.calls[id], s.History(s.calls[id].topic)))
  }

  /** The n-th certificate of a topic is stored under token n: the reset branch is never taken, and
      tokens increase by one with every certificate. */
  lemma TokensCount(m: Store, topic: string, history: seq<Cert>)
    requires StoreCurrent(m, topic, history)
    ensures NextToken(m, topic) == |history|
  {
    if history != [] {
      AtoiItoa(|history| - 1);
    }
  }

  lemma StoreKept(m: Store, topic: string, c: Cert, topic': string, h: seq<Cert>)
    requires StoreCurrent(m, topic', h)
    ensures topic' == topic ==> StoreCurrent(Stored(m, topic, c, Itoa(|h|)), topic', h + [c])
    ensures forall token :: topic' != topic ==> StoreCurrent(Stored(m, topic, c, token), topic', h)
  {
    hide Stored, Key;
    if topic' == topic {
      StoredKeys(m, topic, c, Itoa(|h|), topic');
    }
    forall token | topic' != topic ensures StoreCurrent(Stored(m, topic, c, token), topic', h) {
      OtherKept(m, topic, c, token, topic', h);
    }
  }

  lemma OtherKept(m: Store, topic: string, c: Cert, token: string, topic': string, h: seq<Cert>)
    requires StoreCurrent(m, topic', h) && topic' != topic
    ensures StoreCurrent(Stored(m, topic, c, token), topic', h)
  {
    hide Stored, Key;
    StoredKeys(m, topic, c, token, topic');
  }

  /** A longer history keeps what was consistent. */
  lemma LongerHistory(h: seq<Cert>, c: Cert)
    ensures forall e :: AsRead(e, h) ==> AsRead(e, h + [c])
    ensures forall x :: CallConsistent(x, h) ==> CallConsistent(x, h + [c])
  {
    hide Itoa;
    forall x | CallConsistent(x, h) ensures CallConsistent(x, h + [c]) {
    }
  }

  lemma StoreEffect(s: System, topic: string, c: Cert)
    requires Inv(s)
    ensures var s' := Next(s, StorePushCert(topic, c));
            && s'.store == Stored(s.store, topic, c, Itoa(|s.History(topic)|))
            && s'.providers == s.providers && s'.calls == s.calls
            && forall t :: s'.History(t) == if t == topic then s.History(t) + [c] else s.History(t)
  {
    TokensCount(s.store, topic, s.History(topic));
  }

  lemma StoreStep(s: System, topic: string, c: Cert)
    requires Inv(s)
    ensures Inv(Next(s, StorePushCert(topic, c)))
  {
    StoreEffect(s, topic, c);
    LongerHistory(s.History(topic), c);
    hide StoreCurrent, AsRead, CallConsistent, Stored, Itoa, Next;
    var s' := Next(s, StorePushCert(topic, c));
    forall t ensures StoreCurrent(s'.store, t, s'.History(t)) {
      StoreKept(s.store, topic, c, t, s.History(t));
    }
  }

  lemma ReadConsistent(s: System, c: Call, p: CertPart)
    requires Inv(s) && CallConsistent(c, s.History(c.topic)) && Unread(c, p)
    requires Key(c.topic, PartName(p)) in s.store
    ensures var c' := Completed(WithPart(c, p, Part(s.store[Key(c.topic, PartName(p))], |s.History(c.topic)|)));
            CallConsistent(c', s.History(c.topic)) && c'.topic == c.topic
  {
    var h := s.History(c.topic);
    assert StoreCurrent(s.store, c.topic, h);
    hide Inv, Itoa;
    PartOfLatest(s.store, c.topic, p, h);
  }

  lemma PartOfLatest(m: Store, topic: string, p: CertPart, h: seq<Cert>)
    requires StoreCurrent(m, topic, h) && Key(topic, PartName(p)) in m
    ensures h != []
    ensures m[Key(topic, PartName(p))] ==
            match p case Pem => h[|h| - 1].pem case PrivateKey => h[|h| - 1].key case StaleToken => Itoa(|h| - 1)
  {
  }

  lemma AdvancedIsConsistent(s: System, c: Call, e: Event)
    requires Inv(s) && CallConsistent(c, s.History(c.topic)) && Fits(c, e)
    ensures CallConsistent(Advanced(s, c, e), s.History(c.topic)) && Advanced(s, c, e).topic == c.topic
  {
    var h := s.History(c.topic);
    assert StoreCurrent(s.store, c.topic, h);
    hide Completed, Itoa;
    if e.CheckStale? {
      if Key(c.topic, "stale_token") in s.store && c.entry.cached.staleToken == s.store[Key(c.topic, "stale_token")] {
        CheckedIsLatest(s.store, c, h);
      }
    } else if e.Read? && Key(c.topic, PartName(e.part)) in s.store {
      ReadConsistent(s, c, e.part);
    }
  }

  /** Replacing one call by a consistent one. */
  lemma CallReplaced(s: System, s': System, id: nat, c: Call)
    requires Inv(s) && s'.store == s.store && s'.history == s.history && s'.calls == s.calls[id := c]
    requires CallConsistent(c, s.History(c.topic))
    requires forall t :: t in s'.providers ==>
               AsRead(s'.providers[t], s.History(t)) || (t in s.providers && s'.providers[t] == s.providers[t])
    ensures Inv(s')
  {
    hide StoreCurrent, AsRead, CallConsistent;
    assert forall t :: s'.History(t) == s.History(t);
  }

  lemma CallStep(s: System, e: Event)
    requires Inv(s) && Possible(s, e) && !e.StorePushCert?
    ensures Inv(Next(s, e))
  {
    if e.Call? {
      CallReplaced(s, Next(s, e), e.id, Begun(e.topic, |s.History(e.topic)|));
    } else {
      var c := s.calls[e.id];
      AdvancedIsConsistent(s, c, e);
      hide Inv, Advanced, AsRead;
      CallReplaced(s, Next(s, e), e.id, Advanced(s, c, e));
    }
  }

  /** A token that is not stale was read when the latest certificate was the latest. */
  lemma CheckedIsLatest(m: Store, c: Call, h: seq<Cert>)
    requires c.Checking? && CallConsistent(c, h) && StoreCurrent(m, c.topic, h)
    requires Key(c.topic, "stale_token") in m && c.entry.cached.staleToken == m[Key(c.topic, "stale_token")]
    ensures c.entry.tokenAt == |h|
  {
    ItoaInjective(c.entry.tokenAt - 1, |h| - 1);
  }

  /** What a stale answer means: the token a certificate was stored under is stale exactly when the topic
      has had another certificate since. */
  lemma StaleExactly(m: Store, topic: string, h: seq<Cert>, n: int, c: Cert, token: string)
    requires StoreCurrent(m, topic, h) && Numbered(h, n, c, token)
    ensures Key(topic, "stale_token") in m
    ensures token != m[Key(topic, "stale_token")] <==> n < |h| - 1
  {
    ItoaInjective(n, |h| - 1);
    hide Itoa, Key;
  }

  // ---------- whole runs ----------

  predicate PossibleRun(s: System, es: seq<Event>)
    decreases |es|
  {
    es == [] || (Possible(s, es[0]) && PossibleRun(Next(s, es[0]), es[1..]))
  }

  function Run(s: System, es: seq<Event>): System
    requires PossibleRun(s, es)
    decreases |es|
  {
    if es == [] then s else Run(Next(s, es[0]), es[1..])
  }

  lemma {:induction false} RunKept(s: System, es: seq<Event>)
    requires Inv(s) && PossibleRun(s, es)
    ensures Inv(Run(s, es))
    decreases |es|
  {
    if es != [] {
      if es[0].StorePushCert? {
        StoreStep(s, es[0].topic, es[0].cert);
      } else {
        CallStep(s, es[0]);
      }
      hide Inv;
      RunKept(Next(s, es[0]), es[1..]);
    }
  }

  // ---------- certificates read in one piece, and in several ----------

  /** The certificate and key of an entry are those stored under its token. */
  predicate PartsAgree(e: Entry, history: seq<Cert>)
    requires AsRead(e, history)
  {
    history[e.pemAt - 1].pem == history[e.tokenAt - 1].pem && history[e.keyAt - 1].key == history[e.tokenAt - 1].key
  }

  /** No two certificates of a topic share their certificate bytes or their key. */
  predicate AllDifferent(history: seq<Cert>) {
    forall i, j :: 0 <= i < j < |history| ==> history[i].pem != history[j].pem && history[i].key != history[j].key
  }

  /** Exactly when an entry is consistent. */
  lemma ConsistentExactly(e: Entry, h: seq<Cert>)
    requires AsRead(e, h)
    ensures CacheConsistent(e.cached, h) <==> PartsAgree(e, h)
    ensures AllDifferent(h) ==> (CacheConsistent(e.cached, h) <==> Whole(e))
  {
    if CacheConsistent(e.cached, h) {
      var n :| Numbered(h, n, e.cached.provider.cert, e.cached.staleToken);
      ItoaInjective(n, e.tokenAt - 1);
    }
    if PartsAgree(e, h) {
      assert Numbered(h, e.tokenAt - 1, e.cached.provider.cert, e.cached.staleToken);
    }
    hide Itoa;
  }

  /** After every interleaving of calls, key by key reads and certificate changes: a topic's certificates
      are stored under tokens 0, 1, 2, ...; a cached provider was built from the certificate stored under
      exactly its token if and only if its parts are that certificate's, as when no certificate of the
      topic was stored between the three reads, and only then if a topic's certificates all differ. A
      provider returned, read in one piece, was built from a certificate that was current at some moment
      between the beginning of its call and its return. */
  lemma CacheAgreesWithStore(es: seq<Event>)
    requires PossibleRun(START, es)
    ensures var s := Run(START, es);
            && (forall topic :: NextToken(s.store, topic) == |s.History(topic)|)
            && (forall topic :: topic in s.providers ==>
                  EntryFacts(s.providers[topic], s.History(topic)))
            && (forall id :: id in s.calls && s.calls[id].Returned? ==>
                  var c := s.calls[id];
                  Whole(c.entry) ==> CurrentDuring(c.entry.cached.provider, c.since, c.until, s.History(c.topic)))
  {
    hide Run, PossibleRun, Inv, AsRead, PartsAgree, Whole, AllDifferent, CacheConsistent, CurrentDuring, CallConsistent, NextToken;
    var s := Run(START, es);
    RunKept(START, es) by { StartKept(); }
    forall topic ensures NextToken(s.store, topic) == |s.History(topic)| {
      StoreFacts(s, topic);
    }
    forall topic | topic in s.providers ensures EntryFacts(s.providers[topic], s.History(topic)) {
      CachedFacts(s, topic);
    }
    forall id | id in s.calls && s.calls[id].Returned? && Whole(s.calls[id].entry)
      ensures var c := s.calls[id]; CurrentDuring(c.entry.cached.provider, c.since, c.until, s.History(c.topic))
    {
      CallFacts(s, id);
      ReturnedCurrent(s.calls[id], s.History(s.calls[id].topic));
    }
  }

  lemma StartKept()
    ensures Inv(START)
  {
  }

  lemma StoreFacts(s: System, topic: string)
    requires Inv(s)
    ensures NextToken(s.store, topic) == |s.History(topic)|
  {
    TokensCount(s.store, topic, s.History(topic));
  }

  /** What a cached entry is, and exactly when it is consistent. */
  ghost predicate EntryFacts(e: Entry, h: seq<Cert>) {
    && AsRead(e, h)
    && (CacheConsistent(e.cached, h) <==> PartsAgree(e, h))
    && (Whole(e) ==> CacheConsistent(e.cached, h))
    && (AllDifferent(h) && CacheConsistent(e.cached, h) ==> Whole(e))
  }

  lemma CachedFacts(s: System, topic: string)
    requires Inv(s) && topic in s.providers
    ensures EntryFacts(s.providers[topic], s.History(topic))
  {
    hide StoreCurrent, AsRead, CallConsistent, CacheConsistent, AllDifferent;
    ConsistentExactly(s.providers[topic], s.History(topic));
  }

  lemma CallFacts(s: System, id: nat)
    requires Inv(s) && id in s.calls
    ensures CallConsistent(s.calls[id], s.History(s.calls[id].topic))
  {
    hide StoreCurrent, AsRead, CallConsistent;
  }

  lemma ReturnedCurrent(c: Call, h: seq<Cert>)
    requires c.Returned? && CallConsistent(c, h) && Whole(c.entry)
    ensures CurrentDuring(c.entry.cached.provider, c.since, c.until, h)
  {
    assert h[c.entry.tokenAt - 1] == c.entry.cached.provider.cert;
  }

  /** A call during which no certificate of its topic is stored returns a provider built from the latest
      one at the time, if the provider's parts were read in one piece. */
  lemma QuietCallReturnsLatest(es: seq<Event>, id: nat)
    requires PossibleRun(START, es)
    requires var s := Run(START, es);
             id in s.calls && s.calls[id].Returned? && s.calls[id].since == s.calls[id].until && Whole(s.calls[id].entry)
    ensures var s := Run(START, es);
            var c := s.calls[id];
            && 0 < c.until <= |s.History(c.topic)|
            && c.entry.cached.provider.cert == s.History(c.topic)[c.until - 1]
  {
    hide Run, PossibleRun, Inv;
    RunKept(START, es) by { StartKept(); }
    CallFacts(Run(START, es), id);
  }

  lemma {:induction false} Extend(s: System, es: seq<Event>, e: Event)
    requires PossibleRun(s, es) && Possible(Run(s, es), e)
    ensures PossibleRun(s, es + [e]) && Run(s, es + [e]) == Next(Run(s, es), e)
    decreases |es|
  {
    hide Possible, Next;
    if es == [] {
      assert (es + [e])[0] == e && (es + [e])[1..] == [];
    } else {
      assert (es + [e])[0] == es[0] && (es + [e])[1..] == es[1..] + [e];
      Extend(Next(s, es[0]), es[1..], e);
    }
  }

  /** A state that a run from the start reaches. */
  ghost predicate After(es: seq<Event>, s: System) {
    PossibleRun(START, es) && Run(START, es) == s && Inv(s)
  }

  lemma Then(es: seq<Event>, s: System, e: Event) returns (s': System)
    requires After(es, s) && Possible(s, e)
    ensures s' == Next(s, e) && After(es + [e], s')
  {
    hide Possible, Next, Run, PossibleRun, Inv;
    Extend(START, es, e);
    if e.StorePushCert? {
      StoreStep(s, e.topic, e.cert);
    } else {
      CallStep(s, e);
    }
    s' := Next(s, e);
  }

  lemma StartAfter()
    ensures After([], START)
  {
  }

  lemma ThenStore(es: seq<Event>, s: System, topic: string, c: Cert) returns (s': System)
    requires After(es, s)
    ensures After(es + [StorePushCert(topic, c)], s') && s'.providers == s.providers && s'.calls == s.calls
    ensures s'.History(topic) == s.History(topic) + [c]
  {
    StoreEffect(s, topic, c);
    hide Run, PossibleRun, Inv;
    s' := Then(es, s, StorePushCert(topic, c));
  }

  lemma ThenRead(es: seq<Event>, s: System, id: nat, p: CertPart) returns (s': System, v: Bytes)
    requires After(es, s) && id in s.calls && Unread(s.calls[id], p) && s.History(s.calls[id].topic) != []
    ensures After(es + [Read(id, p)], s') && s'.providers == s.providers && s'.history == s.history
    ensures s'.calls == s.calls[id := Completed(WithPart(s.calls[id], p, Part(v, |s.History(s.calls[id].topic)|)))]
  {
    var c := s.calls[id];
    assert StoreCurrent(s.store, c.topic, s.History(c.topic));
    hide Run, PossibleRun, Inv, Completed, WithPart, Key, Itoa;
    v := s.store[Key(c.topic, PartName(p))];
    s' := Then(es, s, Read(id, p));
  }

  lemma ThenCall(es: seq<Event>, s: System, id: nat, topic: string) returns (s': System)
    requires After(es, s) && id !in s.calls
    ensures After(es + [Call(id, topic)], s') && s'.providers == s.providers && s'.history == s.history
    ensures s'.calls == s.calls[id := Begun(topic, |s.History(topic)|)]
  {
    hide Run, PossibleRun, Inv;
    s' := Then(es, s, Call(id, topic));
  }

  lemma ThenReadCache(es: seq<Event>, s: System, id: nat) returns (s': System)
    requires After(es, s) && id in s.calls && s.calls[id].Begun?
    ensures After(es + [ReadCache(id)], s') && s'.providers == s.providers && s'.history == s.history
    ensures var c := s.calls[id];
            s'.calls == s.calls[id := if c.topic in s.providers then Checking(c.topic, c.since, s.providers[c.topic])
                                      else Fetching(c.topic, c.since, None, None, None)]
  {
    hide Run, PossibleRun, Inv;
    s' := Then(es, s, ReadCache(id));
  }

  lemma ThenInstall(es: seq<Event>, s: System, id: nat) returns (s': System)
    requires After(es, s) && id in s.calls && s.calls[id].Fetched?
    ensures After(es + [Install(id)], s') && s'.history == s.history
    ensures s'.providers == s.providers[s.calls[id].topic := s.calls[id].entry] && s'.calls.Keys == s.calls.Keys
  {
    hide Run, PossibleRun, Inv;
    s' := Then(es, s, Install(id));
  }

  /** A token read when the latest certificate was the latest is not stale. */
  lemma ThenCheckStale(es: seq<Event>, s: System, id: nat) returns (s': System)
    requires After(es, s) && id in s.calls && s.calls[id].Checking?
    requires s.calls[id].entry.tokenAt == |s.History(s.calls[id].topic)|
    ensures After(es + [CheckStale(id)], s') && s'.history == s.history
    ensures var c := s.calls[id];
            s'.calls == s.calls[id := Returned(c.topic, c.since, |s.History(c.topic)|, c.entry)]
  {
    var c := s.calls[id];
    LatestToken(s.store, c.topic, s.History(c.topic), c.entry);
    hide Run, PossibleRun, Inv, Key, Itoa;
    s' := Then(es, s, CheckStale(id));
  }

  lemma LatestToken(m: Store, topic: string, h: seq<Cert>, e: Entry)
    requires StoreCurrent(m, topic, h) && AsRead(e, h) && e.tokenAt == |h|
    ensures Key(topic, "stale_token") in m && m[Key(topic, "stale_token")] == e.cached.staleToken
  {
    hide Itoa;
  }

  /** A certificate stored between the reads of a call. */
  lemma TornFetch(topic: string, c0: Cert, c1: Cert) returns (es: seq<Event>, s: System)
    ensures es == [StorePushCert(topic, c0), Call(0, topic), ReadCache(0), Read(0, Pem), Read(0, PrivateKey),
                   StorePushCert(topic, c1), Read(0, StaleToken)]
    ensures After(es, s) && s.History(topic) == [c0, c1] && s.providers == map[] && s.calls.Keys == {0}
    ensures var c := s.calls[0]; c.Fetched? && c.topic == topic && c.entry.pemAt == c.entry.keyAt == 1 && c.entry.tokenAt == 2
  {
    StartAfter();
    hide After;
    var v;
    s := ThenStore([], START, topic, c0);
    es := [] + [StorePushCert(topic, c0)];
    s := ThenCall(es, s, 0, topic);
    es := es + [Call(0, topic)];
    s := ThenReadCache(es, s, 0);
    es := es + [ReadCache(0)];
    s, v := ThenRead(es, s, 0, Pem);
    es := es + [Read(0, Pem)];
    s, v := ThenRead(es, s, 0, PrivateKey);
    es := es + [Read(0, PrivateKey)];
    s := ThenStore(es, s, topic, c1);
    es := es + [StorePushCert(topic, c1)];
    s, v := ThenRead(es, s, 0, StaleToken);
    es := es + [Read(0, StaleToken)];
  }

  function TornRun(topic: string, c0: Cert, c1: Cert): seq<Event> {
    [StorePushCert(topic, c0), Call(0, topic), ReadCache(0), Read(0, Pem), Read(0, PrivateKey),
     StorePushCert(topic, c1), Read(0, StaleToken), Install(0), Call(1, topic), ReadCache(1), CheckStale(1)]
  }

  lemma TornInstall(topic: string, c0: Cert, c1: Cert) returns (es: seq<Event>, s: System)
    ensures es == TornRun(topic, c0, c1)[..9]
    ensures After(es, s) && s.History(topic) == [c0, c1] && s.calls.Keys == {0, 1} && s.calls[1] == Begun(topic, 2)
    ensures s.providers.Keys == {topic}
    ensures s.providers[topic].tokenAt == 2 && s.providers[topic].cached.provider.cert == c0
  {
    es, s := TornFetch(topic, c0, c1);
    FetchedAsRead(es, s, 0);
    WholeCert(s.calls[0].entry, c0, c1);
    hide After, AsRead;
    s := ThenInstall(es, s, 0);
    es := es + [Install(0)];
    s := ThenCall(es, s, 1, topic);
    es := es + [Call(1, topic)];
  }

  lemma TornCache(topic: string, c0: Cert, c1: Cert) returns (s: System)
    ensures After(TornRun(topic, c0, c1), s) && s.History(topic) == [c0, c1]
    ensures 1 in s.calls && s.calls[1].Returned? && s.calls[1].since == s.calls[1].until == 2
    ensures s.calls[1].entry.cached.provider.cert == c0
  {
    hide After;
    var es;
    es, s := TornInstall(topic, c0, c1);
    s := ThenReadCache(es, s, 1);
    es := es + [ReadCache(1)];
    s := ThenCheckStale(es, s, 1);
    assert es + [CheckStale(1)] == TornRun(topic, c0, c1);
  }

  /** Then the old certificate is cached under the new token, and a later call that nothing disturbs still
      returns it. */
  lemma TornReadStays(topic: string, c0: Cert, c1: Cert)
    ensures PossibleRun(START, TornRun(topic, c0, c1))
    ensures var s := Run(START, TornRun(topic, c0, c1));
            && s.History(topic) == [c0, c1] && 1 in s.calls && s.calls[1].Returned?
            && s.calls[1].since == s.calls[1].until == 2
            && s.calls[1].entry.cached.provider.cert == c0
  {
    hide TornRun, Run, PossibleRun, After;
    var s := TornCache(topic, c0, c1);
    AfterRun(TornRun(topic, c0, c1), s);
  }

  lemma FetchedAsRead(es: seq<Event>, s: System, id: nat)
    requires After(es, s) && id in s.calls && s.calls[id].Fetched?
    ensures AsRead(s.calls[id].entry, s.History(s.calls[id].topic))
  {
    hide AsRead, Run, PossibleRun, Inv;
    CallFacts(s, id);
  }

  lemma AfterRun(es: seq<Event>, s: System)
    requires After(es, s)
    ensures PossibleRun(START, es) && Run(START, es) == s
  {
  }

  lemma WholeCert(e: Entry, c0: Cert, c1: Cert)
    requires AsRead(e, [c0, c1]) && e.pemAt == e.keyAt == 1 && e.tokenAt == 2
    ensures e.cached.provider.cert == c0
  {
  }

  // ---------- the store and the service as the program runs them ----------

  datatype Outcome<T> = Ok(value: T) | Error

  class PushCertBucket {
    var m: Store

    constructor ()
      ensures m == map[]
    {
      m := map[];
    }

    method StorePushCert(topic: string, c: Cert)
      modifies this
      ensures m == Stored(old(m), topic, c, Print(NextToken(old(m), topic)))
    {
      hide Key;
      var token := 0;
      if Key(topic, "stale_token") in m {
        match Atoi(m[Key(topic, "stale_token")])
        case NotANumber => token := 0;
        case Number(n) => token := n + 1;
      }
      m := m[Key(topic, "pem") := c.pem];
      m := m[Key(topic, "key") := c.key];
      m := m[Key(topic, "stale_token") := Print(token)];
    }

    method IsPushCertStale(topic: string, staleToken: string) returns (r: Outcome<bool>)
      ensures r == if Key(topic, "stale_token") in m then Ok(staleToken != m[Key(topic, "stale_token")]) else Error
    {
      r := if Key(topic, "stale_token") in m then Ok(staleToken != m[Key(topic, "stale_token")]) else Error;
    }

    method RetrievePushCert(topic: string) returns (r: Outcome<Cached>)
      ensures r == if HasCert(m, topic) then Ok(Cached(Provider(CertAt(m, topic)), TokenAt(m, topic))) else Error
    {
      if HasCert(m, topic) {
        return Ok(Cached(Provider(CertAt(m, topic)), TokenAt(m, topic)));
      }
      return Error;
    }
  }

  class PushService {
    const certStore: PushCertBucket
    var providers: map<string, Cached>

    constructor (certStore: PushCertBucket)
      ensures this.certStore == certStore && providers == map[]
    {
      this.certStore := certStore;
      providers := map[];
    }

    /** Cached providers agree with what the store has ever held. */
    ghost predicate Agrees(history: map<string, seq<Cert>>)
      reads this, certStore
    {
      && (forall topic :: StoreCurrent(certStore.m, topic, HistoryOf(history, topic)))
      && (forall topic :: topic in providers ==> CacheConsistent(providers[topic], HistoryOf(history, topic)))
    }

    /** A call that nothing interrupts fails exactly when the topic has no certificate, and otherwise
        returns a provider built from its latest one, which then is cached under the current token. */
    method GetProvider(topic: string, ghost history: map<string, seq<Cert>>) returns (r: Outcome<Provider>)
      requires Agrees(history)
      modifies this
      ensures Agrees(history)
      ensures var h := HistoryOf(history, topic);
              r == if h == [] then Error else Ok(Provider(h[|h| - 1]))
      ensures r.Error? ==> providers == old(providers)
      ensures r.Ok? ==> Key(topic, "stale_token") in certStore.m &&
                        providers == old(providers)[topic := Cached(r.value, certStore.m[Key(topic, "stale_token")])]
    {
      hide Key, Itoa;
      ghost var h := HistoryOf(history, topic);
      assert StoreCurrent(certStore.m, topic, h);
      if topic in providers {
        var prov := providers[topic];
        assert CacheConsistent(prov, h);
        var stale := certStore.IsPushCertStale(topic, prov.staleToken);
        if stale.Error? {
          return Error;
        }
        if !stale.value {
          FreshIsLatest(certStore.m, topic, prov, h);
          return Ok(prov.provider);
        }
      }
      var latest := certStore.RetrievePushCert(topic);
      if latest.Error? {
        return Error;
      }
      providers := providers[topic := latest.value];
      assert CacheConsistent(latest.value, h) by {
        assert Numbered(h, |h| - 1, latest.value.provider.cert, latest.value.staleToken);
      }
      return Ok(latest.value.provider);
    }
  }

  function HistoryOf(history: map<string, seq<Cert>>, topic: string): seq<Cert> {
    if topic in history then history[topic] else []
  }

  lemma FreshIsLatest(m: Store, topic: string, c: Cached, h: seq<Cert>)
    requires CacheConsistent(c, h) && StoreCurrent(m, topic, h)
    requires Key(topic, "stale_token") in m && c.staleToken == m[Key(topic, "stale_token")]
    ensures h != [] && c.provider.cert == h[|h| - 1]
  {
    var n :| Numbered(h, n, c.provider.cert, c.staleToken);
    ItoaInjective(n, |h| - 1);
  }
}
