/** Pushing to enrollments: push details are looked up by id, pushes go out by topic, and the answers,
    known by token only, are handed back by id. */
module PushByIds {
  import opened Options
  import opened PushWorkers

  /** What asking for a topic's provider gives: one that answers, one whose push fails, or none. */
  datatype Provider = Answers(send: Sender) | Fails | Missing

  type Providers = string -> Provider

  const NOT_FOUND := Response("", Some("push data missing for id"))

  predicate Served(providers: Providers, p: Push) {
    providers(p.topic).Answers?
  }

  function Answer(providers: Providers, p: Push): Response
    requires Served(providers, p)
  {
    providers(p.topic).send(p)
  }

  // ---------- grouping by topic ----------

  function OfTopic(s: seq<Push>, topic: string): seq<Push> {
    if s == [] then []
    else if s[|s| - 1].topic == topic then OfTopic(s[..|s| - 1], topic) + [s[|s| - 1]]
    else OfTopic(s[..|s| - 1], topic)
  }

  /** Each group is the pushes of its topic in their order, and every push is in one group. */
  ghost predicate IsPartition(groups: map<string, seq<Push>>, s: seq<Push>) {
    && (forall p :: p in s ==> p.topic in groups)
    && (forall t :: t in groups ==> groups[t] == OfTopic(s, t) && groups[t] != [])
  }

  lemma {:induction false} OfTopicMembers(s: seq<Push>, topic: string)
    ensures forall p :: p in OfTopic(s, topic) <==> p in s && p.topic == topic
  {
    if s != [] {
      OfTopicMembers(s[..|s| - 1], topic);
      assert s == s[..|s| - 1] + [s[|s| - 1]];
    }
  }

  lemma {:induction false} NoneOfTopic(s: seq<Push>, topic: string)
    requires forall p :: p in s ==> p.topic != topic
    ensures OfTopic(s, topic) == []
  {
    if s != [] {
      NoneOfTopic(s[..|s| - 1], topic);
    }
  }

  method GroupByTopic(s: seq<Push>) returns (groups: map<string, seq<Push>>)
    ensures IsPartition(groups, s)
  {
    groups := map[];
    for i := 0 to |s|
      invariant IsPartition(groups, s[..i])
    {
      var p := s[i];
      assert s[..i + 1][..i] == s[..i] && s[..i + 1] == s[..i] + [p];
      if p.topic !in groups {
        NoneOfTopic(s[..i], p.topic);
      }
      groups := groups[p.topic := (if p.topic in groups then groups[p.topic] else []) + [p]];
    }
    assert s[..|s|] == s;
  }

  // ---------- one push, and many ----------

  /** The response is the provider's answer to one of the pushes with that token. */
  ghost predicate AnswersOne(s: seq<Push>, providers: Providers, token: string, r: Response) {
    exists p :: p in s && p.token == token && Served(providers, p) && r == Answer(providers, p)
  }

  /** What the answers of served pushes look like when gathered by token. */
  ghost predicate Gathered(responses: map<string, Response>, s: seq<Push>, providers: Providers) {
    && (forall t :: t in responses ==> AnswersOne(s, providers, t, responses[t]))
    && (forall p :: p in s && Served(providers, p) ==> p.token in responses)
  }

  /** The same for the pushes of some topics. */
  ghost predicate GatheredFor(responses: map<string, Response>, s: seq<Push>, providers: Providers, topics: set<string>) {
    && (forall t :: t in responses ==> AnswersOne(s, providers, t, responses[t]))
    && (forall p :: p in s && p.topic in topics && Served(providers, p) ==> p.token in responses)
  }

  /** A group's answers, collected in any order, join the others. */
  lemma MergeGroup(responses: map<string, Response>, s: seq<Push>, providers: Providers, topics: set<string>, topic: string,
                   done: seq<Push>)
    requires GatheredFor(responses, s, providers, topics) && providers(topic).Answers?
    requires multiset(done) == multiset(OfTopic(s, topic))
    ensures GatheredFor(responses + Responses(providers(topic).send, done), s, providers, topics + {topic})
  {
    hide Responses, OfTopic;
    OfTopicMembers(s, topic);
    SameMembers(done, OfTopic(s, topic));
    GatheredBySerial(done, providers, topic);
    var feedback := Responses(providers(topic).send, done);
    forall t | t in feedback ensures AnswersOne(s, providers, t, feedback[t]) {
      assert AnswersOne(done, providers, t, feedback[t]);
    }
  }

  lemma SameMembers(s: seq<Push>, t: seq<Push>)
    requires multiset(s) == multiset(t)
    ensures forall p :: p in s <==> p in t
  {
    forall p ensures p in s <==> p in t {
      assert p in s <==> p in multiset(s);
      assert p in t <==> p in multiset(t);
    }
  }

  /** A list of pushes none of which is nil. */
  function Present(s: seq<Push>): seq<Option<Push>> {
    seq(|s|, i requires 0 <= i < |s| => Some(s[i]))
  }

  lemma {:induction false} PresentNonNil(s: seq<Push>)
    ensures NonNil(Present(s)) == s
  {
    if s != [] {
      var n := |s| - 1;
      PresentNonNil(s[..n]);
      assert Present(s)[..n] == Present(s[..n]);
    }
  }

  lemma {:induction false} GatheredBySerial(s: seq<Push>, providers: Providers, topic: string)
    requires providers(topic).Answers? && forall p :: p in s ==> p.topic == topic
    ensures Gathered(Responses(providers(topic).send, s), s, providers)
  {
    if s != [] {
      var n := |s| - 1;
      GatheredBySerial(s[..n], providers, topic);
      assert s == s[..n] + [s[n]];
      assert s[n] in s;
    }
  }

  /** Hands pushes to a provider, whose workers may answer them in any order. */
  method PushTo(send: Sender, s: seq<Push>, workers: nat) returns (responses: map<string, Response>, ghost done: seq<Push>)
    requires workers >= 1 && s != []
    ensures multiset(done) == multiset(s) && responses == Responses(send, done)
  {
    hide Responses, NonNil;
    PresentNonNil(s);
    var r := PushAll(send, Present(s), workers);
    done :| multiset(done) == multiset(s) && r == Sent(Responses(send, done));
    responses := r.responses;
  }

  method PushSingle(p: Push, providers: Providers, workers: nat) returns (responses: map<string, Response>, failed: bool)
    requires workers >= 1
    ensures Gathered(responses, [p], providers)
    ensures failed <==> !Served(providers, p)
  {
    hide Responses;
    match providers(p.topic)
    case Answers(send) =>
      ghost var done;
      responses, done := PushTo(send, [p], workers);
      failed := false;
      SameMembers(done, [p]);
      GatheredBySerial(done, providers, p.topic);
      assert p in done;
    case _ =>
      responses, failed := map[], true;
  }

  /** Pushes each topic's group to its provider; the groups' answers are merged as they arrive, in any
      order. A topic without a provider only fails its own pushes. */
  method PushMulti(s: seq<Push>, providers: Providers, workers: nat) returns (responses: map<string, Response>, failed: bool)
    requires workers >= 1
    ensures Gathered(responses, s, providers)
    ensures failed <==> exists p :: p in s && !Served(providers, p)
  {
    hide Responses, OfTopic;
    var groups := GroupByTopic(s);
    responses, failed := map[], false;
    var waiting := groups.Keys;
    ghost var merged: set<string> := {};
    while waiting != {}
      invariant waiting !! merged && waiting + merged == groups.Keys
      invariant failed <==> exists t :: t in merged && !providers(t).Answers?
      invariant GatheredFor(responses, s, providers, merged)
      decreases waiting
    {
      var topic :| topic in waiting;
      match providers(topic) {
        case Answers(send) =>
          var feedback, done := PushTo(send, groups[topic], workers);
          MergeGroup(responses, s, providers, merged, topic, done);
          responses := responses + feedback;
        case _ =>
          failed := true;
      }
      waiting, merged := waiting - {topic}, merged + {topic};
    }
    GroupedTopics(groups, s, providers);
  }

  lemma GroupedTopics(groups: map<string, seq<Push>>, s: seq<Push>, providers: Providers)
    requires IsPartition(groups, s)
    ensures (exists t :: t in groups.Keys && !providers(t).Answers?) <==> exists p :: p in s && !Served(providers, p)
  {
    if t :| t in groups.Keys && !providers(t).Answers? {
      OfTopicMembers(s, t);
      assert groups[t][0] in s && !Served(providers, groups[t][0]);
    }
  }

  // ---------- by id ----------

  type Infos = map<string, Push>

  function Found(ids: seq<string>, infos: Infos): seq<Push> {
    if ids == [] then []
    else
      var id := ids[|ids| - 1];
      if id in infos then Found(ids[..|ids| - 1], infos) + [infos[id]] else Found(ids[..|ids| - 1], infos)
  }

  /** Which id a token is handed back to: the last requested one that has it. */
  function TokenOwner(ids: seq<string>, infos: Infos): map<string, string> {
    if ids == [] then map[]
    else
      var id := ids[|ids| - 1];
      if id in infos then TokenOwner(ids[..|ids| - 1], infos)[infos[id].token := id] else TokenOwner(ids[..|ids| - 1], infos)
  }

  ghost predicate DistinctTokens(ids: seq<string>, infos: Infos) {
    forall x, y :: x in ids && y in ids && x in infos && y in infos && infos[x].token == infos[y].token ==> x == y
  }

  lemma {:induction false} FoundMembers(ids: seq<string>, infos: Infos)
    ensures forall p :: p in Found(ids, infos) <==> exists id :: id in ids && id in infos && infos[id] == p
  {
    if ids != [] {
      var n := |ids| - 1;
      FoundMembers(ids[..n], infos);
      assert ids == ids[..n] + [ids[n]];
      forall p ensures p in Found(ids, infos) <==> exists id :: id in ids && id in infos && infos[id] == p {
        if id :| id in ids && id in infos && infos[id] == p {
          assert id in ids[..n] || id == ids[n];
        }
      }
    }
  }

  lemma {:induction false} OwnersOwn(ids: seq<string>, infos: Infos)
    ensures forall t :: t in TokenOwner(ids, infos) ==>
              var id := TokenOwner(ids, infos)[t]; id in ids && id in infos && infos[id].token == t
    ensures forall id :: id in ids && id in infos ==> infos[id].token in TokenOwner(ids, infos)
  {
    if ids != [] {
      OwnersOwn(ids[..|ids| - 1], infos);
      assert ids == ids[..|ids| - 1] + [ids[|ids| - 1]];
    }
  }

  /** The id is the one its token is handed back to. */
  predicate Owns(ids: seq<string>, infos: Infos, id: string) {
    && id in ids && id in infos
    && infos[id].token in TokenOwner(ids, infos)
    && TokenOwner(ids, infos)[infos[id].token] == id
  }

  /** Of the requested ids with one token, the last in the request is its owner, and the only one. */
  lemma {:induction false} LastOwns(ids: seq<string>, infos: Infos, k: nat)
    requires k < |ids| && ids[k] in infos
    requires forall j :: k < j < |ids| && ids[j] in infos && infos[ids[j]].token == infos[ids[k]].token ==> ids[j] == ids[k]
    ensures Owns(ids, infos, ids[k])
    ensures forall id :: Owns(ids, infos, id) && infos[id].token == infos[ids[k]].token ==> id == ids[k]
  {
    var n := |ids| - 1;
    if k < n {
      assert ids[..n][k] == ids[k];
      assert forall j :: 0 <= j < n ==> ids[..n][j] == ids[j];
      LastOwns(ids[..n], infos, k);
    }
  }

  /** The responses by id: not-found for unknown ids, and for each answered token its owner's. */
  ghost predicate ByIds(ret: map<string, Response>, ids: seq<string>, infos: Infos, byToken: map<string, Response>) {
    && (forall id :: id in ret <==> id in ids && (id !in infos || (infos[id].token in byToken && Owns(ids, infos, id))))
    && (forall id :: id in ret ==> if id in infos then infos[id].token in byToken && ret[id] == byToken[infos[id].token]
                                   else ret[id] == NOT_FOUND)
  }

  /** Push as the service does it, given what the store knows of the ids and what asking for each
      topic's provider gives. */
  method PushIds(ids: seq<string>, infos: Infos, providers: Providers, workers: nat)
    returns (ret: map<string, Response>, failed: bool, ghost byToken: map<string, Response>)
    requires workers >= 1
    ensures Gathered(byToken, Found(ids, infos), providers)
    ensures failed <==> exists p :: p in Found(ids, infos) && !Served(providers, p)
    ensures ByIds(ret, ids, infos, byToken)
    ensures forall id :: id in ids && id !in infos ==> id in ret && ret[id].id == "" && ret[id].err.Some?
  {
    hide Gathered, Served;
    ret := map[];
    var tokenToId: map<string, string> := map[];
    var pushes := [];
    for i := 0 to |ids|
      invariant pushes == Found(ids[..i], infos) && tokenToId == TokenOwner(ids[..i], infos)
      invariant ret.Keys == set id | id in ids[..i] && id !in infos
      invariant forall id :: id in ret ==> ret[id] == NOT_FOUND
    {
      var id := ids[i];
      assert ids[..i + 1][..i] == ids[..i] && ids[..i + 1] == ids[..i] + [id];
      if id in infos {
        pushes := pushes + [infos[id]];
        tokenToId := tokenToId[infos[id].token := id];
      } else {
        ret := ret[id := NOT_FOUND];
      }
    }
    assert ids[..|ids|] == ids;
    var responses: map<string, Response>;
    if |pushes| == 1 {
      responses, failed := PushSingle(pushes[0], providers, workers);
      assert pushes == [pushes[0]];
    } else if |pushes| > 1 {
      responses, failed := PushMulti(pushes, providers, workers);
    } else {
      responses, failed := map[], false;
      NothingGathered(providers);
    }
    byToken := responses;
    ret := Reassociate(ids, infos, ret, tokenToId, responses);
  }

  lemma NothingGathered(providers: Providers)
    ensures Gathered(map[], [], providers)
  {
  }

  /** Hands each token's response to the token's owner. */
  method Reassociate(ids: seq<string>, infos: Infos, notFound: map<string, Response>, tokenToId: map<string, string>,
                     responses: map<string, Response>) returns (ret: map<string, Response>)
    requires tokenToId == TokenOwner(ids, infos)
    requires notFound.Keys == set id | id in ids && id !in infos
    requires forall id :: id in notFound ==> notFound[id] == NOT_FOUND
    ensures ByIds(ret, ids, infos, responses)
  {
    OwnersOwn(ids, infos);
    hide TokenOwner;
    ret := notFound;
    var waiting := responses.Keys;
    while waiting != {}
      invariant waiting <= responses.Keys
      invariant forall id :: id in ret <==>
                  id in notFound || (Owns(ids, infos, id) && infos[id].token in responses && infos[id].token !in waiting)
      invariant forall id :: id in ret ==> if id in infos then infos[id].token in responses && ret[id] == responses[infos[id].token]
                                           else ret[id] == NOT_FOUND
      decreases waiting
    {
      var token :| token in waiting;
      waiting := waiting - {token};
      if token in tokenToId {
        ret := ret[tokenToId[token] := responses[token]];
      }
    }
  }

  /** An id without push data is answered with an error and no push id. */
  lemma UnknownIdFails(ret: map<string, Response>, ids: seq<string>, infos: Infos, byToken: map<string, Response>, id: string)
    requires ByIds(ret, ids, infos, byToken) && id in ids && id !in infos
    ensures id in ret && ret[id].id == "" && ret[id].err.Some?
  {
  }

  // ---------- the promise ----------

  /** Every known id of the request gets a provider that answers. */
  predicate AllServed(ids: seq<string>, infos: Infos, providers: Providers) {
    forall id :: id in ids && id in infos ==> Served(providers, infos[id])
  }

  lemma TokenAnswered(ids: seq<string>, infos: Infos, providers: Providers, byToken: map<string, Response>, id: string)
    requires Gathered(byToken, Found(ids, infos), providers) && DistinctTokens(ids, infos)
    requires id in ids && id in infos
    ensures Owns(ids, infos, id)
    ensures infos[id].token in byToken <==> Served(providers, infos[id])
    ensures Served(providers, infos[id]) ==> byToken[infos[id].token] == Answer(providers, infos[id])
  {
    OwnersOwn(ids, infos);
    FoundMembers(ids, infos);
    hide TokenOwner, Found, Served, Answer;
    var p := infos[id];
    assert p in Found(ids, infos);
    if p.token in byToken {
      assert AnswersOne(Found(ids, infos), providers, p.token, byToken[p.token]);
    }
  }

  /** With distinct tokens, each id gets the answer to its own push details, ids without details get
      not-found, and only ids whose topic has no answering provider are missing. */
  lemma EachGetsItsOwn(ret: map<string, Response>, ids: seq<string>, infos: Infos, providers: Providers,
                       byToken: map<string, Response>)
    requires Gathered(byToken, Found(ids, infos), providers) && ByIds(ret, ids, infos, byToken)
    requires DistinctTokens(ids, infos)
    ensures forall id :: id in ret <==> id in ids && (id in infos ==> Served(providers, infos[id]))
    ensures forall id :: id in ret ==> ret[id] == if id in infos then Answer(providers, infos[id]) else NOT_FOUND
  {
    hide Gathered, DistinctTokens, Owns, Found, Served, Answer;
    forall id | id in ids && id in infos
      ensures Owns(ids, infos, id)
      ensures infos[id].token in byToken <==> Served(providers, infos[id])
      ensures Served(providers, infos[id]) ==> byToken[infos[id].token] == Answer(providers, infos[id])
    {
      TokenAnswered(ids, infos, providers, byToken, id);
    }
  }

  /** Exactly when no requested id is lost, all topics being served: when different ids have different
      tokens. */
  lemma NoIdLostExactly(ret: map<string, Response>, ids: seq<string>, infos: Infos, providers: Providers,
                        byToken: map<string, Response>)
    requires Gathered(byToken, Found(ids, infos), providers) && ByIds(ret, ids, infos, byToken)
    requires AllServed(ids, infos, providers)
    ensures (forall id :: id in ids ==> id in ret) <==> DistinctTokens(ids, infos)
  {
    if DistinctTokens(ids, infos) {
      EachGetsItsOwn(ret, ids, infos, providers, byToken);
    } else {
      var x, y :| x in ids && y in ids && x in infos && y in infos && infos[x].token == infos[y].token && x != y;
      assert !(Owns(ids, infos, x) && Owns(ids, infos, y));
    }
  }
}
