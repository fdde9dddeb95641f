/**
 * SlackEventManager: the registry of Slack real-time clients. One client per
 * Slack team serves every activity subscribed for that team; a second
 * dictionary records which team each activity is subscribed through. The
 * websocket, the lock and the disposal of clients are not modelled: a client
 * is the set of activity ids it serves, and its unsubscribe reports whether
 * the last one went.
 */
module SlackEvents {
  import opened Wrappers
  import opened Strings

  /** An activity id (a Guid). */
  type ActivityId = string

  /** SlackClientWrapper as the registry sees it. */
  datatype Client = Client(teamId: string, subscribed: set<ActivityId>)

  /** SlackClientWrapper.Unsubsribe: drop the activity; true when no subscription is left. */
  function ClientUnsubscribe(c: Client, activityId: ActivityId): (r: (Client, bool))
    ensures r.0.teamId == c.teamId && r.0.subscribed == c.subscribed - {activityId}
    ensures r.1 <==> c.subscribed <= {activityId}
  {
    var rest := c.subscribed - {activityId};
    (c.(subscribed := rest), rest == {})
  }

  /** The registry's state: _clientsByTeamId, _teamIdByActivity and _disposed. */
  datatype Registry = Registry(clients: map<string, Client>, teamIdByActivity: map<ActivityId, string>, disposed: bool)

  /** Unsubscribe(activityId). */
  function AfterUnsubscribe(r: Registry, activityId: ActivityId): Registry {
    if r.disposed then r
    else
      var mapping := r.teamIdByActivity - {activityId};
      if activityId in r.teamIdByActivity && r.teamIdByActivity[activityId] != ""
         && r.teamIdByActivity[activityId] in r.clients
      then
        var teamId := r.teamIdByActivity[activityId];
        var (client, last) := ClientUnsubscribe(r.clients[teamId], activityId);
        var clients := if last then r.clients - {teamId} else r.clients[teamId := client];
        Registry(clients, mapping, false)
      else
        r.(teamIdByActivity := mapping)
  }

  /** Subscribe(token, activityId), where `teamId` is the token's ExternalDomainId. */
  function AfterSubscribe(r: Registry, teamId: string, activityId: ActivityId): Registry {
    if r.disposed then r
    else
      var u := AfterUnsubscribe(r, activityId);
      var client := if teamId in u.clients then u.clients[teamId] else Client(teamId, {});
      Registry(u.clients[teamId := client.(subscribed := client.subscribed + {activityId})],
               u.teamIdByActivity[activityId := teamId], false)
  }

  /** OnSubscriptionFailed(client): forget the client's team and all its activities. */
  function AfterSubscriptionFailed(r: Registry, client: Client): Registry {
    Registry(r.clients - {client.teamId}, r.teamIdByActivity - client.subscribed, r.disposed)
  }

  /** Dispose(): only the flag changes in the bookkeeping. */
  function AfterDispose(r: Registry): Registry {
    r.(disposed := true)
  }

  /**
   * The registry's invariant: every client sits under its own team id and
   * serves at least one activity, each served activity is mapped to that
   * client's team, every mapped activity is served by its team's client,
   * and no client is registered for an empty team id.
   */
  predicate Valid(r: Registry) {
    && "" !in r.clients
    && (forall t :: t in r.clients ==> r.clients[t].teamId == t && r.clients[t].subscribed != {})
    && (forall t, a :: t in r.clients && a in r.clients[t].subscribed ==>
          a in r.teamIdByActivity && r.teamIdByActivity[a] == t)
    && (forall a :: a in r.teamIdByActivity ==>
          r.teamIdByActivity[a] in r.clients && a in r.clients[r.teamIdByActivity[a]].subscribed)
  }

  /** The registry starts empty. */
  lemma EmptyValid()
    ensures Valid(Registry(map[], map[], false))
  {
  }

  /** After Dispose, Subscribe and Unsubscribe change nothing and Dispose again is a no-op. */
  lemma DisposedIsInert(r: Registry, teamId: string, activityId: ActivityId)
    ensures AfterDispose(AfterDispose(r)) == AfterDispose(r)
    ensures AfterSubscribe(AfterDispose(r), teamId, activityId) == AfterDispose(r)
    ensures AfterUnsubscribe(AfterDispose(r), activityId) == AfterDispose(r)
  {
  }

  /** Unsubscribe always drops the activity's mapping and no other. */
  lemma UnsubscribeDropsMapping(r: Registry, activityId: ActivityId)
    requires !r.disposed
    ensures AfterUnsubscribe(r, activityId).teamIdByActivity == r.teamIdByActivity - {activityId}
  {
  }

  /** The activity's team loses its client exactly when that was the client's last subscription; other teams keep theirs. */
  lemma UnsubscribeRemovesLastClient(r: Registry, activityId: ActivityId)
    requires Valid(r) && !r.disposed && activityId in r.teamIdByActivity
    ensures var t := r.teamIdByActivity[activityId];
      var u := AfterUnsubscribe(r, activityId);
      && (t !in u.clients <==> r.clients[t].subscribed == {activityId})
      && (t in u.clients ==> u.clients[t].subscribed == r.clients[t].subscribed - {activityId})
      && (forall t' :: t' != t ==> (t' in u.clients <==> t' in r.clients))
      && (forall t' :: t' != t && t' in r.clients ==> u.clients[t'] == r.clients[t'])
  {
    var t := r.teamIdByActivity[activityId];
    assert activityId in r.clients[t].subscribed;
  }

  /** Unsubscribe keeps the invariant. */
  lemma UnsubscribeValid(r: Registry, activityId: ActivityId)
    requires Valid(r)
    ensures Valid(AfterUnsubscribe(r, activityId))
  {
    var u := AfterUnsubscribe(r, activityId);
    if !r.disposed && activityId in r.teamIdByActivity {
      var t := r.teamIdByActivity[activityId];
      assert t != "" && t in r.clients;
      forall t', a | t' in u.clients && a in u.clients[t'].subscribed
        ensures a in u.teamIdByActivity && u.teamIdByActivity[a] == t'
      {
        assert a in r.clients[t'].subscribed;
        assert r.teamIdByActivity[a] == t';
        assert a != activityId;
      }
      forall a | a in u.teamIdByActivity
        ensures u.teamIdByActivity[a] in u.clients && a in u.clients[u.teamIdByActivity[a]].subscribed
      {
        var t' := r.teamIdByActivity[a];
        assert a in r.clients[t'].subscribed;
        if t' == t {
          assert a in r.clients[t].subscribed - {activityId};
        }
      }
    }
  }

  /** Subscribe maps the activity to the token's team and makes that team's client serve it. */
  lemma SubscribeMaps(r: Registry, teamId: string, activityId: ActivityId)
    requires Valid(r) && !r.disposed
    ensures var s := AfterSubscribe(r, teamId, activityId);
      && s.teamIdByActivity == (r.teamIdByActivity - {activityId})[activityId := teamId]
      && teamId in s.clients && s.clients[teamId].teamId == teamId
      && activityId in s.clients[teamId].subscribed
  {
    UnsubscribeValid(r, activityId);
    var u := AfterUnsubscribe(r, activityId);
    assert u.teamIdByActivity == r.teamIdByActivity - {activityId};
  }

  /**
   * Subscribe creates a client only when the team has none after the
   * unsubscribe; otherwise the existing client is reused with its other
   * subscriptions kept. No other team's client changes.
   */
  lemma SubscribeReusesClient(r: Registry, teamId: string, activityId: ActivityId)
    requires Valid(r) && !r.disposed
    ensures var u := AfterUnsubscribe(r, activityId);
      var s := AfterSubscribe(r, teamId, activityId);
      && s.clients.Keys == u.clients.Keys + {teamId}
      && (teamId in u.clients ==> s.clients[teamId].subscribed == u.clients[teamId].subscribed + {activityId})
      && (teamId !in u.clients ==> s.clients[teamId] == Client(teamId, {activityId}))
      && (forall t :: t in u.clients && t != teamId ==> s.clients[t] == u.clients[t])
  {
  }

  /** Subscribe keeps the invariant, for a non-empty team id. */
  lemma SubscribeValid(r: Registry, teamId: string, activityId: ActivityId)
    requires Valid(r) && teamId != ""
    ensures Valid(AfterSubscribe(r, teamId, activityId))
  {
    UnsubscribeValid(r, activityId);
    var u := AfterUnsubscribe(r, activityId);
    var s := AfterSubscribe(r, teamId, activityId);
    if !r.disposed {
      assert activityId !in u.teamIdByActivity;
      forall t, a | t in s.clients && a in s.clients[t].subscribed
        ensures a in s.teamIdByActivity && s.teamIdByActivity[a] == t
      {
        if a != activityId {
          assert t in u.clients && a in u.clients[t].subscribed;
        }
      }
    }
  }

  /** Hence every activity is subscribed through at most one client. */
  lemma OneClientPerActivity(r: Registry, t1: string, t2: string, a: ActivityId)
    requires Valid(r)
    requires t1 in r.clients && a in r.clients[t1].subscribed
    requires t2 in r.clients && a in r.clients[t2].subscribed
    ensures t1 == t2
  {
    assert r.teamIdByActivity[a] == t1;
    assert r.teamIdByActivity[a] == t2;
  }

  /** The failure handler drops the client's team and every activity that client held. */
  lemma SubscriptionFailedForgets(r: Registry, client: Client)
    ensures var f := AfterSubscriptionFailed(r, client);
      && client.teamId !in f.clients
      && (forall a :: a in client.subscribed ==> a !in f.teamIdByActivity)
      && (forall a :: a in r.teamIdByActivity && a !in client.subscribed ==>
            a in f.teamIdByActivity && f.teamIdByActivity[a] == r.teamIdByActivity[a])
  {
  }

  /** For the registered client of a team, the failure handler keeps the invariant. */
  lemma SubscriptionFailedValid(r: Registry, teamId: string)
    requires Valid(r) && teamId in r.clients
    ensures Valid(AfterSubscriptionFailed(r, r.clients[teamId]))
  {
    var c := r.clients[teamId];
    var f := AfterSubscriptionFailed(r, c);
    forall t, a | t in f.clients && a in f.clients[t].subscribed
      ensures a in f.teamIdByActivity && f.teamIdByActivity[a] == t
    {
      assert r.teamIdByActivity[a] == t;
      assert a !in c.subscribed;
    }
    forall a | a in f.teamIdByActivity
      ensures f.teamIdByActivity[a] in f.clients && a in f.clients[f.teamIdByActivity[a]].subscribed
    {
      var t := r.teamIdByActivity[a];
      assert a in r.clients[t].subscribed;
      assert t != teamId;
    }
  }

  /** Dispose keeps the invariant (and the subscriptions). */
  lemma DisposeValid(r: Registry)
    requires Valid(r)
    ensures Valid(AfterDispose(r)) && AfterDispose(r).clients == r.clients
  {
  }

  /**
   * The Unsubscribe guard skips an empty team id: a client subscribed under
   * team "" keeps the activity after it is unsubscribed.
   */
  lemma EmptyTeamKeepsSubscription(activityId: ActivityId)
    ensures var s := AfterSubscribe(Registry(map[], map[], false), "", activityId);
      var u := AfterUnsubscribe(s, activityId);
      && activityId !in u.teamIdByActivity
      && "" in u.clients && activityId in u.clients[""].subscribed
  {
  }

  // ---------------------------------------------------------------------
  // Message encoding (OnMessageReceived)

  /** The fields of a received Slack message; `timestamp` is its Unix time. */
  datatype SlackMessage = SlackMessage(
    teamId: Option<string>, teamName: Option<string>, channelId: Option<string>,
    channelName: Option<string>, timestamp: int, userId: Option<string>,
    userName: Option<string>, text: Option<string>)

  /** The eight key/value pairs, in the fixed order of the event format. */
  function MessagePairs(m: SlackMessage): (r: seq<(string, Option<string>)>)
    ensures |r| == 8
  {
    [("team_id", m.teamId), ("team_domain", m.teamName), ("channel_id", m.channelId),
     ("channel_name", m.channelName), ("timestamp", Some(IntToString(m.timestamp))),
     ("user_id", m.userId), ("user_name", m.userName), ("text", m.text)]
  }

  /** The pairs whose value is neither null nor blank, in order. */
  function Kept(ps: seq<(string, Option<string>)>, cc: CharClasses): (r: seq<(string, string)>)
    ensures |r| <= |ps|
  {
    if |ps| == 0 then []
    else (if IsNullOrWhiteSpace(ps[0].1, cc) then [] else [(ps[0].0, ps[0].1.value)]) + Kept(ps[1..], cc)
  }

  /** A pair is kept exactly when it is present with a non-blank value. */
  lemma {:induction false} KeptMembers(ps: seq<(string, Option<string>)>, cc: CharClasses, k: string, v: string)
    ensures (k, v) in Kept(ps, cc) <==> (k, Some(v)) in ps && !IsNullOrWhiteSpace(Some(v), cc)
  {
    if |ps| > 0 {
      KeptMembers(ps[1..], cc, k, v);
      assert ps == [ps[0]] + ps[1..];
    }
  }

  /** Filtering keeps the relative order: it distributes over concatenation. */
  lemma {:induction false} KeptAppend(a: seq<(string, Option<string>)>, b: seq<(string, Option<string>)>, cc: CharClasses)
    ensures Kept(a + b, cc) == Kept(a, cc) + Kept(b, cc)
  {
    if |a| > 0 {
      assert (a + b)[1..] == a[1..] + b;
      KeptAppend(a[1..], b, cc);
    } else {
      assert a + b == b;
    }
  }

  /** "key=UrlEncode(value)" for each kept pair. */
  function Rendered(kv: seq<(string, string)>, urlEncode: string -> string): (r: seq<string>)
    ensures |r| == |kv|
    ensures forall i :: 0 <= i < |kv| ==> r[i] == kv[i].0 + "=" + urlEncode(kv[i].1)
  {
    seq(|kv|, i requires 0 <= i < |kv| => kv[i].0 + "=" + urlEncode(kv[i].1))
  }

  /** The encoded message posted to the terminal's events endpoint. */
  function EncodeMessage(m: SlackMessage, urlEncode: string -> string, cc: CharClasses): string {
    Join(Rendered(Kept(MessagePairs(m), cc), urlEncode), "&")
  }

  /** The timestamp's text is never blank when white space excludes its digits and '-'. */
  lemma TimestampNotBlank(m: SlackMessage, cc: CharClasses)
    requires forall ch :: ch in IntToString(m.timestamp) ==> !cc.isWhiteSpace(ch)
    ensures !IsNullOrWhiteSpace(Some(IntToString(m.timestamp)), cc)
    ensures ("timestamp", IntToString(m.timestamp)) in Kept(MessagePairs(m), cc)
  {
    var t := IntToString(m.timestamp);
    assert |t| > 0 && t[0] in t;
    KeptMembers(MessagePairs(m), cc, "timestamp", t);
  }

  /**
   * A message whose other values are all blank encodes to its timestamp and
   * its text alone, in that order.
   */
  lemma EncodeTimestampAndText(m: SlackMessage, urlEncode: string -> string, cc: CharClasses)
    requires IsNullOrWhiteSpace(m.teamId, cc) && IsNullOrWhiteSpace(m.teamName, cc)
    requires IsNullOrWhiteSpace(m.channelId, cc) && IsNullOrWhiteSpace(m.channelName, cc)
    requires forall ch :: ch in IntToString(m.timestamp) ==> !cc.isWhiteSpace(ch)
    requires IsNullOrWhiteSpace(m.userId, cc) && IsNullOrWhiteSpace(m.userName, cc)
    requires !IsNullOrWhiteSpace(m.text, cc)
    ensures EncodeMessage(m, urlEncode, cc)
         == "timestamp=" + urlEncode(IntToString(m.timestamp)) + "&text=" + urlEncode(m.text.value)
  {
    var ps := MessagePairs(m);
    var t := IntToString(m.timestamp);
    TimestampNotBlank(m, cc);
    assert Kept(ps[7..], cc) == [("text", m.text.value)];
    assert Kept(ps[6..], cc) == Kept(ps[7..], cc);
    assert Kept(ps[5..], cc) == Kept(ps[6..], cc);
    assert Kept(ps[4..], cc) == [("timestamp", t)] + Kept(ps[5..], cc);
    assert Kept(ps[3..], cc) == Kept(ps[4..], cc);
    assert Kept(ps[2..], cc) == Kept(ps[3..], cc);
    assert Kept(ps[1..], cc) == Kept(ps[2..], cc);
    var kv := [("timestamp", t), ("text", m.text.value)];
    assert Kept(ps, cc) == kv;
    var rs := Rendered(kv, urlEncode);
    assert |rs| == 2 && rs[0] == "timestamp" + "=" + urlEncode(t) && rs[1] == "text" + "=" + urlEncode(m.text.value);
    assert Join(rs[1..], "&") == rs[1];
    assert Join(rs, "&") == rs[0] + "&" + rs[1];
  }

  /** The endpoint that receives the encoded messages. */
  function EventsUri(terminalEndpoint: string): string {
    terminalEndpoint + "/terminals/terminalslack/events"
  }

  /** A message post: target address and form-encoded content. */
  datatype Post = Post(uri: string, content: string)

  /** The REST client the manager posts through. */
  datatype RestfulServiceClient = RestfulServiceClient(name: string)

  class SlackEventManager {
    const restfulClient: RestfulServiceClient
    const eventsUri: string
    var clients: map<string, Client>
    var teamIdByActivity: map<ActivityId, string>
    var disposed: bool

    constructor (restfulClient: RestfulServiceClient, terminalEndpoint: string)
      ensures State() == Registry(map[], map[], false) && Valid(State())
      ensures this.restfulClient == restfulClient && eventsUri == EventsUri(terminalEndpoint)
    {
      this.restfulClient := restfulClient;
      eventsUri := terminalEndpoint + "/terminals/terminalslack/events";
      clients := map[];
      teamIdByActivity := map[];
      disposed := false;
    }

    function State(): Registry
      reads this
    {
      Registry(clients, teamIdByActivity, disposed)
    }

    method Unsubscribe(activityId: ActivityId)
      modifies this
      ensures State() == AfterUnsubscribe(old(State()), activityId)
    {
      if disposed {
        return;
      }
      var existingTeamId: Option<string> := None;
      if activityId in teamIdByActivity {
        existingTeamId := Some(teamIdByActivity[activityId]);
        teamIdByActivity := teamIdByActivity - {activityId};
      }
      if existingTeamId.Some? && existingTeamId.value != "" && existingTeamId.value in clients {
        var client := clients[existingTeamId.value];
        var rest := client.subscribed - {activityId};
        clients := clients[existingTeamId.value := client.(subscribed := rest)];
        if rest == {} {
          clients := clients - {existingTeamId.value};
        }
      }
    }

    method Subscribe(teamId: string, activityId: ActivityId)
      modifies this
      ensures State() == AfterSubscribe(old(State()), teamId, activityId)
    {
      if disposed {
        return;
      }
      Unsubscribe(activityId);
      var client: Client;
      if teamId in clients {
        client := clients[teamId];
      } else {
        client := Client(teamId, {});
        clients := clients[teamId := client];
      }
      client := client.(subscribed := client.subscribed + {activityId});
      clients := clients[teamId := client];
      teamIdByActivity := teamIdByActivity[activityId := teamId];
    }

    method OnSubscriptionFailed(client: Client)
      modifies this
      ensures State() == AfterSubscriptionFailed(old(State()), client)
    {
      var m := teamIdByActivity;
      var remaining := client.subscribed;
      while remaining != {}
        invariant remaining <= client.subscribed
        invariant m == teamIdByActivity - (client.subscribed - remaining)
        decreases |remaining|
      {
        var a :| a in remaining;
        m := m - {a};
        remaining := remaining - {a};
      }
      teamIdByActivity := m;
      clients := clients - {client.teamId};
    }

    method Dispose()
      modifies this
      ensures State() == AfterDispose(old(State()))
    {
      if disposed {
        return;
      }
      disposed := true;
    }

    /** What OnMessageReceived posts for a message. */
    method OnMessageReceived(m: SlackMessage, urlEncode: string -> string, cc: CharClasses) returns (post: Post)
      ensures post.uri == eventsUri
      ensures post.content == Join(Rendered(Kept(MessagePairs(m), cc), urlEncode), "&")
    {
      post := Post(eventsUri, EncodeMessage(m, urlEncode, cc));
    }
  }

  /** The constructor's argument check: a null REST client is rejected. */
  method NewSlackEventManager(restfulClient: Option<RestfulServiceClient>, terminalEndpoint: string)
    returns (r: Option<SlackEventManager>)
    ensures r.Some? <==> restfulClient.Some?
    ensures r.Some? ==> (fresh(r.value) && r.value.State() == Registry(map[], map[], false)
      && r.value.eventsUri == EventsUri(terminalEndpoint))
  {
    if restfulClient.None? {
      return None;
    }
    var manager := new SlackEventManager(restfulClient.value, terminalEndpoint);
    return Some(manager);
  }
}
