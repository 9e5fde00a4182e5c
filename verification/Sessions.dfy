/**
 * The session pool: sessions, the index that finds them by namespace and profile, and tunnels. Connecting may fail and
 * a transport may die at any time; both are left open here. Session identifiers are drawn from a counter.
 */
module Sessions {
  import opened Types
  import opened Config

  type SessionId = nat
  type Key = (string, string)

  datatype Session = Session(namespace: string, profile: string, transport: nat, upstream: Option<string>,
                             ownsTransport: bool, agentReady: bool, lastUsed: Time, idleTimeout: nat, active: nat)
  {
    function Key(): Key {
      (namespace, profile)
    }
  }

  datatype Tunnel = Tunnel(sessionId: SessionId, localPort: nat, remoteHost: string, remotePort: nat)

  type Pool = map<SessionId, Session>
  type Index = map<Key, SessionId>

  /** The two maps are each other's inverse. */
  ghost predicate Bijective(sessions: Pool, index: Index) {
    && (forall key :: key in index ==> index[key] in sessions && sessions[index[key]].Key() == key)
    && (forall id :: id in sessions ==> sessions[id].Key() in index && index[sessions[id].Key()] == id)
  }

  /** Every session counts exactly the commands prepared on it and not finished yet. */
  ghost predicate Counted(sessions: Pool, inflight: multiset<SessionId>, issued: nat) {
    && (forall id :: id in sessions ==> id < issued && sessions[id].active == inflight[id])
    && (forall id :: id in inflight ==> id < issued)
  }

  lemma OneSessionEach(sessions: Pool, index: Index, a: SessionId, b: SessionId)
    requires Bijective(sessions, index) && a in sessions && b in sessions && sessions[a].Key() == sessions[b].Key()
    ensures a == b
  {
    assert index[sessions[a].Key()] == a && index[sessions[b].Key()] == b;
  }

  lemma RemovalKeeps(sessions: Pool, index: Index, inflight: multiset<SessionId>, issued: nat, id: SessionId)
    requires Bijective(sessions, index) && Counted(sessions, inflight, issued) && id in sessions
    ensures Bijective(sessions - {id}, index - {sessions[id].Key()}) && Counted(sessions - {id}, inflight, issued)
  {
    forall other | other in sessions - {id} ensures sessions[other].Key() != sessions[id].Key() {
      if sessions[other].Key() == sessions[id].Key() { OneSessionEach(sessions, index, other, id); }
    }
  }

  lemma InsertionKeeps(sessions: Pool, index: Index, inflight: multiset<SessionId>, issued: nat, id: SessionId,
      s: Session)
    requires Bijective(sessions, index) && Counted(sessions, inflight, issued) && id < issued && id !in sessions
             && id !in inflight
    requires s.Key() !in index && s.active == 0
    ensures Bijective(sessions[id := s], index[s.Key() := id]) && Counted(sessions[id := s], inflight, issued)
  {
  }

  lemma TouchKeeps(sessions: Pool, index: Index, inflight: multiset<SessionId>, issued: nat, id: SessionId, s: Session)
    requires Bijective(sessions, index) && Counted(sessions, inflight, issued)
    requires id in sessions && s.Key() == sessions[id].Key() && s.active == sessions[id].active
    ensures Bijective(sessions[id := s], index) && Counted(sessions[id := s], inflight, issued)
  {
  }

  lemma BusyCounts(sessions: Pool, inflight: multiset<SessionId>, issued: nat)
    requires Counted(sessions, inflight, issued)
    ensures forall id :: id in sessions && inflight[id] > 0 ==> sessions[id].active > 0
  {
  }

  /** `saturating_sub(1)`. */
  function OneLess(n: nat): nat {
    if n == 0 then 0 else n - 1
  }

  lemma StartKeeps(sessions: Pool, index: Index, inflight: multiset<SessionId>, issued: nat, id: SessionId)
    requires Bijective(sessions, index) && Counted(sessions, inflight, issued) && id in sessions
    ensures var started := sessions[id := sessions[id].(active := sessions[id].active + 1)];
            Bijective(started, index) && Counted(started, inflight + multiset{id}, issued)
  {
  }

  lemma FinishKeeps(sessions: Pool, index: Index, inflight: multiset<SessionId>, issued: nat, id: SessionId, now: Time)
    requires Bijective(sessions, index) && Counted(sessions, inflight, issued) && id in inflight
    ensures id !in sessions ==> Counted(sessions, inflight - multiset{id}, issued)
    ensures id in sessions ==>
              sessions[id].active > 0 &&
              var finished := sessions[id := sessions[id].(active := sessions[id].active - 1, lastUsed := now)];
              Bijective(finished, index) && Counted(finished, inflight - multiset{id}, issued)
  {
  }

  // ---- What leaves a caller's other sessions alone ----

  ghost predicate InChain(key: Key, namespace: string, chain: seq<string>) {
    key.0 == namespace && key.1 in chain
  }

  /**
   * Sessions outside the chain stay exactly as they were; inside it, a session is kept, renewed
   * or replaced by a fresh one.
   */
  ghost predicate Framed(before: Pool, after: Pool, namespace: string, chain: seq<string>, issued: nat) {
    && (forall id :: id in before && !InChain(before[id].Key(), namespace, chain) ==>
       id in after && after[id] == before[id])
    && (forall id :: id in after && id in before ==> after[id] == before[id].(lastUsed := after[id].lastUsed))
    && (forall id :: id in after && id !in before ==>
       issued <= id && InChain(after[id].Key(), namespace, chain) && after[id].active == 0)
  }

  lemma FramedAfterInsertion(before: Pool, after: Pool, namespace: string, name: string, chain: seq<string>,
      id: SessionId, s: Session)
    requires |chain| > 0 && chain[0] == name && Framed(before, after, namespace, chain[1..], id + 1)
    requires id !in before && s.Key() == (namespace, name) && s.active == 0
    ensures Framed(before, after[id := s], namespace, chain, id)
  {
    assert forall x :: x in chain[1..] ==> x in chain;
  }

  lemma FramedWider(before: Pool, after: Pool, namespace: string, chain: seq<string>, issued: nat)
    requires |chain| > 0 && Framed(before, after, namespace, chain[1..], issued + 1)
    ensures Framed(before, after, namespace, chain, issued)
  {
    assert forall x :: x in chain[1..] ==> x in chain;
  }

  /** Opening the rest of the chain leaves the first profile without a session, and the drawn identifier unused. */
  lemma StillFree(before: Pool, index: Index, after: Pool, index': Index, namespace: string, name: string,
      chain: seq<string>, id: SessionId, inflight: multiset<SessionId>)
    requires |chain| > 0 && Bijective(before, index) && Counted(before, inflight, id) && Bijective(after, index')
             && Framed(before, after, namespace, chain[1..], id + 1)
    requires name !in chain[1..] && (namespace, name) !in index
    ensures (namespace, name) !in index' && id !in after && id !in before && id !in inflight
  {
    assert forall other :: other in after && after[other].Key() == (namespace, name) ==>
      !InChain(after[other].Key(), namespace, chain[1..]);
  }

  lemma OtherNamespaces(before: Pool, after: Pool, namespace: string, chain: seq<string>, issued: nat)
    requires Framed(before, after, namespace, chain, issued)
    ensures forall id :: id in before && before[id].namespace != namespace ==> id in after && after[id] == before[id]
  {
  }

  lemma NotBack(before: Pool, after: Pool, namespace: string, chain: seq<string>, issued: nat, id: SessionId)
    requires Framed(before, after, namespace, chain, issued) && id !in before && id < issued
    ensures id !in after
  {
  }

  lemma FramedAfterRemoval(before: Pool, id: SessionId, after: Pool, namespace: string, chain: seq<string>, issued: nat)
    requires id in before && id < issued && InChain(before[id].Key(), namespace, chain)
             && Framed(before - {id}, after, namespace, chain, issued)
    ensures Framed(before, after, namespace, chain, issued)
  {
  }

  /** A good chain never comes back to where it started, and its tail is a good chain. */
  lemma ChainTail(cfg: AppConfig, credentials: Credentials, name: string, chain: seq<string>)
    requires ChainFrom(cfg, credentials, name, [], chain) && Find(cfg.profiles, name).Some?
             && Find(cfg.profiles, name).value.via.Some?
    ensures |chain| > 1 && name !in chain[1..]
            && ChainFrom(cfg, credentials, Find(cfg.profiles, name).value.via.value, [], chain[1..])
  {
    TailOfChain(cfg, credentials, name, [], chain);
    assert GoodLink(cfg, credentials, chain, 0);
    forall i | 0 <= i < |chain[1..]| ensures chain[1..][i] != name {
      assert chain[0] != chain[i + 1];
    }
  }

  /** Once a profile resolves, so does every profile it depends on. */
  lemma UpstreamResolves(cfg: AppConfig, credentials: Credentials, name: string, chain: seq<string>)
    requires ChainFrom(cfg, credentials, name, [], chain)
    ensures Resolve(cfg, name, [], credentials).Ok?
  {
    ResolvesExactly(cfg, name, [], credentials);
  }

  /** A delegated session runs over the transport of its upstream's session. */
  ghost predicate SharesTransport(sessions: Pool, index: Index, id: SessionId, upstream: Key) {
    && upstream in index && index[upstream] in sessions && id in sessions
    && sessions[id].upstream == Some(upstream.1) && sessions[id].transport == sessions[index[upstream]].transport
  }

  ghost predicate Idle(sessions: Pool, tunnels: map<nat, Tunnel>, id: SessionId, scope: Option<string>,
      clock: SessionId -> Time)
    requires id in sessions
  {
    && (scope.None? || sessions[id].namespace == scope.value)
    && sessions[id].active == 0 && clock(id) - sessions[id].lastUsed > sessions[id].idleTimeout
    && forall t :: t in tunnels ==> tunnels[t].sessionId != id
  }

  // What the network said when a host was connected to: a transport, or nothing.
  type Answer = Option<nat>

  /**
   * A session is had from a living transport, or by connecting where the chain of profiles ends, which the Cloud
   * runtime does for profiles of its own only.
   */
  predicate Reached(cfg: AppConfig, profile: Resolved, alive: Option<bool>, answer: Option<Answer>) {
    alive == Some(true) || ((profile.transport.Direct? || !cfg.cloud) && answer != Some(None))
  }

  class SessionManager {
    var sessions: Pool
    var profileIndex: Index
    var tunnels: map<nat, Tunnel>
    var issued: nat
    ghost var inflight: multiset<SessionId>

    ghost predicate Valid()
      reads this
    {
      Bijective(sessions, profileIndex) && Counted(sessions, inflight, issued)
    }

    constructor ()
      ensures Valid() && sessions == map[] && tunnels == map[] && inflight == multiset{}
    {
      sessions, profileIndex, tunnels, issued, inflight := map[], map[], map[], 0, multiset{};
    }

    /** Connecting, and asking whether a transport is alive, are up to the network. */
    method Connect() returns (transport: Answer)
    {
      var ok: bool := *;
      var id: nat := *;
      transport := if ok then Some(id) else None;
    }

    method IsAlive(transport: nat) returns (alive: bool)
    {
      alive := *;
    }

    /**
     * Finds or opens the session of a resolved profile, opening its upstream sessions first. The chain of profiles it
     * depends on bounds the recursion and says which sessions it may touch.
     */
    method EnsureSession(cfg: AppConfig, credentials: Credentials, namespace: string, profile: Resolved, now: Time,
        ghost chain: seq<string>)
      returns (r: Result<SessionId, Error>, ghost alive: Option<bool>, ghost answer: Option<Answer>)
      requires Valid()
      requires Resolve(cfg, profile.name, [], credentials) == Ok(profile)
               && ChainFrom(cfg, credentials, profile.name, [], chain)
      modifies this`sessions, this`profileIndex, this`issued
      ensures Valid() && issued >= old(issued)
      ensures r.Ok? ==> r.value in sessions && sessions[r.value].Key() == (namespace, profile.name)
      ensures r.Err? ==> (namespace, profile.name) !in profileIndex
      ensures alive.Some? <==> (namespace, profile.name) in old(profileIndex) // its transport's answer
      ensures r.Ok? <==> Reached(cfg, profile, alive, answer)
      ensures profile.transport.Direct? ==> (answer.Some? <==> alive != Some(true))
      ensures alive == Some(true) ==>
                var id := old(profileIndex)[(namespace, profile.name)];
                r == Ok(id) && id in old(sessions)
                  && sessions == old(sessions)[id := old(sessions)[id].(lastUsed := now)]
      ensures alive == Some(false) ==> old(profileIndex)[(namespace, profile.name)] !in sessions
      ensures alive != Some(true) && r.Ok? ==> r.value !in old(sessions)
      ensures Framed(old(sessions), sessions, namespace, chain, old(issued))
      decreases |chain|
    {
      hide Bijective, Counted, ChainFrom, Resolve, Framed;
      var key := (namespace, profile.name);
      if key in profileIndex {
        var id := profileIndex[key];
        Indexed(sessions, profileIndex, key);
        var living := IsAlive(sessions[id].transport);
        alive := Some(living);
        if living {
          var renewed := sessions[id].(lastUsed := now);
          TouchKeeps(sessions, profileIndex, inflight, issued, id, renewed);
          TouchFramed(sessions, id, now, namespace, profile.name, chain, issued, cfg, credentials);
          sessions := sessions[id := renewed];
          return Ok(id), alive, None;
        }
        RemovalKeeps(sessions, profileIndex, inflight, issued, id);
        RemovalBelow(sessions, inflight, issued, id);
        sessions := sessions - {id};
        profileIndex := profileIndex - {key};
        r, answer := OpenSession(cfg, credentials, namespace, profile, now, chain);
        HeadInChain(cfg, credentials, profile.name, chain);
        NotBack(old(sessions) - {id}, sessions, namespace, chain, old(issued), id);
        FramedAfterRemoval(old(sessions), id, sessions, namespace, chain, old(issued));
      } else {
        alive := None;
        r, answer := OpenSession(cfg, credentials, namespace, profile, now, chain);
      }
    }

    /** The second half of `ensure_session`: no session is indexed under the profile. */
    method OpenSession(cfg: AppConfig, credentials: Credentials, namespace: string, profile: Resolved, now: Time,
        ghost chain: seq<string>)
      returns (r: Result<SessionId, Error>, ghost answer: Option<Answer>)
      requires Valid() && (namespace, profile.name) !in profileIndex
      requires Resolve(cfg, profile.name, [], credentials) == Ok(profile)
               && ChainFrom(cfg, credentials, profile.name, [], chain)
      modifies this`sessions, this`profileIndex, this`issued
      ensures Valid() && issued >= old(issued)
      ensures r.Ok? ==>
              r.value >= old(issued) && r.value !in old(sessions) && r.value in sessions
                && sessions[r.value].Key() == (namespace, profile.name)
      ensures r.Err? ==> (namespace, profile.name) !in profileIndex
      ensures r.Ok? <==> Reached(cfg, profile, None, answer)
      ensures profile.transport.Direct? ==> answer.Some?
      ensures profile.transport.Direct? && r.Ok? ==> answer == Some(Some(sessions[r.value].transport))
      ensures r.Ok? ==> sessions[r.value].lastUsed == now && sessions[r.value].idleTimeout == profile.idleSeconds
      ensures r.Ok? ==>
              (sessions[r.value].ownsTransport <==> profile.transport.Direct?)
                && (sessions[r.value].upstream.None? <==> profile.transport.Direct?)
      ensures r.Ok? && profile.transport.Delegated? ==>
                SharesTransport(sessions, profileIndex, r.value, (namespace, profile.transport.via))
      ensures Framed(old(sessions), sessions, namespace, chain, old(issued))
      decreases |chain|, 0
    {
      hide Bijective, Counted, ChainFrom, Resolve, Framed;
      ghost var before, index, first := sessions, profileIndex, issued;
      Unmoved(sessions, namespace, chain, issued);
      var id := issued;
      issued := issued + 1;
      MoreIssued(sessions, inflight, first);
      HeadOfChain(cfg, credentials, profile.name, chain);
      answer := None;
      var transport: nat;
      var upstream: Option<string> := None;
      if profile.transport.Direct? {
        var connected := Connect();
        answer := Some(connected);
        if connected.None? { return Err(Config("connect")), answer; }
        transport := connected.value;
        Unmoved(sessions, namespace, chain[1..], issued);
        DirectFree(before, index, inflight, id);
      } else {
        if cfg.cloud { return Err(PolicyDenied("delegated")), None; }
        var via := profile.transport.via;
        DelegatedChain(cfg, credentials, profile, chain);
        var resolved, _ := ResolveProfileWith(cfg, via, [], credentials);
        if resolved.Err? { return Err(Config("upstream")), None; }
        ResolvedName(cfg, via, credentials);
        var above;
        ghost var aboveAlive;
        above, aboveAlive, answer := EnsureSession(cfg, credentials, namespace, resolved.value, now, chain[1..]);
        if aboveAlive == Some(true) { answer := None; }
        StillFree(before, index, sessions, profileIndex, namespace, profile.name, chain, id, inflight);
        if above.Err? {
          FramedWider(before, sessions, namespace, chain, first);
          return Err(above.error), answer;
        }
        transport := sessions[above.value].transport;
        upstream := Some(via);
        IndexOf(sessions, profileIndex, above.value);
      }
      var s :=
        Session(namespace, profile.name, transport, upstream, upstream.None?, false, now, profile.idleSeconds, 0);
      InsertionKeeps(sessions, profileIndex, inflight, issued, id, s);
      FramedAfterInsertion(before, sessions, namespace, profile.name, chain, id, s);
      profileIndex := profileIndex[(namespace, profile.name) := id];
      sessions := sessions[id := s];
      r := Ok(id);
    }

    // ---- Closing ----

    /** A tunnel can be closed only through its live session, in the caller's namespace. */
    method CloseTunnel(namespace: string, tunnelId: nat, now: Time) returns (ok: bool)
      requires Valid()
      modifies this`sessions, this`tunnels
      ensures Valid() && sessions.Keys == old(sessions).Keys
      ensures ok <==> tunnelId in old(tunnels) && old(tunnels)[tunnelId].sessionId in sessions
                      && sessions[old(tunnels)[tunnelId].sessionId].namespace == namespace
      ensures tunnels == if ok then old(tunnels) - {tunnelId} else old(tunnels)
      ensures sessions == if ok
              then old(sessions)[old(tunnels)[tunnelId].sessionId :=
                old(sessions)[old(tunnels)[tunnelId].sessionId].(lastUsed := now)]
              else old(sessions)
    {
      hide Bijective, Counted;
      if tunnelId !in tunnels { return false; }
      var id := tunnels[tunnelId].sessionId;
      if id !in sessions || sessions[id].namespace != namespace { return false; }
      tunnels := tunnels - {tunnelId};
      TouchKeeps(sessions, profileIndex, inflight, issued, id, sessions[id].(lastUsed := now));
      sessions := sessions[id := sessions[id].(lastUsed := now)];
      ok := true;
    }

    /**
     * Closing forgets exactly one session and its index entry. Its tunnels stay: once the session is gone
     * none of them can be seen.
     */
    method CloseSession(namespace: string, id: SessionId, now: Time) returns (ok: bool)
      requires Valid()
      modifies this`sessions, this`profileIndex, this`tunnels
      ensures Valid() && tunnels == old(tunnels)
      ensures ok <==> id in old(sessions) && old(sessions)[id].namespace == namespace
      ensures sessions == if ok then old(sessions) - {id} else old(sessions)
    {
      hide Bijective, Counted;
      if id !in sessions || sessions[id].namespace != namespace { return false; }
      RemovalKeeps(sessions, profileIndex, inflight, issued, id);
      profileIndex := profileIndex - {sessions[id].Key()};
      sessions := sessions - {id};
      var todo := set t | t in tunnels && tunnels[t].sessionId == id;
      while todo != {}
        invariant Valid() && tunnels == old(tunnels) && sessions == old(sessions) - {id}
        invariant forall t :: t in todo ==> t in tunnels && tunnels[t].sessionId == id
      {
        var t :| t in todo;
        var _ := CloseTunnel(namespace, t, now);
        todo := todo - {t};
      }
      ok := true;
    }

    method CloseAll(now: Time)
      requires Valid()
      modifies this`sessions, this`profileIndex, this`tunnels
      ensures Valid() && sessions == map[] && profileIndex == map[] && tunnels == old(tunnels)
    {
      var todo := sessions.Keys;
      while todo != {}
        invariant Valid() && tunnels == old(tunnels) && sessions.Keys == todo
      {
        var id :| id in todo;
        var closed := CloseSession(sessions[id].namespace, id, now);
        todo := todo - {id};
      }
      assert forall key :: key in profileIndex ==> profileIndex[key] in sessions;
    }

    // ---- Reaping ----

    method HasTunnel(id: SessionId) returns (has: bool)
      ensures has <==> exists t :: t in tunnels && tunnels[t].sessionId == id
    {
      var todo := tunnels.Keys;
      while todo != {}
        invariant todo <= tunnels.Keys
        invariant forall t :: t in tunnels && t !in todo ==> tunnels[t].sessionId != id
      {
        var t :| t in todo;
        if tunnels[t].sessionId == id { return true; }
        todo := todo - {t};
      }
      has := false;
    }

    method FindIdle(scope: Option<string>, clock: SessionId -> Time) returns (expired: set<SessionId>)
      ensures forall id :: id in expired <==> id in sessions && Idle(sessions, tunnels, id, scope, clock)
    {
      expired := {};
      var todo := sessions.Keys;
      while todo != {}
        invariant todo <= sessions.Keys && todo !! expired
        invariant forall id :: id in expired ==> id in sessions && Idle(sessions, tunnels, id, scope, clock)
        invariant forall id :: id in sessions && id !in todo && Idle(sessions, tunnels, id, scope, clock) ==>
                  id in expired
      {
        var id :| id in todo;
        todo := todo - {id};
        var busy := HasTunnel(id);
        if (scope.None? || sessions[id].namespace == scope.value) && sessions[id].active == 0 && !busy
           && clock(id) - sessions[id].lastUsed > sessions[id].idleTimeout {
          expired := expired + {id};
        }
      }
    }

    /**
     * Removes exactly the sessions in scope that are past their timeout, each at its own clock reading, with no command
     * in flight on them and no tunnel.
     */
    method ReapIdleSessions(scope: Option<string>, clock: SessionId -> Time, now: Time)
      requires Valid()
      modifies this`sessions, this`profileIndex, this`tunnels
      ensures Valid() && tunnels == old(tunnels)
      ensures forall id :: id in sessions <==>
              id in old(sessions)
              && !(&& (scope.None? || old(sessions)[id].namespace == scope.value) && old(sessions)[id].active == 0
                   && old(sessions)[id].lastUsed + old(sessions)[id].idleTimeout < clock(id)
                   && forall t :: t in old(tunnels) ==> old(tunnels)[t].sessionId != id)
      ensures forall id :: id in sessions ==> sessions[id] == old(sessions)[id]
      ensures forall id :: id in old(sessions) && inflight[id] > 0 ==> id in sessions
    {
      BusyCounts(sessions, inflight, issued);
      hide Bijective, Counted;
      var expired := FindIdle(scope, clock);
      assert forall id :: id in sessions && inflight[id] > 0 ==> id !in expired;
      RemoveAll(expired, now);
    }

    method RemoveAll(expired: set<SessionId>, now: Time)
      requires Valid() && expired <= sessions.Keys
      modifies this`sessions, this`profileIndex, this`tunnels
      ensures Valid() && tunnels == old(tunnels) && sessions == old(sessions) - expired
    {
      hide Bijective, Counted;
      var todo := expired;
      while todo != {}
        invariant Valid() && tunnels == old(tunnels) && todo <= expired && todo <= sessions.Keys
        invariant sessions == old(sessions) - (expired - todo)
      {
        var id :| id in todo;
        var closed := CloseSession(sessions[id].namespace, id, now);
        todo := todo - {id};
      }
    }

    // ---- Commands in flight ----

    /** Bootstrapping the remote agent may fail; on success the session is marked ready. */
    method EnsureAgent(id: SessionId, now: Time) returns (ok: bool)
      requires Valid() && id in sessions
      modifies this`sessions
      ensures Valid() && sessions.Keys == old(sessions).Keys
      ensures forall other :: other in sessions && other != id ==> sessions[other] == old(sessions)[other]
      ensures sessions[id] == if ok then old(sessions)[id].(agentReady := true, lastUsed := now) else old(sessions)[id]
    {
      hide Bijective, Counted;
      ok := *;
      if ok {
        var ready := sessions[id].(agentReady := true, lastUsed := now);
        TouchKeeps(sessions, profileIndex, inflight, issued, id, ready);
        sessions := sessions[id := ready];
      }
    }

    method PrepareExec(cfg: AppConfig, credentials: Credentials, namespace: string, profileName: string, now: Time)
        returns (r: Result<SessionId, Error>, ghost alive: Option<bool>, ghost answer: Option<Answer>,
          ghost ready: bool)
      requires Valid()
      modifies this`sessions, this`profileIndex, this`issued, this`inflight
      ensures Valid()
      ensures var found := Resolve(cfg, profileName, [], credentials);
              r.Ok? <==> found.Ok? && Reached(cfg, found.value, alive, answer) && ready // the agent's answer
      ensures r.Err? ==> inflight == old(inflight)
      ensures r.Ok? ==>
              inflight == old(inflight) + multiset{r.value} && r.value in sessions
                && sessions[r.value].Key() == (namespace, profileName)
      ensures forall id :: id in old(sessions) && old(sessions)[id].namespace != namespace ==>
              id in sessions && sessions[id] == old(sessions)[id]
    {
      hide Bijective, Counted, Resolve, ChainFrom, Framed;
      var resolved, _ := ResolveProfileWith(cfg, profileName, [], credentials);
      alive, answer, ready := None, None, false;
      if resolved.Err? { return Err(resolved.error), None, None, false; }
      ResolvedName(cfg, profileName, credentials);
      ResolvesExactly(cfg, profileName, [], credentials);
      ghost var chain :| ChainFrom(cfg, credentials, profileName, [], chain);
      r, alive, answer := EnsureSession(cfg, credentials, namespace, resolved.value, now, chain);
      OtherNamespaces(old(sessions), sessions, namespace, chain, old(issued));
      if r.Err? { return; }
      var started := StartExec(r.value, now);
      ready := started;
      if !started { r := Err(Config("agent")); }
    }

    /** With the agent ready, one more command is in flight. */
    method StartExec(id: SessionId, now: Time) returns (ok: bool)
      requires Valid() && id in sessions
      modifies this`sessions, this`inflight
      ensures Valid() && sessions.Keys == old(sessions).Keys && sessions[id].Key() == old(sessions)[id].Key()
      ensures forall other :: other in sessions && other != id ==> sessions[other] == old(sessions)[other]
      ensures inflight == if ok then old(inflight) + multiset{id} else old(inflight)
    {
      hide Bijective, Counted;
      ok := EnsureAgent(id, now);
      if ok {
        StartKeeps(sessions, profileIndex, inflight, issued, id);
        sessions := sessions[id := sessions[id].(active := sessions[id].active + 1)];
        inflight := inflight + multiset{id};
      }
    }

    /** The session may be gone by now; if it is not, its count is exact and the saturating subtraction never clamps. */
    method FinishExec(id: SessionId, now: Time)
      requires Valid() && id in inflight
      modifies this`sessions, this`inflight
      ensures Valid() && inflight == old(inflight) - multiset{id} && sessions.Keys == old(sessions).Keys
      ensures id in sessions ==>
              sessions[id] == old(sessions)[id].(active := old(sessions)[id].active - 1, lastUsed := now)
      ensures forall other :: other in sessions && other != id ==> sessions[other] == old(sessions)[other]
    {
      hide Bijective, Counted;
      FinishKeeps(sessions, profileIndex, inflight, issued, id, now);
      if id in sessions {
        var s := sessions[id];
        sessions := sessions[id := s.(active := OneLess(s.active), lastUsed := now)];
      }
      inflight := inflight - multiset{id};
    }

    // ---- Opening a tunnel ----

    method OpenTunnel(cfg: AppConfig, credentials: Credentials, namespace: string, profileName: string, tunnelId: nat,
                      localPort: nat, remoteHost: string, remotePort: nat, now: Time)
                        returns (r: Result<SessionId, Error>, ghost alive: Option<bool>, ghost answer: Option<Answer>,
                          ghost bound: bool)
      requires Valid() && tunnelId !in tunnels
      modifies this`sessions, this`profileIndex, this`issued, this`tunnels
      ensures Valid()
      ensures r.Err? ==> tunnels == old(tunnels)
      ensures var found := Resolve(cfg, profileName, [], credentials);
              r.Ok? <==> found.Ok? && Reached(cfg, found.value, alive, answer) && bound // a direct session, a free port
      ensures r.Ok? ==> tunnels == old(tunnels)[tunnelId := Tunnel(r.value, localPort, remoteHost, remotePort)]
                        && r.value in sessions && sessions[r.value].Key() == (namespace, profileName)
                           && sessions[r.value].upstream.None?
    {
      hide Bijective, Counted, Resolve, ChainFrom;
      var resolved, _ := ResolveProfileWith(cfg, profileName, [], credentials);
      alive, answer, bound := None, None, false;
      if resolved.Err? { return Err(resolved.error), None, None, false; }
      ResolvedName(cfg, profileName, credentials);
      ResolvesExactly(cfg, profileName, [], credentials);
      ghost var chain :| ChainFrom(cfg, credentials, profileName, [], chain);
      r, alive, answer := EnsureSession(cfg, credentials, namespace, resolved.value, now, chain);
      if r.Err? { return; }
      var id := r.value;
      if sessions[id].upstream.Some? { return Err(Config("delegated")), alive, answer, false; }
      var free: bool := *;
      bound := free;
      if !free { return Err(Config("bind")), alive, answer, false; }
      TouchKeeps(sessions, profileIndex, inflight, issued, id, sessions[id].(lastUsed := now));
      sessions := sessions[id := sessions[id].(lastUsed := now)];
      tunnels := tunnels[tunnelId := Tunnel(id, localPort, remoteHost, remotePort)];
    }
  }

  lemma Unmoved(sessions: Pool, namespace: string, chain: seq<string>, issued: nat)
    ensures Framed(sessions, sessions, namespace, chain, issued)
  {
  }

  lemma MoreIssued(sessions: Pool, inflight: multiset<SessionId>, issued: nat)
    requires Counted(sessions, inflight, issued)
    ensures Counted(sessions, inflight, issued + 1)
  {
  }

  lemma DirectFree(sessions: Pool, index: Index, inflight: multiset<SessionId>, id: SessionId)
    requires Counted(sessions, inflight, id)
    ensures id !in sessions && id !in inflight
  {
  }

  /** What a delegated profile resolved to says about the rest of its chain. */
  lemma DelegatedChain(cfg: AppConfig, credentials: Credentials, profile: Resolved, chain: seq<string>)
    requires Resolve(cfg, profile.name, [], credentials) == Ok(profile) && profile.transport.Delegated?
    requires ChainFrom(cfg, credentials, profile.name, [], chain)
    ensures |chain| > 1 && chain[0] == profile.name && profile.name !in chain[1..]
            && ChainFrom(cfg, credentials, profile.transport.via, [], chain[1..])
    ensures Resolve(cfg, profile.transport.via, [], credentials).Ok?
  {
    ChainTail(cfg, credentials, profile.name, chain);
    UpstreamResolves(cfg, credentials, profile.transport.via, chain[1..]);
  }

  lemma ResolvedName(cfg: AppConfig, name: string, credentials: Credentials)
    ensures var r := Resolve(cfg, name, [], credentials); r.Ok? ==> r.value.name == name
  {
  }

  lemma HeadOfChain(cfg: AppConfig, credentials: Credentials, name: string, chain: seq<string>)
    requires ChainFrom(cfg, credentials, name, [], chain)
    ensures |chain| > 0 && chain[0] == name
  {
  }

  lemma IndexOf(sessions: Pool, index: Index, id: SessionId)
    requires Bijective(sessions, index) && id in sessions
    ensures sessions[id].Key() in index && index[sessions[id].Key()] == id
  {
  }

  lemma Indexed(sessions: Pool, index: Index, key: Key)
    requires Bijective(sessions, index) && key in index
    ensures index[key] in sessions && sessions[index[key]].Key() == key
  {
  }

  lemma RemovalBelow(sessions: Pool, inflight: multiset<SessionId>, issued: nat, id: SessionId)
    requires Counted(sessions, inflight, issued) && id in sessions
    ensures id < issued
  {
  }

  lemma HeadInChain(cfg: AppConfig, credentials: Credentials, name: string, chain: seq<string>)
    requires ChainFrom(cfg, credentials, name, [], chain)
    ensures name in chain
  {
  }

  lemma TouchFramed(sessions: Pool, id: SessionId, now: Time, namespace: string, name: string, chain: seq<string>,
      issued: nat, cfg: AppConfig, credentials: Credentials)
    requires id in sessions && sessions[id].Key() == (namespace, name) && ChainFrom(cfg, credentials, name, [], chain)
    ensures Framed(sessions, sessions[id := sessions[id].(lastUsed := now)], namespace, chain, issued)
  {
    HeadInChain(cfg, credentials, name, chain);
  }
}
