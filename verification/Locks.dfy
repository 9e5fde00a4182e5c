/**
 * The two locks of the service: `config_access`, a fair reader-writer lock, and the `sessions` mutex.
 * Every kind of task is the sequence of lock actions it performs; tasks interleave freely, and both locks
 * serve their queues in order.
 */
module Locks {
  import opened Types
  import opened Config
  import C = Config

  datatype Mode = Shared | Exclusive

  datatype Mutation = CreateProfile(p: Profile) | DeleteProfile(name: string)

  datatype Act =
    | Access(mode: Mode)       // config_access.read() or .write()
    | Release                  // its guard is dropped
    | LockSessions
    | UnlockSessions
    | Load                     // the configuration is read from its file
    | Commit(m: Mutation)      // ... changed, validated and written back

  // ---- The programs ----

  datatype Body = NoSession | OneVisit | ExecVisits // what `execute_authorized` does with the sessions

  function BodyActs(b: Body): seq<Act> {
    match b
    case NoSession => []
    case OneVisit => [LockSessions, UnlockSessions]
    case ExecVisits => [LockSessions, UnlockSessions, LockSessions, UnlockSessions]
  }

  datatype Program =
    | Operation(body: Body)                             // execute_principal, list_hosts, a claimed approval
    | CloudOperation(body: Body)                        // configuration handed in by the caller
    | Mutate(checked: bool, m: Mutation, refused: bool) // profile management, maybe after a check of the sessions
    | Maintain(rounds: nat)
    | Halt

  function Acts(p: Program): seq<Act>
    decreases if p.Maintain? then p.rounds else 0
  {
    match p
    case Operation(b) => [Access(Shared), Load] + (BodyActs(b) + [Release])
    case CloudOperation(b) => BodyActs(b)
    case Mutate(checked, m, refused) =>
      (if checked then [LockSessions, UnlockSessions] else [])
      + ([Access(Exclusive), Load]
         + ((if refused then [] else if m.DeleteProfile? then [LockSessions, Commit(m), UnlockSessions]
           else [Commit(m)])
            + [Release]))
    case Maintain(n) => if n == 0 then []
      else [Access(Shared), Load, LockSessions, UnlockSessions, Release] + Acts(Maintain(n - 1))
    case Halt => [LockSessions, UnlockSessions]
  }

  /**
   * No request for the configuration while holding either lock, none for the sessions while holding them, and
   * everything let go in the end.
   */
  predicate Disciplined(acts: seq<Act>, held: Option<Mode>, sessions: bool, loaded: bool) {
    if acts == [] then held.None? && !sessions
    else
      var rest := acts[1..];
      match acts[0]
      case Access(mode) => held.None? && !sessions && Disciplined(rest, Some(mode), false, false)
      case Release => held.Some? && Disciplined(rest, None, sessions, false)
      case LockSessions => !sessions && Disciplined(rest, held, true, loaded)
      case UnlockSessions => sessions && Disciplined(rest, held, false, loaded)
      case Load => held.Some? && Disciplined(rest, held, sessions, true)
      case Commit(_) => held == Some(Exclusive) && loaded && Disciplined(rest, held, sessions, loaded)
  }

  lemma OneAct(a: Act, rest: seq<Act>, held: Option<Mode>, sessions: bool, loaded: bool)
    ensures Disciplined([a] + rest, held, sessions, loaded) <==>
            match a
            case Access(mode) => held.None? && !sessions && Disciplined(rest, Some(mode), false, false)
            case Release => held.Some? && Disciplined(rest, None, sessions, false)
            case LockSessions => !sessions && Disciplined(rest, held, true, loaded)
            case UnlockSessions => sessions && Disciplined(rest, held, false, loaded)
            case Load => held.Some? && Disciplined(rest, held, sessions, true)
            case Commit(_) => held == Some(Exclusive) && loaded && Disciplined(rest, held, sessions, loaded)
  {
    assert ([a] + rest)[1..] == rest;
  }

  lemma Visit(rest: seq<Act>, held: Option<Mode>, loaded: bool)
    ensures Disciplined([LockSessions, UnlockSessions] + rest, held, false, loaded) <==>
            Disciplined(rest, held, false, loaded)
  {
    hide Disciplined;
    OneAct(UnlockSessions, rest, held, true, loaded);
    OneAct(LockSessions, [UnlockSessions] + rest, held, false, loaded);
    assert [LockSessions, UnlockSessions] + rest == [LockSessions] + ([UnlockSessions] + rest);
  }

  lemma BodyThen(b: Body, rest: seq<Act>, held: Option<Mode>, loaded: bool)
    ensures Disciplined(BodyActs(b) + rest, held, false, loaded) <==> Disciplined(rest, held, false, loaded)
  {
    hide Disciplined;
    Visit(rest, held, loaded);
    Visit([LockSessions, UnlockSessions] + rest, held, loaded);
    assert [] + rest == rest;
    assert BodyActs(ExecVisits) + rest == [LockSessions, UnlockSessions] + ([LockSessions, UnlockSessions] + rest);
  }

  lemma AccessThen(mode: Mode, rest: seq<Act>)
    ensures Disciplined([Access(mode), Load] + rest, None, false, false) <==> Disciplined(rest, Some(mode), false, true)
  {
    hide Disciplined;
    OneAct(Load, rest, Some(mode), false, false);
    OneAct(Access(mode), [Load] + rest, None, false, false);
    assert [Access(mode), Load] + rest == [Access(mode)] + ([Load] + rest);
  }

  lemma Ends()
    ensures Disciplined([], None, false, false)
    ensures forall mode, loaded :: Disciplined([Release], Some(mode), false, loaded)
  {
  }

  lemma CommitThen(m: Mutation, rest: seq<Act>)
    ensures Disciplined([Commit(m)] + rest, Some(Exclusive), false, true) <==>
            Disciplined(rest, Some(Exclusive), false, true)
    ensures Disciplined([LockSessions, Commit(m), UnlockSessions] + rest, Some(Exclusive), false, true) <==>
            Disciplined(rest, Some(Exclusive), false, true)
  {
    hide Disciplined;
    OneAct(Commit(m), rest, Some(Exclusive), false, true);
    OneAct(UnlockSessions, rest, Some(Exclusive), true, true);
    OneAct(Commit(m), [UnlockSessions] + rest, Some(Exclusive), true, true);
    OneAct(LockSessions, [Commit(m)] + ([UnlockSessions] + rest), Some(Exclusive), false, true);
    assert [LockSessions, Commit(m), UnlockSessions] + rest
      == [LockSessions] + ([Commit(m)] + ([UnlockSessions] + rest));
  }

  /** Every kind of task keeps the discipline. */
  lemma {:induction false} ProgramsDisciplined(p: Program)
    ensures Disciplined(Acts(p), None, false, false)
    decreases if p.Maintain? then p.rounds else 0
  {
    Ends();
    hide Disciplined, BodyActs;
    match p
    case Operation(b) =>
      BodyThen(b, [Release], Some(Shared), true);
      AccessThen(Shared, BodyActs(b) + [Release]);
    case CloudOperation(b) =>
      BodyThen(b, [], None, false);
      assert BodyActs(b) + [] == BodyActs(b);
    case Mutate(checked, m, refused) =>
      MutationDisciplined(checked, m, refused);
    case Maintain(n) =>
      if n > 0 {
        ProgramsDisciplined(Maintain(n - 1));
        RoundDisciplined(Acts(Maintain(n - 1)));
      }
    case Halt =>
      Visit([], None, false);
      assert [LockSessions, UnlockSessions] + [] == [LockSessions, UnlockSessions];
  }

  lemma MutationDisciplined(checked: bool, m: Mutation, refused: bool)
    ensures Disciplined(Acts(Mutate(checked, m, refused)), None, false, false)
  {
    Ends();
    hide Disciplined;
    CommitThen(m, [Release]);
    var change := if refused then [] else if m.DeleteProfile? then [LockSessions, Commit(m), UnlockSessions]
      else [Commit(m)];
    assert [] + [Release] == [Release];
    AccessThen(Exclusive, change + [Release]);
    var held := [Access(Exclusive), Load] + (change + [Release]);
    Visit(held, None, false);
    assert [] + held == held;
  }

  /**
   * A mutation that is not refused makes its change once, and no other; a deletion makes it while
   * no session can come or go.
   */
  lemma MutationCommits(checked: bool, m: Mutation, refused: bool)
    ensures var acts := Acts(Mutate(checked, m, refused));
            && (Commit(m) in acts <==> !refused)
            && (forall i :: 0 <= i < |acts| && acts[i].Commit? ==> acts[i] == Commit(m))
            && (forall i, j :: 0 <= i < j < |acts| && acts[i].Commit? ==> !acts[j].Commit?)
            && (m.DeleteProfile? ==>
                  forall i :: 0 <= i < |acts| && acts[i].Commit? ==>
                    0 < i < |acts| - 1 && acts[i - 1].LockSessions? && acts[i + 1].UnlockSessions?)
  {
    var acts := Acts(Mutate(checked, m, refused));
    var before := if checked then 2 else 0;
    if !refused {
      assert acts[before + if m.DeleteProfile? then 3 else 2] == Commit(m);
    }
  }

  lemma RoundDisciplined(rest: seq<Act>)
    requires Disciplined(rest, None, false, false)
    ensures Disciplined([Access(Shared), Load, LockSessions, UnlockSessions, Release] + rest, None, false, false)
  {
    hide Disciplined;
    OneAct(Release, rest, Some(Shared), false, true);
    Visit([Release] + rest, Some(Shared), true);
    AccessThen(Shared, [LockSessions, UnlockSessions] + ([Release] + rest));
    assert [Access(Shared), Load, LockSessions, UnlockSessions, Release] + rest
        == [Access(Shared), Load] + ([LockSessions, UnlockSessions] + ([Release] + rest));
  }

  // ---- The system ----

  datatype Thread = Thread(rest: seq<Act>, waiting: bool, held: Option<Mode>, sessions: bool, loaded: Option<AppConfig>)

  datatype System = System(threads: seq<Thread>, configQueue: seq<nat>, sessionQueue: seq<nat>, history: seq<AppConfig>)

  /** The file as it is now: the last configuration committed. */
  function Current(s: System): AppConfig
    requires s.history != []
  {
    s.history[|s.history| - 1]
  }

  datatype Event =
    | Spawn(p: Program)
    // `permitted`: profile management is on, the fingerprint fits and no session uses the profile
    | Advance(t: nat, permitted: bool)
    | GiveConfig                      // the head of the queue gets the lock
    | GiveSessions

  function Apply(cfg: AppConfig, m: Mutation): AppConfig {
    match m
    case CreateProfile(p) => C.Create(cfg, p)
    case DeleteProfile(name) => C.Delete(cfg, name)
  }

  /** What is checked between loading and writing. */
  ghost predicate Accepted(cfg: AppConfig, m: Mutation, credentials: Credentials) {
    && (match m
        case CreateProfile(p) => p.name !in Names(cfg.profiles)
        case DeleteProfile(name) => name in Names(cfg.profiles) && |cfg.profiles| != 1 && !HasDependent(cfg, name))
    && Valid(Apply(cfg, m), credentials)
  }

  predicate Compatible(threads: seq<Thread>, mode: Mode) {
    forall t :: 0 <= t < |threads| ==> threads[t].held.None? || (mode.Shared? && threads[t].held == Some(Shared))
  }

  /** An event that can happen now. A waiting task does nothing until it is granted what it waits for. */
  predicate Enabled(s: System, e: Event) {
    match e
    case Spawn(_) => true
    case Advance(t, _) => t < |s.threads| && !s.threads[t].waiting && s.threads[t].rest != []
    case GiveConfig =>
      && s.configQueue != [] && s.configQueue[0] < |s.threads|
      && s.threads[s.configQueue[0]].rest != [] && s.threads[s.configQueue[0]].rest[0].Access?
      && Compatible(s.threads, s.threads[s.configQueue[0]].rest[0].mode)
    case GiveSessions =>
      && s.sessionQueue != [] && s.sessionQueue[0] < |s.threads| && s.threads[s.sessionQueue[0]].rest != []
      && forall t :: 0 <= t < |s.threads| ==> !s.threads[t].sessions
  }

  ghost function Next(s: System, e: Event, credentials: Credentials): System
    requires Enabled(s, e) && s.history != []
    ensures |s.history| <= |Next(s, e, credentials).history|
  {
    match e
    case Spawn(p) => s.(threads := s.threads + [Thread(Acts(p), false, None, false, None)])
    case GiveConfig =>
      var t := s.configQueue[0];
      var th := s.threads[t];
      s.(threads :=
        s.threads[t := th.(rest := th.rest[1..], waiting := false, held := Some(th.rest[0].mode), loaded := None)],
         configQueue := s.configQueue[1..])
    case GiveSessions =>
      var t := s.sessionQueue[0];
      var th := s.threads[t];
      s.(threads := s.threads[t := th.(rest := th.rest[1..], waiting := false, sessions := true)],
        sessionQueue := s.sessionQueue[1..])
    case Advance(t, permitted) =>
      var th := s.threads[t];
      var done := th.(rest := th.rest[1..]);
      match th.rest[0]
      case Access(_) => s.(threads := s.threads[t := th.(waiting := true)], configQueue := s.configQueue + [t])
      case LockSessions => s.(threads := s.threads[t := th.(waiting := true)], sessionQueue := s.sessionQueue + [t])
      case Release => s.(threads := s.threads[t := done.(held := None, loaded := None)])
      case UnlockSessions => s.(threads := s.threads[t := done.(sessions := false)])
      case Load => s.(threads := s.threads[t := done.(loaded := Some(Current(s)))])
      case Commit(m) =>
        var s' := s.(threads := s.threads[t := done]);
        if th.loaded.None? || !permitted || !Accepted(th.loaded.value, m, credentials) then s'
        else s'.(threads := s.threads[t := done.(loaded := Some(Apply(th.loaded.value, m)))],
          history := s.history + [Apply(th.loaded.value, m)])
  }

  // ---- What every step keeps ----

  predicate ThreadOk(th: Thread) {
    && Disciplined(th.rest, th.held, th.sessions, th.loaded.Some?)
    && (th.loaded.Some? ==> th.held.Some?)
    && (th.waiting ==> th.rest != [] && (th.rest[0].Access? || th.rest[0].LockSessions?))
  }

  predicate WaitsFor(threads: seq<Thread>, t: nat, sessions: bool) {
    t < |threads| && threads[t].waiting && threads[t].rest != []
    && (if sessions then threads[t].rest[0].LockSessions? else threads[t].rest[0].Access?)
  }

  ghost predicate Queued(threads: seq<Thread>, queue: seq<nat>, sessions: bool) {
    && (forall i :: 0 <= i < |queue| ==> WaitsFor(threads, queue[i], sessions))
    && (forall i, j :: 0 <= i < j < |queue| ==> queue[i] != queue[j])
    && (forall t: nat :: WaitsFor(threads, t, sessions) ==> t in queue)
  }

  /** One writer alone, or readers; one visitor of the sessions. */
  ghost predicate Exclusion(threads: seq<Thread>) {
    && (forall t, u :: 0 <= t < |threads| && 0 <= u < |threads| && t != u && threads[t].held == Some(Exclusive) ==>
       threads[u].held.None?)
    && (forall t, u :: 0 <= t < |threads| && 0 <= u < |threads| && threads[t].sessions && threads[u].sessions ==>
       t == u)
  }

  /** A configuration loaded under the write lock is still the current one. */
  ghost predicate Fresh(s: System)
    requires s.history != []
  {
    forall t :: 0 <= t < |s.threads| && s.threads[t].held == Some(Exclusive) && s.threads[t].loaded.Some? ==>
      s.threads[t].loaded.value == Current(s)
  }

  ghost predicate Follows(cfg: AppConfig, cfg': AppConfig, credentials: Credentials) {
    exists m :: Accepted(cfg, m, credentials) && cfg' == Apply(cfg, m)
  }

  /** Each committed configuration is valid and one accepted change away from the one before it. */
  ghost predicate Serial(history: seq<AppConfig>, credentials: Credentials) {
    && history != [] && Valid(history[0], credentials)
    && forall i, j :: 0 <= i && j == i + 1 && j < |history| ==> Follows(history[i], history[j], credentials)
  }

  ghost predicate Inv(s: System, credentials: Credentials) {
    && (forall t :: 0 <= t < |s.threads| ==> ThreadOk(s.threads[t]))
    && Queued(s.threads, s.configQueue, false) && Queued(s.threads, s.sessionQueue, true)
    && Exclusion(s.threads) && Serial(s.history, credentials) && Fresh(s)
  }

  lemma HistoryValid(history: seq<AppConfig>, credentials: Credentials, i: nat)
    requires Serial(history, credentials) && i < |history|
    ensures Valid(history[i], credentials)
  {
    if i > 0 { assert Follows(history[i - 1], history[i], credentials); }
  }

  // ---- No deadlock ----

  ghost predicate Finished(s: System) {
    forall t :: 0 <= t < |s.threads| ==> s.threads[t].rest == []
  }

  ghost predicate Stuck(s: System) {
    forall e :: Enabled(s, e) ==> e.Spawn?
  }

  lemma HolderRuns(th: Thread)
    requires ThreadOk(th) && (th.sessions || th.held.Some?)
    ensures th.rest != [] && (th.waiting ==> !th.sessions && th.rest[0].LockSessions?)
  {
  }

  /** Whatever is queued behind whatever, some task can always go on. */
  lemma NoDeadlock(s: System, credentials: Credentials)
    requires Inv(s, credentials)
    ensures Stuck(s) ==> Finished(s)
  {
    hide Serial, Fresh, Disciplined;
    QueuesWait(s, credentials);
    if Stuck(s) {
      assert !Enabled(s, GiveConfig) && !Enabled(s, GiveSessions);
      forall t | 0 <= t < |s.threads| ensures !s.threads[t].sessions {
        assert !Enabled(s, Advance(t, true));
        if s.threads[t].sessions { HolderRuns(s.threads[t]); }
      }
      forall t | 0 <= t < |s.threads| ensures s.threads[t].held.None? {
        assert !Enabled(s, Advance(t, true)) && !WaitsFor(s.threads, t, true);
        if s.threads[t].held.Some? { HolderRuns(s.threads[t]); }
      }
      forall t | 0 <= t < |s.threads| ensures s.threads[t].rest == [] {
        assert !Enabled(s, Advance(t, true)) && !WaitsFor(s.threads, t, false) && !WaitsFor(s.threads, t, true)
          && ThreadOk(s.threads[t]);
      }
    }
  }

  // ---- Every step keeps the invariant ----

  lemma QueueStays(threads: seq<Thread>, queue: seq<nat>, sessions: bool, t: nat, th: Thread)
    requires Queued(threads, queue, sessions) && t < |threads|
             && (WaitsFor(threads, t, sessions) <==> WaitsFor(threads[t := th], t, sessions))
    ensures Queued(threads[t := th], queue, sessions)
  {
    assert forall u: nat :: u != t ==> WaitsFor(threads[t := th], u, sessions) == WaitsFor(threads, u, sessions);
  }

  lemma QueueJoined(threads: seq<Thread>, queue: seq<nat>, sessions: bool, t: nat, th: Thread)
    requires Queued(threads, queue, sessions) && t < |threads| && !threads[t].waiting
             && WaitsFor(threads[t := th], t, sessions)
    ensures Queued(threads[t := th], queue + [t], sessions)
  {
    assert forall u: nat :: u != t ==> WaitsFor(threads[t := th], u, sessions) == WaitsFor(threads, u, sessions);
    assert !WaitsFor(threads, t, sessions);
  }

  lemma QueueServed(threads: seq<Thread>, queue: seq<nat>, sessions: bool, th: Thread)
    requires Queued(threads, queue, sessions) && queue != [] && queue[0] < |threads| && !th.waiting
    ensures Queued(threads[queue[0] := th], queue[1..], sessions)
  {
    var after := threads[queue[0] := th];
    assert forall u: nat :: u != queue[0] ==> WaitsFor(after, u, sessions) == WaitsFor(threads, u, sessions);
    forall u: nat | WaitsFor(after, u, sessions) ensures u in queue[1..] {
      assert u in queue && u != queue[0];
    }
  }

  lemma QueueSpawned(threads: seq<Thread>, queue: seq<nat>, sessions: bool, th: Thread)
    requires Queued(threads, queue, sessions) && !th.waiting
    ensures Queued(threads + [th], queue, sessions)
  {
    assert forall u: nat :: WaitsFor(threads + [th], u, sessions) == WaitsFor(threads, u, sessions);
  }

  lemma SpawnKeeps(s: System, p: Program, credentials: Credentials)
    requires Inv(s, credentials)
    ensures Inv(Next(s, Spawn(p), credentials), credentials)
  {
    hide Disciplined, Acts, Serial, Queued;
    var th := Thread(Acts(p), false, None, false, None);
    ProgramsDisciplined(p);
    QueueSpawned(s.threads, s.configQueue, false, th);
    QueueSpawned(s.threads, s.sessionQueue, true, th);
  }

  lemma GiveConfigKeeps(s: System, credentials: Credentials)
    requires Inv(s, credentials) && Enabled(s, GiveConfig)
    ensures Inv(Next(s, GiveConfig, credentials), credentials)
  {
    var t := s.configQueue[0];
    var th := s.threads[t];
    assert ThreadOk(th);
    var th' := th.(rest := th.rest[1..], waiting := false, held := Some(th.rest[0].mode), loaded := None);
    hide Disciplined, Serial, Queued;
    QueueServed(s.threads, s.configQueue, false, th');
    QueueStays(s.threads, s.sessionQueue, true, t, th');
  }

  lemma GiveSessionsKeeps(s: System, credentials: Credentials)
    requires Inv(s, credentials) && Enabled(s, GiveSessions)
    ensures Inv(Next(s, GiveSessions, credentials), credentials)
  {
    var t := s.sessionQueue[0];
    var th := s.threads[t];
    assert ThreadOk(th) && WaitsFor(s.threads, t, true);
    var th' := th.(rest := th.rest[1..], waiting := false, sessions := true);
    hide Disciplined, Serial, Queued;
    QueueServed(s.threads, s.sessionQueue, true, th');
    QueueStays(s.threads, s.configQueue, false, t, th');
  }

  /** Asking for a lock. */
  lemma RequestKeeps(s: System, t: nat, credentials: Credentials)
    requires Inv(s, credentials) && Enabled(s, Advance(t, true))
             && (s.threads[t].rest[0].Access? || s.threads[t].rest[0].LockSessions?)
    ensures Inv(Next(s, Advance(t, true), credentials), credentials)
  {
    var th := s.threads[t].(waiting := true);
    assert ThreadOk(s.threads[t]);
    hide Disciplined, Serial, Queued;
    if s.threads[t].rest[0].Access? {
      QueueJoined(s.threads, s.configQueue, false, t, th);
      QueueStays(s.threads, s.sessionQueue, true, t, th);
    } else {
      QueueJoined(s.threads, s.sessionQueue, true, t, th);
      QueueStays(s.threads, s.configQueue, false, t, th);
    }
  }

  /** Letting a lock go, or reading the file. */
  lemma LocalKeeps(s: System, t: nat, credentials: Credentials)
    requires Inv(s, credentials) && Enabled(s, Advance(t, true))
    requires s.threads[t].rest[0].Release? || s.threads[t].rest[0].UnlockSessions? || s.threads[t].rest[0].Load?
    ensures Inv(Next(s, Advance(t, true), credentials), credentials)
  {
    var th := Next(s, Advance(t, true), credentials).threads[t];
    assert ThreadOk(s.threads[t]);
    assert ThreadOk(th);
    hide Disciplined, Serial, Queued, ThreadOk;
    QueueStays(s.threads, s.configQueue, false, t, th);
    QueueStays(s.threads, s.sessionQueue, true, t, th);
  }

  lemma AdvanceKeeps(s: System, t: nat, permitted: bool, credentials: Credentials)
    requires Inv(s, credentials) && Enabled(s, Advance(t, permitted))
    ensures Inv(Next(s, Advance(t, permitted), credentials), credentials)
  {
    assert s.history != [];
    hide Inv;
    var a := s.threads[t].rest[0];
    if a.Commit? {
      CommitKeeps(s, t, permitted, credentials);
    } else {
      assert Next(s, Advance(t, permitted), credentials) == Next(s, Advance(t, true), credentials);
      if a.Access? || a.LockSessions? { RequestKeeps(s, t, credentials); } else { LocalKeeps(s, t, credentials); }
    }
  }

  lemma SerialAfter(history: seq<AppConfig>, m: Mutation, credentials: Credentials)
    requires Serial(history, credentials) && Accepted(history[|history| - 1], m, credentials)
    ensures Serial(history + [Apply(history[|history| - 1], m)], credentials)
  {
    hide Accepted, Apply, C.Valid;
    assert Follows(history[|history| - 1], Apply(history[|history| - 1], m), credentials);
  }

  lemma Applied(cfg: AppConfig, m: Mutation, credentials: Credentials)
    ensures var cfg' := Apply(cfg, m);
            && cfg' == cfg.(profiles := cfg'.profiles)
            && (m.CreateProfile? ==> cfg'.profiles == cfg.profiles + [m.p])
            && (m.DeleteProfile? ==> forall p :: p in cfg'.profiles <==> p in cfg.profiles && p.name != m.name)
    ensures Accepted(cfg, m, credentials) ==>
              if m.CreateProfile? then m.p.name !in Names(cfg.profiles) else m.name in Names(cfg.profiles)
  {
    hide C.Valid;
  }

  lemma CommitKeeps(s: System, t: nat, permitted: bool, credentials: Credentials)
    requires Inv(s, credentials) && Enabled(s, Advance(t, permitted)) && s.threads[t].rest[0].Commit?
    ensures Inv(Next(s, Advance(t, permitted), credentials), credentials)
    ensures s.threads[t].held == Some(Exclusive) && s.threads[t].loaded == Some(Current(s))
    ensures var m := s.threads[t].rest[0].m;
            Next(s, Advance(t, permitted), credentials).history
            == if permitted
              && Accepted(Current(s), m, credentials) then s.history + [Apply(Current(s), m)] else s.history
    ensures var m, after := s.threads[t].rest[0].m, Next(s, Advance(t, permitted), credentials);
            |after.history| > |s.history| ==>
              && Current(after) == Current(s).(profiles := Current(after).profiles)
              && (m.CreateProfile? ==>
                    m.p.name !in Names(Current(s).profiles)
                    && Current(after).profiles == Current(s).profiles + [m.p])
              && (m.DeleteProfile? ==>
                    m.name in Names(Current(s).profiles)
                    && forall p :: p in Current(after).profiles <==> p in Current(s).profiles && p.name != m.name)
  {
    Applied(Current(s), s.threads[t].rest[0].m, credentials);
    var th := s.threads[t];
    var th' := Next(s, Advance(t, permitted), credentials).threads[t];
    assert ThreadOk(th) && th.held == Some(Exclusive) && th.loaded.Some? && th.loaded.value == Current(s);
    hide Disciplined, Serial, Queued, Accepted, Apply;
    QueueStays(s.threads, s.configQueue, false, t, th');
    QueueStays(s.threads, s.sessionQueue, true, t, th');
    if permitted && Accepted(th.loaded.value, th.rest[0].m, credentials) {
      SerialAfter(s.history, th.rest[0].m, credentials);
    }
  }

  lemma NextKeeps(s: System, e: Event, credentials: Credentials)
    requires Inv(s, credentials) && Enabled(s, e)
    ensures Inv(Next(s, e, credentials), credentials)
  {
    hide Inv, Next;
    match e
    case Spawn(p) => SpawnKeeps(s, p, credentials);
    case GiveConfig => GiveConfigKeeps(s, credentials);
    case GiveSessions => GiveSessionsKeeps(s, credentials);
    case Advance(t, permitted) => AdvanceKeeps(s, t, permitted, credentials);
  }

  // ---- Every run ----

  /** The events happen one after another, each when it is enabled. */
  ghost predicate Possible(s: System, events: seq<Event>, credentials: Credentials)
    requires s.history != []
    decreases |events|
  {
    events == [] || (Enabled(s, events[0]) && Possible(Next(s, events[0], credentials), events[1..], credentials))
  }

  ghost function After(s: System, events: seq<Event>, credentials: Credentials): (r: System)
    requires s.history != [] && Possible(s, events, credentials)
    ensures r.history != []
    decreases |events|
  {
    if events == [] then s else After(Next(s, events[0], credentials), events[1..], credentials)
  }

  function Start(cfg: AppConfig): System {
    System([], [], [], [cfg])
  }

  lemma {:induction false} RunKeeps(s: System, events: seq<Event>, credentials: Credentials)
    requires Inv(s, credentials) && s.history != [] && Possible(s, events, credentials)
    ensures Inv(After(s, events, credentials), credentials)
    decreases |events|
  {
    hide Inv, Next, Enabled;
    if events != [] {
      NextKeeps(s, events[0], credentials);
      RunKeeps(Next(s, events[0], credentials), events[1..], credentials);
    }
  }

  /**
   * In every run: no deadlock, no reader beside a writer, and a history of valid configurations, each one
   * accepted change after the last.
   */
  lemma EveryRun(cfg: AppConfig, events: seq<Event>, credentials: Credentials)
    requires C.Valid(cfg, credentials) && Possible(Start(cfg), events, credentials)
    ensures var s := After(Start(cfg), events, credentials);
            && (Stuck(s) ==> Finished(s)) && Exclusion(s.threads) && Serial(s.history, credentials)
            && forall i :: 0 <= i < |s.history| ==> C.Valid(s.history[i], credentials)
  {
    assert Inv(Start(cfg), credentials);
    RunKeeps(Start(cfg), events, credentials);
    var s := After(Start(cfg), events, credentials);
    NoDeadlock(s, credentials);
    forall i | 0 <= i < |s.history| ensures C.Valid(s.history[i],
      credentials) { HistoryValid(s.history, credentials, i); }
  }

  // ---- Every task ends ----

  function Cost(th: Thread): nat {
    2 * |th.rest| + if th.waiting then 0 else 1
  }

  function Work(threads: seq<Thread>): nat {
    if threads == [] then 0 else Cost(threads[0]) + Work(threads[1..])
  }

  lemma {:induction false} WorkAfter(threads: seq<Thread>, t: nat, th: Thread)
    requires t < |threads|
    ensures Work(threads[t := th]) == Work(threads) - Cost(threads[t]) + Cost(th)
  {
    hide Cost;
    if t == 0 {
      assert threads[0 := th][1..] == threads[1..];
    } else {
      WorkAfter(threads[1..], t - 1, th);
      assert threads[t := th][1..] == threads[1..][t - 1 := th];
    }
  }

  lemma StepWorks(s: System, e: Event, credentials: Credentials)
    requires s.history != [] && Enabled(s, e) && !e.Spawn?
    requires e.GiveConfig? ==> s.threads[s.configQueue[0]].waiting
    requires e.GiveSessions? ==> s.threads[s.sessionQueue[0]].waiting
    ensures Work(Next(s, e, credentials).threads) < Work(s.threads)
  {
    hide Accepted, Apply, Compatible;
    if e.Advance? { MoveWorks(s, e.t, e.permitted, credentials); }
    else if e.GiveConfig? { WorkAfter(s.threads, s.configQueue[0], Next(s, e, credentials).threads[s.configQueue[0]]); }
    else { WorkAfter(s.threads, s.sessionQueue[0], Next(s, e, credentials).threads[s.sessionQueue[0]]); }
  }

  lemma MoveWorks(s: System, t: nat, permitted: bool, credentials: Credentials)
    requires s.history != [] && Enabled(s, Advance(t, permitted))
    ensures Work(Next(s, Advance(t, permitted), credentials).threads) < Work(s.threads)
  {
    hide Accepted, Apply, Work;
    var s' := Next(s, Advance(t, permitted), credentials);
    WorkAfter(s.threads, t, s'.threads[t]);
    assert s'.threads == s.threads[t := s'.threads[t]];
  }

  lemma QueuesWait(s: System, credentials: Credentials)
    requires Inv(s, credentials)
    ensures s.configQueue != [] ==> WaitsFor(s.threads, s.configQueue[0], false)
    ensures s.sessionQueue != [] ==> WaitsFor(s.threads, s.sessionQueue[0], true)
  {
  }

  /** Without new tasks a run has no more steps than there is work, so with NoDeadlock every task gets to its end. */
  lemma {:induction false} RunsEnd(s: System, events: seq<Event>, credentials: Credentials)
    requires Inv(s, credentials) && Possible(s, events, credentials) && forall i :: 0 <= i < |events| ==>
             !events[i].Spawn?
    ensures |events| <= Work(s.threads)
    decreases |events|
  {
    if events != [] {
      QueuesWait(s, credentials);
      NextKeeps(s, events[0], credentials);
      hide Inv, Next;
      StepWorks(s, events[0], credentials);
      RunsEnd(Next(s, events[0], credentials), events[1..], credentials);
    }
  }

  // ---- Why the discipline is needed ----

  /**
   * A task that asks for the configuration again while holding it waits forever behind a writer that came in between.
   */
  lemma NestedAccessDeadlocks(cfg: AppConfig, credentials: Credentials)
    ensures var reader := Thread([Access(Shared), Access(Shared), Release, Release], false, None, false, None);
            var writer := Thread([Access(Exclusive), Release], false, None, false, None);
            var s := System([reader, writer], [], [], [cfg]);
            var events := [Advance(0, true), GiveConfig, Advance(1, true), Advance(0, true)];
            Possible(s, events, credentials) && Stuck(After(s, events, credentials))
              && !Finished(After(s, events, credentials))
  {
    var reader := Thread([Access(Shared), Access(Shared), Release, Release], false, None, false, None);
    var writer := Thread([Access(Exclusive), Release], false, None, false, None);
    var s0 := System([reader, writer], [], [], [cfg]);
    var s1 := Next(s0, Advance(0, true), credentials);
    var s2 := Next(s1, GiveConfig, credentials);
    var s3 := Next(s2, Advance(1, true), credentials);
    var s4 := Next(s3, Advance(0, true), credentials);
    assert s4.threads[0].waiting && s4.threads[0].held == Some(Shared) && s4.threads[1].waiting
      && s4.configQueue == [1, 0];
    assert Possible(s4, [], credentials) && Possible(s3, [Advance(0, true)], credentials);
    assert Possible(s2, [Advance(1, true), Advance(0, true)], credentials);
    assert Possible(s1, [GiveConfig, Advance(1, true), Advance(0, true)], credentials);
  }
}
