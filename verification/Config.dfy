/** The profile configuration: local checks, the via_profile resolver, whole-file validation. */
module Config {
  import opened Types
  import Paths

  datatype Capability = CanExec | CanRead | CanWrite | CanUpload | CanDownload | CanTunnel

  datatype Effect = Allow | Confirm | Deny

  datatype Rule = Rule(id: string, operation: string, commands: seq<string>, paths: seq<string>,
                       effect: Effect, risk: Option<Risk>)

  datatype AgentPolicy = AgentPolicy(capabilities: set<Capability>, readPaths: seq<string>, writePaths: seq<string>,
                                     commands: seq<string>, denyCommands: seq<string>, rules: seq<Rule>)

  type Auth = string
  type Secret = string
  // Credential lookup is a deterministic function this model does not look into.
  type Credentials = Auth -> Option<Secret>

  datatype Endpoint = Endpoint(host: string, user: string, port: nat, auth: Option<Auth>, pinWellFormed: bool)

  datatype Profile = Profile(name: string, via: Option<string>, target: Endpoint, bastions: seq<Endpoint>,
                             auth: Option<Auth>, agentManaged: bool, agentPath: string, idleSeconds: nat,
                             policy: AgentPolicy)

  datatype Permit = Permit(task: bool, time: bool)

  datatype GrantConfig = GrantConfig(maxTtl: nat, defaultMaxUses: nat, low: Permit, medium: Permit, high: Permit,
                                     critical: Permit)

  datatype AppConfig = AppConfig(profiles: seq<Profile>, tenants: nat, mcpWellFormed: bool, cloud: bool,
                                 strictHostKeys: bool, approvalsEnabled: bool, approvalTtl: nat, sqlite: bool,
                                 grants: GrantConfig)

  datatype Transport =
    | Direct(target: Endpoint, bastions: seq<Endpoint>)
    | Delegated(via: string, target: Endpoint)

  datatype Resolved = Resolved(name: string, transport: Transport, idleSeconds: nat)

  // ---- Local checks of one profile ----

  predicate IsSpace(c: char) {
    c == ' ' || '\t' <= c <= '\r'
  }

  predicate Blank(s: string) {
    forall i :: 0 <= i < |s| ==> IsSpace(s[i])
  }

  predicate RuleOk(r: Rule) {
    && !Blank(r.id)
    && r.operation in {"exec", "read", "write", "upload", "download"}
    && (if r.operation == "exec" then r.commands != [] else r.paths != [])
  }

  predicate DistinctIds(rules: seq<Rule>) {
    forall i, j :: 0 <= i < j < |rules| ==> rules[i].id != rules[j].id
  }

  ghost predicate CommonOk(p: Profile) {
    && !Blank(p.name) && !Blank(p.target.host) && !Blank(p.target.user)
    && (p.agentManaged ==> !Blank(p.agentPath))
    && (forall i :: 0 <= i < |p.policy.readPaths| ==> Paths.Absolute(p.policy.readPaths[i]))
    && (forall i :: 0 <= i < |p.policy.writePaths| ==> Paths.Absolute(p.policy.writePaths[i]))
    && p.policy.denyCommands == []
    && (forall i :: 0 <= i < |p.policy.rules| ==> RuleOk(p.policy.rules[i]))
    && DistinctIds(p.policy.rules)
  }

  method ValidateCommon(p: Profile) returns (r: Result<(), Error>)
    ensures r.Ok? <==> CommonOk(p)
  {
    if Blank(p.name) || Blank(p.target.host) || Blank(p.target.user) { return Err(Config("empty name, host or user")); }
    if p.agentManaged && Blank(p.agentPath) { return Err(Config("agent.remote_path is empty")); }
    var readable := AllAbsolute(p.policy.readPaths);
    var writable := AllAbsolute(p.policy.writePaths);
    if !readable || !writable { return Err(Config("agent policy path must be absolute")); }
    if p.policy.denyCommands != [] { return Err(Config("deny_commands is not a security boundary")); }
    var sound := RulesSound(p.policy.rules);
    if !sound { return Err(Config("bad or duplicate policy rule")); }
    r := Ok(());
  }

  method AllAbsolute(paths: seq<string>) returns (ok: bool)
    ensures ok <==> forall i :: 0 <= i < |paths| ==> Paths.Absolute(paths[i])
  {
    for i := 0 to |paths|
      invariant forall j :: 0 <= j < i ==> Paths.Absolute(paths[j])
    {
      if !Paths.Absolute(paths[i]) { return false; }
    }
    ok := true;
  }

  method RulesSound(rules: seq<Rule>) returns (ok: bool)
    ensures ok <==> (forall i :: 0 <= i < |rules| ==> RuleOk(rules[i])) && DistinctIds(rules)
  {
    var ids: set<string> := {};
    for i := 0 to |rules|
      invariant forall j :: 0 <= j < i ==> RuleOk(rules[j]) && rules[j].id in ids
      invariant forall id :: id in ids ==> exists j :: 0 <= j < i && rules[j].id == id
      invariant forall j, k :: 0 <= j < k < i ==> rules[j].id != rules[k].id
    {
      if rules[i].id in ids || !RuleOk(rules[i]) { return false; }
      ids := ids + {rules[i].id};
    }
    ok := true;
  }

  ghost predicate EndpointOk(e: Endpoint, fallback: Option<Auth>, credentials: Credentials) {
    && !Blank(e.host) && !Blank(e.user) && e.pinWellFormed
    && var auth := if e.auth.Some? then e.auth else fallback;
       auth.Some? && credentials(auth.value).Some?
  }

  /** Everything `resolve` asks of one profile, apart from the profile it points to. */
  ghost predicate LocalOk(p: Profile, credentials: Credentials) {
    && CommonOk(p)
    && if p.via.Some? then p.bastions == [] && p.auth.None? && p.target.auth.None?
       else EndpointOk(p.target, p.auth, credentials)
            && forall i :: 0 <= i < |p.bastions| ==> EndpointOk(p.bastions[i], p.auth, credentials)
  }

  // ---- The resolver ----

  function Find(profiles: seq<Profile>, name: string): (r: Option<Profile>)
    ensures r.Some? ==> r.value in profiles && r.value.name == name
    ensures r.None? ==> forall i :: 0 <= i < |profiles| ==> profiles[i].name != name
  {
    if profiles == [] then None
    else if profiles[0].name == name then Some(profiles[0])
    else Find(profiles[1..], name)
  }

  function Names(profiles: seq<Profile>): set<string> {
    set i | 0 <= i < |profiles| :: profiles[i].name
  }

  function Elements(stack: seq<string>): set<string> {
    set x | x in stack
  }

  /** `stack` is the chain of names already being resolved. */
  ghost function Resolve(cfg: AppConfig, name: string, stack: seq<string>, credentials: Credentials): Result<Resolved,
      Error>
    decreases Names(cfg.profiles) - Elements(stack)
  {
    if name in stack then Err(Config("profile dependency cycle"))
    else
      var found := Find(cfg.profiles, name);
      if found.None? then Err(ProfileNotFound(name))
      else
        var p := found.value;
        if !LocalOk(p, credentials) then Err(Config("profile check failed"))
        else if p.via.None? then Ok(Resolved(name, Direct(p.target, p.bastions), p.idleSeconds))
        else
          assert name in Names(cfg.profiles) && name in Elements(stack + [name]);
          assert Elements(stack) <= Elements(stack + [name]);
          var upstream := Resolve(cfg, p.via.value, stack + [name], credentials);
          if upstream.Err? then upstream
          else Ok(Resolved(name, Delegated(p.via.value, p.target), p.idleSeconds))
  }

  /** A via_profile chain that ends in a direct profile, repeats no name, and is sound at every profile on it. */
  ghost predicate GoodChain(cfg: AppConfig, credentials: Credentials, chain: seq<string>) {
    && chain != []
    && (forall i, j :: 0 <= i < j < |chain| ==> chain[i] != chain[j])
    && (forall i :: 0 <= i < |chain| ==> GoodLink(cfg, credentials, chain, i))
  }

  ghost predicate GoodLink(cfg: AppConfig, credentials: Credentials, chain: seq<string>, i: nat)
    requires i < |chain|
  {
    var found := Find(cfg.profiles, chain[i]);
    && found.Some? && LocalOk(found.value, credentials)
    && (if i + 1 < |chain| then found.value.via == Some(chain[i + 1]) else found.value.via.None?)
  }

  ghost predicate ChainFrom(cfg: AppConfig, credentials: Credentials, name: string, stack: seq<string>,
      chain: seq<string>) {
    && GoodChain(cfg, credentials, chain) && chain[0] == name
    && forall i :: 0 <= i < |chain| ==> chain[i] !in stack
  }

  /** The resolver succeeds exactly on the names with a good chain outside the stack. */
  lemma {:induction false} ResolvesExactly(cfg: AppConfig, name: string, stack: seq<string>, credentials: Credentials)
    ensures Resolve(cfg, name, stack, credentials).Ok? <==>
            exists chain :: ChainFrom(cfg, credentials, name, stack, chain)
    decreases Names(cfg.profiles) - Elements(stack)
  {
    var found := Find(cfg.profiles, name);
    if name !in stack && found.Some? && LocalOk(found.value, credentials) {
      if found.value.via.None? {
        assert GoodLink(cfg, credentials, [name], 0);
        assert ChainFrom(cfg, credentials, name, stack, [name]);
      } else {
        var up := found.value.via.value;
        var stack' := stack + [name];
        assert name in Names(cfg.profiles) && name in Elements(stack');
        assert Elements(stack) <= Elements(stack');
        ResolvesExactly(cfg, up, stack', credentials);
        if chain :| ChainFrom(cfg, credentials, up, stack', chain) {
          ExtendChain(cfg, credentials, name, stack, chain);
        }
        if chain :| ChainFrom(cfg, credentials, name, stack, chain) {
          TailOfChain(cfg, credentials, name, stack, chain);
        }
      }
    }
    if chain :| ChainFrom(cfg, credentials, name, stack, chain) {
      assert GoodLink(cfg, credentials, chain, 0);
    }
  }

  lemma ExtendChain(cfg: AppConfig, credentials: Credentials, name: string, stack: seq<string>, chain: seq<string>)
    requires name !in stack && Find(cfg.profiles, name).Some? && LocalOk(Find(cfg.profiles, name).value, credentials)
    requires Find(cfg.profiles, name).value.via.Some?
    requires ChainFrom(cfg, credentials, Find(cfg.profiles, name).value.via.value, stack + [name], chain)
    ensures ChainFrom(cfg, credentials, name, stack, [name] + chain)
  {
    var longer := [name] + chain;
    forall i | 0 <= i < |longer| ensures GoodLink(cfg, credentials, longer, i) && longer[i] !in stack {
      if i > 0 {
        assert GoodLink(cfg, credentials, chain, i - 1);
        assert chain[i - 1] !in stack + [name];
      }
    }
    forall i, j | 0 <= i < j < |longer| ensures longer[i] != longer[j] {
      assert chain[j - 1] !in stack + [name];
    }
  }

  lemma LinkShift(cfg: AppConfig, credentials: Credentials, chain: seq<string>, i: nat)
    requires i + 1 < |chain|
    ensures GoodLink(cfg, credentials, chain[1..], i) <==> GoodLink(cfg, credentials, chain, i + 1)
  {
  }

  lemma TailOfChain(cfg: AppConfig, credentials: Credentials, name: string, stack: seq<string>, chain: seq<string>)
    requires ChainFrom(cfg, credentials, name, stack, chain)
    requires Find(cfg.profiles, name).Some? && Find(cfg.profiles, name).value.via.Some?
    ensures ChainFrom(cfg, credentials, Find(cfg.profiles, name).value.via.value, stack + [name], chain[1..])
  {
    assert GoodLink(cfg, credentials, chain, 0);
    var rest := chain[1..];
    forall i | 0 <= i < |rest| ensures GoodLink(cfg, credentials, rest, i) && rest[i] !in stack + [name] {
      LinkShift(cfg, credentials, chain, i);
      assert rest[i] == chain[i + 1] && chain[0] != chain[i + 1];
    }
  }

  /** The stack form: restored on success; an unknown profile is the one error that leaves its own name behind. */
  method ResolveProfileWith(cfg: AppConfig, name: string, stack: seq<string>, credentials: Credentials)
    returns (r: Result<Resolved, Error>, stack': seq<string>)
    ensures r.Ok? <==> Resolve(cfg, name, stack, credentials).Ok?
    ensures r.Ok? ==> r == Resolve(cfg, name, stack, credentials) && stack' == stack
    ensures r.Ok? ==>
              exists p :: p in cfg.profiles && p.name == name && r.value.name == name
                && r.value.idleSeconds == p.idleSeconds && r.value.transport.target == p.target
                && (if p.via.Some? then r.value.transport.Delegated? && p.via == Some(r.value.transport.via)
                    else r.value.transport.Direct? && r.value.transport.bastions == p.bastions
                         && forall hop :: hop in [p.target] + p.bastions ==>
                              !Blank(hop.host) && !Blank(hop.user) && hop.pinWellFormed
                              && (if hop.auth.Some? then credentials(hop.auth.value).Some?
                                  else p.auth.Some? && credentials(p.auth.value).Some?))
    ensures r.Err? ==> stack' == stack || stack' == stack + [name]
    decreases Names(cfg.profiles) - Elements(stack)
  {
    stack' := stack;
    if name in stack' { return Err(Config("profile dependency cycle")), stack'; }
    stack' := stack' + [name];
    var found := Find(cfg.profiles, name);
    if found.None? { return Err(ProfileNotFound(name)), stack'; }
    var p := found.value;
    var common := ValidateCommon(p);
    if common.Err? { return Err(common.error), stack'[..|stack'| - 1]; }
    var transport: Transport;
    if p.via.Some? {
      if p.bastions != [] { return Err(Config("via_profile cannot be combined with bastions")),
        stack'[..|stack'| - 1]; }
      if p.auth.Some?
        || p.target.auth.Some? { return Err(Config("via_profile must not set auth")), stack'[..|stack'| - 1]; }
      assert name in Names(cfg.profiles) && name in Elements(stack');
      assert Elements(stack) <= Elements(stack');
      var upstream;
      upstream, stack' := ResolveProfileWith(cfg, p.via.value, stack', credentials);
      if upstream.Err? { return Err(upstream.error), stack'[..|stack'| - 1]; }
      transport := Delegated(p.via.value, p.target);
    } else {
      var ok := ValidateEndpoint(p.target, p.auth, credentials);
      if !ok { return Err(Config("target")), stack'[..|stack'| - 1]; }
      for i := 0 to |p.bastions|
        invariant forall j :: 0 <= j < i ==> EndpointOk(p.bastions[j], p.auth, credentials)
      {
        ok := ValidateEndpoint(p.bastions[i], p.auth, credentials);
        if !ok { return Err(Config("bastion")), stack'[..|stack'| - 1]; }
      }
      transport := Direct(p.target, p.bastions);
    }
    stack' := stack'[..|stack'| - 1];
    r := Ok(Resolved(p.name, transport, p.idleSeconds));
  }

  method ValidateEndpoint(e: Endpoint, fallback: Option<Auth>, credentials: Credentials) returns (ok: bool)
    ensures ok <==> EndpointOk(e, fallback, credentials)
  {
    if Blank(e.host) || Blank(e.user) || !e.pinWellFormed { return false; }
    var auth := if e.auth.Some? then e.auth else fallback;
    ok := auth.Some? && credentials(auth.value).Some?;
  }

  /** Nested resolver calls, failing ones included. */
  ghost function Depth(cfg: AppConfig, name: string, stack: seq<string>, credentials: Credentials): nat
    decreases Names(cfg.profiles) - Elements(stack)
  {
    var found := Find(cfg.profiles, name);
    if name in stack || found.None? || !LocalOk(found.value, credentials) || found.value.via.None? then 1
    else
      assert name in Names(cfg.profiles) && name in Elements(stack + [name]);
      assert Elements(stack) <= Elements(stack + [name]);
      1 + Depth(cfg, found.value.via.value, stack + [name], credentials)
  }

  ghost predicate DistinctKnown(cfg: AppConfig, stack: seq<string>) {
    && (forall i, j :: 0 <= i < j < |stack| ==> stack[i] != stack[j])
    && Elements(stack) <= Names(cfg.profiles)
  }

  lemma {:induction false} ImageBound(profiles: seq<Profile>)
    ensures |Names(profiles)| <= |profiles|
  {
    if profiles == [] {
      assert Names(profiles) == {};
    } else {
      var last := |profiles| - 1;
      ImageBound(profiles[..last]);
      assert Names(profiles) == Names(profiles[..last]) + {profiles[last].name};
    }
  }

  lemma {:induction false} DistinctCount(stack: seq<string>)
    requires forall i, j :: 0 <= i < j < |stack| ==> stack[i] != stack[j]
    ensures |Elements(stack)| == |stack|
  {
    if stack == [] {
      assert Elements(stack) == {};
    } else {
      var last := |stack| - 1;
      DistinctCount(stack[..last]);
      assert Elements(stack) == Elements(stack[..last]) + {stack[last]};
      assert stack[last] !in Elements(stack[..last]);
    }
  }

  lemma SubsetSize(a: set<string>, b: set<string>)
    requires a <= b
    ensures |a| <= |b|
  {
    assert b == a + (b - a);
  }

  /** However profiles point at each other, resolution nests at most one call deeper than there are profiles. */
  lemma {:induction false} DepthBound(cfg: AppConfig, name: string, stack: seq<string>, credentials: Credentials)
    requires DistinctKnown(cfg, stack)
    ensures |stack| + Depth(cfg, name, stack, credentials) <= |cfg.profiles| + 1
    decreases Names(cfg.profiles) - Elements(stack)
  {
    DistinctCount(stack);
    SubsetSize(Elements(stack), Names(cfg.profiles));
    ImageBound(cfg.profiles);
    var found := Find(cfg.profiles, name);
    if !(name in stack || found.None? || !LocalOk(found.value, credentials) || found.value.via.None?) {
      assert name in Names(cfg.profiles) && name in Elements(stack + [name]);
      assert Elements(stack + [name]) == Elements(stack) + {name};
      DepthBound(cfg, found.value.via.value, stack + [name], credentials);
    }
  }

  // ---- Whole-file validation ----

  ghost predicate DistinctNames(profiles: seq<Profile>) {
    forall i, j :: 0 <= i < j < |profiles| ==> profiles[i].name != profiles[j].name
  }

  ghost predicate SettingsOk(cfg: AppConfig) {
    && cfg.mcpWellFormed && (cfg.cloud ==> cfg.strictHostKeys)
    && cfg.approvalTtl > 0 && cfg.sqlite && cfg.grants.maxTtl > 0 && cfg.grants.defaultMaxUses > 0
  }

  ghost predicate AllResolve(cfg: AppConfig, credentials: Credentials) {
    forall i :: 0 <= i < |cfg.profiles| ==> Resolve(cfg, cfg.profiles[i].name, [], credentials).Ok?
  }

  ghost predicate Valid(cfg: AppConfig, credentials: Credentials) {
    && (cfg.profiles != [] || cfg.tenants > 0)
    && SettingsOk(cfg) && DistinctNames(cfg.profiles) && AllResolve(cfg, credentials)
  }

  method Validate(cfg: AppConfig, credentials: Credentials) returns (r: Result<(), Error>)
    ensures r.Ok? <==> Valid(cfg, credentials)
  {
    hide Resolve;
    if cfg.profiles == [] && cfg.tenants == 0 { return Err(Config("no profiles configured")); }
    if !cfg.mcpWellFormed { return Err(Config("mcp")); }
    if cfg.cloud && !cfg.strictHostKeys { return Err(Config("Cloud runtime requires strict host keys")); }
    var names: set<string> := {};
    for i := 0 to |cfg.profiles|
      invariant forall j :: 0 <= j < i ==> cfg.profiles[j].name in names
      invariant forall n :: n in names ==> exists j :: 0 <= j < i && cfg.profiles[j].name == n
      invariant forall j, k :: 0 <= j < k < i ==> cfg.profiles[j].name != cfg.profiles[k].name
    {
      if cfg.profiles[i].name in names { return Err(Config("duplicate profile name")); }
      names := names + {cfg.profiles[i].name};
    }
    for i := 0 to |cfg.profiles|
      invariant forall j :: 0 <= j < i ==> Resolve(cfg, cfg.profiles[j].name, [], credentials).Ok?
    {
      var resolved, _ := ResolveProfileWith(cfg, cfg.profiles[i].name, [], credentials);
      if resolved.Err? { return Err(resolved.error); }
    }
    if cfg.approvalTtl == 0 || !cfg.sqlite || cfg.grants.maxTtl == 0 || cfg.grants.defaultMaxUses == 0 {
      return Err(Config("approval settings"));
    }
    r := Ok(());
  }

  /** What may be relied on in a configuration that was accepted. */
  lemma AcceptedMeans(cfg: AppConfig, credentials: Credentials)
    requires Valid(cfg, credentials)
    ensures (cfg.profiles != [] || cfg.tenants > 0) && cfg.mcpWellFormed && (cfg.cloud ==> cfg.strictHostKeys)
            && cfg.sqlite && cfg.approvalTtl > 0 && cfg.grants.maxTtl > 0 && cfg.grants.defaultMaxUses > 0
    ensures forall i, j :: 0 <= i < j < |cfg.profiles| ==> cfg.profiles[i].name != cfg.profiles[j].name
    ensures forall p :: p in cfg.profiles ==>
              && !Blank(p.name) && !Blank(p.target.host) && !Blank(p.target.user)
              && (p.agentManaged ==> !Blank(p.agentPath)) && p.policy.denyCommands == []
              && (forall path :: path in p.policy.readPaths + p.policy.writePaths ==> "/" <= path)
              && (forall r :: r in p.policy.rules ==>
                    !Blank(r.id) && r.operation in {"exec", "read", "write", "upload", "download"}
                    && if r.operation == "exec" then r.commands != [] else r.paths != [])
              && (forall i, j :: 0 <= i < j < |p.policy.rules| ==> p.policy.rules[i].id != p.policy.rules[j].id)
              && (p.via.Some? ==> p.bastions == [] && p.auth.None? && p.target.auth.None?)
  {
    forall p | p in cfg.profiles ensures LocalOk(p, credentials) {
      var i :| 0 <= i < |cfg.profiles| && cfg.profiles[i] == p;
      FindUnique(cfg.profiles, i);
      assert Resolve(cfg, p.name, [], credentials).Ok?;
    }
    hide Resolve, Blank;
  }

  // ---- Deleting a profile ----

  function Without(profiles: seq<Profile>, name: string): (r: seq<Profile>)
    ensures forall p :: p in r <==> p in profiles && p.name != name
  {
    if profiles == [] then []
    else (if profiles[0].name == name then [] else [profiles[0]]) + Without(profiles[1..], name)
  }

  function Delete(cfg: AppConfig, name: string): AppConfig {
    cfg.(profiles := Without(cfg.profiles, name))
  }

  ghost predicate HasDependent(cfg: AppConfig, name: string) {
    exists i :: 0 <= i < |cfg.profiles| && cfg.profiles[i].via == Some(name)
  }

  method EnsureProfileDeletable(cfg: AppConfig, name: string) returns (r: Result<(), Error>)
    ensures r.Ok? <==> name in Names(cfg.profiles) && |cfg.profiles| != 1 && !HasDependent(cfg, name)
  {
    var found := Find(cfg.profiles, name);
    if found.None? { return Err(ProfileNotFound(name)); }
    if |cfg.profiles| == 1 { return Err(ProfileInUse(name)); }
    for i := 0 to |cfg.profiles|
      invariant forall j :: 0 <= j < i ==> cfg.profiles[j].via != Some(name)
    {
      if cfg.profiles[i].via == Some(name) { return Err(ProfileInUse(name)); }
    }
    r := Ok(());
  }

  lemma {:induction false} FindWithout(profiles: seq<Profile>, name: string, other: string)
    ensures Find(Without(profiles, name), other) == if other == name then None else Find(profiles, other)
  {
    if profiles != [] {
      FindWithout(profiles[1..], name, other);
      var rest := Without(profiles[1..], name);
      if profiles[0].name == name {
        assert Without(profiles, name) == rest;
      } else {
        assert Without(profiles, name) == [profiles[0]] + rest;
        assert ([profiles[0]] + rest)[1..] == rest;
      }
    }
  }

  lemma {:induction false} WithoutDistinct(profiles: seq<Profile>, name: string)
    requires DistinctNames(profiles)
    ensures DistinctNames(Without(profiles, name))
  {
    if profiles != [] {
      var rest := profiles[1..];
      assert forall i, j :: 0 <= i < j < |rest| ==>
        rest[i].name == profiles[i + 1].name && rest[j].name == profiles[j + 1].name;
      WithoutDistinct(rest, name);
      forall p | p in Without(rest, name) ensures p.name != profiles[0].name {
        assert p in rest;
        var k :| 0 <= k < |rest| && rest[k] == p;
        assert profiles[k + 1] == p;
      }
    }
  }

  /** A chain that avoids the deleted profile survives the deletion, and only such chains do. */
  lemma ChainWithout(cfg: AppConfig, credentials: Credentials, name: string, chain: seq<string>)
    ensures GoodChain(Delete(cfg, name), credentials, chain) <==>
            GoodChain(cfg, credentials, chain) && name !in chain
  {
    forall i | 0 <= i < |chain|
      ensures GoodLink(Delete(cfg, name), credentials, chain, i) <==>
              GoodLink(cfg, credentials, chain, i) && chain[i] != name
    {
      FindWithout(cfg.profiles, name, chain[i]);
    }
  }

  lemma FindUnique(profiles: seq<Profile>, i: nat)
    requires i < |profiles| && DistinctNames(profiles)
    ensures Find(profiles, profiles[i].name) == Some(profiles[i])
  {
    var r := Find(profiles, profiles[i].name);
    if r.Some? {
      var k :| 0 <= k < |profiles| && profiles[k] == r.value;
      assert k == i;
    }
  }

  /** In a chain only the first name can lack a predecessor pointing at it. */
  lemma NotPointedAt(cfg: AppConfig, credentials: Credentials, name: string, chain: seq<string>)
    requires GoodChain(cfg, credentials, chain) && !HasDependent(cfg, name) && chain[0] != name
    ensures name !in chain
  {
    forall k | 0 < k < |chain| ensures chain[k] != name {
      assert GoodLink(cfg, credentials, chain, k - 1);
      var p := Find(cfg.profiles, chain[k - 1]).value;
      var i :| 0 <= i < |cfg.profiles| && cfg.profiles[i] == p;
    }
  }

  /**
   * Deleting from a valid configuration leaves it valid exactly when nothing points at the deleted profile and
   * something remains configured; the guard's test implies both.
   */
  lemma DeleteRevalidatesExactly(cfg: AppConfig, credentials: Credentials, name: string)
    requires Valid(cfg, credentials) && name in Names(cfg.profiles)
    ensures Valid(Delete(cfg, name), credentials) <==>
            !HasDependent(cfg, name) && (|cfg.profiles| != 1 || cfg.tenants > 0)
  {
    var cfg' := Delete(cfg, name);
    WithoutDistinct(cfg.profiles, name);
    WithoutEmptyIff(cfg, name);
    if !HasDependent(cfg, name) {
      KeptProfilesResolve(cfg, credentials, name);
    } else {
      var d :| 0 <= d < |cfg.profiles| && cfg.profiles[d].via == Some(name);
      DependentBreaks(cfg, credentials, name, d);
    }
  }

  lemma KeptProfilesResolve(cfg: AppConfig, credentials: Credentials, name: string)
    requires Valid(cfg, credentials) && !HasDependent(cfg, name)
    ensures AllResolve(Delete(cfg, name), credentials)
  {
    var cfg' := Delete(cfg, name);
    forall i | 0 <= i < |cfg'.profiles| ensures Resolve(cfg', cfg'.profiles[i].name, [], credentials).Ok? {
      KeptProfileResolves(cfg, credentials, name, i);
    }
  }

  lemma KeptProfileResolves(cfg: AppConfig, credentials: Credentials, name: string, i: nat)
    requires Valid(cfg, credentials) && !HasDependent(cfg, name) && i < |Delete(cfg, name).profiles|
    ensures Resolve(Delete(cfg, name), Delete(cfg, name).profiles[i].name, [], credentials).Ok?
  {
    var cfg' := Delete(cfg, name);
    var kept := cfg'.profiles[i];
    assert kept in cfg.profiles && kept.name != name;
    var j :| 0 <= j < |cfg.profiles| && cfg.profiles[j] == kept;
    assert Resolve(cfg, cfg.profiles[j].name, [], credentials).Ok?;
    ResolvesExactly(cfg, kept.name, [], credentials);
    var chain :| ChainFrom(cfg, credentials, kept.name, [], chain);
    NotPointedAt(cfg, credentials, name, chain);
    ChainWithout(cfg, credentials, name, chain);
    assert ChainFrom(cfg', credentials, kept.name, [], chain);
    ResolvesExactly(cfg', kept.name, [], credentials);
  }

  lemma SecondOfChain(cfg: AppConfig, credentials: Credentials, name: string, chain: seq<string>)
    requires ChainFrom(cfg, credentials, name, [], chain)
    requires Find(cfg.profiles, name).Some? && Find(cfg.profiles, name).value.via.Some?
    ensures Find(cfg.profiles, name).value.via.value in chain
  {
    assert GoodLink(cfg, credentials, chain, 0);
    assert chain[1] in chain;
  }

  lemma DependentBreaks(cfg: AppConfig, credentials: Credentials, name: string, d: nat)
    requires Valid(cfg, credentials) && d < |cfg.profiles| && cfg.profiles[d].via == Some(name)
    ensures !AllResolve(Delete(cfg, name), credentials)
  {
    var cfg' := Delete(cfg, name);
    var dependent := cfg.profiles[d];
    FindUnique(cfg.profiles, d);
    assert Resolve(cfg, dependent.name, [], credentials).Ok?;
    ResolvesExactly(cfg, dependent.name, [], credentials);
    var chain :| ChainFrom(cfg, credentials, dependent.name, [], chain);
    assert GoodLink(cfg, credentials, chain, 0);
    assert |chain| > 1 && chain[1] == name && chain[0] != chain[1];
    assert dependent in cfg'.profiles;
    var j :| 0 <= j < |cfg'.profiles| && cfg'.profiles[j] == dependent;
    FindWithout(cfg.profiles, name, dependent.name);
    ResolvesExactly(cfg', dependent.name, [], credentials);
    forall after ensures !ChainFrom(cfg', credentials, dependent.name, [], after) {
      if ChainFrom(cfg', credentials, dependent.name, [], after) {
        SecondOfChain(cfg', credentials, dependent.name, after);
        ChainWithout(cfg, credentials, name, after);
      }
    }
    assert !Resolve(cfg', cfg'.profiles[j].name, [], credentials).Ok?;
  }

  lemma WithoutEmptyIff(cfg: AppConfig, name: string)
    requires DistinctNames(cfg.profiles) && name in Names(cfg.profiles)
    ensures Without(cfg.profiles, name) == [] <==> |cfg.profiles| == 1
  {
    var k :| 0 <= k < |cfg.profiles| && cfg.profiles[k].name == name;
    if |cfg.profiles| > 1 {
      var j := if k == 0 then 1 else 0;
      assert cfg.profiles[j].name != name;
      assert cfg.profiles[j] in Without(cfg.profiles, name);
    } else {
      assert cfg.profiles[1..] == [];
    }
  }

  // ---- Creating a profile ----

  function Create(cfg: AppConfig, p: Profile): AppConfig {
    cfg.(profiles := cfg.profiles + [p])
  }

  lemma {:induction false} FindAppended(profiles: seq<Profile>, p: Profile, name: string)
    ensures Find(profiles + [p], name) ==
            if Find(profiles, name).Some? then Find(profiles, name)
            else if p.name == name then Some(p) else None
  {
    if profiles == [] {
      assert profiles + [p] == [p];
    } else {
      FindAppended(profiles[1..], p, name);
      assert (profiles + [p])[1..] == profiles[1..] + [p];
    }
  }

  /** A candidate file is valid exactly when the new name is unused and the new profile itself resolves. */
  lemma CreateValidatesExactly(cfg: AppConfig, credentials: Credentials, p: Profile)
    requires Valid(cfg, credentials)
    ensures Valid(Create(cfg, p), credentials) <==>
            p.name !in Names(cfg.profiles) && Resolve(Create(cfg, p), p.name, [], credentials).Ok?
  {
    var cfg' := Create(cfg, p);
    var n := |cfg.profiles|;
    assert cfg'.profiles[n] == p;
    forall i | 0 <= i < n ensures Resolve(cfg', cfg'.profiles[i].name, [], credentials).Ok? {
      var name := cfg.profiles[i].name;
      assert Resolve(cfg, cfg.profiles[i].name, [], credentials).Ok?;
      ResolvesExactly(cfg, name, [], credentials);
      var chain :| ChainFrom(cfg, credentials, name, [], chain);
      forall k | 0 <= k < |chain| ensures GoodLink(cfg', credentials, chain, k) {
        assert GoodLink(cfg, credentials, chain, k);
        FindAppended(cfg.profiles, p, chain[k]);
      }
      assert ChainFrom(cfg', credentials, name, [], chain);
      ResolvesExactly(cfg', name, [], credentials);
    }
    if p.name in Names(cfg.profiles) {
      var k :| 0 <= k < n && cfg.profiles[k].name == p.name;
      assert cfg'.profiles[k].name == cfg'.profiles[n].name;
    } else {
      forall i, j | 0 <= i < j < |cfg'.profiles| ensures cfg'.profiles[i].name != cfg'.profiles[j].name {
        assert cfg.profiles[i].name in Names(cfg.profiles);
      }
    }
  }
}
