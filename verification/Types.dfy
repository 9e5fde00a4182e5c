/** Entities shared by the whole gateway: callers, requests, request digests. */
module Types {

  datatype Option<+T> = None | Some(value: T) {
    function GetOr(default: T): T {
      match this
      case Some(v) => v
      case None => default
    }
  }

  datatype Result<+T, +E> = Ok(value: T) | Err(error: E)

  type Id = string
  type Time = nat

  datatype Error =
    | PolicyDenied(reason: string)
    | Approval(reason: string)
    | Config(reason: string)
    | ProfileNotFound(name: string)
    | ProfileInUse(name: string)

  datatype Caller = HumanCli | AgentCli | Mcp {
    predicate EnforcesAgentPolicy() {
      AgentCli? || Mcp?
    }
  }

  datatype Risk = Low | Medium | High | Critical

  datatype WriteMode = Create | Truncate | Append

  datatype EnvVar = EnvVar(key: string, value: string)

  // A `string` is a byte string throughout: each char is one byte of the UTF-8 text.
  datatype Request =
    | Exec(profile: string, command: string, cwd: Option<string>, timeoutSeconds: Option<nat>, env: seq<EnvVar>)
    | Read(profile: string, path: string)
    | Write(profile: string, path: string, mode: WriteMode, content: string)
    | Upload(profile: string, src: string, dst: string)
    | Download(profile: string, src: string, dst: string)
    | TunnelOpen(profile: string, localPort: nat, remoteHost: string, remotePort: nat)
    | TunnelClose(tunnelId: Id, owner: Option<string>)
    | ProfileCreate(name: string, body: string)
    | ProfileDelete(name: string, fingerprint: string)
    | SessionClose(sessionId: Id)
    | Informational(topic: string)  // ping, listings, summaries, session inspection
    | Administration(topic: string) // approval, grant and plan commands other than proposals
    | Shutdown
  {
    predicate ManagesProfiles() {
      ProfileCreate? || ProfileDelete?
    }
    /** What reaches `resolve_operation`; profile mutations and administration are taken elsewhere. */
    predicate IsOperation() {
      !ManagesProfiles() && !Administration?
    }
  }

  /** The profile an operation is bound to in the authorization tables. */
  function RequestProfile(r: Request): Option<string> {
    match r
    case Exec(p, _, _, _, _) => Some(p)
    case Read(p, _) => Some(p)
    case Write(p, _, _, _) => Some(p)
    case Upload(p, _, _) => Some(p)
    case Download(p, _, _) => Some(p)
    case TunnelOpen(p, _, _, _) => Some(p)
    case ProfileCreate(p, _) => Some(p)
    case ProfileDelete(p, _) => Some(p)
    case _ => None
  }

  /** Plans accept the five path and command operations only. */
  predicate Plannable(r: Request) {
    r.Exec? || r.Read? || r.Write? || r.Upload? || r.Download?
  }

  // The local files an upload reads: path to content.
  type Files = map<string, string>

  // The hash function is taken to be injective, so a digest is modelled by what it is taken of.
  datatype Digest = Digest(request: Request, upload: Option<string>)

  /** None when an upload's source cannot be read. */
  function RequestHash(r: Request, files: Files): Option<Digest> {
    match r
    case Upload(_, src, _) => if src in files then Some(Digest(r, Some(files[src]))) else None
    case _ => Some(Digest(r, None))
  }

  function PlanHash(actions: seq<Request>, files: Files): Option<seq<Digest>> {
    if actions == [] then Some([])
    else
      match (RequestHash(actions[0], files), PlanHash(actions[1..], files))
      case (Some(d), Some(rest)) => Some([d] + rest)
      case _ => None
  }

  /** A plan hash fixes every action and every uploaded byte. */
  lemma {:induction false} PlanHashBinds(a: seq<Request>, fa: Files, b: seq<Request>, fb: Files)
    requires PlanHash(a, fa).Some? && PlanHash(a, fa) == PlanHash(b, fb)
    ensures a == b
    ensures forall i :: 0 <= i < |a| && a[i].Upload? ==>
              a[i].src in fa && a[i].src in fb && fa[a[i].src] == fb[a[i].src]
  {
    if a == [] {
      assert b == [];
    } else {
      var rest := PlanHash(a[1..], fa).value;
      var rest' := PlanHash(b[1..], fb).value;
      assert rest == PlanHash(a, fa).value[1..] == rest';
      assert PlanHash(a, fa).value[0] == PlanHash(b, fb).value[0];
      PlanHashBinds(a[1..], fa, b[1..], fb);
      assert a == [a[0]] + a[1..] && b == [b[0]] + b[1..];
      forall i | 0 <= i < |a| && a[i].Upload?
        ensures a[i].src in fa && a[i].src in fb && fa[a[i].src] == fb[a[i].src]
      {
        if i > 0 { assert a[i] == a[1..][i - 1]; }
      }
    }
  }

  /** There is a hash exactly when every upload can be read, and the same bytes give the same hash. */
  lemma {:induction false} PlanHashExists(actions: seq<Request>, files: Files, later: Files)
    ensures PlanHash(actions, files).Some? <==>
            forall i :: 0 <= i < |actions| && actions[i].Upload? ==> actions[i].src in files
    ensures PlanHash(actions, files).Some?
            && (forall i :: 0 <= i < |actions| && actions[i].Upload? ==>
                  actions[i].src in later && later[actions[i].src] == files[actions[i].src]) ==>
              PlanHash(actions, later) == PlanHash(actions, files)
  {
    if actions != [] {
      PlanHashExists(actions[1..], files, later);
      assert forall i :: 0 < i < |actions| ==> actions[i] == actions[1..][i - 1];
    }
  }
}
