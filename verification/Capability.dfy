/** Actor-separated capabilities: registries, run snapshots and the policy every invocation passes. */
module Capability {
  import opened Common

  datatype Actor = Worker | Guardian

  datatype Class =
    | Read | SessionAppend | RelationshipAppend | AgentCandidateAppend | UserProfileMutation | CanonicalMemoryMutation
    | WorkspaceKnowledgeMutation | WorkspaceMutation | Terminal | Browser | HostControl | ArbitraryMcp | Extension

  /** `CapabilityClass::allowed_for`. */
  predicate AllowedFor(c: Class, actor: Actor) {
    match actor
    case Worker => c !in {UserProfileMutation, CanonicalMemoryMutation, WorkspaceKnowledgeMutation}
    case Guardian =>
      c !in {SessionAppend, RelationshipAppend, AgentCandidateAppend, WorkspaceMutation, Terminal, Browser, HostControl,
             ArbitraryMcp, Extension}
  }

  // ---------------------------------------------------------------------------
  // Inputs
  // ---------------------------------------------------------------------------

  datatype Json =
    | Null | Bool(bool) | Number(int) | Text(string)
    | Array(items: seq<Json>)
    | Object(fields: seq<Field>)

  datatype Field = Field(key: string, value: Json)

  predicate IsOwnerKey(key: string) {
    key in {"owner", "owner_id", "user_id", "agent_id", "session_id", "workspace_id"}
  }

  /** `contains_owner_selector`. */
  predicate ContainsOwnerSelector(v: Json) {
    match v
    case Object(fields) =>
      exists i :: 0 <= i < |fields| && (IsOwnerKey(fields[i].key) || ContainsOwnerSelector(fields[i].value))
    case Array(items) => exists i :: 0 <= i < |items| && ContainsOwnerSelector(items[i])
    case _ => false
  }

  function Children(v: Json): seq<Json> {
    match v
    case Array(items) => items
    case Object(fields) => FieldValues(fields)
    case _ => []
  }

  function FieldValues(fields: seq<Field>): (values: seq<Json>)
    ensures |values| == |fields| && forall i :: 0 <= i < |fields| ==> values[i] == fields[i].value
  {
    if fields == [] then [] else [fields[0].value] + FieldValues(fields[1..])
  }

  /** The value found by following child positions from the root. */
  function ValueAt(v: Json, path: seq<nat>): Option<Json>
    decreases |path|
  {
    if path == [] then Some(v)
    else if path[0] < |Children(v)| then ValueAt(Children(v)[path[0]], path[1..])
    else None
  }

  /** The value at a path is an object with an owner key among its own keys. */
  predicate SelectorAt(v: Json, path: seq<nat>) {
    match ValueAt(v, path)
    case Some(Object(fields)) => exists i :: 0 <= i < |fields| && IsOwnerKey(fields[i].key)
    case _ => false
  }

  lemma {:induction false} SelectorHasPath(v: Json) returns (path: seq<nat>)
    requires ContainsOwnerSelector(v)
    ensures SelectorAt(v, path)
    decreases v
  {
    hide IsOwnerKey;
    match v
    case Object(fields) =>
      var i :| 0 <= i < |fields| && (IsOwnerKey(fields[i].key) || ContainsOwnerSelector(fields[i].value));
      if IsOwnerKey(fields[i].key) {
        path := [];
      } else {
        var rest := SelectorHasPath(fields[i].value);
        path := [i] + rest;
        assert path[1..] == rest;
      }
    case Array(items) =>
      var i :| 0 <= i < |items| && ContainsOwnerSelector(items[i]);
      var rest := SelectorHasPath(items[i]);
      path := [i] + rest;
      assert path[1..] == rest;
  }

  lemma {:induction false} PathHasSelector(v: Json, path: seq<nat>)
    requires SelectorAt(v, path)
    ensures ContainsOwnerSelector(v)
    decreases |path|
  {
    hide IsOwnerKey;
    if path != [] {
      PathHasSelector(Children(v)[path[0]], path[1..]);
    }
  }

  /** The recursive scan finds exactly the values that hold an owner key in some object at some depth. */
  lemma SelectorIff(v: Json)
    ensures ContainsOwnerSelector(v) <==> exists path :: SelectorAt(v, path)
  {
    hide ContainsOwnerSelector, SelectorAt;
    if ContainsOwnerSelector(v) {
      var path := SelectorHasPath(v);
    }
    if path :| SelectorAt(v, path) {
      PathHasSelector(v, path);
    }
  }

  // ---------------------------------------------------------------------------
  // Registries
  // ---------------------------------------------------------------------------

  datatype CapabilityError =
    | CapabilityUnavailable | AccessDenied | AuditUnavailable | ExecutionOutcomeUncertain | InvalidConfiguration
    | ExecutionFailed

  datatype Definition = Definition(name: string, version: U64, class_: Class, schemaDigest: string, schema: Json)

  type Registry = map<string, Definition>

  datatype Owner = Owner(userId: Option<string>, agentId: string, sessionId: Option<string>, workspaceIds: set<string>)

  datatype Identity = Identity(serviceId: string, credentialRevision: U64, expiresAt: int)

  /** The digests the runtime takes from a hash function. */
  datatype Digests = Digests(
    ofSchema: Json -> string,
    ofOwner: Owner -> string,
    ofRegistry: (Actor, Registry) -> string)

  predicate DefinitionOk(d: Digests, def: Definition) {
    !Blank(def.name) && def.version != 0 && def.schema.Object? && def.schemaDigest == d.ofSchema(def.schema)
  }

  /** A registry built by registering the definitions in turn. */
  function Built(d: Digests, defs: seq<Definition>): Result<Registry, CapabilityError> {
    if defs == [] then Ok(map[])
    else
      var before, def := Built(d, defs[..|defs| - 1]), defs[|defs| - 1];
      if before.Err? then before
      else if !DefinitionOk(d, def) || def.name in before.value then Err(InvalidConfiguration)
      else Ok(before.value[def.name := def])
  }

  ghost predicate Registrable(d: Digests, defs: seq<Definition>) {
    && (forall i :: 0 <= i < |defs| ==> DefinitionOk(d, defs[i]))
    && (forall i, j :: 0 <= i < j < |defs| ==> defs[i].name != defs[j].name)
  }

  ghost predicate Holds(registry: Registry, defs: seq<Definition>) {
    && (forall i :: 0 <= i < |defs| ==> defs[i].name in registry && registry[defs[i].name] == defs[i])
    && (forall name :: name in registry ==> registry[name] in defs && registry[name].name == name)
  }

  lemma RegistrableSnoc(d: Digests, init: seq<Definition>, def: Definition, registry: Registry)
    requires Registrable(d, init) && Holds(registry, init)
    ensures Registrable(d, init + [def]) <==> DefinitionOk(d, def) && def.name !in registry
    ensures def.name !in registry ==> Holds(registry[def.name := def], init + [def])
  {
    hide DefinitionOk;
    var all := init + [def];
    assert all[|init|] == def && forall i :: 0 <= i < |init| ==> all[i] == init[i];
    if def.name in registry {
      var i :| 0 <= i < |init| && init[i] == registry[def.name];
      assert all[i].name == all[|init|].name;
    }
  }

  lemma RegistrableInit(d: Digests, defs: seq<Definition>)
    requires Registrable(d, defs) && defs != []
    ensures Registrable(d, defs[..|defs| - 1])
  {
    hide DefinitionOk;
  }

  lemma NothingRegistered(d: Digests)
    ensures Registrable(d, []) && Holds(map[], [])
  {
  }

  /** Registration succeeds exactly for valid definitions of distinct names, and keeps each under its own name. */
  lemma {:induction false} BuiltIff(d: Digests, defs: seq<Definition>)
    ensures Built(d, defs).Ok? <==> Registrable(d, defs)
    ensures Built(d, defs).Ok? ==> Holds(Built(d, defs).value, defs)
  {
    hide DefinitionOk, Registrable, Holds;
    if defs == [] {
      NothingRegistered(d);
    } else {
      var init, def := defs[..|defs| - 1], defs[|defs| - 1];
      assert defs == init + [def];
      BuiltIff(d, init);
      if Registrable(d, defs) {
        RegistrableInit(d, defs);
      }
      if Built(d, init).Ok? {
        RegistrableSnoc(d, init, def, Built(d, init).value);
      }
    }
  }

  datatype ActorRegistry = ActorRegistry(actor: Actor, capabilities: Registry, revision: string)

  /** `freeze_registry`. */
  function Freeze(d: Digests, actor: Actor, registry: Registry): Result<ActorRegistry, CapabilityError> {
    if exists name :: name in registry && !AllowedFor(registry[name].class_, actor) then Err(InvalidConfiguration)
    else Ok(ActorRegistry(actor, registry, d.ofRegistry(actor, registry)))
  }

  datatype Runtime = Runtime(worker: ActorRegistry, guardian: ActorRegistry, identity: Identity, policyRevision: U64)

  /** `ActorCapabilityRuntime::new`. */
  function NewRuntime(d: Digests, worker: Registry, guardian: Registry, identity: Identity, policyRevision: U64)
    : Result<Runtime, CapabilityError>
  {
    if policyRevision == 0 then Err(InvalidConfiguration)
    else
      var w, g := Freeze(d, Worker, worker), Freeze(d, Guardian, guardian);
      if w.Err? then Err(w.error)
      else if g.Err? then Err(g.error)
      else if exists name :: name in w.value.capabilities && name in g.value.capabilities then Err(InvalidConfiguration)
      else Ok(Runtime(w.value, g.value, identity, policyRevision))
  }

  ghost predicate AllAllowed(defs: seq<Definition>, actor: Actor) {
    forall i :: 0 <= i < |defs| ==> AllowedFor(defs[i].class_, actor)
  }

  ghost predicate NamesApart(worker: seq<Definition>, guardian: seq<Definition>) {
    forall i, j :: 0 <= i < |worker| && 0 <= j < |guardian| ==> worker[i].name != guardian[j].name
  }

  lemma FrozenIff(d: Digests, actor: Actor, registry: Registry, defs: seq<Definition>)
    requires Holds(registry, defs)
    ensures Freeze(d, actor, registry).Ok? <==> AllAllowed(defs, actor)
  {
    hide AllowedFor;
    if name :| name in registry && !AllowedFor(registry[name].class_, actor) {
      var i :| 0 <= i < |defs| && defs[i] == registry[name];
    }
  }

  /** A runtime is constructed exactly from allowed definitions whose names the two actors do not share. */
  lemma ConstructedIff(d: Digests, worker: seq<Definition>, guardian: seq<Definition>, identity: Identity,
                       policyRevision: U64)
    requires Built(d, worker).Ok? && Built(d, guardian).Ok?
    ensures NewRuntime(d, Built(d, worker).value, Built(d, guardian).value, identity, policyRevision).Ok? <==>
            && policyRevision != 0 && AllAllowed(worker, Worker) && AllAllowed(guardian, Guardian)
            && NamesApart(worker, guardian)
  {
    hide AllowedFor, Built, AllAllowed, Holds, NamesApart, Registrable;
    BuiltIff(d, worker);
    BuiltIff(d, guardian);
    var w, g := Built(d, worker).value, Built(d, guardian).value;
    FrozenIff(d, Worker, w, worker);
    FrozenIff(d, Guardian, g, guardian);
    NamesApartIff(w, worker, g, guardian);
  }

  lemma NamesApartIff(w: Registry, worker: seq<Definition>, g: Registry, guardian: seq<Definition>)
    requires Holds(w, worker) && Holds(g, guardian)
    ensures NamesApart(worker, guardian) <==> !exists name :: name in w && name in g
  {
    if name :| name in w && name in g {
      var i :| 0 <= i < |worker| && worker[i] == w[name];
      var j :| 0 <= j < |guardian| && guardian[j] == g[name];
      assert worker[i].name == guardian[j].name;
    }
    if !NamesApart(worker, guardian) {
      var i, j :| 0 <= i < |worker| && 0 <= j < |guardian| && worker[i].name == guardian[j].name;
      assert worker[i].name in w && worker[i].name in g;
    }
  }

  // ---------------------------------------------------------------------------
  // Run snapshots and policy
  // ---------------------------------------------------------------------------

  datatype Snapshot = Snapshot(registry: ActorRegistry, owner: Owner, identity: Option<Identity>, policyRevision: U64)

  /** `begin_worker_run`. */
  function BeginWorkerRun(rt: Runtime, userId: string, agentId: string, sessionId: string, workspaceIds: set<string>)
    : Snapshot
  {
    Snapshot(rt.worker, Owner(Some(userId), agentId, Some(sessionId), workspaceIds), None, rt.policyRevision)
  }

  /** `begin_guardian_run`. */
  function BeginGuardianRun(rt: Runtime, identity: Identity, owner: Owner, now: int)
    : Result<Snapshot, CapabilityError>
  {
    if identity != rt.identity || identity.expiresAt <= now || owner.sessionId.Some? then Err(AccessDenied)
    else Ok(Snapshot(rt.guardian, owner, Some(identity), rt.policyRevision))
  }

  /** A snapshot some run of this runtime was given. */
  ghost predicate Issued(rt: Runtime, s: Snapshot) {
    || (exists user, agent, session, workspaces :: s == BeginWorkerRun(rt, user, agent, session, workspaces))
    || (exists identity, owner, now :: BeginGuardianRun(rt, identity, owner, now) == Ok(s))
  }

  /** `authorize`. */
  predicate Authorized(actor: Actor, def: Definition, owner: Owner, identity: Option<Identity>, input: Json, now: int) {
    && AllowedFor(def.class_, actor)
    && owner.agentId != ""
    && !ContainsOwnerSelector(input)
    && match actor
       case Worker => owner.userId.Some? && owner.sessionId.Some? && identity.None?
       case Guardian => owner.sessionId.None? && identity.Some? && identity.value.expiresAt > now
  }

  datatype Request = Request(name: string, input: Json, now: int)

  /** The checks every invocation starts with. */
  predicate Granted(s: Snapshot, request: Request) {
    && request.name in s.registry.capabilities
    && Authorized(s.registry.actor, s.registry.capabilities[request.name], s.owner, s.identity, request.input,
                  request.now)
  }

  function ClassOf(s: Snapshot, request: Request): Class
    requires Granted(s, request)
  {
    s.registry.capabilities[request.name].class_
  }

  ghost predicate Constructed(d: Digests, worker: seq<Definition>, guardian: seq<Definition>, rt: Runtime) {
    && Built(d, worker).Ok? && Built(d, guardian).Ok?
    && NewRuntime(d, Built(d, worker).value, Built(d, guardian).value, rt.identity, rt.policyRevision) == Ok(rt)
  }

  /** Which classes each actor may hold. */
  lemma AllowedClasses(c: Class)
    ensures AllowedFor(c, Guardian) <==>
            c in {Read, UserProfileMutation, CanonicalMemoryMutation, WorkspaceKnowledgeMutation}
    ensures AllowedFor(c, Worker) <==>
            c in {Read, SessionAppend, RelationshipAppend, AgentCandidateAppend, WorkspaceMutation, Terminal, Browser,
                  HostControl, ArbitraryMcp, Extension}
  {
  }

  /** A guardian run begins exactly with the runtime's own identity, unexpired, and outside any session. */
  lemma GuardianRunIff(rt: Runtime, identity: Identity, owner: Owner, now: int)
    ensures BeginGuardianRun(rt, identity, owner, now).Ok? <==>
            identity == rt.identity && rt.identity.expiresAt > now && owner.sessionId == None
  {
  }

  lemma OnlyReadIsShared(c: Class)
    ensures AllowedFor(c, Worker) && AllowedFor(c, Guardian) <==> c == Read
  {
  }

  /** An issued snapshot acts for the actor whose registry it carries, with that actor's credentials. */
  lemma IssuedMeans(d: Digests, worker: seq<Definition>, guardian: seq<Definition>, rt: Runtime, s: Snapshot)
    requires Constructed(d, worker, guardian, rt) && Issued(rt, s)
    ensures s.registry == if s.registry.actor == Worker then rt.worker else rt.guardian
    ensures s.identity == if s.registry.actor == Worker then None else Some(rt.identity)
    ensures s.owner.sessionId.Some? <==> s.registry.actor == Worker
    ensures rt.worker.capabilities.Keys !! rt.guardian.capabilities.Keys
    ensures s.policyRevision == rt.policyRevision
  {
    hide Built, AllowedFor;
  }

  /**
    Whatever two snapshots of one runtime grant to different actors, the capabilities have
    different names, share at most the class `Read`, and neither input holds an owner key
    in any object at any depth.
   */
  lemma ActorsAreSeparated(d: Digests, worker: seq<Definition>, guardian: seq<Definition>, rt: Runtime, s: Snapshot,
                           r: Request, s2: Snapshot, r2: Request)
    requires Constructed(d, worker, guardian, rt) && Issued(rt, s) && Issued(rt, s2)
    requires Granted(s, r) && Granted(s2, r2) && s.registry.actor != s2.registry.actor
    ensures r.name != r2.name
    ensures ClassOf(s, r) == ClassOf(s2, r2) ==> ClassOf(s, r) == Read
    ensures forall path :: !SelectorAt(r.input, path) && !SelectorAt(r2.input, path)
  {
    hide Constructed, Issued, SelectorAt, ContainsOwnerSelector, AllowedFor;
    IssuedMeans(d, worker, guardian, rt, s);
    IssuedMeans(d, worker, guardian, rt, s2);
    OnlyReadIsShared(ClassOf(s, r));
    SelectorIff(r.input);
    SelectorIff(r2.input);
  }

  /** What a guardian is granted, it is granted under the runtime's own unexpired identity and outside any session. */
  lemma GuardianGrant(d: Digests, worker: seq<Definition>, guardian: seq<Definition>, rt: Runtime, s: Snapshot,
                      r: Request)
    requires Constructed(d, worker, guardian, rt) && Issued(rt, s) && Granted(s, r) && s.registry.actor == Guardian
    ensures s.identity == Some(rt.identity) && rt.identity.expiresAt > r.now && s.owner.sessionId.None?
    ensures r.name in rt.guardian.capabilities && r.name !in rt.worker.capabilities
  {
    hide Constructed, Issued, ContainsOwnerSelector, AllowedFor;
    IssuedMeans(d, worker, guardian, rt, s);
    assert r.name in rt.guardian.capabilities.Keys;
  }

  lemma RegisteredIsAllowed(d: Digests, worker: seq<Definition>, guardian: seq<Definition>, rt: Runtime, name: string)
    requires Constructed(d, worker, guardian, rt)
    ensures name in rt.worker.capabilities ==> AllowedFor(rt.worker.capabilities[name].class_, Worker)
    ensures name in rt.guardian.capabilities ==> AllowedFor(rt.guardian.capabilities[name].class_, Guardian)
  {
    hide Built, AllowedFor;
  }

  /**
    Exactly what an issued snapshot grants: a capability registered for its actor, to an
    owner with an agent, for an input without an owner key at any depth; to a worker in a
    user's session, to a guardian while the runtime's identity has not expired.
   */
  lemma GrantedIff(d: Digests, worker: seq<Definition>, guardian: seq<Definition>, rt: Runtime, s: Snapshot, r: Request)
    requires Constructed(d, worker, guardian, rt) && Issued(rt, s)
    ensures Granted(s, r) <==>
            && r.name in (if s.registry.actor == Worker then rt.worker else rt.guardian).capabilities
            && s.owner.agentId != "" && (forall path :: !SelectorAt(r.input, path))
            && (s.registry.actor == Worker ==> s.owner.userId.Some? && s.owner.sessionId.Some?)
            && (s.registry.actor == Guardian ==> rt.identity.expiresAt > r.now)
  {
    hide Constructed, Issued, SelectorAt, ContainsOwnerSelector, AllowedFor;
    IssuedMeans(d, worker, guardian, rt, s);
    RegisteredIsAllowed(d, worker, guardian, rt, r.name);
    SelectorIff(r.input);
  }
}
