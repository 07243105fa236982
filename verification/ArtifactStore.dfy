/** The artifact service over its committed state. A command is one request; every
  * transaction is one atomic step, and a refused command commits nothing.
  */
module ArtifactStore {
  import opened Options
  import opened Results
  import opened PythonStrings
  import opened Provenances
  import opened Artifacts
  import opened Lineage

  predicate IsArtifactType(s: string) {
    s in {"file", "code_patch", "report", "dataset", "log", "structured_data", "model_output"}
  }

  predicate IsEdgeType(s: string) {
    s in {"derived_from", "transformed_from", "aggregated_from", "promoted_from"}
  }

  function ParseRootType(s: string): Option<RootType> {
    if s == "generated" then Some(Generated)
    else if s == "upload" then Some(Upload)
    else if s == "repo_snapshot" then Some(RepoSnapshot)
    else if s == "imported" then Some(Imported)
    else None
  }

  /** The name of a root type in requests. */
  function RootName(root: RootType): string {
    match root
    case Generated => "generated"
    case Upload => "upload"
    case RepoSnapshot => "repo_snapshot"
    case Imported => "imported"
  }

  /** Parsing reads exactly the four names. */
  lemma ParseRootTypeReads(s: string)
    ensures ParseRootType(s).Some? <==> s in ["generated", "upload", "repo_snapshot", "imported"]
    ensures ParseRootType(s).Some? ==> RootName(ParseRootType(s).value) == s
    ensures forall root :: ParseRootType(RootName(root)) == Some(root)
  {
  }

  /** An edge as stored: lineage proper, and the type it was recorded with. */
  datatype StoredEdge = StoredEdge(edge: Edge, edgeType: string)

  function Graph(edges: seq<StoredEdge>): seq<Edge> {
    if edges == [] then [] else Graph(edges[..|edges| - 1]) + [edges[|edges| - 1].edge]
  }

  datatype Event =
    | Registered(id: Id)
    | WritingStarted(id: Id, storageRef: string)
    | BecameReady(id: Id, checksum: string, sizeBytes: int)
    | BecameFailed(id: Id, reason: Option<string>)
    | LineageRecorded(stored: StoredEdge)

  /** What the services cannot compute here: which strings int(s, 16) takes, the SHA-256 hex
    * digest, and how an identifier is written. */
  datatype Environment = Environment(isHex: string -> bool, digest: seq<bv8> -> string, show: nat -> string)

  datatype LineageRequest = LineageRequest(workspace: nat, child: Id, parent: Id, edgeType: string)

  /** `nextId` stands for fresh identifiers: every number below it has been given out. `cleared`
    * holds the lineage requests whose first transaction has passed. Each may go on to its second
    * at any later time, or never; keeping those that have done so only allows more histories. */
  datatype Store = Store(
    nextId: Id, artifacts: map<Id, Artifact>, provenance: map<Id, Provenance>,
    edges: seq<StoredEdge>, outbox: seq<Event>, cleared: seq<LineageRequest>)

  const EMPTY_STORE := Store(0, map[], map[], [], [], [])

  datatype Command =
    | RegisterArtifact(workspace: nat, name: string, artifactType: string, rootType: string, p: Provenance)
    | BeginWriting(id: Id, storageRef: string)
    | FinalizeArtifact(id: Id, checksum: string, sizeBytes: int)
    | FailArtifact(id: Id, reason: Option<string>, partialData: bool)
    | UploadArtifact(workspace: nat, name: string, artifactType: string, content: seq<bv8>, storageWorks: bool)
    | CheckLineage(asked: LineageRequest)
    | RecordLineage(request: nat)

  function Members(s: Store, workspace: nat): set<Id> {
    set id | id in s.artifacts && s.artifacts[id].workspace == workspace
  }

  function StorageKey(env: Environment, workspace: nat, id: Id): string {
    "workspaces/" + env.show(workspace) + "/artifacts/" + env.show(id) + "/content"
  }

  /** Saves a changed artifact together with its event. */
  function Saved(s: Store, id: Id, a: Artifact, e: Event): Store {
    s.(artifacts := s.artifacts[id := a], outbox := s.outbox + [e])
  }

  function Registering(s: Store, cmd: Command): Result<Store, Error>
    requires cmd.RegisterArtifact?
  {
    var root := ParseRootType(cmd.rootType);
    if !IsArtifactType(cmd.artifactType) then Err(InvalidValue("artifact_type"))
    else if root.None? then Err(InvalidValue("root_type"))
    else if IsBlank(cmd.name) then Err(InvalidValue("name"))
    else if !HasConcreteModel(cmd.p) then Err(ModelAlias)
    else
      var id := s.nextId;
      var saved := Saved(s, id, NewArtifact(cmd.workspace, cmd.name, root.value), Registered(id));
      Ok(saved.(nextId := id + 1, provenance := s.provenance[id := cmd.p]))
  }

  function Beginning(s: Store, id: Id, storageRef: string): Result<Store, Error> {
    if id !in s.artifacts then Err(NotFound)
    else
      var a := WritingBegun(s.artifacts[id], storageRef);
      if a.Err? then Err(a.error) else Ok(Saved(s, id, a.value, WritingStarted(id, storageRef)))
  }

  function Finalizing(env: Environment, s: Store, id: Id, checksum: string, sizeBytes: int): Result<Store, Error> {
    if id !in s.artifacts then Err(NotFound)
    else if s.artifacts[id].status == Ready then Err(AlreadyReady)
    else if id !in s.provenance then Err(InvalidValue("provenance"))
    else
      var a := Finalized(env.isHex, s.artifacts[id], checksum, sizeBytes, s.provenance[id]);
      if a.Err? then Err(a.error)
      else Ok(Saved(s, id, a.value, BecameReady(id, a.value.checksum.GetOr(""), sizeBytes)))
  }

  function Failing(s: Store, id: Id, reason: Option<string>, partialData: bool): Result<Store, Error> {
    if id !in s.artifacts then Err(NotFound)
    else
      var a := GivenUp(s.artifacts[id], reason, partialData);
      if a.Err? then Err(a.error) else Ok(Saved(s, id, a.value, BecameFailed(id, reason)))
  }

  /** Registers, writes and finalizes in memory, and saves it all in one transaction. */
  function Uploading(env: Environment, s: Store, cmd: Command): Result<Store, Error>
    requires cmd.UploadArtifact?
  {
    var id, key := s.nextId, StorageKey(env, cmd.workspace, s.nextId);
    var checksum, size := env.digest(cmd.content), |cmd.content|;
    if !IsArtifactType(cmd.artifactType) then Err(InvalidValue("artifact_type"))
    else if IsBlank(cmd.name) then Err(InvalidValue("name"))
    else
      var writing := WritingBegun(NewArtifact(cmd.workspace, cmd.name, Upload), key);
      if writing.Err? then Err(writing.error)
      else if !cmd.storageWorks then Err(StorageFailed)
      else
        var ready := Finalized(env.isHex, writing.value, checksum, size, NO_PROVENANCE);
        if ready.Err? then Err(ready.error)
        else
          var events := [Registered(id), WritingStarted(id, key), BecameReady(id, checksum, size)];
          Ok(Store(id + 1, s.artifacts[id := ready.value], s.provenance[id := NO_PROVENANCE],
                   s.edges, s.outbox + events, s.cleared))
  }

  /** The endpoint's transaction: both artifacts have to exist in the workspace it is called for. */
  function Clearing(s: Store, asked: LineageRequest): Result<Store, Error> {
    var members := Members(s, asked.workspace);
    if asked.child !in members || asked.parent !in members then Err(NotFound)
    else Ok(s.(cleared := s.cleared + [asked]))
  }

  /** The service's transaction: the cycle check sees only the edges of the workspace. */
  ghost function Recording(s: Store, asked: LineageRequest): Result<Store, Error> {
    var seen := InWorkspace(Graph(s.edges), Members(s, asked.workspace));
    var stored := StoredEdge(Edge(asked.child, asked.parent), asked.edgeType);
    if asked.child !in s.artifacts || asked.parent !in s.artifacts then Err(NotFound)
    else if asked.child == asked.parent then Err(SelfLoop)
    else if Reaches(seen, asked.parent, asked.child) then Err(LineageCycle)
    else if !IsEdgeType(asked.edgeType) then Err(InvalidValue("edge_type"))
    else if stored in s.edges then Err(DuplicateEdge)
    else Ok(s.(edges := s.edges + [stored], outbox := s.outbox + [LineageRecorded(stored)]))
  }

  ghost function Attempt(env: Environment, s: Store, cmd: Command): Result<Store, Error> {
    match cmd
    case RegisterArtifact(_, _, _, _, _) => Registering(s, cmd)
    case BeginWriting(id, ref) => Beginning(s, id, ref)
    case FinalizeArtifact(id, checksum, size) => Finalizing(env, s, id, checksum, size)
    case FailArtifact(id, reason, partialData) => Failing(s, id, reason, partialData)
    case UploadArtifact(_, _, _, _, _) => Uploading(env, s, cmd)
    case CheckLineage(asked) => Clearing(s, asked)
    case RecordLineage(request) => if request < |s.cleared| then Recording(s, s.cleared[request]) else Err(NotFound)
  }

  ghost function Apply(env: Environment, s: Store, cmd: Command): Store {
    ValueOr(Attempt(env, s, cmd), s)
  }

  ghost function RunFrom(env: Environment, s: Store, cmds: seq<Command>): Store {
    if cmds == [] then s
    else Apply(env, RunFrom(env, s, cmds[..|cmds| - 1]), cmds[|cmds| - 1])
  }

  /** The committed state after a history of commands. */
  ghost function Run(env: Environment, cmds: seq<Command>): Store {
    RunFrom(env, EMPTY_STORE, cmds)
  }
}
