/** The artifact service as it runs: entities are loaded or created, changed by their own
  * methods, and saved with their events.
  */
module ArtifactService {
  import opened Options
  import opened Results
  import opened PythonStrings
  import opened Provenances
  import opened Artifacts
  import opened Lineage
  import opened ArtifactStore

  class Service {
    const env: Environment
    var nextId: Id
    var artifacts: map<Id, Artifact>
    var provenance: map<Id, Provenance>
    var edges: seq<StoredEdge>
    var outbox: seq<Event>
    var cleared: seq<LineageRequest>

    ghost function View(): Store
      reads this
    {
      Store(nextId, artifacts, provenance, edges, outbox, cleared)
    }

    constructor (env: Environment)
      ensures View() == EMPTY_STORE && this.env == env
    {
      this.env := env;
      nextId, artifacts, provenance, edges, outbox, cleared := 0, map[], map[], [], [], [];
    }

    method Register(workspace: nat, name: string, artifactType: string, rootType: string, p: Provenance)
      returns (error: Option<Error>)
      modifies this
      ensures var attempt := Attempt(env, old(View()), RegisterArtifact(workspace, name, artifactType, rootType, p));
              error == ErrorOf(attempt) && View() == ValueOr(attempt, old(View()))
      ensures error.None? <==>
                && artifactType in ["file", "code_patch", "report", "dataset", "log", "structured_data", "model_output"]
                && rootType in ["generated", "upload", "repo_snapshot", "imported"] && !IsBlank(name)
                && (p.modelName.Some? ==> !IsModelAlias(p.modelName.value))
                && (p.modelVersion.Some? ==> !IsModelAlias(p.modelVersion.value))
      ensures error.Some? ==>
                error.value ==
                  if !IsArtifactType(artifactType) then InvalidValue("artifact_type")
                  else if rootType !in ["generated", "upload", "repo_snapshot", "imported"] then
                    InvalidValue("root_type")
                  else if IsBlank(name) then InvalidValue("name")
                  else ModelAlias
      ensures error.None? ==>
                && nextId == old(nextId) + 1 && old(nextId) in artifacts
                && var root := artifacts[old(nextId)].rootType;
                && RootName(root) == rootType
                && artifacts == old(artifacts)[
                                  old(nextId) := Artifact(workspace, name, root, Pending,
                                                          None, None, None, None, false)]
                && provenance == old(provenance)[old(nextId) := p]
                && outbox == old(outbox) + [Registered(old(nextId))]
    {
      hide IsArtifactType, ParseRootType, IsBlank, IsModelAlias, RootName;
      ParseRootTypeReads(rootType);
      ArtifactTypesAre(artifactType);
      var root := ParseRootType(rootType);
      if !IsArtifactType(artifactType) {
        return Some(InvalidValue("artifact_type"));
      }
      if root.None? {
        return Some(InvalidValue("root_type"));
      }
      if IsBlank(name) {
        return Some(InvalidValue("name"));
      }
      var artifact := new ArtifactEntity(NewArtifact(workspace, name, root.value));
      if !HasConcreteModel(p) {
        return Some(ModelAlias);
      }
      var id := nextId;
      nextId := nextId + 1;
      artifacts := artifacts[id := artifact.View()];
      provenance := provenance[id := p];
      outbox := outbox + [Registered(id)];
      return None;
    }

    method BeginWritingArtifact(id: Id, storageRef: string) returns (error: Option<Error>)
      modifies this
      ensures var attempt := Attempt(env, old(View()), BeginWriting(id, storageRef));
              error == ErrorOf(attempt) && View() == ValueOr(attempt, old(View()))
      ensures error.None? <==> id in old(artifacts) && old(artifacts)[id].status == Pending && !IsBlank(storageRef)
      ensures error.Some? ==>
                error.value ==
                  if id !in old(artifacts) then NotFound
                  else if IsBlank(storageRef) then InvalidValue("storage_ref")
                  else
                    var status := old(artifacts)[id].status;
                    if status == Writing then InvalidTransition(Writing, Writing) else TerminalState(status, Writing)
      ensures error.None? ==>
                && artifacts == old(artifacts)[
                                  id := old(artifacts)[id].(status := Writing, storageRef := Some(storageRef))]
                && outbox == old(outbox) + [WritingStarted(id, storageRef)]
    {
      if id !in artifacts {
        return Some(NotFound);
      }
      var artifact := new ArtifactEntity(artifacts[id]);
      error := artifact.BeginWriting(storageRef);
      if error.None? {
        artifacts := artifacts[id := artifact.View()];
        outbox := outbox + [WritingStarted(id, storageRef)];
      }
    }

    method Finalize(id: Id, checksum: string, sizeBytes: int) returns (error: Option<Error>)
      modifies this
      ensures var attempt := Attempt(env, old(View()), FinalizeArtifact(id, checksum, sizeBytes));
              error == ErrorOf(attempt) && View() == ValueOr(attempt, old(View()))
      ensures error.None? <==>
                && id in old(artifacts) && old(artifacts)[id].status == Writing && id in provenance
                && |checksum| == 64 && env.isHex(checksum) && sizeBytes >= 0
                && IsComplete(provenance[id], old(artifacts)[id].rootType)
      ensures error.Some? ==>
                error.value ==
                  if id !in old(artifacts) then NotFound
                  else
                    var a := old(artifacts)[id];
                    if a.status == Ready then AlreadyReady
                    else if id !in provenance then InvalidValue("provenance")
                    else if |checksum| != 64 || !env.isHex(checksum) then InvalidValue("checksum")
                    else if sizeBytes < 0 then InvalidValue("size_bytes")
                    else if !IsComplete(provenance[id], a.rootType) then
                      IncompleteProvenance(MissingParts(provenance[id], a.rootType))
                    else if a.status == Failed then TerminalState(Failed, Ready)
                    else InvalidTransition(Pending, Ready)
      ensures error.None? ==>
                && artifacts == old(artifacts)[
                                  id := old(artifacts)[id].(
                                    status := Ready, checksum := Some(Lower(checksum)), sizeBytes := Some(sizeBytes))]
                && outbox == old(outbox) + [BecameReady(id, Lower(checksum), sizeBytes)]
    {
      if id !in artifacts {
        return Some(NotFound);
      }
      var artifact := new ArtifactEntity(artifacts[id]);
      if artifact.status == Ready {
        return Some(AlreadyReady);
      }
      if id !in provenance {
        return Some(InvalidValue("provenance"));
      }
      NothingMissingExactlyWhenComplete(provenance[id], artifact.rootType);
      LowerOfLower(checksum);
      error := artifact.Finalize(env.isHex, checksum, sizeBytes, provenance[id]);
      if error.None? {
        artifacts := artifacts[id := artifact.View()];
        outbox := outbox + [BecameReady(id, artifact.checksum.GetOr(""), sizeBytes)];
      }
    }

    method Fail(id: Id, reason: Option<string>, partialData: bool) returns (error: Option<Error>)
      modifies this
      ensures var attempt := Attempt(env, old(View()), FailArtifact(id, reason, partialData));
              error == ErrorOf(attempt) && View() == ValueOr(attempt, old(View()))
      ensures error.None? <==> id in old(artifacts) && old(artifacts)[id].status in {Pending, Writing}
      ensures error.Some? ==>
                error.value == if id in old(artifacts) then TerminalState(old(artifacts)[id].status, Failed)
                               else NotFound
      ensures error.None? ==>
                && var told := if reason.None? || reason.value == "" then "unknown" else reason.value;
                && artifacts == old(artifacts)[
                                  id := old(artifacts)[id].(
                                    status := Failed, failureReason := Some(told), partialData := partialData)]
                && outbox == old(outbox) + [BecameFailed(id, reason)]
    {
      if id !in artifacts {
        return Some(NotFound);
      }
      var artifact := new ArtifactEntity(artifacts[id]);
      error := artifact.Fail(reason, partialData);
      if error.None? {
        artifacts := artifacts[id := artifact.View()];
        outbox := outbox + [BecameFailed(id, reason)];
      }
    }

    method StoreUpload(workspace: nat, name: string, artifactType: string, content: seq<bv8>, storageWorks: bool)
      returns (error: Option<Error>)
      modifies this
      ensures var cmd := UploadArtifact(workspace, name, artifactType, content, storageWorks);
              var attempt := Attempt(env, old(View()), cmd);
              error == ErrorOf(attempt) && View() == ValueOr(attempt, old(View()))
    {
      hide IsArtifactType, IsBlank, StorageKey, MissingParts;
      if !IsArtifactType(artifactType) {
        return Some(InvalidValue("artifact_type"));
      }
      if IsBlank(name) {
        return Some(InvalidValue("name"));
      }
      var id := nextId;
      var artifact := new ArtifactEntity(NewArtifact(workspace, name, RootType.Upload));
      var key := StorageKey(env, workspace, id);
      var checksum, size := env.digest(content), |content|;
      error := artifact.BeginWriting(key);
      if error.Some? {
        return;
      }
      if !storageWorks {
        return Some(StorageFailed);
      }
      error := artifact.Finalize(env.isHex, checksum, size, NO_PROVENANCE);
      if error.Some? {
        return;
      }
      nextId := nextId + 1;
      artifacts := artifacts[id := artifact.View()];
      provenance := provenance[id := NO_PROVENANCE];
      outbox := outbox + [Registered(id), WritingStarted(id, key), BecameReady(id, checksum, size)];
    }

    method Upload(workspace: nat, name: string, artifactType: string, content: seq<bv8>, storageWorks: bool)
      returns (error: Option<Error>)
      modifies this
      ensures var cmd := UploadArtifact(workspace, name, artifactType, content, storageWorks);
              var attempt := Attempt(env, old(View()), cmd);
              error == ErrorOf(attempt) && View() == ValueOr(attempt, old(View()))
      ensures error.None? <==>
                && artifactType in ["file", "code_patch", "report", "dataset", "log", "structured_data", "model_output"]
                && !IsBlank(name) && storageWorks && |env.digest(content)| == 64 && env.isHex(env.digest(content))
      ensures error.Some? ==>
                error.value ==
                  if !IsArtifactType(artifactType) then InvalidValue("artifact_type")
                  else if IsBlank(name) then InvalidValue("name")
                  else if !storageWorks then StorageFailed
                  else InvalidValue("checksum")
      ensures error.None? ==>
                && var id, key := old(nextId), "workspaces/" + env.show(workspace)
                                               + "/artifacts/" + env.show(old(nextId)) + "/content";
                && nextId == id + 1
                && artifacts == old(artifacts)[
                                  id := Artifact(workspace, name, RootType.Upload, Ready, Some(key),
                                                 Some(Lower(env.digest(content))), Some(|content|), None, false)]
                && provenance == old(provenance)[id := NO_PROVENANCE]
                && outbox == old(outbox) + [Registered(id), WritingStarted(id, key),
                                            BecameReady(id, env.digest(content), |content|)]
    {
      hide Attempt, IsBlank, IsArtifactType;
      UploadIsStored(env, View(), workspace, name, artifactType, content, storageWorks);
      error := StoreUpload(workspace, name, artifactType, content, storageWorks);
    }

    method CheckWorkspace(id: Id, workspace: nat) returns (error: Option<Error>)
      ensures error == if id in Members(View(), workspace) then None else Some(NotFound)
    {
      if id !in artifacts {
        return Some(NotFound);
      }
      if artifacts[id].workspace != workspace {
        return Some(NotFound);
      }
      return None;
    }

    /** The endpoint's own transaction. */
    method CheckLineageEnds(asked: LineageRequest) returns (error: Option<Error>)
      modifies this
      ensures var attempt := Attempt(env, old(View()), CheckLineage(asked));
              error == ErrorOf(attempt) && View() == ValueOr(attempt, old(View()))
    {
      error := CheckWorkspace(asked.child, asked.workspace);
      if error.Some? {
        return;
      }
      error := CheckWorkspace(asked.parent, asked.workspace);
      if error.Some? {
        return;
      }
      cleared := cleared + [asked];
    }

    /** The service's transaction: its checks, and the write. */
    method RecordEdge(request: nat) returns (error: Option<Error>)
      requires request < |cleared|
      modifies this
      ensures var attempt := Attempt(env, old(View()), RecordLineage(request));
              error == ErrorOf(attempt) && View() == ValueOr(attempt, old(View()))
      ensures error.None? ==>
                && var asked := old(cleared)[request];
                && var stored := StoredEdge(Edge(asked.child, asked.parent), asked.edgeType);
                && asked.edgeType in ["derived_from", "transformed_from", "aggregated_from", "promoted_from"]
                && stored !in old(edges)
                && edges == old(edges) + [stored] && outbox == old(outbox) + [LineageRecorded(stored)]
      ensures error == Some(NotFound) <==>
                old(cleared)[request].child !in artifacts || old(cleared)[request].parent !in artifacts
      ensures error == Some(SelfLoop) <==>
                old(cleared)[request].child in artifacts && old(cleared)[request].child == old(cleared)[request].parent
      ensures error == Some(LineageCycle) ==> old(cleared)[request].child != old(cleared)[request].parent
      ensures error == Some(DuplicateEdge) ==>
                var asked := old(cleared)[request];
                StoredEdge(Edge(asked.child, asked.parent), asked.edgeType) in old(edges)
      ensures error.Some? ==>
                match error.value
                case NotFound | SelfLoop | LineageCycle | DuplicateEdge => true
                case InvalidValue(what) => what == "edge_type" && !IsEdgeType(old(cleared)[request].edgeType)
                case _ => false
    {
      hide IsEdgeType, InWorkspace, Graph, Reaches;
      var LineageRequest(workspace, child, parent, edgeType) := cleared[request];
      EdgeTypesAre(edgeType);
      if child !in artifacts {
        return Some(NotFound);
      }
      if parent !in artifacts {
        return Some(NotFound);
      }
      if child == parent {
        return Some(SelfLoop);
      }
      var members := set id | id in artifacts && artifacts[id].workspace == workspace;
      var cycle := DetectCycle(child, parent, InWorkspace(Graph(edges), members));
      if cycle {
        return Some(LineageCycle);
      }
      if !IsEdgeType(edgeType) {
        return Some(InvalidValue("edge_type"));
      }
      var stored := StoredEdge(Edge(child, parent), edgeType);
      if stored in edges {
        return Some(DuplicateEdge);
      }
      edges := edges + [stored];
      outbox := outbox + [LineageRecorded(stored)];
      return None;
    }

    method Perform(cmd: Command)
      modifies this
      ensures View() == Apply(env, old(View()), cmd)
    {
      hide Registering, Beginning, Finalizing, Failing, Uploading, Recording, Clearing;
      match cmd
      case RegisterArtifact(workspace, name, artifactType, rootType, p) =>
        var _ := Register(workspace, name, artifactType, rootType, p);
      case BeginWriting(id, ref) =>
        var _ := BeginWritingArtifact(id, ref);
      case FinalizeArtifact(id, checksum, size) =>
        var _ := Finalize(id, checksum, size);
      case FailArtifact(id, reason, partialData) =>
        var _ := Fail(id, reason, partialData);
      case UploadArtifact(workspace, name, artifactType, content, storageWorks) =>
        var _ := Upload(workspace, name, artifactType, content, storageWorks);
      case CheckLineage(asked) =>
        var _ := CheckLineageEnds(asked);
      case RecordLineage(request) =>
        if request < |cleared| {
          var _ := RecordEdge(request);
        }
    }

    /** The endpoint: its check, whatever others commit in between, and the service's write. */
    method RecordLineageEdge(asked: LineageRequest, others: seq<Command>) returns (error: Option<Error>)
      modifies this
      ensures var s := old(View());
              var check, record := CheckLineage(asked), RecordLineage(|s.cleared|);
              var between := RunFrom(env, Apply(env, s, check), others);
              if Attempt(env, s, check).Err? then error == ErrorOf(Attempt(env, s, check)) && View() == s
              else
                && |s.cleared| < |between.cleared| && between.cleared[|s.cleared|] == asked
                && error == ErrorOf(Attempt(env, between, record))
                && View() == Apply(env, between, record)
    {
      hide Attempt, RunFrom;
      ghost var s := View();
      var request := |cleared|;
      error := CheckLineageEnds(asked);
      if error.Some? {
        return;
      }
      ghost var checked := View();
      ClearedIsAppended(env, s, asked);
      RunOfNothing(env, checked, others);
      for i := 0 to |others|
        invariant View() == RunFrom(env, checked, others[..i])
        invariant request < |cleared| && cleared[request] == asked
      {
        ClearedStays(env, View(), others[i], request);
        RunOfOneMore(env, checked, others, i);
        Perform(others[i]);
      }
      assert others[..|others|] == others;
      error := RecordEdge(request);
    }
  }

  lemma UploadIsStored(
    env: Environment, s: Store, workspace: nat, name: string, artifactType: string, content: seq<bv8>,
    storageWorks: bool)
    ensures
      Attempt(env, s, UploadArtifact(workspace, name, artifactType, content, storageWorks)).Ok? <==>
        && artifactType in ["file", "code_patch", "report", "dataset", "log", "structured_data", "model_output"]
        && !IsBlank(name) && storageWorks && |env.digest(content)| == 64 && env.isHex(env.digest(content))
    ensures
      var attempt := Attempt(env, s, UploadArtifact(workspace, name, artifactType, content, storageWorks));
      attempt.Err? ==>
        attempt.error == if !IsArtifactType(artifactType) then InvalidValue("artifact_type")
                         else if IsBlank(name) then InvalidValue("name")
                         else if !storageWorks then StorageFailed
                         else InvalidValue("checksum")
    ensures
      var attempt := Attempt(env, s, UploadArtifact(workspace, name, artifactType, content, storageWorks));
      var id := s.nextId;
      var key := "workspaces/" + env.show(workspace) + "/artifacts/" + env.show(id) + "/content";
      attempt.Ok? ==>
        attempt.value
        == s.(nextId := id + 1,
              artifacts := s.artifacts[
                             id := Artifact(workspace, name, Upload, Ready, Some(key),
                                            Some(Lower(env.digest(content))), Some(|content|), None, false)],
              provenance := s.provenance[id := NO_PROVENANCE],
              outbox := s.outbox + [Registered(id), WritingStarted(id, key),
                                    BecameReady(id, env.digest(content), |content|)])
  {
    hide IsArtifactType, IsBlank, MissingParts, Lower;
    ArtifactTypesAre(artifactType);
    UploadsNeedNothing(env, workspace, s.nextId);
  }

  /** An upload needs no provenance, and its storage key is never blank. */
  lemma UploadsNeedNothing(env: Environment, workspace: nat, id: Id)
    ensures MissingParts(NO_PROVENANCE, Upload) == [] && !IsBlank(StorageKey(env, workspace, id))
  {
    assert StorageKey(env, workspace, id)[0] == 'w';
    assert !IsSpace('w');
  }

  lemma ArtifactTypesAre(s: string)
    ensures IsArtifactType(s) <==>
              s in ["file", "code_patch", "report", "dataset", "log", "structured_data", "model_output"]
  {
  }

  lemma EdgeTypesAre(s: string)
    ensures IsEdgeType(s) <==> s in ["derived_from", "transformed_from", "aggregated_from", "promoted_from"]
  {
  }

  lemma ClearedIsAppended(env: Environment, s: Store, asked: LineageRequest)
    ensures var attempt := Attempt(env, s, CheckLineage(asked));
            attempt.Ok? ==> attempt.value.cleared == s.cleared + [asked]
  {
  }

  lemma ClearedStays(env: Environment, s: Store, cmd: Command, request: nat)
    requires request < |s.cleared|
    ensures request < |Apply(env, s, cmd).cleared| && Apply(env, s, cmd).cleared[request] == s.cleared[request]
  {
    hide IsArtifactType, IsEdgeType, ParseRootType, StorageKey, IsBlank, HasConcreteModel, MissingParts,
      Graph, InWorkspace, Reaches;
  }

  lemma RunOfNothing(env: Environment, s: Store, cmds: seq<Command>)
    ensures RunFrom(env, s, cmds[..0]) == s
  {
  }

  lemma RunOfOneMore(env: Environment, s: Store, cmds: seq<Command>, i: nat)
    requires i < |cmds|
    ensures RunFrom(env, s, cmds[..i + 1]) == Apply(env, RunFrom(env, s, cmds[..i]), cmds[i])
  {
    hide Apply;
    assert cmds[..i + 1][..i] == cmds[..i];
  }
}
