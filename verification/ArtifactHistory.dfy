/** What holds of the artifact store after every history of commands. */
module ArtifactHistory {
  import opened Options
  import opened Results
  import opened PythonStrings
  import opened Provenances
  import opened Artifacts
  import opened Lineage
  import opened ArtifactStore

  // Lineage

  /** Both ends of every edge exist and lie in one workspace, so do those of every request under
    * way, and no artifact is its own ancestor. */
  ghost predicate LineageSound(s: Store) {
    && (forall r :: r in s.cleared ==> IsCleared(s, r))
    && (forall e :: e in Graph(s.edges) ==>
          e.child in s.artifacts && e.parent in s.artifacts
          && s.artifacts[e.child].workspace == s.artifacts[e.parent].workspace)
    && Acyclic(Graph(s.edges))
  }

  predicate IsCleared(s: Store, asked: LineageRequest) {
    asked.child in Members(s, asked.workspace) && asked.parent in Members(s, asked.workspace)
  }

  /** Artifacts are only added, with fresh identifiers, and never change workspace. */
  ghost predicate KeepsArtifacts(s: Store, t: Store) {
    && (forall id :: id in s.artifacts ==>
          id in t.artifacts && s.artifacts[id].workspace == t.artifacts[id].workspace)
  }

  ghost predicate FreshIds(s: Store) {
    && (forall id :: id in s.artifacts ==> id < s.nextId)
    && s.provenance.Keys == s.artifacts.Keys
  }

  lemma StepIsFresh(env: Environment, s: Store, cmd: Command)
    requires FreshIds(s)
    ensures FreshIds(Apply(env, s, cmd)) && KeepsArtifacts(s, Apply(env, s, cmd))
  {
    hide IsArtifactType, IsEdgeType, ParseRootType, StorageKey, IsBlank, HasConcreteModel, MissingParts, Lower,
      Graph, InWorkspace, Reaches;
  }

  lemma GraphWithEdge(edges: seq<StoredEdge>, stored: StoredEdge)
    ensures Graph(edges + [stored]) == Graph(edges) + [stored.edge]
  {
    assert (edges + [stored])[..|edges|] == edges;
  }

  lemma RecordingIsLineageSound(s: Store, asked: LineageRequest)
    requires LineageSound(s) && IsCleared(s, asked)
    ensures LineageSound(ValueOr(Recording(s, asked), s))
  {
    hide IsEdgeType, Graph, InWorkspace, Reaches, Acyclic;
    var stored := StoredEdge(Edge(asked.child, asked.parent), asked.edgeType);
    GraphWithEdge(s.edges, stored);
    WorkspaceCheckIsGlobal(s, asked.workspace, asked.parent, asked.child);
    AcyclicWithEdge(Graph(s.edges), stored.edge);
  }

  lemma StepIsLineageSound(env: Environment, s: Store, cmd: Command)
    requires FreshIds(s) && LineageSound(s)
    ensures LineageSound(Apply(env, s, cmd))
  {
    hide IsArtifactType, ParseRootType, StorageKey, IsBlank, HasConcreteModel, MissingParts, Lower,
      Graph, Acyclic, Recording;
    StepIsFresh(env, s, cmd);
    if cmd.RecordLineage? && cmd.request < |s.cleared| {
      RecordingIsLineageSound(s, s.cleared[cmd.request]);
    }
  }

  /** The check that reads one workspace's edges decides reachability in the whole graph. */
  lemma WorkspaceCheckIsGlobal(s: Store, workspace: nat, x: Id, y: Id)
    requires LineageSound(s) && x in Members(s, workspace)
    ensures Reaches(InWorkspace(Graph(s.edges), Members(s, workspace)), x, y) <==> Reaches(Graph(s.edges), x, y)
  {
    WorkspaceSeesAllAncestors(Graph(s.edges), Members(s, workspace), x, y);
  }

  lemma {:induction false} HistoryIsFresh(env: Environment, cmds: seq<Command>)
    ensures FreshIds(Run(env, cmds))
  {
    if cmds != [] {
      HistoryIsFresh(env, cmds[..|cmds| - 1]);
      StepIsFresh(env, Run(env, cmds[..|cmds| - 1]), cmds[|cmds| - 1]);
    }
  }

  /** After every history of requests, of every kind and in any order, the whole edge set is
    * acyclic, although each check has read the edges of one workspace only. */
  lemma {:induction false} HistoryIsLineageSound(env: Environment, cmds: seq<Command>, s: Store)
    requires s == Run(env, cmds)
    ensures LineageSound(s)
  {
    if cmds != [] {
      var before := cmds[..|cmds| - 1];
      HistoryIsFresh(env, before);
      HistoryIsLineageSound(env, before, Run(env, before));
      StepIsLineageSound(env, Run(env, before), cmds[|cmds| - 1]);
    }
  }

  /** A request that has passed the endpoint's check, however long ago, is refused for a cycle
    * exactly when the edge would close one in the whole graph (an edge to itself is refused as
    * such). It is never refused because an artifact is missing. */
  lemma RefusedExactlyForCycles(env: Environment, cmds: seq<Command>, s: Store, request: nat)
    requires s == Run(env, cmds) && request < |s.cleared|
    ensures var asked, attempt := s.cleared[request], Attempt(env, s, RecordLineage(request));
            && (attempt == Err(LineageCycle) || attempt == Err(SelfLoop)
                <==> !Acyclic(Graph(s.edges) + [Edge(asked.child, asked.parent)]))
            && attempt != Err(NotFound)
  {
    hide Run, RunFrom, Recording, Acyclic, Graph, IsCleared;
    HistoryIsLineageSound(env, cmds, s);
    RecordingIsExact(s, s.cleared[request]);
  }

  lemma RecordingIsExact(s: Store, asked: LineageRequest)
    requires LineageSound(s) && IsCleared(s, asked)
    ensures var attempt := Recording(s, asked);
            && (attempt == Err(LineageCycle) || attempt == Err(SelfLoop)
                <==> !Acyclic(Graph(s.edges) + [Edge(asked.child, asked.parent)]))
            && attempt != Err(NotFound)
  {
    hide IsEdgeType, Graph, InWorkspace, Reaches, Acyclic;
    WorkspaceCheckIsGlobal(s, asked.workspace, asked.parent, asked.child);
    AcyclicWithEdge(Graph(s.edges), Edge(asked.child, asked.parent));
    ReachesItself(Graph(s.edges), asked.parent);
  }

  // Lifecycle

  /** What a READY artifact has to show. */
  predicate ReadyIsComplete(a: Artifact, p: Provenance) {
    a.status == Ready ==>
      && IsPresent(a.storageRef)
      && a.checksum.Some? && |a.checksum.value| == 64 && Lower(a.checksum.value) == a.checksum.value
      && a.sizeBytes.Some? && a.sizeBytes.value >= 0
      && IsComplete(p, a.rootType) && HasConcreteModel(p)
  }

  ghost predicate ArtifactsSound(s: Store) {
    && FreshIds(s)
    && (forall id :: id in s.artifacts ==>
          && HasConcreteModel(s.provenance[id])
          && (s.artifacts[id].status in {Writing, Ready} ==> IsPresent(s.artifacts[id].storageRef))
          && ReadyIsComplete(s.artifacts[id], s.provenance[id]))
  }

  lemma FinalizedIsComplete(isHex: string -> bool, a: Artifact, checksum: string, sizeBytes: int, p: Provenance)
    requires a.status == Writing ==> IsPresent(a.storageRef)
    requires HasConcreteModel(p)
    ensures var r := Finalized(isHex, a, checksum, sizeBytes, p);
            r.Ok? ==> r.value.status == Ready && IsPresent(r.value.storageRef) && ReadyIsComplete(r.value, p)
  {
    LowerOfLower(checksum);
    NothingMissingExactlyWhenComplete(p, a.rootType);
  }

  lemma StorageKeyIsPresent(env: Environment, workspace: nat, id: Id)
    ensures !IsBlank(StorageKey(env, workspace, id))
  {
    assert StorageKey(env, workspace, id)[0] == 'w';
  }

  lemma StepIsSound(env: Environment, s: Store, cmd: Command)
    requires ArtifactsSound(s)
    ensures ArtifactsSound(Apply(env, s, cmd))
  {
    hide IsArtifactType, IsEdgeType, ParseRootType, StorageKey, HasConcreteModel, MissingParts, Lower, IsComplete,
      Graph, InWorkspace, Reaches, Finalized;
    if cmd.FinalizeArtifact? && cmd.id in s.artifacts {
      FinalizedIsComplete(env.isHex, s.artifacts[cmd.id], cmd.checksum, cmd.sizeBytes, s.provenance[cmd.id]);
    } else if cmd.UploadArtifact? {
      var key := StorageKey(env, cmd.workspace, s.nextId);
      StorageKeyIsPresent(env, cmd.workspace, s.nextId);
      var writing := WritingBegun(NewArtifact(cmd.workspace, cmd.name, Upload), key).value;
      FinalizedIsComplete(env.isHex, writing, env.digest(cmd.content), |cmd.content|, NO_PROVENANCE);
    }
  }

  lemma {:induction false} HistoryIsSound(env: Environment, cmds: seq<Command>)
    ensures ArtifactsSound(Run(env, cmds))
  {
    if cmds != [] {
      HistoryIsSound(env, cmds[..|cmds| - 1]);
      StepIsSound(env, Run(env, cmds[..|cmds| - 1]), cmds[|cmds| - 1]);
    }
  }

  /** A READY artifact can always show all that it must, and was finalized on its stored provenance. */
  lemma ReadyIsAlwaysComplete(env: Environment, cmds: seq<Command>, s: Store, id: Id)
    requires s == Run(env, cmds) && id in s.artifacts
    ensures id in s.provenance && ReadyIsComplete(s.artifacts[id], s.provenance[id])
  {
    hide Run, ReadyIsComplete;
    HistoryIsSound(env, cmds);
  }

  lemma StepFreezesFinished(env: Environment, s: Store, cmd: Command, id: Id)
    requires FreshIds(s) && id in s.artifacts && IsTerminal(s.artifacts[id].status)
    ensures var t := Apply(env, s, cmd);
            && id in t.artifacts && t.artifacts[id] == s.artifacts[id]
            && id in t.provenance && t.provenance[id] == s.provenance[id]
  {
    hide IsArtifactType, IsEdgeType, ParseRootType, StorageKey, IsBlank, HasConcreteModel, MissingParts, Lower,
      Graph, InWorkspace, Reaches;
  }

  /** No later command changes a READY or FAILED artifact, or its provenance. */
  lemma {:induction false} FinishedNeverChanges(env: Environment, cmds: seq<Command>, more: seq<Command>, id: Id)
    requires id in Run(env, cmds).artifacts && IsTerminal(Run(env, cmds).artifacts[id].status)
    ensures FreshIds(Run(env, cmds))
    ensures var s, t := Run(env, cmds), Run(env, cmds + more);
            && id in t.artifacts && t.artifacts[id] == s.artifacts[id]
            && id in t.provenance && t.provenance[id] == s.provenance[id]
  {
    hide Apply, FreshIds;
    HistoryIsFresh(env, cmds);
    if more == [] {
      assert cmds + more == cmds;
    } else {
      var fewer, last := more[..|more| - 1], more[|more| - 1];
      FinishedNeverChanges(env, cmds, fewer, id);
      HistoryIsFresh(env, cmds + fewer);
      assert (cmds + more)[..|cmds + more| - 1] == cmds + fewer;
      StepFreezesFinished(env, Run(env, cmds + fewer), last, id);
    }
  }

  // The outbox

  /** The part of an artifact that its events announce. */
  datatype Announced = Announced(
    status: Status, storageRef: Option<string>, checksum: Option<string>, sizeBytes: Option<int>,
    failureReason: Option<string>)

  function AnnouncedOf(a: Artifact): Announced {
    Announced(a.status, a.storageRef, a.checksum, a.sizeBytes, a.failureReason)
  }

  /** Whether an event tells of an artifact, and what it makes of what was known before. */
  function Told(known: Option<Announced>, e: Event, id: Id): Option<Announced> {
    match e
    case Registered(i) => if i == id then Some(Announced(Pending, None, None, None, None)) else known
    case WritingStarted(i, ref) =>
      if i == id && known.Some? then Some(known.value.(status := Writing, storageRef := Some(ref))) else known
    case BecameReady(i, checksum, size) =>
      if i == id && known.Some?
      then Some(known.value.(status := Ready, checksum := Some(Lower(checksum)), sizeBytes := Some(size)))
      else known
    case BecameFailed(i, reason) =>
      if i == id && known.Some?
      then Some(known.value.(status := Failed, failureReason := Some(ReasonOrUnknown(reason))))
      else known
    case LineageRecorded(_) => known
  }

  /** An artifact rebuilt from the outbox alone. */
  function Replay(outbox: seq<Event>, id: Id): Option<Announced> {
    if outbox == [] then None
    else Told(Replay(outbox[..|outbox| - 1], id), outbox[|outbox| - 1], id)
  }

  function StatusIn(e: Event, id: Id): seq<Status> {
    match e
    case Registered(i) => if i == id then [Pending] else []
    case WritingStarted(i, _) => if i == id then [Writing] else []
    case BecameReady(i, _, _) => if i == id then [Ready] else []
    case BecameFailed(i, _) => if i == id then [Failed] else []
    case LineageRecorded(_) => []
  }

  /** The statuses the outbox announces for one artifact, in order. */
  function Life(outbox: seq<Event>, id: Id): seq<Status> {
    if outbox == [] then []
    else Life(outbox[..|outbox| - 1], id) + StatusIn(outbox[|outbox| - 1], id)
  }

  /** The lives an artifact can have had when its status is `s`. */
  predicate IsLifeOf(life: seq<Status>, s: Status) {
    match s
    case Pending => life == [Pending]
    case Writing => life == [Pending, Writing]
    case Ready => life == [Pending, Writing, Ready]
    case Failed => life == [Pending, Failed] || life == [Pending, Writing, Failed]
  }

  ghost predicate OutboxTells(s: Store, id: Id) {
    if id in s.artifacts
    then
      && Replay(s.outbox, id) == Some(AnnouncedOf(s.artifacts[id]))
      && IsLifeOf(Life(s.outbox, id), s.artifacts[id].status)
    else Replay(s.outbox, id) == None && Life(s.outbox, id) == []
  }

  lemma OutboxWithEvent(outbox: seq<Event>, e: Event, id: Id)
    ensures Replay(outbox + [e], id) == Told(Replay(outbox, id), e, id)
    ensures Life(outbox + [e], id) == Life(outbox, id) + StatusIn(e, id)
  {
    assert (outbox + [e])[..|outbox|] == outbox;
  }

  lemma OutboxWithUpload(outbox: seq<Event>, a: Event, b: Event, c: Event, id: Id)
    ensures Replay(outbox + [a, b, c], id) == Told(Told(Told(Replay(outbox, id), a, id), b, id), c, id)
    ensures Life(outbox + [a, b, c], id) == Life(outbox, id) + StatusIn(a, id) + StatusIn(b, id) + StatusIn(c, id)
  {
    assert outbox + [a, b, c] == outbox + [a] + [b] + [c];
    OutboxWithEvent(outbox, a, id);
    OutboxWithEvent(outbox + [a], b, id);
    OutboxWithEvent(outbox + [a] + [b], c, id);
  }

  /** A save tells of `target`, and the event says what the save does. */
  lemma SaveTells(s: Store, target: Id, a: Artifact, e: Event, id: Id)
    requires target in s.artifacts && OutboxTells(s, id)
    requires id != target ==> StatusIn(e, id) == [] && forall known :: Told(known, e, id) == known
    requires id == target ==>
      && StatusIn(e, id) == [a.status] && IsAllowed(s.artifacts[id].status, a.status)
      && Told(Some(AnnouncedOf(s.artifacts[id])), e, id) == Some(AnnouncedOf(a))
    ensures OutboxTells(Saved(s, target, a, e), id)
  {
    hide Replay, Life, Told, StatusIn;
    OutboxWithEvent(s.outbox, e, id);
  }

  lemma BeginningTells(s: Store, target: Id, storageRef: string, id: Id)
    requires OutboxTells(s, id)
    ensures OutboxTells(ValueOr(Beginning(s, target, storageRef), s), id)
  {
    hide OutboxTells, IsBlank;
    var r := Beginning(s, target, storageRef);
    if r.Ok? {
      SaveTells(s, target, r.value.artifacts[target], WritingStarted(target, storageRef), id);
    }
  }

  lemma FinalizingTells(env: Environment, s: Store, target: Id, checksum: string, sizeBytes: int, id: Id)
    requires OutboxTells(s, id)
    ensures OutboxTells(ValueOr(Finalizing(env, s, target, checksum, sizeBytes), s), id)
  {
    hide OutboxTells, MissingParts;
    var r := Finalizing(env, s, target, checksum, sizeBytes);
    if r.Ok? {
      LowerOfLower(checksum);
      var a := r.value.artifacts[target];
      SaveTells(s, target, a, BecameReady(target, a.checksum.GetOr(""), sizeBytes), id);
    }
  }

  lemma FailingTells(s: Store, target: Id, reason: Option<string>, partialData: bool, id: Id)
    requires OutboxTells(s, id)
    ensures OutboxTells(ValueOr(Failing(s, target, reason, partialData), s), id)
  {
    hide OutboxTells;
    var r := Failing(s, target, reason, partialData);
    if r.Ok? {
      SaveTells(s, target, r.value.artifacts[target], BecameFailed(target, reason), id);
    }
  }

  lemma RegisteringTells(s: Store, cmd: Command, id: Id)
    requires cmd.RegisterArtifact? && FreshIds(s) && OutboxTells(s, id)
    ensures OutboxTells(ValueOr(Registering(s, cmd), s), id)
  {
    hide Replay, Life, IsArtifactType, ParseRootType, IsBlank, HasConcreteModel;
    OutboxWithEvent(s.outbox, Registered(s.nextId), id);
  }

  lemma UploadingTells(env: Environment, s: Store, cmd: Command, id: Id)
    requires cmd.UploadArtifact? && FreshIds(s) && OutboxTells(s, id)
    ensures OutboxTells(ValueOr(Uploading(env, s, cmd), s), id)
  {
    hide Replay, Life, IsArtifactType, IsBlank, StorageKey, MissingParts, Lower;
    var key := StorageKey(env, cmd.workspace, s.nextId);
    OutboxWithUpload(s.outbox, Registered(s.nextId), WritingStarted(s.nextId, key),
                     BecameReady(s.nextId, env.digest(cmd.content), |cmd.content|), id);
  }

  lemma RecordingTells(s: Store, asked: LineageRequest, id: Id)
    requires OutboxTells(s, id)
    ensures OutboxTells(ValueOr(Recording(s, asked), s), id)
  {
    hide Replay, Life, IsEdgeType, Graph, InWorkspace, Reaches;
    OutboxWithEvent(s.outbox, LineageRecorded(StoredEdge(Edge(asked.child, asked.parent), asked.edgeType)), id);
  }

  lemma ClearingTells(s: Store, asked: LineageRequest, id: Id)
    requires OutboxTells(s, id)
    ensures OutboxTells(ValueOr(Clearing(s, asked), s), id)
  {
    hide Replay, Life;
  }

  lemma StepTells(env: Environment, s: Store, cmd: Command, id: Id)
    requires FreshIds(s) && OutboxTells(s, id)
    ensures OutboxTells(Apply(env, s, cmd), id)
  {
    hide OutboxTells, Registering, Beginning, Finalizing, Failing, Uploading, Recording, Clearing;
    match cmd
    case RegisterArtifact(_, _, _, _, _) => RegisteringTells(s, cmd, id);
    case BeginWriting(target, ref) => BeginningTells(s, target, ref, id);
    case FinalizeArtifact(target, checksum, size) => FinalizingTells(env, s, target, checksum, size, id);
    case FailArtifact(target, reason, partialData) => FailingTells(s, target, reason, partialData, id);
    case UploadArtifact(_, _, _, _, _) => UploadingTells(env, s, cmd, id);
    case CheckLineage(asked) => ClearingTells(s, asked, id);
    case RecordLineage(request) =>
      if request < |s.cleared| {
        RecordingTells(s, s.cleared[request], id);
      }
  }

  /** After every history the outbox alone determines which artifacts exist, the status of
    * each, where its content lies, its checksum and size, and why it failed; and the events
    * of an artifact are one of the five possible lives. */
  lemma {:induction false} OutboxDeterminesArtifacts(env: Environment, cmds: seq<Command>, id: Id)
    ensures OutboxTells(Run(env, cmds), id)
  {
    if cmds != [] {
      var before := cmds[..|cmds| - 1];
      HistoryIsFresh(env, before);
      OutboxDeterminesArtifacts(env, before, id);
      StepTells(env, Run(env, before), cmds[|cmds| - 1], id);
    }
  }
}
