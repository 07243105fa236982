/** Where an artifact came from, and what makes it reproducible. */
module Provenances {
  import opened Options
  import opened PythonStrings

  datatype RootType = Generated | Upload | RepoSnapshot | Imported

  datatype Provenance = Provenance(
    runConfigHash: Option<string>,
    toolName: Option<string>, toolVersion: Option<string>,
    modelProvider: Option<string>, modelName: Option<string>, modelVersion: Option<string>)

  const NO_PROVENANCE := Provenance(None, None, None, None, None, None)

  const ALIASES := ["latest", "default", "stable", "preview", "nightly"]

  /** Case folding of the letters that occur in the aliases; a long s and a dotless or dotted
    * i match too, as in case-insensitive matching of Unicode text. */
  function FoldChar(c: char): char {
    if c == '\U{017F}' then 's'
    else if c == '\U{0130}' || c == '\U{0131}' then 'i'
    else LowerChar(c)
  }

  function Fold(s: string): string {
    if s == [] then [] else [FoldChar(s[0])] + Fold(s[1..])
  }

  /** A floating name such as "latest" or "x-stable"; one final newline is not looked at. */
  predicate IsModelAlias(s: string) {
    var t := Fold(if EndsWith(s, "\n") then s[..|s| - 1] else s);
    t in ALIASES || exists i :: 0 <= i < |ALIASES| && EndsWith(t, "-" + ALIASES[i])
  }

  /** A character that matches a lower-case letter when letter case is ignored. */
  predicate CharMatches(c: char, letter: char) {
    || c == letter || c as int == letter as int - 32
    || (letter == 's' && c == '\U{017F}')
    || (letter == 'i' && (c == '\U{0130}' || c == '\U{0131}'))
  }

  predicate Matches(s: string, alias: string) {
    |s| == |alias| && forall i :: 0 <= i < |s| ==> CharMatches(s[i], alias[i])
  }

  predicate IsLowerCase(s: string) {
    forall i :: 0 <= i < |s| ==> 'a' <= s[i] <= 'z'
  }

  lemma {:induction false} FoldMatches(s: string, alias: string)
    requires IsLowerCase(alias)
    ensures Fold(s) == alias <==> Matches(s, alias)
  {
    if s != [] && alias != [] {
      FoldMatches(s[1..], alias[1..]);
      assert alias == [alias[0]] + alias[1..];
      assert Matches(s, alias) <==> CharMatches(s[0], alias[0]) && Matches(s[1..], alias[1..]);
      hide Matches;
      assert FoldChar(s[0]) == alias[0] <==> CharMatches(s[0], alias[0]);
      hide FoldChar, CharMatches;
      assert Fold(s)[0] == FoldChar(s[0]) && Fold(s)[1..] == Fold(s[1..]);
    }
  }

  lemma {:induction false} FoldOfDrop(s: string, n: nat)
    requires n <= |s|
    ensures |Fold(s)| == |s| && Fold(s)[n..] == Fold(s[n..])
  {
    hide FoldChar;
    if s != [] {
      FoldOfDrop(s[1..], if n == 0 then 0 else n - 1);
      if n > 0 {
        assert Fold(s)[n..] == Fold(s[1..])[n - 1..] && s[1..][n - 1..] == s[n..];
      } else {
        assert Fold(s)[0..] == Fold(s) && s[0..] == s;
      }
    }
  }

  /** What comes before one final newline. */
  function Line(s: string): string {
    if s != [] && s[|s| - 1] == '\n' then s[..|s| - 1] else s
  }

  /** The text is an alias, or ends with a hyphen and one, in any letter case. */
  predicate EndsWithAlias(s: string, alias: string) {
    Matches(s, alias)
    || (|s| > |alias| && s[|s| - |alias| - 1] == '-' && Matches(s[|s| - |alias|..], alias))
  }

  lemma HyphenMatches(t: string, alias: string)
    requires IsLowerCase(alias)
    ensures EndsWith(Fold(t), "-" + alias) <==>
              |t| > |alias| && t[|t| - |alias| - 1] == '-' && Matches(t[|t| - |alias|..], alias)
  {
    hide Matches, FoldChar;
    FoldOfDrop(t, 0);
    if |t| > |alias| {
      var n := |t| - |alias| - 1;
      FoldOfDrop(t, n);
      FoldOfDrop(t, n + 1);
      FoldMatches(t[n + 1..], alias);
      var end := Fold(t)[n..];
      assert end[1..] == Fold(t)[n + 1..];
      assert t[n..][0] == t[n];
      assert end[0] == FoldChar(t[n]) by {
        FoldStarts(t[n..]);
      }
      OnlyHyphenFoldsToHyphen(t[n]);
      assert end == "-" + alias <==> end[0] == '-' && end[1..] == alias by {
        assert end == [end[0]] + end[1..];
      }
    }
  }

  lemma FoldStarts(s: string)
    requires s != []
    ensures |Fold(s)| > 0 && Fold(s)[0] == FoldChar(s[0])
  {
  }

  lemma OnlyHyphenFoldsToHyphen(c: char)
    ensures FoldChar(c) == '-' <==> c == '-'
  {
  }

  /** The floating names are exactly the five aliases, alone or after a hyphen, in any letter case
    * and before an optional newline. */
  lemma ModelAliasesAre(s: string)
    ensures IsModelAlias(s) <==>
              exists i :: 0 <= i < |ALIASES| && EndsWithAlias(Line(s), ALIASES[i])
  {
    hide Fold, Matches;
    var t := Line(s);
    assert EndsWith(s, "\n") <==> s != [] && s[|s| - 1] == '\n';
    forall i | 0 <= i < |ALIASES|
      ensures EndsWithAlias(t, ALIASES[i]) <==> Fold(t) == ALIASES[i] || EndsWith(Fold(t), "-" + ALIASES[i])
    {
      assert IsLowerCase(ALIASES[i]);
      FoldMatches(t, ALIASES[i]);
      HyphenMatches(t, ALIASES[i]);
    }
    assert Fold(t) in ALIASES <==> exists i :: 0 <= i < |ALIASES| && Fold(t) == ALIASES[i];
  }

  /** Construction refuses a model name or version that is an alias. */
  predicate HasConcreteModel(p: Provenance) {
    && (p.modelName.Some? ==> !IsModelAlias(p.modelName.value))
    && (p.modelVersion.Some? ==> !IsModelAlias(p.modelVersion.value))
  }

  /** What reproducibility asks of a root type: a tool with a version, and, unless the content
    * was uploaded, a run configuration and a model. */
  predicate IsComplete(p: Provenance, root: RootType) {
    && (IsPresent(p.toolName) ==> IsPresent(p.toolVersion))
    && (root != Upload ==>
          IsPresent(p.runConfigHash) && IsPresent(p.modelProvider)
          && IsPresent(p.modelName) && IsPresent(p.modelVersion))
  }

  datatype Part = RunConfigHash | ToolVersion | ModelProvider | ModelName | ModelVersion

  function Require(met: bool, part: Part): seq<Part> {
    if met then [] else [part]
  }

  function MissingParts(p: Provenance, root: RootType): seq<Part> {
    var tool := Require(IsPresent(p.toolName) ==> IsPresent(p.toolVersion), ToolVersion);
    if root == Upload then tool
    else
      Require(IsPresent(p.runConfigHash), RunConfigHash) + tool
      + Require(IsPresent(p.modelProvider), ModelProvider)
      + Require(IsPresent(p.modelName), ModelName)
      + Require(IsPresent(p.modelVersion), ModelVersion)
  }

  /** Grows the list of missing parts; the caller refuses unless it stays empty. */
  method ValidateComplete(p: Provenance, root: RootType) returns (missing: seq<Part>)
    ensures missing == MissingParts(p, root)
  {
    missing := [];
    if root == Upload {
      if IsPresent(p.toolName) && !IsPresent(p.toolVersion) {
        missing := missing + [ToolVersion];
      }
    } else {
      if !IsPresent(p.runConfigHash) {
        missing := missing + [RunConfigHash];
      }
      assert missing == Require(IsPresent(p.runConfigHash), RunConfigHash);
      missing := AddUnless(missing, IsPresent(p.toolName) ==> IsPresent(p.toolVersion), ToolVersion);
      missing := AddUnless(missing, IsPresent(p.modelProvider), ModelProvider);
      missing := AddUnless(missing, IsPresent(p.modelName), ModelName);
      missing := AddUnless(missing, IsPresent(p.modelVersion), ModelVersion);
    }
  }

  method AddUnless(parts: seq<Part>, met: bool, part: Part) returns (more: seq<Part>)
    ensures more == parts + Require(met, part)
  {
    more := parts;
    if !met {
      more := more + [part];
    }
  }

  /** Each part is missing on its own account. */
  lemma MissingPartsAre(p: Provenance, root: RootType, part: Part)
    ensures part in MissingParts(p, root) <==>
              match part
              case ToolVersion => IsPresent(p.toolName) && !IsPresent(p.toolVersion)
              case RunConfigHash => root != Upload && !IsPresent(p.runConfigHash)
              case ModelProvider => root != Upload && !IsPresent(p.modelProvider)
              case ModelName => root != Upload && !IsPresent(p.modelName)
              case ModelVersion => root != Upload && !IsPresent(p.modelVersion)
  {
    hide IsPresent;
  }

  lemma NothingMissingExactlyWhenComplete(p: Provenance, root: RootType)
    ensures MissingParts(p, root) == [] <==> IsComplete(p, root)
  {
  }
}

/** The artifact entity and its state machine. */
module Artifacts {
  import opened Options
  import opened Results
  import opened PythonStrings
  import opened Provenances

  datatype Status = Pending | Writing | Ready | Failed

  predicate IsTerminal(s: Status) {
    s == Ready || s == Failed
  }

  predicate IsAllowed(current: Status, target: Status) {
    (current == Pending && target in {Writing, Failed}) || (current == Writing && target in {Ready, Failed})
  }

  datatype Error =
    | TerminalState(current: Status, target: Status)
    | InvalidTransition(current: Status, target: Status)
    | InvalidValue(what: string)
    | AlreadyReady
    | IncompleteProvenance(missing: seq<Part>)
    | ModelAlias
    | NotFound
    | SelfLoop
    | LineageCycle
    | DuplicateEdge
    | StorageFailed

  datatype Artifact = Artifact(
    workspace: nat, name: string, rootType: RootType, status: Status,
    storageRef: Option<string>, checksum: Option<string>, sizeBytes: Option<int>,
    failureReason: Option<string>, partialData: bool)

  function NewArtifact(workspace: nat, name: string, rootType: RootType): Artifact {
    Artifact(workspace, name, rootType, Pending, None, None, None, None, false)
  }

  function Moved(a: Artifact, target: Status): Result<Artifact, Error> {
    if IsTerminal(a.status) then Err(TerminalState(a.status, target))
    else if !IsAllowed(a.status, target) then Err(InvalidTransition(a.status, target))
    else Ok(a.(status := target))
  }

  function WritingBegun(a: Artifact, storageRef: string): Result<Artifact, Error> {
    if IsBlank(storageRef) then Err(InvalidValue("storage_ref"))
    else
      var moved := Moved(a, Writing);
      if moved.Err? then moved else Ok(moved.value.(storageRef := Some(storageRef)))
  }

  function Finalized(
    isHex: string -> bool, a: Artifact, checksum: string, sizeBytes: int, p: Provenance): Result<Artifact, Error>
  {
    if |checksum| != 64 || !isHex(checksum) then Err(InvalidValue("checksum"))
    else if sizeBytes < 0 then Err(InvalidValue("size_bytes"))
    else if MissingParts(p, a.rootType) != [] then Err(IncompleteProvenance(MissingParts(p, a.rootType)))
    else
      var moved := Moved(a, Ready);
      if moved.Err? then moved
      else Ok(moved.value.(checksum := Some(Lower(checksum)), sizeBytes := Some(sizeBytes)))
  }

  function GivenUp(a: Artifact, reason: Option<string>, partialData: bool): Result<Artifact, Error> {
    var moved := Moved(a, Failed);
    if moved.Err? then moved
    else Ok(moved.value.(failureReason := Some(ReasonOrUnknown(reason)), partialData := partialData))
  }

  function ReasonOrUnknown(reason: Option<string>): string {
    if reason.Some? && reason.value != "" then reason.value else "unknown"
  }

  /** The entity in memory. A method that refuses changes nothing. */
  class ArtifactEntity {
    const workspace: nat
    const name: string
    const rootType: RootType
    var status: Status
    var storageRef: Option<string>
    var checksum: Option<string>
    var sizeBytes: Option<int>
    var failureReason: Option<string>
    var partialData: bool

    function View(): Artifact
      reads this
    {
      Artifact(workspace, name, rootType, status, storageRef, checksum, sizeBytes, failureReason, partialData)
    }

    constructor (a: Artifact)
      ensures View() == a
    {
      workspace, name, rootType, status := a.workspace, a.name, a.rootType, a.status;
      storageRef, checksum, sizeBytes := a.storageRef, a.checksum, a.sizeBytes;
      failureReason, partialData := a.failureReason, a.partialData;
    }

    method Transition(target: Status) returns (error: Option<Error>)
      modifies `status
      ensures error == ErrorOf(Moved(old(View()), target))
      ensures View() == ValueOr(Moved(old(View()), target), old(View()))
    {
      if IsTerminal(status) {
        return Some(TerminalState(status, target));
      }
      if !IsAllowed(status, target) {
        return Some(InvalidTransition(status, target));
      }
      status := target;
      return None;
    }

    method BeginWriting(ref: string) returns (error: Option<Error>)
      modifies this
      ensures error == ErrorOf(WritingBegun(old(View()), ref))
      ensures View() == ValueOr(WritingBegun(old(View()), ref), old(View()))
    {
      if IsBlank(ref) {
        return Some(InvalidValue("storage_ref"));
      }
      error := Transition(Writing);
      if error.None? {
        storageRef := Some(ref);
      }
    }

    method Finalize(isHex: string -> bool, digest: string, size: int, p: Provenance)
      returns (error: Option<Error>)
      modifies this
      ensures error == ErrorOf(Finalized(isHex, old(View()), digest, size, p))
      ensures View() == ValueOr(Finalized(isHex, old(View()), digest, size, p), old(View()))
    {
      if |digest| != 64 || !isHex(digest) {
        return Some(InvalidValue("checksum"));
      }
      if size < 0 {
        return Some(InvalidValue("size_bytes"));
      }
      var missing := ValidateComplete(p, rootType);
      if missing != [] {
        return Some(IncompleteProvenance(missing));
      }
      error := Transition(Ready);
      if error.None? {
        checksum, sizeBytes := Some(Lower(digest)), Some(size);
      }
    }

    method Fail(reason: Option<string>, partial: bool) returns (error: Option<Error>)
      modifies this
      ensures error == ErrorOf(GivenUp(old(View()), reason, partial))
      ensures View() == ValueOr(GivenUp(old(View()), reason, partial), old(View()))
    {
      error := Transition(Failed);
      if error.None? {
        failureReason, partialData := Some(ReasonOrUnknown(reason)), partial;
      }
    }
  }
}
