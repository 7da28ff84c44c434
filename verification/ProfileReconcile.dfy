/** Recomposing the effective profile from its raw source (`container_profile_reload.go`). */
module ProfileReconcile {
  import opened Text
  import opened ConfigTransaction

  /** The persisted inputs that a lifecycle action composes: overlay, managed host entries, optimizer results. */
  datatype Inputs = Inputs(overlay: Bytes, hosts: Option<Bytes>, results: seq<Bytes>)

  /** The foreign steps of a composition, as functions. Each may refuse. */
  datatype Composer = Composer(
    overlayEnabled: Bytes -> Option<bool>,
    managedBase: Settings -> Option<Bytes>,
    overlay: (Bytes, Bytes) -> Option<Bytes>,
    hosts: (Bytes, Bytes) -> Option<Bytes>,
    results: (Bytes, seq<Bytes>) -> Option<Bytes>)

  /** Where a raw source can be found again: imported versions and the policy workspace's base. */
  datatype Archive = Archive(sources: map<string, Bytes>, base: Option<(string, Bytes)>)

  datatype ReconcileError =
    | OverlayInvalid
    | BaseFailed
    | UnsupportedMode
    | SnapshotCorrupt
    | ProfileUnreadable
    | SourceMismatch
    | SourceUnavailable
    | CompositionFailed
    | ApplyFailed(fault: Fault)

  datatype Candidate = Candidate(payload: Bytes, sourceDigest: string, overlayDigest: string, revision: string)

  // ---- The raw source ----

  /** `sourceSnapshotByDigest`, then `policyWorkspaceBaseSource`. */
  function Archived(codec: Codec, archive: Archive, digest: string): Result<Option<Bytes>, ReconcileError> {
    if digest in archive.sources then
      if codec.digest(archive.sources[digest]) == digest then Success(Some(archive.sources[digest]))
      else Failure(SnapshotCorrupt)
    else if archive.base.None? || archive.base.value.0 != digest || archive.base.value.1 == [] then Success(None)
    else if codec.digest(archive.base.value.1) != digest then Failure(SnapshotCorrupt)
    else Success(Some(archive.base.value.1))
  }

  function RawSource(codec: Codec, composer: Composer, archive: Archive, settings: Settings, profiles: map<string,
      Bytes>)
    : Result<(Bytes, string), ReconcileError>
  {
    match settings.profileMode
    case Managed =>
      (match composer.managedBase(settings)
       case None => Failure(BaseFailed)
       case Some(base) => Success((base, codec.digest(base))))
    case OtherMode => Failure(UnsupportedMode)
    case Imported =>
      var digest := Trim(settings.sourceDigest);
      var archived := if digest == "" then Success(None) else Archived(codec, archive, digest);
      if archived.Failure? then Failure(archived.error)
      else if archived.value.Some? then Success((archived.value.value, digest))
      else if settings.overlayDigest != "" then Failure(SourceUnavailable)
      else if settings.profile !in profiles then Failure(ProfileUnreadable)
      else
        var actual := codec.digest(profiles[settings.profile]);
        if digest != "" && digest != actual then Failure(SourceMismatch)
        else Success((profiles[settings.profile], actual))
  }

  /** No two of these contents share a hash, or the file name made from one. */
  ghost predicate CollisionFree(codec: Codec, contents: set<Bytes>) {
    forall a, b :: a in contents && b in contents ==>
                     (codec.digest(a) == codec.digest(b) ==> a == b)
                     && (codec.profilePath(a) == codec.profilePath(b) ==> a == b)
  }

  /** The contents that hashes are compared over. */
  ghost predicate InPlay(archive: Archive, profiles: map<string, Bytes>, contents: set<Bytes>) {
    && archive.sources.Values <= contents && profiles.Values <= contents
    && (archive.base.Some? ==> archive.base.value.1 in contents)
  }

  /** `raw` is what the profile in force was composed from: the managed base, the source with the
      recorded digest, or a profile that nothing was composed into. */
  ghost predicate IsRaw(raw: Bytes, codec: Codec, composer: Composer, settings: Settings, profiles: map<string,
      Bytes>) {
    match settings.profileMode
    case Managed => composer.managedBase(settings) == Some(raw) || composer.managedBase(settings) == None
    case OtherMode => true
    case Imported =>
      var digest := Trim(settings.sourceDigest);
      if digest != "" then codec.digest(raw) == digest
      else settings.overlayDigest == "" && settings.profile in profiles ==> profiles[settings.profile] == raw
  }

  /** Whatever place it is found in, the raw source is the same; an effective profile is never taken for it. */
  lemma RawSourceIsRaw(raw: Bytes, codec: Codec, composer: Composer, archive: Archive, settings: Settings,
                       profiles: map<string, Bytes>, contents: set<Bytes>)
    requires CollisionFree(codec, contents) && raw in contents && InPlay(archive, profiles, contents)
    requires IsRaw(raw, codec, composer, settings, profiles)
    ensures var source := RawSource(codec, composer, archive, settings, profiles);
            source.Success? ==> source.value == (raw, codec.digest(raw))
  {
  }

  // ---- The effective profile ----

  function Effective(composer: Composer, raw: Bytes, inputs: Inputs): Option<Bytes> {
    match composer.overlay(raw, inputs.overlay)
    case None => None
    case Some(composed) =>
      var hosted := if inputs.hosts.Some? then composer.hosts(composed, inputs.hosts.value) else Some(composed);
      if hosted.None? then None
      else
        var patched := composer.results(hosted.value, inputs.results);
        if patched == Some([]) then None else patched
  }

  /** The composition, if there is one, is among the contents. */
  ghost predicate ComposedIn(composer: Composer, raw: Bytes, inputs: Inputs, contents: set<Bytes>) {
    var composed := Effective(composer, raw, inputs);
    composed.Some? ==> composed.value in contents
  }

  function OverlayRevision(codec: Codec, inputs: Inputs, enabled: bool): string {
    if enabled then codec.digest(inputs.overlay) else ""
  }

  /** The effective profile in force, when it is a profile file. */
  function InForce(settings: Settings, profiles: map<string, Bytes>): Option<Bytes> {
    if settings.profileMode == Imported && settings.profile in profiles then Some(profiles[settings.profile]) else None
  }

  predicate NothingToCompose(settings: Settings, inputs: Inputs, enabled: bool) {
    settings.profileMode == Managed && !enabled && inputs.hosts.None? && inputs.results == []
  }

  /** `prepareContainerProfileReconcile`. */
  function Prepare(codec: Codec, composer: Composer, archive: Archive, settings: Settings, profiles: map<string, Bytes>,
                   inputs: Inputs, revision: string): Result<Option<Candidate>, ReconcileError>
  {
    match composer.overlayEnabled(inputs.overlay)
    case None => Failure(OverlayInvalid)
    case Some(enabled) =>
      if NothingToCompose(settings, inputs, enabled) then Success(None)
      else
        var source := RawSource(codec, composer, archive, settings, profiles);
        if source.Failure? then Failure(source.error)
        else
          var payload := Effective(composer, source.value.0, inputs);
          if payload.None? then Failure(CompositionFailed)
          else
            var overlay := OverlayRevision(codec, inputs, enabled);
            var current := InForce(settings, profiles);
            if settings.profileMode == Imported && settings.sourceDigest == source.value.1
            && settings.overlayDigest == overlay
               && current.Some? && codec.digest(current.value) == codec.digest(payload.value) then
              Success(None)
            else
              Success(Some(Candidate(payload.value, source.value.1, overlay, revision)))
  }

  /** What a reconcile promises: the profile in force is a fresh composition from the raw source. */
  ghost predicate Fresh(codec: Codec, composer: Composer, raw: Bytes, settings: Settings, profiles: map<string, Bytes>,
      inputs: Inputs) {
    match composer.overlayEnabled(inputs.overlay)
    case None => false
    case Some(enabled) =>
      || NothingToCompose(settings, inputs, enabled)
      || (settings.profileMode == Imported
          && settings.sourceDigest == codec.digest(raw)
          && settings.overlayDigest == OverlayRevision(codec, inputs, enabled)
          && InForce(settings, profiles).Some?
          && InForce(settings, profiles) == Effective(composer, raw, inputs))
  }

  /** Nothing is proposed exactly when the profile in force is fresh. */
  lemma NothingProposedMeansFresh(codec: Codec, composer: Composer, archive: Archive, raw: Bytes, settings: Settings,
                                  profiles: map<string, Bytes>, inputs: Inputs, revision: string, contents: set<Bytes>)
    requires CollisionFree(codec, contents) && raw in contents && InPlay(archive, profiles, contents)
    requires ComposedIn(composer, raw, inputs, contents)
    requires IsRaw(raw, codec, composer, settings, profiles)
    requires Prepare(codec, composer, archive, settings, profiles, inputs, revision).Success?
    ensures Prepare(codec, composer, archive, settings, profiles, inputs, revision).value.None?
            <==> Fresh(codec, composer, raw, settings, profiles, inputs)
  {
    hide RawSource, Effective;
    RawSourceIsRaw(raw, codec, composer, archive, settings, profiles, contents);
    var current := InForce(settings, profiles);
    assert current.Some? ==> current.value in profiles.Values;
  }

  /** An imported profile whose source was not recorded: the profile itself is all there is. */
  predicate Unrecorded(settings: Settings) {
    settings.profileMode == Imported && Trim(settings.sourceDigest) == ""
  }

  /** Digests are lower-case SHA-256 texts. */
  ghost predicate DigestTexts(codec: Codec) {
    forall data :: ValidDigest(codec.digest(data))
  }

  lemma DigestsAreTrimmed(codec: Codec, data: Bytes)
    requires DigestTexts(codec)
    ensures Trim(codec.digest(data)) == codec.digest(data) != ""
  {
    assert ValidDigest(codec.digest(data));
    TrimmedIsFixed(codec.digest(data));
  }

  /** The profile after a candidate was applied. */
  function AfterApply(codec: Codec, settings: Settings, candidate: Candidate): Settings {
    WithProfile(settings, codec.profilePath(candidate.payload), candidate.sourceDigest, candidate.overlayDigest)
  }

  /** Applying a candidate gives a fresh profile with the same raw source. */
  lemma AppliedIsFresh(codec: Codec, composer: Composer, archive: Archive, raw: Bytes, settings: Settings,
                       profiles: map<string, Bytes>, inputs: Inputs, revision: string, contents: set<Bytes>)
    requires CollisionFree(codec, contents) && DigestTexts(codec) && raw in contents
             && InPlay(archive, profiles, contents)
    requires IsRaw(raw, codec, composer, settings, profiles)
    ensures var prepared := Prepare(codec, composer, archive, settings, profiles, inputs, revision);
            prepared.Success? && prepared.value.Some? ==>
              var candidate := prepared.value.value;
              var after := AfterApply(codec, settings, candidate);
              && candidate.sourceDigest == codec.digest(raw)
                 && Effective(composer, raw, inputs) == Some(candidate.payload)
              && candidate.revision == revision
              && (Unrecorded(settings) ==> settings.profile in profiles)
              && Fresh(codec, composer, raw, after,
                       profiles[codec.profilePath(candidate.payload) := candidate.payload], inputs)
              && forall files :: IsRaw(raw, codec, composer, after, files)
  {
    hide Effective, ValidDigest, Trim;
    RawSourceIsRaw(raw, codec, composer, archive, settings, profiles, contents);
    DigestsAreTrimmed(codec, raw);
  }

  /** The raw source of an applied candidate is found again exactly when the archive has it, or no
      overlay was applied and composing changed nothing. */
  lemma SecondReconcile(codec: Codec, composer: Composer, archive: Archive, raw: Bytes, settings: Settings,
                        profiles: map<string, Bytes>, inputs: Inputs, revision: string, later: string,
                            contents: set<Bytes>)
    requires CollisionFree(codec, contents) && DigestTexts(codec) && raw in contents
             && InPlay(archive, profiles, contents)
    requires ComposedIn(composer, raw, inputs, contents)
    requires IsRaw(raw, codec, composer, settings, profiles)
    ensures var prepared := Prepare(codec, composer, archive, settings, profiles, inputs, revision);
            prepared.Success? && prepared.value.Some? ==>
              var candidate := prepared.value.value;
              var after := AfterApply(codec, settings, candidate);
              var files := profiles[codec.profilePath(candidate.payload) := candidate.payload];
              var second := Prepare(codec, composer, archive, after, files, inputs, later);
              var archived := Archived(codec, archive, codec.digest(raw));
              && (second == Success(None) <==>
                    archived.Success? && (archived.value.Some?
                                          || (candidate.overlayDigest == "" && candidate.payload == raw)))
              && (second.Failure? || second == Success(None))
  {
    hide Effective, ValidDigest, Trim;
    AppliedIsFresh(codec, composer, archive, raw, settings, profiles, inputs, revision, contents);
    DigestsAreTrimmed(codec, raw);
    var prepared := Prepare(codec, composer, archive, settings, profiles, inputs, revision);
    if prepared.Success? && prepared.value.Some? {
      var candidate := prepared.value.value;
      var after := AfterApply(codec, settings, candidate);
      var files := profiles[codec.profilePath(candidate.payload) := candidate.payload];
      if Prepare(codec, composer, archive, after, files, inputs, later).Success? {
        NothingProposedMeansFresh(codec, composer, archive, raw, after, files, inputs, later, contents);
      }
      RawSourceIsRaw(raw, codec, composer, archive, after, files, contents);
    }
  }

  // ---- Whole runs ----

  /** Printing these settings and loading them again changes nothing. */
  ghost predicate Reprints(codec: Codec, settings: Settings) {
    codec.load(codec.render(settings)) == Some(settings)
  }

  /** File names and digests that a profile update writes print plainly. */
  ghost predicate UpdatesReprint(codec: Codec, contents: set<Bytes>) {
    forall settings, data, source, overlay ::
      Reprints(codec, settings) && data in contents && ValidDigest(source)
      && (overlay == "" || ValidDigest(overlay)) ==>
        Reprints(codec, WithProfile(settings, codec.profilePath(data), source, overlay))
  }

  /** What is assumed of the hash and the printer, about the contents in play only. */
  ghost predicate Trusted(codec: Codec, contents: set<Bytes>) {
    CollisionFree(codec, contents) && DigestTexts(codec) && UpdatesReprint(codec, contents)
  }

  /** A container's workspace over any sequence of edits and reconciles. `raw` never changes; all
      contents that are ever hashed are among `contents`. */
  class Reconciler {
    const codec: Codec
    const composer: Composer
    const workspace: Workspace
    var archive: Archive
    var inputs: Inputs
    ghost const raw: Bytes
    ghost const contents: set<Bytes>

    ghost predicate Valid()
      reads this, workspace
    {
      && workspace.codec == codec && Trusted(codec, contents) && workspace.Named(contents)
      && raw in contents && InPlay(archive, workspace.profiles, contents) && ComposedIn(composer, raw, inputs, contents)
      && codec.load(workspace.config).Some?
      && Reprints(codec, codec.load(workspace.config).value)
      && IsRaw(raw, codec, composer, codec.load(workspace.config).value, workspace.profiles)
    }

    constructor (codec: Codec, composer: Composer, workspace: Workspace, archive: Archive, inputs: Inputs,
                 ghost raw: Bytes, ghost contents: set<Bytes>)
      requires workspace.codec == codec && Trusted(codec, contents) && workspace.Named(contents)
      requires raw in contents && InPlay(archive, workspace.profiles, contents)
               && ComposedIn(composer, raw, inputs, contents)
      requires codec.load(workspace.config).Some?
      requires Reprints(codec, codec.load(workspace.config).value)
      requires IsRaw(raw, codec, composer, codec.load(workspace.config).value, workspace.profiles)
      ensures Valid() && this.raw == raw && this.workspace == workspace && this.inputs == inputs
              && this.archive == archive
      ensures this.codec == codec && this.composer == composer && this.contents == contents
    {
      this.codec, this.composer, this.workspace := codec, composer, workspace;
      this.archive, this.inputs, this.raw, this.contents := archive, inputs, raw, contents;
    }

    /** Overlay, hosts and optimizer results are edited, and sources come and go, at any time. */
    method Edit(archive: Archive, inputs: Inputs)
      requires Valid() && InPlay(archive, workspace.profiles, contents) && ComposedIn(composer, raw, inputs, contents)
      modifies this
      ensures Valid() && this.inputs == inputs && this.archive == archive
    {
      this.archive, this.inputs := archive, inputs;
    }

    /** One lifecycle action's reconcile. However the workspace got here, success means a fresh
        composition from `raw`, and neither success nor failure loses `raw`. */
    method Reconcile(materializeOnly: bool, wellFormed: bool, faults: Faults) returns (r: Result<bool, ReconcileError>)
      requires Valid()
      modifies workspace
      ensures Valid()
      ensures r.Success? ==> Fresh(codec, composer, raw, codec.load(workspace.config).value, workspace.profiles, inputs)
      ensures r.Success? ==>
                (r.value <==> !old(Fresh(codec, composer, raw, codec.load(workspace.config).value, workspace.profiles,
                                         inputs)))
      ensures r == Success(false) ==>
                workspace.config == old(workspace.config) && workspace.profiles == old(workspace.profiles)
      ensures r.Success? || materializeOnly ==>
                workspace.running == old(workspace.running) && workspace.starts == old(workspace.starts)
      ensures r.Failure? && !(r.error.ApplyFailed? && r.error.fault.ReloadFailed? && r.error.fault.restoreFailed) ==>
                workspace.config == old(workspace.config)
    {
      hide IsRaw, Fresh, Prepare, RawSource, Effective, ValidDigest, Reprints, InPlay, CollisionFree;
      var settings := codec.load(workspace.config).value;
      ghost var revision := codec.digest(workspace.config);
      var prepared := Prepare(codec, composer, archive, settings, workspace.profiles, inputs,
        codec.digest(workspace.config));
      if prepared.Failure? {
        return Failure(prepared.error);
      }
      NothingProposedMeansFresh(codec, composer, archive, raw, settings, workspace.profiles, inputs, revision,
        contents);
      if prepared.value.None? {
        return Success(false);
      }
      AppliedIsFresh(codec, composer, archive, raw, settings, workspace.profiles, inputs, revision, contents);
      OverlayRevisions(codec, composer, archive, settings, workspace.profiles, inputs, revision);
      r := Promote(settings, prepared.value.value, materializeOnly, wellFormed, faults);
    }

    /** Applies a candidate as the new desired profile. */
    method Promote(settings: Settings, candidate: Candidate, materializeOnly: bool, wellFormed: bool, faults: Faults)
      returns (r: Result<bool, ReconcileError>)
      requires Valid() && codec.load(workspace.config) == Some(settings)
      requires Unrecorded(settings) ==> settings.profile in workspace.profiles
      requires candidate.payload in contents
      requires ValidDigest(candidate.sourceDigest)
               && (candidate.overlayDigest == "" || ValidDigest(candidate.overlayDigest))
      requires forall files :: IsRaw(raw, codec, composer, AfterApply(codec, settings, candidate), files)
      modifies workspace
      ensures Valid()
      ensures r.Success? ==>
                && r.value
                && codec.load(workspace.config) == Some(AfterApply(codec, settings, candidate))
                && workspace.profiles ==
                   old(workspace.profiles)[codec.profilePath(candidate.payload) := candidate.payload]
      ensures r.Success? || materializeOnly ==>
                workspace.running == old(workspace.running) && workspace.starts == old(workspace.starts)
      ensures r.Failure? && !(r.error.ApplyFailed? && r.error.fault.ReloadFailed? && r.error.fault.restoreFailed) ==>
                workspace.config == old(workspace.config)
    {
      hide IsRaw, ValidDigest;
      var applied := workspace.ApplyProfile(true, candidate.revision, candidate.payload, candidate.sourceDigest,
                                            candidate.overlayDigest, wellFormed, !materializeOnly, faults);
      ghost var after := AfterApply(codec, settings, candidate);
      assert after == WithProfile(settings, codec.profilePath(candidate.payload), candidate.sourceDigest,
                                  candidate.overlayDigest);
      assert Reprints(codec, after);
      assert IsRaw(raw, codec, composer, after, workspace.profiles);
      FilesStayNamed(codec, contents, old(workspace.profiles), workspace.profiles, candidate.payload);
      if applied.Failure? {
        StillRaw(raw, codec, composer, settings, old(workspace.profiles), workspace.profiles);
        return Failure(ApplyFailed(applied.error));
      }
      return Success(true);
    }
  }

  /** A candidate's digests are digests. */
  lemma OverlayRevisions(codec: Codec, composer: Composer, archive: Archive, settings: Settings, profiles: map<string,
      Bytes>,
                         inputs: Inputs, revision: string)
    requires DigestTexts(codec)
    ensures var prepared := Prepare(codec, composer, archive, settings, profiles, inputs, revision);
            prepared.Success? && prepared.value.Some? ==>
              prepared.value.value.overlayDigest == "" || ValidDigest(prepared.value.value.overlayDigest)
  {
    hide RawSource, Effective;
  }

  /** Writing one file at the place its content names keeps the others in place and in play. */
  lemma FilesStayNamed(codec: Codec, contents: set<Bytes>, before: map<string, Bytes>, after: map<string, Bytes>,
      payload: Bytes)
    requires CollisionFree(codec, contents) && payload in contents && before.Values <= contents
    requires NamedAfter(codec, before, contents)
    requires forall p :: p != codec.profilePath(payload) ==> (p in after <==> p in before)
    requires forall p :: p != codec.profilePath(payload) && p in after ==> after[p] == before[p]
    requires codec.profilePath(payload) in after ==> after[codec.profilePath(payload)] == payload || after == before
    ensures after.Values <= contents && NamedAfter(codec, after, contents)
    ensures forall p :: p in before && p in after ==> after[p] == before[p]
  {
    forall v | v in after.Values ensures v in contents {
      var p :| p in after && after[p] == v;
      if p != codec.profilePath(payload) || after == before {
        assert v in before.Values;
      }
    }
  }

  /** Keeping every profile file that was there keeps the raw source. */
  lemma StillRaw(raw: Bytes, codec: Codec, composer: Composer, settings: Settings, before: map<string, Bytes>,
      after: map<string, Bytes>)
    requires IsRaw(raw, codec, composer, settings, before)
    requires Unrecorded(settings) ==>
               settings.profile in before && settings.profile in after
               && after[settings.profile] == before[settings.profile]
    ensures IsRaw(raw, codec, composer, settings, after)
  {
  }
}
