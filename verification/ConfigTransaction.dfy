/** Replacing the profile or the Tailscale settings of a configuration file
    (`configuration_actions.go`), for every pattern of failures. */
module ConfigTransaction {
  import opened Text

  type Bytes = string

  datatype ProfileMode = Managed | Imported | OtherMode

  /** The settings that the two transactions rewrite; everything else is `rest`. */
  datatype Settings = Settings(
    profileMode: ProfileMode,
    profile: string,
    sourceDigest: string,
    overlayDigest: string,
    tailscale: string,
    rest: string)

  /** The configuration printer and loader, and the content hash, as functions. */
  datatype Codec = Codec(
    load: Bytes -> Option<Settings>,
    render: Settings -> Bytes,
    digest: Bytes -> string,
    profilePath: Bytes -> string)

  /** What fails. `reload` leaves the gateway in `stateAfterReload` when it does. */
  datatype Faults = Faults(
    firstInspection: bool,
    profileWrite: bool,
    keySnapshot: bool,
    keyWrite: bool,
    validation: bool,
    configWrite: bool,
    reload: bool,
    stateAfterReload: bool,
    configRestore: bool,
    keyRestore: bool,
    secondInspection: bool,
    restart: bool,
    stateAfterRestart: bool,
    profileRemoval: bool)

  /** `ReloadFailed` names what the rollback could not do. */
  datatype Fault =
    | NotPermitted
    | PayloadSize
    | RevisionConflict
    | BadDigest
    | BadPayload
    | Unreadable
    | Inspection
    | WriteFailed
    | AuthKeyRequired
    | Invalid
    | ReloadFailed(restoreFailed: bool, inspectionFailed: bool, restartFailed: bool)

  datatype Applied = Applied(revision: string, reloaded: bool)

  const MAX_SOURCE_SIZE := 10485760
  const MAX_TAILSCALE_SIZE := 262144

  /** A lower-case SHA-256 digest. */
  predicate ValidDigest(text: string) {
    |text| == 64 && forall i :: 0 <= i < |text| ==> '0' <= text[i] <= '9' || 'a' <= text[i] <= 'f'
  }

  /** The new settings after a profile was applied. */
  function WithProfile(settings: Settings, path: string, sourceDigest: string, overlayDigest: string): Settings {
    settings.(profileMode := Imported, profile := path, sourceDigest := sourceDigest, overlayDigest := overlayDigest)
  }

  datatype TailscaleUpdate = TailscaleUpdate(authKey: string, enabled: bool, settings: string)

  /** A profile file at the path derived from one of the contents holds that content. */
  ghost predicate NamedAfter(codec: Codec, profiles: map<string, Bytes>, contents: set<Bytes>) {
    forall data :: data in contents && codec.profilePath(data) in profiles ==> profiles[codec.profilePath(data)] == data
  }

  class Workspace {
    const codec: Codec
    var config: Bytes
    var profiles: map<string, Bytes>
    var authKey: Option<Bytes>
    var identityPresent: bool
    var running: bool
    /** What a restarted gateway found: configuration and auth key. */
    ghost var starts: seq<(Bytes, Option<Bytes>)>

    constructor (codec: Codec, config: Bytes, profiles: map<string, Bytes>, authKey: Option<Bytes>,
        identityPresent: bool, running: bool)
      ensures this.codec == codec && this.config == config && this.profiles == profiles && this.running == running
              && starts == []
    {
      this.codec, this.config, this.profiles, this.authKey := codec, config, profiles, authKey;
      this.identityPresent, this.running, starts := identityPresent, running, [];
    }

    ghost predicate Named(contents: set<Bytes>)
      reads this
    {
      NamedAfter(codec, profiles, contents)
    }

    /** The stop and start of a reload; refused when nothing runs. */
    method Reload(faults: Faults) returns (ok: bool)
      modifies this`running
      ensures ok <==> old(running) && !faults.reload
      ensures running == if old(running) then !faults.reload || faults.stateAfterReload else false
    {
      ok := running && !faults.reload;
      if running && faults.reload {
        running := faults.stateAfterReload;
      }
    }

    method StartPrevious(faults: Faults) returns (ok: bool)
      modifies this`running, this`starts
      ensures starts == old(starts) + [(config, authKey)]
      ensures ok <==> !faults.restart
      ensures running == (!faults.restart || faults.stateAfterRestart)
    {
      starts := starts + [(config, authKey)];
      ok := !faults.restart;
      running := ok || faults.stateAfterRestart;
    }

    /** A reload failed: the old configuration is written back. */
    method RestoreConfig(original: Bytes, faults: Faults) returns (ok: bool)
      modifies this`config
      ensures ok <==> !faults.configRestore
      ensures config == if ok then original else old(config)
    {
      ok := !faults.configRestore;
      if ok {
        config := original;
      }
    }

    /** With the old configuration back, a gateway that is gone is started again; the fault says
        what could not be done. */
    method Revive(restored: bool, faults: Faults) returns (fault: Fault)
      modifies this`running, this`starts
      ensures fault.ReloadFailed?
      ensures fault.restoreFailed <==> !restored
      ensures fault.inspectionFailed <==> restored && faults.secondInspection
      ensures fault.restartFailed <==> restored && !faults.secondInspection && !old(running) && faults.restart
      ensures running || fault.restoreFailed || fault.inspectionFailed || fault.restartFailed
      ensures if restored && !faults.secondInspection && !old(running) then starts == old(starts) + [(config, authKey)]
              else starts == old(starts) && running == old(running)
    {
      if !restored {
        return ReloadFailed(true, false, false);
      }
      if faults.secondInspection {
        return ReloadFailed(false, true, false);
      }
      if !running {
        var started := StartPrevious(faults);
        return ReloadFailed(false, false, !started);
      }
      return ReloadFailed(false, false, false);
    }

    /** What an update that was refused or failed leaves: everything as it was, unless a restoring
        step failed; a gateway that was stopped stays stopped, and one that ran still has its state
        or the error says what could not be done about it. */
    twostate predicate RolledBack(fault: Fault, faults: Faults, ran: bool, updated: Bytes)
      reads this
    {
      && config == (if fault.ReloadFailed? && fault.restoreFailed then updated else old(config))
      && (fault.ReloadFailed? ==> ran)
      && (fault.ReloadFailed? && fault.restoreFailed ==> faults.configRestore)
      && (!ran ==> running == old(running) && starts == old(starts))
      && (ran ==>
            running || (fault.ReloadFailed? && (fault.restoreFailed || fault.inspectionFailed || fault.restartFailed)))
      && (starts == old(starts) || (ran && config == old(config) && starts == old(starts) + [(config, authKey)]))
    }

    /** `sees` says whether the transaction looks at the runtime state; while a profile is only
        materialized it does not. */
    method ApplyProfile(root: bool, revision: string, payload: Bytes, sourceDigest: string, overlayDigest: string,
                        wellFormed: bool, sees: bool, faults: Faults)
      returns (r: Result<Applied, Fault>)
      modifies this`config, this`profiles, this`running, this`starts
      ensures var path := codec.profilePath(payload);
              var loaded := codec.load(old(config));
              && (r.Success? ==>
                    && loaded.Some?
                    && config == codec.render(WithProfile(loaded.value, path, sourceDigest, overlayDigest)))
              && (r.Success? ==>
                    profiles == old(profiles)[path := payload] && running == old(running) && starts == old(starts))
              && (r.Success? ==> r.value == Applied(codec.digest(config), sees && old(running)))
              && (r.Failure? && loaded.Some? ==>
                    RolledBack(r.error, faults, sees && old(running),
                               codec.render(WithProfile(loaded.value, path, sourceDigest, overlayDigest))))
              && (r.Failure? && loaded.None? ==> unchanged(this))
      ensures r.Success? <==>
                old(Accepted(root, revision, payload, sourceDigest, overlayDigest, wellFormed, sees, faults))
                && !(sees && old(running) && faults.reload)
      ensures forall p :: p != codec.profilePath(payload) ==> (p in profiles <==> p in old(profiles))
      ensures forall p :: p != codec.profilePath(payload) && p in profiles ==> profiles[p] == old(profiles)[p]
      ensures codec.profilePath(payload) in old(profiles) ==> codec.profilePath(payload) in profiles
      ensures codec.profilePath(payload) in profiles ==>
                profiles[codec.profilePath(payload)] == payload || profiles == old(profiles)
      ensures var loaded := codec.load(old(config));
              var path := codec.profilePath(payload);
              loaded.Some? ==>
                var updated := codec.render(WithProfile(loaded.value, path, sourceDigest, overlayDigest));
                updated != old(config) ==>
                  (Dangles(updated, path) <==>
                     && old(Accepted(root, revision, payload, sourceDigest, overlayDigest, wellFormed, sees, faults))
                     && sees && old(running) && faults.reload && faults.configRestore
                     && path !in old(profiles) && !faults.profileRemoval)
    {
      if !root {
        return Failure(NotPermitted);
      }
      if |payload| == 0 || |payload| > MAX_SOURCE_SIZE {
        return Failure(PayloadSize);
      }
      if revision == "" || revision != codec.digest(config) {
        return Failure(RevisionConflict);
      }
      if !ValidDigest(sourceDigest) || (overlayDigest != "" && !ValidDigest(overlayDigest)) {
        return Failure(BadDigest);
      }
      if !wellFormed {
        return Failure(BadPayload);
      }
      var loaded := codec.load(config);
      if loaded.None? {
        return Failure(Unreadable);
      }
      if sees && faults.firstInspection {
        return Failure(Inspection);
      }
      r := Replace(loaded.value, payload, sourceDigest, overlayDigest, sees && running, faults);
    }

    /** The update is valid, and nothing fails up to the writing of the configuration. */
    ghost predicate Accepted(root: bool, revision: string, payload: Bytes, sourceDigest: string, overlayDigest: string,
                             wellFormed: bool, sees: bool, faults: Faults)
      reads this
    {
      && root && 0 < |payload| <= MAX_SOURCE_SIZE && revision != "" && revision == codec.digest(config)
      && ValidDigest(sourceDigest) && (overlayDigest == "" || ValidDigest(overlayDigest))
      && wellFormed && codec.load(config).Some?
      && !(sees && faults.firstInspection) && !faults.profileWrite && !faults.validation && !faults.configWrite
    }

    /** The configuration on disk is the updated one, and the profile file it names is not there. */
    ghost predicate Dangles(updated: Bytes, path: string)
      reads this
    {
      config == updated && path !in profiles
    }

    /** The part of `ApplyProfile` that changes files. */
    method Replace(settings: Settings, payload: Bytes, sourceDigest: string, overlayDigest: string, ran: bool,
        faults: Faults)
      returns (r: Result<Applied, Fault>)
      requires ran ==> running
      modifies this`config, this`profiles, this`running, this`starts
      ensures var path := codec.profilePath(payload);
              var updated := codec.render(WithProfile(settings, path, sourceDigest, overlayDigest));
              && (r.Success? <==>
                    !faults.profileWrite && !faults.validation && !faults.configWrite && !(ran && faults.reload))
              && (r.Success? ==> config == updated && profiles == old(profiles)[path := payload])
              && (r.Success? ==>
                    running == old(running) && starts == old(starts) && r.value == Applied(codec.digest(config), ran))
              && (r.Failure? ==> RolledBack(r.error, faults, ran, updated))
              && (r.Failure? ==> profiles == old(profiles) || profiles == old(profiles)[path := payload])
              && (r.Failure? && r.error.ReloadFailed? && r.error.restoreFailed <==>
                    && !faults.profileWrite && !faults.validation && !faults.configWrite
                    && ran && faults.reload && faults.configRestore)
              && (r.Failure? && path !in old(profiles) ==>
                    (path in profiles <==> !faults.profileWrite && faults.profileRemoval))
    {
      var path := codec.profilePath(payload);
      var existed := path in profiles;
      ghost var before := profiles;
      if faults.profileWrite {
        return Failure(WriteFailed);
      }
      profiles := profiles[path := payload];
      var original := config;
      if faults.validation {
        CleanUp(path, existed, before, payload, faults);
        return Failure(Invalid);
      }
      if faults.configWrite {
        CleanUp(path, existed, before, payload, faults);
        return Failure(WriteFailed);
      }
      config := codec.render(WithProfile(settings, path, sourceDigest, overlayDigest));
      var revision := codec.digest(config);
      if !ran {
        return Success(Applied(revision, false));
      }
      var reloaded := Reload(faults);
      if !reloaded {
        var restored := RestoreConfig(original, faults);
        var fault := Revive(restored, faults);
        CleanUp(path, existed, before, payload, faults);
        return Failure(fault);
      }
      return Success(Applied(revision, true));
    }

    /** A profile that was not there before is removed again. */
    method CleanUp(path: string, existed: bool, ghost before: map<string, Bytes>, ghost payload: Bytes, faults: Faults)
      requires profiles == before[path := payload] && (existed <==> path in before)
      modifies this`profiles
      ensures profiles == if existed || faults.profileRemoval then before[path := payload] else before
    {
      if !existed && !faults.profileRemoval {
        profiles := profiles - {path};
      }
    }

    /** An earlier state of the key file is put back; a failure to do so goes unnoticed. */
    method RestoreKey(snapshot: Option<Bytes>, faults: Faults)
      modifies this`authKey
      ensures authKey == if faults.keyRestore then old(authKey) else snapshot
    {
      if !faults.keyRestore {
        authKey := snapshot;
      }
    }

    /** `update` is the normalized request, if the payload was one; `consistent` says whether the
        settings with it pass validation. */
    method ApplyTailscale(root: bool, revision: string, size: nat, update: Option<TailscaleUpdate>, consistent: bool,
        faults: Faults)
      returns (r: Result<Applied, Fault>)
      modifies this`config, this`authKey, this`running, this`starts
      ensures var loaded := codec.load(old(config));
              && (r.Success? ==>
                    && loaded.Some? && update.Some?
                    && config == codec.render(loaded.value.(tailscale := update.value.settings))
                    && authKey == (if update.value.authKey != "" then Some(update.value.authKey + "\n")
                                   else old(authKey))
                    && running == old(running) && starts == old(starts)
                    && r.value == Applied(codec.digest(config), old(running)))
              && (r.Success? && update.value.enabled ==> authKey.Some? || identityPresent)
              && (r.Failure? && loaded.Some? && update.Some? ==>
                    RolledBack(r.error, faults, old(running),
                               codec.render(loaded.value.(tailscale := update.value.settings))))
              && (r.Failure? && (loaded.None? || update.None?) ==> unchanged(this))
      ensures r.Failure? && starts != old(starts) ==>
                starts == old(starts) + [(old(config), authKey)] && (!faults.keyRestore ==> authKey == old(authKey))
      ensures r.Failure? ==>
                authKey == old(authKey) || (faults.keyRestore && !faults.keyWrite && update.Some?
                                            && update.value.authKey != "")
      ensures r.Success? <==>
                && root && 0 < size <= MAX_TAILSCALE_SIZE && revision != "" && revision == codec.digest(old(config))
                && update.Some? && codec.load(old(config)).Some? && !faults.firstInspection && !faults.keySnapshot
                && (update.value.authKey != "" ==> !faults.keyWrite)
                && (update.value.authKey == "" && update.value.enabled ==> old(authKey).Some? || identityPresent)
                && consistent && !faults.validation && !faults.configWrite && !(old(running) && faults.reload)
    {
      if !root {
        return Failure(NotPermitted);
      }
      if size == 0 || size > MAX_TAILSCALE_SIZE {
        return Failure(PayloadSize);
      }
      if revision == "" || revision != codec.digest(config) {
        return Failure(RevisionConflict);
      }
      if update.None? {
        return Failure(BadPayload);
      }
      var loaded := codec.load(config);
      if loaded.None? {
        return Failure(Unreadable);
      }
      if faults.firstInspection {
        return Failure(Inspection);
      }
      r := ReplaceTailscale(loaded.value, update.value, consistent, faults);
    }

    /** The part of `ApplyTailscale` that changes files. */
    method ReplaceTailscale(settings: Settings, update: TailscaleUpdate, consistent: bool, faults: Faults)
      returns (r: Result<Applied, Fault>)
      modifies this`config, this`authKey, this`running, this`starts
      ensures var updated := codec.render(settings.(tailscale := update.settings));
              && (r.Success? <==>
                    && !faults.keySnapshot
                    && (update.authKey != "" ==> !faults.keyWrite)
                    && (update.authKey == "" && update.enabled ==> old(authKey).Some? || identityPresent)
                    && consistent && !faults.validation && !faults.configWrite && !(old(running) && faults.reload))
              && (r.Success? ==>
                    && config == updated
                    && authKey == if update.authKey != "" then Some(update.authKey + "\n") else old(authKey))
              && (r.Success? ==>
                    && running == old(running) && starts == old(starts)
                    && r.value == Applied(codec.digest(config), old(running)))
              && (r.Failure? ==> RolledBack(r.error, faults, old(running), updated))
              && (r.Failure? ==>
                    authKey == old(authKey) || (faults.keyRestore && !faults.keyWrite && update.authKey != ""))
    {
      if faults.keySnapshot {
        return Failure(Unreadable);
      }
      var original, snapshot, ran := config, authKey, running;
      if update.authKey != "" {
        if faults.keyWrite {
          return Failure(WriteFailed);
        }
        authKey := Some(update.authKey + "\n");
      }
      if update.enabled && update.authKey == "" && authKey.None? && !identityPresent {
        return Failure(AuthKeyRequired);
      }
      if !consistent || faults.validation {
        RestoreKey(snapshot, faults);
        return Failure(Invalid);
      }
      if faults.configWrite {
        RestoreKey(snapshot, faults);
        return Failure(WriteFailed);
      }
      config := codec.render(settings.(tailscale := update.settings));
      var revision := codec.digest(config);
      if !ran {
        return Success(Applied(revision, false));
      }
      var reloaded := Reload(faults);
      if !reloaded {
        var restored := RestoreConfig(original, faults);
        RestoreKey(snapshot, faults);
        var fault := Revive(restored, faults);
        return Failure(fault);
      }
      return Success(Applied(revision, true));
    }
  }
}
