/** A concrete workspace that meets every assumption of `ProfileReconcile`, and a reconcile that
    cannot be repeated. */
module ReconcileExample {
  import opened Text
  import opened ConfigTransaction
  import opened ProfileReconcile
  import ConfigText

  const RAW := "raw"
  const EFFECTIVE := "effective"
  const CONTENTS := {RAW, EFFECTIVE}

  function Digest(data: Bytes): string {
    var c := if data == RAW then 'a' else if data == EFFECTIVE then 'b' else 'c';
    seq(64, _ => c)
  }

  function Path(data: Bytes): string {
    data + ".yaml"
  }

  function ModeText(mode: ProfileMode): string {
    match mode
    case Managed => "managed"
    case Imported => "imported"
    case OtherMode => "other"
  }

  function ParseMode(text: string): Option<ProfileMode> {
    if text == "managed" then Some(Managed)
    else if text == "imported" then Some(Imported)
    else if text == "other" then Some(OtherMode)
    else None
  }

  function Fields(s: Settings): seq<string> {
    [ModeText(s.profileMode), s.profile, s.sourceDigest, s.overlayDigest, s.tailscale, s.rest]
  }

  /** One field a line. */
  function Print(s: Settings): Bytes {
    Join(Fields(s), '\n')
  }

  function Read(data: Bytes): Option<Settings> {
    var parts := Split(data, '\n');
    if |parts| != 6 || ParseMode(parts[0]).None? then None
    else Some(Settings(ParseMode(parts[0]).value, parts[1], parts[2], parts[3], parts[4], parts[5]))
  }

  const CODEC := Codec(Read, Print, Digest, Path)

  /** Settings print plainly exactly when no field has a line feed. */
  lemma PlainReprints(s: Settings)
    ensures Reprints(CODEC, s) <==> forall i :: 0 <= i < 6 ==> '\n' !in Fields(s)[i]
  {
    hide Split, Join;
    if forall i :: 0 <= i < 6 ==> '\n' !in Fields(s)[i] {
      ConfigText.SplitUndoesJoin(Fields(s), '\n');
    }
    if Reprints(CODEC, s) {
      var parts := Split(Print(s), '\n');
      ConfigText.SplitPartsExclude(Print(s), '\n');
      assert Fields(s)[1..] == parts[1..];
      forall i | 0 <= i < 6 ensures '\n' !in Fields(s)[i] {
        assert i > 0 ==> Fields(s)[i] == parts[i];
      }
    }
  }

  lemma CodecIsTrusted()
    ensures Trusted(CODEC, CONTENTS)
  {
    hide CollisionFree, UpdatesReprint;
    NoCollisions();
    UpdatesPrintPlainly();
  }

  lemma NoCollisions()
    ensures CollisionFree(CODEC, CONTENTS)
  {
    assert Digest(RAW)[0] != Digest(EFFECTIVE)[0];
    assert Path(RAW)[0] != Path(EFFECTIVE)[0];
  }

  lemma UpdatesPrintPlainly()
    ensures UpdatesReprint(CODEC, CONTENTS)
  {
    hide Reprints, ValidDigest, CONTENTS;
    forall settings, data, source, overlay |
      Reprints(CODEC, settings) && data in CONTENTS && ValidDigest(source) && (overlay == "" || ValidDigest(overlay))
      ensures Reprints(CODEC, WithProfile(settings, Path(data), source, overlay))
    {
      PlainReprints(settings);
      PlainReprints(WithProfile(settings, Path(data), source, overlay));
      DigestHasNoLineFeed(source);
      DigestHasNoLineFeed(overlay);
      PathHasNoLineFeed(data);
      var before, after := Fields(settings), Fields(WithProfile(settings, Path(data), source, overlay));
      assert after == [ModeText(Imported), Path(data), source, overlay, before[4], before[5]];
    }
  }

  lemma DigestHasNoLineFeed(digest: string)
    ensures digest == "" || ValidDigest(digest) ==> '\n' !in digest
  {
  }

  lemma PathHasNoLineFeed(data: Bytes)
    ensures data in CONTENTS ==> '\n' !in Path(data)
  {
  }

  /** An overlay that is always enabled and composes any source to the same profile. */
  const COMPOSER := Composer(
    (overlay: Bytes) => Some(true), (settings: Settings) => Some(RAW),
    (source: Bytes, overlay: Bytes) => Some(EFFECTIVE), (profile: Bytes, hosts: Bytes) => Some(profile),
    (profile: Bytes, results: seq<Bytes>) => Some(profile))

  const INPUTS := Inputs("overlay", None, [])
  const NOTHING_ARCHIVED := Archive(map[], None)
  const MANAGED := Settings(Managed, "", "", "", "", "")

  lemma AssumptionsHold()
    ensures RAW in CONTENTS && InPlay(NOTHING_ARCHIVED, map[], CONTENTS) && NamedAfter(CODEC, map[], CONTENTS)
    ensures ComposedIn(COMPOSER, RAW, INPUTS, CONTENTS) && IsRaw(RAW, CODEC, COMPOSER, MANAGED, map[])
    ensures Reprints(CODEC, MANAGED) && CODEC.load(Print(MANAGED)) == Some(MANAGED)
  {
    hide Join, Split;
    PlainReprints(MANAGED);
  }

  /** The assumptions can be met: here is a reconciler that meets them. */
  method Example() returns (r: Reconciler)
    ensures r.Valid() && fresh(r) && r.raw == RAW && r.inputs == INPUTS && r.archive == NOTHING_ARCHIVED
    ensures fresh(r.workspace) && r.codec == CODEC && r.composer == COMPOSER
    ensures CODEC.load(r.workspace.config) == Some(MANAGED) && r.workspace.profiles == map[]
  {
    hide Trusted, Reprints, IsRaw, InPlay, ComposedIn, NamedAfter, CONTENTS, MANAGED, Join, Split;
    CodecIsTrusted();
    AssumptionsHold();
    var workspace := new Workspace(CODEC, Print(MANAGED), map[], None, false, false);
    r := new Reconciler(CODEC, COMPOSER, workspace, NOTHING_ARCHIVED, INPUTS, RAW, CONTENTS);
  }

  /** From the managed base, with an overlay enabled and no archived source: the first reconcile
      proposes the composition, and once it is applied the second one is refused. */
  lemma SecondReconcileRefused(revision: string, later: string)
    ensures var candidate := Candidate(EFFECTIVE, Digest(RAW), Digest("overlay"), revision);
            && Prepare(CODEC, COMPOSER, NOTHING_ARCHIVED, MANAGED, map[], INPUTS, revision) == Success(Some(candidate))
            && Prepare(CODEC, COMPOSER, NOTHING_ARCHIVED, AfterApply(CODEC, MANAGED, candidate),
                       map[Path(EFFECTIVE) := EFFECTIVE],
                       INPUTS, later) == Failure(SourceUnavailable)
  {
    assert Digest("overlay")[0] == 'c';
  }

  /** Nothing fails but the reload, which leaves the gateway stopped, and the writing back. */
  const NO_WRITE_BACK := Faults(
    false, false, false, false, false, false, true, false, true, false, false, false, false, false)

  /** An update whose reload fails and whose configuration cannot be written back: the file on disk
      names a profile that is gone. */
  method DanglingUpdate() returns (workspace: Workspace, r: Result<Applied, Fault>)
    ensures fresh(workspace) && r.Failure?
    ensures workspace.Dangles(
              Print(WithProfile(MANAGED, Path(EFFECTIVE), Digest(RAW), "")), Path(EFFECTIVE))
  {
    hide Join, Split, Path, RawSource;
    PlainReprints(MANAGED);
    PrintsDiffer(Digest(RAW));
    workspace := new Workspace(CODEC, Print(MANAGED), map[], None, false, true);
    assert ValidDigest(Digest(RAW));
    r := workspace.ApplyProfile(true, Digest(Print(MANAGED)), EFFECTIVE, Digest(RAW), "", true, true, NO_WRITE_BACK);
  }

  lemma PrintsDiffer(digest: string)
    ensures Print(MANAGED) != Print(WithProfile(MANAGED, Path(EFFECTIVE), digest, ""))
  {
    hide Join, Path;
    var updated := WithProfile(MANAGED, Path(EFFECTIVE), digest, "");
    assert Print(MANAGED)[0] == 'm' && Print(updated)[0] == 'i' by {
      JoinStarts(Fields(MANAGED));
      JoinStarts(Fields(updated));
    }
  }

  lemma JoinStarts(parts: seq<string>)
    requires parts != [] && parts[0] != ""
    ensures Join(parts, '\n') != "" && Join(parts, '\n')[0] == parts[0][0]
  {
  }
}
