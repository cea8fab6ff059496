/**
  Publishing a release: the tag, the draft and its asset on GitHub, and the flow that makes the draft public,
  where any call may fail before or after it took effect.
 */
module Release {
  import opened Wrappers

  const ASSET_NAME := "onesti_lock.zip"
  const TRIAL_VERSION := "0.0.0"

  type Sha = string
  type Digest = string

  predicate IsSha(text: string) {
    |text| == 40 && forall i | 0 <= i < |text| :: '0' <= text[i] <= '9' || 'a' <= text[i] <= 'f'
  }

  // ----- Versions -----

  predicate IsDigit(c: char) {
    '0' <= c <= '9'
  }

  /** The digits at the front of a text, and what follows them. */
  function Digits(text: string): (string, string) {
    if text == "" || !IsDigit(text[0]) then ("", text)
    else
      var (front, rest) := Digits(text[1..]);
      ([text[0]] + front, rest)
  }

  function Value(digits: string): nat
    requires forall i | 0 <= i < |digits| :: IsDigit(digits[i])
  {
    if digits == "" then 0
    else
      assert IsDigit(digits[|digits| - 1]);
      10 * Value(digits[..|digits| - 1]) + (digits[|digits| - 1] as int - '0' as int)
  }

  lemma {:induction false} DigitsAreDigits(text: string)
    ensures forall i | 0 <= i < |Digits(text).0| :: IsDigit(Digits(text).0[i])
  {
    if text != "" && IsDigit(text[0]) {
      DigitsAreDigits(text[1..]);
    }
  }

  /** A number and the text after it, if the text starts with one. */
  function Number(text: string): Option<(nat, string)> {
    DigitsAreDigits(text);
    var (digits, rest) := Digits(text);
    if digits == "" then None else Some((Value(digits), rest))
  }

  datatype Version = Version(major: nat, minor: nat, patch: nat) {
    predicate Above(other: Version) {
      || major > other.major
      || (major == other.major && (minor > other.minor || (minor == other.minor && patch > other.patch)))
    }
  }

  /** The numbers of a version text that is exactly three numbers with dots between. */
  function VersionNumbers(text: string): Option<Version> {
    var a := Number(text);
    if a.None? || a.value.1 == "" || a.value.1[0] != '.' then None
    else
      var b := Number(a.value.1[1..]);
      if b.None? || b.value.1 == "" || b.value.1[0] != '.' then None
      else
        var c := Number(b.value.1[1..]);
        if c.None? || c.value.1 != "" then None else Some(Version(a.value.0, b.value.0, c.value.0))
  }

  function StripV(text: string): string {
    if text != "" && text[0] == 'v' then StripV(text[1..]) else text
  }

  // ----- GitHub -----

  /** What a tag points at: a commit, or a tag object that points at one, or something else. */
  datatype Ref = CommitRef(sha: Sha) | TagRef(sha: Sha) | OtherRef

  datatype Asset = Asset(name: string, digest: Digest)

  datatype Release = Release(id: nat, tag: string, target: string, body: string, draft: bool, prerelease: bool,
      assets: seq<Asset>)

  /** A write that took effect. */
  datatype Write = WroteTag(tag: string, sha: Sha) | WroteDraft(tag: string) | WroteAsset(tag: string, digest: Digest)
                 | WrotePublic(tag: string, sha: Sha, digest: Digest)

  datatype GitHub = GitHub(
    tags: map<string, Ref>, releases: seq<Release>, latest: Option<string>, nextId: nat,
    attested: set<(Sha, Digest)>, writes: seq<Write>)
  {
    /** Release ids are handed out once. */
    predicate Valid() {
      && (forall i | 0 <= i < |releases| :: releases[i].id < nextId)
      && (forall i, j | 0 <= i < j < |releases| :: releases[i].id != releases[j].id)
    }
  }

  /** The candidate: a commit and the version its manifest carries. */
  datatype Candidate = Candidate(sha: Sha, version: string) {
    function Tag(): string {
      "v" + version
    }
  }

  /** What the repository gives for a commit: its build, its release body, and whether main has it. */
  datatype Repo = Repo(build: Sha -> Option<Digest>, body: (Sha, string, Digest) -> Option<string>, onMain: Sha -> bool)

  datatype Mode = Plan | Verify | Publish(dryRun: bool) {
    predicate PlanOnly() {
      !Publish? || dryRun
    }
  }

  /** How one run is called. */
  datatype Call = Call(candidate: Candidate, mode: Mode, trial: bool, zip: Option<Digest>)

  datatype WriteFate = Done | FailedBefore | FailedAfter {
    predicate Applied() {
      !FailedBefore?
    }
  }

  /** What an upload leaves behind: nothing, the file, or something else. */
  datatype UploadFate = Nothing | Intact | Corrupted(digest: Digest)

  /** Which calls of a run go through. A process killed at a call is one that fails there. */
  datatype Fortune = Fortune(
    find: bool, main: bool, attest: bool, latest: bool, tagRead: bool, tagWrite: WriteFate, draftWrite: WriteFate,
    readBack: bool, upload: UploadFate, releaseRead: bool, publish: WriteFate, proved: bool)

  const GOOD_FORTUNE := Fortune(true, true, true, true, true, Done, Done, true, Intact, true, Done, true)

  /** A value, a Failure or a Stop. */
  datatype Answer<T> = Got(value: T) | Fails | Stops {
    predicate IsFailure() {
      !Got?
    }
    function PropagateFailure<U>(): Answer<U>
      requires !Got?
    {
      if Fails? then Fails else Stops
    }
    function Extract(): T
      requires Got?
    {
      value
    }
  }

  datatype Outcome = Published | Noop | Planned | Stopped | Failed

  // ----- Reading the state -----

  function Tagged(releases: seq<Release>, tag: string): seq<Release> {
    if releases == [] then []
    else (if releases[0].tag == tag then [releases[0]] else []) + Tagged(releases[1..], tag)
  }

  function FindRelease(g: GitHub, c: Candidate, ok: bool): Answer<Option<Release>> {
    var hits := Tagged(g.releases, c.Tag());
    if !ok then Fails
    else if |hits| > 1 then Stops
    else Got(if hits == [] then None else Some(hits[0]))
  }

  /** The commit a tag stands for, through a tag object if there is one. */
  function TagSha(g: GitHub, tag: string, ok: bool): Answer<Option<Sha>> {
    if !ok then Fails
    else if tag !in g.tags then Got(None)
    else if g.tags[tag].OtherRef? then Stops
    else Got(Some(g.tags[tag].sha))
  }

  function ShouldBeLatest(g: GitHub, c: Candidate, ok: bool): Answer<bool> {
    if c.version == TRIAL_VERSION then Got(false)
    else if !ok then Fails
    else if g.latest.None? then Got(true)
    else
      var current := VersionNumbers(StripV(g.latest.value));
      var ours := VersionNumbers(c.version);
      if current.None? then Got(true)
      else if ours.None? then Fails
      else Got(ours.value.Above(current.value))
  }

  function RequireMainBranch(repo: Repo, call: Call, ok: bool): Answer<()> {
    if call.trial then (if call.candidate.version == TRIAL_VERSION then Got(()) else Stops)
    else if !ok then Fails
    else if repo.onMain(call.candidate.sha) then Got(())
    else Stops
  }

  function RequireDraftOnCandidate(c: Candidate, r: Release): Answer<()> {
    if IsSha(r.target) && r.target != c.sha then Stops else Got(())
  }

  /** The digest of the ZIP: built from the candidate's commit, and equal to the one handed over if there is one. */
  function ZipDigest(repo: Repo, call: Call): Answer<Digest> {
    var built := repo.build(call.candidate.sha);
    if built.None? then Fails
    else if call.zip.Some? && call.zip != built then Stops
    else Got(built.value)
  }

  function VerifyAttestation(g: GitHub, c: Candidate, digest: Digest, ok: bool): Answer<()> {
    if ok && (c.sha, digest) in g.attested then Got(()) else Stops
  }

  /** What a run that goes on to write has established. */
  datatype Ready = Ready(release: Option<Release>, digest: Digest, body: string, latest: bool)

  /** Everything before the first write. None means the version is already published. */
  function Prepare(g: GitHub, repo: Repo, call: Call, f: Fortune): Answer<Option<Ready>> {
    var c := call.candidate;
    var release :- FindRelease(g, c, f.find);
    if call.mode.Verify? && (release.None? || release.value.draft) then Stops
    else if release.Some? && !release.value.draft then (if f.proved then Got(None) else Stops)
    else
      var _ :- RequireMainBranch(repo, call, f.main);
      var _ :- if release.Some? then RequireDraftOnCandidate(c, release.value) else Got(());
      var digest :- ZipDigest(repo, call);
      var _ :- if call.mode.Plan? then Got(()) else VerifyAttestation(g, c, digest, f.attest);
      var body := repo.body(c.sha, c.version, digest);
      if body.None? then Fails
      else
        var latest :- ShouldBeLatest(g, c, f.latest);
        Got(Some(Ready(release, digest, body.value, latest)))
  }

  // ----- Writing -----

  function EnsureTag(g: GitHub, c: Candidate, dryRun: bool, f: Fortune): (GitHub, Answer<()>) {
    match TagSha(g, c.Tag(), f.tagRead)
    case Fails => (g, Fails)
    case Stops => (g, Stops)
    case Got(Some(sha)) => (g, if sha == c.sha then Got(()) else Stops)
    case Got(None) =>
      if dryRun then (g, Got(()))
      else
        (if f.tagWrite.Applied() then
           g.(tags := g.tags[c.Tag() := CommitRef(c.sha)], writes := g.writes + [WroteTag(c.Tag(), c.sha)])
         else g,
         if f.tagWrite.Done? then Got(()) else Fails)
  }

  function NewDraft(g: GitHub, c: Candidate, body: string): Release {
    Release(g.nextId, c.Tag(), c.sha, body, true, c.version == TRIAL_VERSION, [])
  }

  function EnsureDraft(g: GitHub, c: Candidate, release: Option<Release>, body: string, f: Fortune)
    : (GitHub, Answer<Release>)
  {
    match release
    case Some(r) => (g, Got(r))
    case None =>
      var created := NewDraft(g, c, body);
      (if f.draftWrite.Applied() then
         g.(releases := g.releases + [created], nextId := g.nextId + 1, writes := g.writes + [WroteDraft(c.Tag())])
       else g,
       if f.draftWrite.Done? then Got(created) else Fails)
  }

  function ZipAssets(assets: seq<Asset>): seq<Asset> {
    if assets == [] then []
    else (if assets[0].name == ASSET_NAME then [assets[0]] else []) + ZipAssets(assets[1..])
  }

  /** The releases with one of them changed. */
  function Update(releases: seq<Release>, id: nat, change: Release -> Release): seq<Release> {
    seq(|releases|, i requires 0 <= i < |releases| => if releases[i].id == id then change(releases[i]) else releases[i])
  }

  function ReleaseById(releases: seq<Release>, id: nat): Option<Release> {
    if releases == [] then None
    else if releases[0].id == id then Some(releases[0])
    else ReleaseById(releases[1..], id)
  }

  function StoreAsset(g: GitHub, r: Release, digest: Digest): GitHub {
    g.(releases := Update(g.releases, r.id, (x: Release) => x.(assets := x.assets + [Asset(ASSET_NAME, digest)])),
       nextId := g.nextId + 1, writes := g.writes + [WroteAsset(r.tag, digest)])
  }

  /** The file on GitHub read back: it must have the digest of the build. */
  function ReadBack(assets: seq<Asset>, digest: Digest, ok: bool): Answer<()>
    requires assets != []
  {
    if !ok then Fails else if assets[0].digest == digest then Got(()) else Stops
  }

  function EnsureAsset(g: GitHub, r: Release, digest: Digest, f: Fortune): (GitHub, Answer<()>) {
    var existing := ZipAssets(r.assets);
    if existing != [] then (g, ReadBack(existing, digest, f.readBack))
    else
      // Whether or not the upload reports success, what arrived is read back.
      var uploaded := match f.upload
        case Nothing => g
        case Intact => StoreAsset(g, r, digest)
        case Corrupted(other) => StoreAsset(g, r, other);
      var updated := ReleaseById(uploaded.releases, r.id);
      if !f.releaseRead || updated.None? || ZipAssets(updated.value.assets) == [] then (uploaded, Fails)
      else (uploaded, ReadBack(ZipAssets(updated.value.assets), digest, f.readBack))
  }

  function MakePublic(g: GitHub, c: Candidate, r: Release, digest: Digest, latest: bool, f: Fortune)
    : (GitHub, Answer<()>)
  {
    (if f.publish.Applied() then
       g.(releases := Update(g.releases, r.id, (x: Release) => x.(draft := false)),
          latest := if latest then Some(c.Tag()) else g.latest,
          writes := g.writes + [WrotePublic(c.Tag(), c.sha, digest)])
     else g,
     if f.publish.Done? then Got(()) else Fails)
  }

  function Ended<T>(a: Answer<T>): Outcome
    requires !a.Got?
  {
    if a.Fails? then Failed else Stopped
  }

  function WriteRelease(g: GitHub, c: Candidate, ready: Ready, f: Fortune): (GitHub, Outcome) {
    var (tagged, tag) := EnsureTag(g, c, false, f);
    if !tag.Got? then (tagged, Ended(tag))
    else
      var (drafted, draft) := EnsureDraft(tagged, c, ready.release, ready.body, f);
      if !draft.Got? then (drafted, Ended(draft))
      else
        var (uploaded, asset) := EnsureAsset(drafted, draft.value, ready.digest, f);
        if !asset.Got? then (uploaded, Ended(asset))
        else
          var (public, published) := MakePublic(uploaded, c, draft.value, ready.digest, ready.latest, f);
          (public, if published.Got? then Published else Ended(published))
  }

  function Run(g: GitHub, repo: Repo, call: Call, f: Fortune): (GitHub, Outcome) {
    match Prepare(g, repo, call, f)
    case Fails => (g, Failed)
    case Stops => (g, Stopped)
    case Got(None) => (g, Noop)
    case Got(Some(ready)) =>
      if call.mode.PlanOnly() then
        (g, if EnsureTag(g, call.candidate, true, f).1.Got? then Planned
            else Ended(EnsureTag(g, call.candidate, true, f).1))
      else WriteRelease(g, call.candidate, ready, f)
  }

  // ----- The flow itself -----

  /** GitHub as the flow changes it. */
  class Hub {
    const repo: Repo
    var tags: map<string, Ref>
    var releases: seq<Release>
    var latest: Option<string>
    var nextId: nat
    var attested: set<(Sha, Digest)>
    ghost var writes: seq<Write>

    constructor (repo: Repo, g: GitHub)
      ensures this.repo == repo && View() == g
    {
      this.repo := repo;
      tags, releases, latest, nextId, attested, writes := g.tags, g.releases, g.latest, g.nextId, g.attested, g.writes;
    }

    ghost function View(): GitHub
      reads this
    {
      GitHub(tags, releases, latest, nextId, attested, writes)
    }

    /** Creates the tag on the candidate, or finds it there. A tag is never moved. */
    method CreateTag(c: Candidate, dryRun: bool, f: Fortune) returns (r: Answer<()>)
      modifies this
      ensures (View(), r) == EnsureTag(old(View()), c, dryRun, f)
    {
      if !f.tagRead {
        return Fails;
      }
      if c.Tag() in tags {
        if tags[c.Tag()].OtherRef? || tags[c.Tag()].sha != c.sha {
          return Stops;
        }
        return Got(());
      }
      if dryRun {
        return Got(());
      }
      if f.tagWrite.Applied() {
        tags := tags[c.Tag() := CommitRef(c.sha)];
        writes := writes + [WroteTag(c.Tag(), c.sha)];
      }
      r := if f.tagWrite.Done? then Got(()) else Fails;
    }

    method CreateDraft(c: Candidate, release: Option<Release>, body: string, f: Fortune) returns (r: Answer<Release>)
      modifies this
      ensures (View(), r) == EnsureDraft(old(View()), c, release, body, f)
    {
      if release.Some? {
        return Got(release.value);
      }
      var created := Release(nextId, c.Tag(), c.sha, body, true, c.version == TRIAL_VERSION, []);
      if f.draftWrite.Applied() {
        releases := releases + [created];
        nextId := nextId + 1;
        writes := writes + [WroteDraft(c.Tag())];
      }
      r := if f.draftWrite.Done? then Got(created) else Fails;
    }

    method Upload(r: Release, digest: Digest)
      modifies this
      ensures View() == StoreAsset(old(View()), r, digest)
    {
      releases := Update(releases, r.id, (x: Release) => x.(assets := x.assets + [Asset(ASSET_NAME, digest)]));
      nextId := nextId + 1;
      writes := writes + [WroteAsset(r.tag, digest)];
    }

    method UploadAsset(r: Release, digest: Digest, f: Fortune) returns (done: Answer<()>)
      modifies this
      ensures (View(), done) == EnsureAsset(old(View()), r, digest, f)
    {
      var existing := ZipAssets(r.assets);
      if existing != [] {
        return ReadBack(existing, digest, f.readBack);
      }
      match f.upload {
        case Nothing =>
        case Intact => Upload(r, digest);
        case Corrupted(other) => Upload(r, other);
      }
      var updated := ReleaseById(releases, r.id);
      if !f.releaseRead || updated.None? {
        return Fails;
      }
      var after := ZipAssets(updated.value.assets);
      if after == [] {
        return Fails;
      }
      done := ReadBack(after, digest, f.readBack);
    }

    method PublishDraft(c: Candidate, r: Release, digest: Digest, makeLatest: bool, f: Fortune)
          returns (done: Answer<()>)
      modifies this
      ensures (View(), done) == MakePublic(old(View()), c, r, digest, makeLatest, f)
    {
      if f.publish.Applied() {
        releases := Update(releases, r.id, (x: Release) => x.(draft := false));
        latest := if makeLatest then Some(c.Tag()) else latest;
        writes := writes + [WrotePublic(c.Tag(), c.sha, digest)];
      }
      done := if f.publish.Done? then Got(()) else Fails;
    }

    /** The state machine: publishing is the last call, always. */
    method RunFlow(call: Call, f: Fortune) returns (outcome: Outcome)
      modifies this
      ensures (View(), outcome) == Run(old(View()), repo, call, f)
    {
      var c := call.candidate;
      var found := GitHub(tags, releases, latest, nextId, attested, []);
      var prepared := Prepare(found, repo, call, f);
      assert prepared == Prepare(View(), repo, call, f);
      if !prepared.Got? {
        return Ended(prepared);
      }
      if prepared.value.None? {
        return Noop;
      }
      var ready := prepared.value.value;
      if call.mode.PlanOnly() {
        var planned := CreateTag(c, true, f);
        return if planned.Got? then Planned else Ended(planned);
      }
      var tag := CreateTag(c, false, f);
      if !tag.Got? {
        return Ended(tag);
      }
      var draft := CreateDraft(c, ready.release, ready.body, f);
      if !draft.Got? {
        return Ended(draft);
      }
      var asset := UploadAsset(draft.value, ready.digest, f);
      if !asset.Got? {
        return Ended(asset);
      }
      var public := PublishDraft(c, draft.value, ready.digest, ready.latest, f);
      outcome := if public.Got? then Published else Ended(public);
    }
  }
}
