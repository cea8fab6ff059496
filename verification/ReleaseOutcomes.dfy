/** When a release is published, exactly, and what GitHub then holds: said without the steps of the flow. */
module ReleaseOutcomes {
  import opened Wrappers
  import opened Release
  import opened ReleaseTheorems

  // ----- Versions as text -----

  predicate AllDigits(text: string) {
    text != "" && forall i | 0 <= i < |text| :: IsDigit(text[i])
  }

  /** What a number looks like in decimal. */
  function Decimal(n: nat): (text: string)
    ensures AllDigits(text)
  {
    (if n < 10 then "" else Decimal(n / 10)) + [(n % 10) as char + '0']
  }

  lemma {:induction false} DecimalReads(n: nat)
    ensures Value(Decimal(n)) == n
  {
    var text := Decimal(n);
    if n >= 10 {
      DecimalReads(n / 10);
      assert text[..|text| - 1] == Decimal(n / 10);
    } else {
      assert text[..|text| - 1] == "";
    }
  }

  lemma {:induction false} DigitsOf(digits: string, rest: string)
    requires forall i | 0 <= i < |digits| :: IsDigit(digits[i])
    requires rest == "" || !IsDigit(rest[0])
    ensures Digits(digits + rest) == (digits, rest)
  {
    if digits == "" {
      assert digits + rest == rest;
    } else {
      assert (digits + rest)[0] == digits[0] && (digits + rest)[1..] == digits[1..] + rest;
      DigitsOf(digits[1..], rest);
      assert [digits[0]] + digits[1..] == digits;
    }
  }

  lemma {:induction false} DigitsSplit(text: string)
    ensures Digits(text).0 + Digits(text).1 == text
    ensures Digits(text).1 == "" || !IsDigit(Digits(text).1[0])
  {
    if text != "" && IsDigit(text[0]) {
      DigitsSplit(text[1..]);
    }
  }

  /** The text is three runs of digits with dots between. */
  predicate Spells(text: string, a: string, b: string, c: string) {
    AllDigits(a) && AllDigits(b) && AllDigits(c) && text == a + ("." + (b + ("." + c)))
  }

  lemma NumberOf(digits: string, rest: string)
    requires AllDigits(digits) && (rest == "" || !IsDigit(rest[0]))
    ensures Number(digits + rest) == Some((Value(digits), rest))
  {
    DigitsOf(digits, rest);
  }

  /** A version is three runs of digits with dots between, and its parts are their values. */
  lemma SpelledIsRead(text: string, a: string, b: string, c: string)
    requires Spells(text, a, b, c)
    ensures VersionNumbers(text) == Some(Version(Value(a), Value(b), Value(c)))
  {
    var third := c + "";
    assert third == c;
    var second := b + ("." + c);
    NumberOf(a, "." + second);
    NumberOf(b, "." + c);
    NumberOf(c, "");
    assert ("." + second)[1..] == second && ("." + c)[1..] == c;
  }

  lemma ReadIsSpelled(text: string) returns (a: string, b: string, c: string)
    requires VersionNumbers(text).Some?
    ensures Spells(text, a, b, c)
  {
    var rest, last: string;
    a, rest := Digits(text).0, Digits(text).1;
    DigitsSplit(text);
    DigitsAreDigits(text);
    b, last := Digits(rest[1..]).0, Digits(rest[1..]).1;
    DigitsSplit(rest[1..]);
    DigitsAreDigits(rest[1..]);
    c := Digits(last[1..]).0;
    DigitsSplit(last[1..]);
    DigitsAreDigits(last[1..]);
    assert rest == "." + rest[1..] && last == "." + last[1..];
    assert c + "" == c;
  }

  /** The version of three numbers. */
  lemma VersionsRoundTrip(v: Version)
    ensures VersionNumbers(Decimal(v.major) + ("." + (Decimal(v.minor) + ("." + Decimal(v.patch))))) == Some(v)
  {
    DecimalReads(v.major);
    DecimalReads(v.minor);
    DecimalReads(v.patch);
    SpelledIsRead(Decimal(v.major) + ("." + (Decimal(v.minor) + ("." + Decimal(v.patch)))),
                  Decimal(v.major), Decimal(v.minor), Decimal(v.patch));
  }

  /** Versions are compared as numbers whose digits are the parts, to any base none of them reaches. */
  lemma AboveIsOrder(a: Version, b: Version, base: nat)
    requires a.major < base && a.minor < base && a.patch < base && b.major < base && b.minor < base && b.patch < base
    ensures a.Above(b)
            <==> (a.major * base + a.minor) * base + a.patch > (b.major * base + b.minor) * base + b.patch
  {
    ThreeDigits(b.major, b.minor, b.patch, a.major, a.minor, a.patch, base);
  }

  // ----- What a run needs -----

  /** Forty lower-case hex digits. */
  predicate NamesCommit(text: string) {
    |text| == 40 && forall i | 0 <= i < 40 :: '0' <= text[i] <= '9' || text[i] in ['a', 'b', 'c', 'd', 'e', 'f']
  }

  /** Under the tag there is nothing yet, or one draft at i that is not another commit's. */
  predicate FreeOrDraft(g: GitHub, c: Candidate, i: nat) {
    && (i < |g.releases| ==>
          && OnlyAt(g.releases, "v" + c.version, i) && g.releases[i].draft
          && (NamesCommit(g.releases[i].target) ==> g.releases[i].target == c.sha))
    && (i >= |g.releases| ==> forall j | 0 <= j < |g.releases| :: g.releases[j].tag != "v" + c.version)
  }

  /** The candidate's build is what was handed over, and the commit may be shipped. */
  predicate Cleared(g: GitHub, repo: Repo, call: Call) {
    var c := call.candidate;
    && (if call.trial then c.version == "0.0.0" else repo.onMain(c.sha))
    && repo.build(c.sha).Some? && (call.zip.Some? ==> call.zip == repo.build(c.sha))
    && (call.mode.Plan? || (c.sha, repo.build(c.sha).value) in g.attested)
    && repo.body(c.sha, c.version, repo.build(c.sha).value).Some?
    && (c.version == "0.0.0" || Comparable(g, c))
  }

  /** The tag is not there yet, or is on the commit, through a tag object or not. */
  predicate TagFits(g: GitHub, c: Candidate) {
    "v" + c.version in g.tags ==> !g.tags["v" + c.version].OtherRef? && g.tags["v" + c.version].sha == c.sha
  }

  /** Nothing to compare the version with, or a version that can be compared. */
  predicate Comparable(g: GitHub, c: Candidate) {
    g.latest.None? || VersionNumbers(StripV(g.latest.value)).None? || VersionNumbers(c.version).Some?
  }

  /** No asset has the ZIP's name, or the first that has is this build. */
  predicate ZipFits(assets: seq<Asset>, digest: Digest, n: nat) {
    && (forall j | 0 <= j < n && j < |assets| :: assets[j].name != "onesti_lock.zip")
    && (n < |assets| ==> assets[n] == Asset("onesti_lock.zip", digest))
  }

  lemma {:induction false} ZipFitsIff(assets: seq<Asset>, digest: Digest)
    ensures (ZipAssets(assets) == [] || ZipAssets(assets)[0].digest == digest)
            <==> exists n: nat :: ZipFits(assets, digest, n)
    ensures ZipAssets(assets) == [] <==> forall j | 0 <= j < |assets| :: assets[j].name != "onesti_lock.zip"
  {
    if assets == [] {
      assert ZipFits(assets, digest, 0);
    } else {
      ZipFitsIff(assets[1..], digest);
      assert forall j | 0 < j < |assets| :: assets[j] == assets[1..][j - 1];
      if assets[0].name == ASSET_NAME {
        if assets[0].digest == digest {
          assert ZipFits(assets, digest, 0);
        }
      } else {
        forall n: nat | ZipFits(assets[1..], digest, n) ensures ZipFits(assets, digest, n + 1) {
        }
        forall n: nat | ZipFits(assets, digest, n) && n > 0 ensures ZipFits(assets[1..], digest, n - 1) {
        }
        if ZipFits(assets, digest, 0) {
          assert false;
        }
      }
    }
  }

  /** Everything a publishing run needs, in terms of GitHub, the repository and the call. */
  ghost predicate Publishable(g: GitHub, repo: Repo, call: Call) {
    && Cleared(g, repo, call) && TagFits(g, call.candidate)
    && exists i: nat ::
         && FreeOrDraft(g, call.candidate, i)
         && (i < |g.releases| ==>
               exists n: nat :: ZipFits(g.releases[i].assets, repo.build(call.candidate.sha).value, n))
  }

  /** The release under the tag, when there is at most one. */
  lemma FreeOrDraftIff(g: GitHub, c: Candidate) returns (i: nat)
    ensures FindRelease(g, c, true).Got? ==>
              var r := FindRelease(g, c, true).value;
              && (r.None? ==> i >= |g.releases|)
              && (r.Some? ==> i < |g.releases| && OnlyAt(g.releases, c.Tag(), i) && r.value == g.releases[i])
              && (FreeOrDraft(g, c, i)
                  <==> r.None? || (r.value.draft && RequireDraftOnCandidate(c, r.value).Got?))
    ensures FindRelease(g, c, true).Got? <==> (exists k: nat :: OnlyAt(g.releases, c.Tag(), k) || NoneAt(g, c))
    ensures forall k: nat | FreeOrDraft(g, c, k) ::
              FindRelease(g, c, true).Got? && FreeOrDraft(g, c, i)
              && (k < |g.releases| ==> k == i) && (k >= |g.releases| ==> i >= |g.releases|)
  {
    NoneTagged(g.releases, c.Tag());
    forall k: nat | OnlyAt(g.releases, c.Tag(), k)
      ensures Tagged(g.releases, c.Tag()) == [g.releases[k]]
    {
      OnlyAtIsFound(g.releases, c.Tag(), k);
    }
    i := |g.releases|;
    hide Tagged;
    if |Tagged(g.releases, c.Tag())| == 1 {
      i := FoundAt(g.releases, c.Tag());
    }
  }

  predicate NoneAt(g: GitHub, c: Candidate) {
    forall j | 0 <= j < |g.releases| :: g.releases[j].tag != c.Tag()
  }

  lemma PreparedIff(g: GitHub, repo: Repo, call: Call)
    requires FindRelease(g, call.candidate, true).Got? && !call.mode.Verify?
    ensures var r := FindRelease(g, call.candidate, true).value;
            var p := Prepare(g, repo, call, GOOD_FORTUNE);
            && (p.Got? && p.value.Some?
                <==> Cleared(g, repo, call)
                     && (r.None? || (r.value.draft && RequireDraftOnCandidate(call.candidate, r.value).Got?)))
            && (p.Got? && p.value.Some? ==>
                  p.value.value.release == r && Some(p.value.value.digest) == repo.build(call.candidate.sha))
  {
    hide FindRelease, VersionNumbers, StripV;
  }

  lemma TagFitsIff(g: GitHub, c: Candidate, dryRun: bool)
    ensures EnsureTag(g, c, dryRun, GOOD_FORTUNE).1.Got? <==> TagFits(g, c)
  {
  }

  /** The asset of the only draft under the tag, with nothing going wrong. */
  lemma AssetFitsIff(g: GitHub, c: Candidate, i: nat, digest: Digest)
    requires Drafted(g, c, i)
    ensures EnsureAsset(g, g.releases[i], digest, GOOD_FORTUNE).1.Got?
            <==> exists n: nat :: ZipFits(g.releases[i].assets, digest, n)
  {
    ZipFitsIff(g.releases[i].assets, digest);
    if ZipAssets(g.releases[i].assets) == [] {
      StoreStage(g, c, i, digest);
    }
  }

  /**
    A run in which nothing goes wrong publishes if and only if the commit is on main, or this is a trial of 0.0.0; there
    is one build of it, which is what was handed over and attested, and a release body; its version can be compared with
    the latest; the tag is free or on the commit; and there is no release under it, or one draft that is not another
    commit's and carries no other file as its first ZIP.
   */
  lemma PublishesIff(g: GitHub, repo: Repo, call: Call)
    requires g.Valid() && Publishes(call)
    ensures Run(g, repo, call, GOOD_FORTUNE).1.Published? <==> Publishable(g, repo, call)
  {
    var c := call.candidate;
    var i := FreeOrDraftIff(g, c);
    if FindRelease(g, c, true).Got? {
      PreparedIff(g, repo, call);
      var p := Prepare(g, repo, call, GOOD_FORTUNE);
      hide Prepare, FindRelease, FreeOrDraft, Cleared;
      if p.Got? && p.value.Some? {
        WritesIff(g, repo, c, p.value.value, i);
      }
    }
  }

  lemma WritesIff(g: GitHub, repo: Repo, c: Candidate, ready: Ready, i: nat)
    requires g.Valid() && FindRelease(g, c, true) == Got(ready.release) && Some(ready.digest) == repo.build(c.sha)
    requires ready.release.None? ==> i >= |g.releases|
    requires ready.release.Some? ==>
               i < |g.releases| && OnlyAt(g.releases, c.Tag(), i) && ready.release.value == g.releases[i]
               && g.releases[i].draft
    ensures WriteRelease(g, c, ready, GOOD_FORTUNE).1.Published?
            <==> TagFits(g, c)
                 && (i < |g.releases| ==> exists n: nat :: ZipFits(g.releases[i].assets, ready.digest, n))
  {
    TagFitsIff(g, c, false);
    TagStage(g, c, GOOD_FORTUNE);
    var (tagged, tag) := EnsureTag(g, c, false, GOOD_FORTUNE);
    if tag.Got? {
      SameReleasesSameFind(g, tagged, c);
      var k := DraftStage(tagged, c, ready.release, ready.body, GOOD_FORTUNE);
      var (drafted, draft) := EnsureDraft(tagged, c, ready.release, ready.body, GOOD_FORTUNE);
      AssetFitsIff(drafted, c, k, ready.digest);
      assert ready.release.Some? ==> k == i && drafted == tagged;
      assert ready.release.None? ==> drafted.releases[k].assets == [] && ZipFits([], ready.digest, 0);
      hide EnsureTag, EnsureAsset, FindRelease, OnlyAt, ZipFits;
    }
  }

  /** The version is public already. */
  ghost predicate IsPublic(g: GitHub, c: Candidate) {
    exists i: nat :: OnlyAt(g.releases, "v" + c.version, i) && !g.releases[i].draft
  }

  lemma IsPublicIff(g: GitHub, c: Candidate)
    ensures IsPublic(g, c)
            <==> FindRelease(g, c, true).Got? && FindRelease(g, c, true).value.Some?
                 && !FindRelease(g, c, true).value.value.draft
  {
    var i := FreeOrDraftIff(g, c);
    hide FindRelease;
    if IsPublic(g, c) {
      var k: nat :| OnlyAt(g.releases, "v" + c.version, k) && !g.releases[k].draft;
      assert OnlyAt(g.releases, c.Tag(), k);
    }
  }

  /**
    Nothing going wrong, in every mode: nothing is left to do exactly when the version is public; otherwise a check
    stops, and a plan or a dry run is planned exactly when all but the asset would let it publish, the attestation aside
    for a plan.
   */
  lemma OtherRunsIff(g: GitHub, repo: Repo, call: Call)
    ensures var c := call.candidate;
            var outcome := Run(g, repo, call, GOOD_FORTUNE).1;
            && (outcome.Noop? <==> IsPublic(g, c))
            && (call.mode.Verify? && !outcome.Noop? ==> outcome.Stopped?)
            && (outcome.Planned?
                <==> (call.mode.Plan? || call.mode == Publish(true)) && Cleared(g, repo, call) && TagFits(g, c)
                     && exists i: nat :: FreeOrDraft(g, c, i))
  {
    var c := call.candidate;
    IsPublicIff(g, c);
    TagFitsIff(g, c, true);
    if !FindRelease(g, c, true).Got? {
      var i := FreeOrDraftIff(g, c);
    } else {
      NotPublicRun(g, repo, call);
    }
  }

  /** A public version that cannot be proved stops the run, in every mode, and nothing is written either way. */
  lemma PublicIsProvedOrStops(g: GitHub, repo: Repo, call: Call, f: Fortune)
    requires f.find && IsPublic(g, call.candidate)
    ensures Run(g, repo, call, f) == (g, if f.proved then Noop else Stopped)
  {
    IsPublicIff(g, call.candidate);
  }

  /** There is no build; or all is well so far, but there is no body, or no version that compares. */
  predicate Wanting(g: GitHub, repo: Repo, call: Call) {
    var c := call.candidate;
    && (if call.trial then c.version == "0.0.0" else repo.onMain(c.sha))
    && (repo.build(c.sha).Some? ==>
          && (call.zip.Some? ==> call.zip == repo.build(c.sha))
          && (call.mode.Plan? || (c.sha, repo.build(c.sha).value) in g.attested)
          && (repo.body(c.sha, c.version, repo.build(c.sha).value).None?
              || (c.version != "0.0.0" && !Comparable(g, c))))
  }

  /**
    Nothing going wrong, a run fails rather than stops exactly when the commit may be shipped and nothing else stands
    under its tag, but a build, a release body or a comparable version is wanting.
   */
  lemma FailsIff(g: GitHub, repo: Repo, call: Call)
    requires g.Valid()
    ensures Run(g, repo, call, GOOD_FORTUNE).1.Failed?
            <==> !call.mode.Verify? && Wanting(g, repo, call) && exists i: nat :: FreeOrDraft(g, call.candidate, i)
  {
    var c := call.candidate;
    var i := FreeOrDraftIff(g, c);
    var p := Prepare(g, repo, call, GOOD_FORTUNE);
    if FindRelease(g, c, true).Got? {
      PrepareFailsIff(g, repo, call);
    }
    hide FreeOrDraft, Wanting, Prepare;
    if p.Got? && p.value.Some? {
      PreparedMeans(g, repo, call, GOOD_FORTUNE);
      WriteNeverFails(g, repo, call, p.value.value);
    }
  }

  lemma PrepareFailsIff(g: GitHub, repo: Repo, call: Call)
    requires FindRelease(g, call.candidate, true).Got?
    ensures var r := FindRelease(g, call.candidate, true).value;
            Prepare(g, repo, call, GOOD_FORTUNE).Fails?
            <==> !call.mode.Verify? && Wanting(g, repo, call)
                 && (r.None? || (r.value.draft && RequireDraftOnCandidate(call.candidate, r.value).Got?))
  {
    hide FindRelease, VersionNumbers, StripV;
  }

  lemma WriteNeverFails(g: GitHub, repo: Repo, call: Call, ready: Ready)
    requires g.Valid() && FindRelease(g, call.candidate, true) == Got(ready.release)
    requires ready.release.Some? ==> ready.release.value.draft
    ensures !WriteRelease(g, call.candidate, ready, GOOD_FORTUNE).1.Failed?
    ensures !EnsureTag(g, call.candidate, true, GOOD_FORTUNE).1.Fails?
  {
    var c := call.candidate;
    TagStage(g, c, GOOD_FORTUNE);
    var (tagged, tag) := EnsureTag(g, c, false, GOOD_FORTUNE);
    assert !tag.Fails? && !EnsureTag(g, c, true, GOOD_FORTUNE).1.Fails?;
    hide EnsureTag, FindRelease, EnsureAsset;
    if tag.Got? {
      SameReleasesSameFind(g, tagged, c);
      var i := DraftStage(tagged, c, ready.release, ready.body, GOOD_FORTUNE);
      var drafted := EnsureDraft(tagged, c, ready.release, ready.body, GOOD_FORTUNE).0;
      AssetNeverFails(drafted, c, i, ready.digest);
    }
  }

  lemma AssetNeverFails(g: GitHub, c: Candidate, i: nat, digest: Digest)
    requires Drafted(g, c, i)
    ensures !EnsureAsset(g, g.releases[i], digest, GOOD_FORTUNE).1.Fails?
  {
    if ZipAssets(g.releases[i].assets) == [] {
      StoreStage(g, c, i, digest);
    }
  }

  lemma NotPublicRun(g: GitHub, repo: Repo, call: Call)
    requires FindRelease(g, call.candidate, true).Got?
    ensures var (r, p) := (FindRelease(g, call.candidate, true).value, Prepare(g, repo, call, GOOD_FORTUNE));
            && (r.Some? && !r.value.draft <==> p == Got(None))
            && (call.mode.Verify? ==> p == Got(None) || p.Stops?)
            && (!call.mode.Verify? && (r.None? || r.value.draft) ==>
                 (p.Got? <==> Cleared(g, repo, call)
                              && exists i: nat :: FreeOrDraft(g, call.candidate, i)))
  {
    var i := FreeOrDraftIff(g, call.candidate);
    if !call.mode.Verify? {
      PreparedIff(g, repo, call);
    }
    hide FindRelease, Cleared, FreeOrDraft;
  }

  // ----- What GitHub then holds -----

  /** The version becomes the latest: not the trial one, and above what is latest now if that is a version. */
  predicate BecomesLatest(g: GitHub, c: Candidate) {
    && c.version != "0.0.0"
    && (g.latest.Some? && VersionNumbers(StripV(g.latest.value)).Some? && VersionNumbers(c.version).Some? ==>
          VersionNumbers(c.version).value.Above(VersionNumbers(StripV(g.latest.value)).value))
  }

  predicate NeedsZip(g: GitHub, i: nat) {
    i < |g.releases| ==> forall j | 0 <= j < |g.releases[i].assets| :: g.releases[i].assets[j].name != "onesti_lock.zip"
  }

  /** The tag on the commit, and the release under it public with the build as its ZIP. */
  function Public(g: GitHub, c: Candidate, digest: Digest, body: string, i: nat): GitHub {
    var tag := "v" + c.version;
    var zip := if NeedsZip(g, i) then [Asset("onesti_lock.zip", digest)] else [];
    GitHub(
      if tag in g.tags then g.tags else g.tags[tag := CommitRef(c.sha)],
      if i < |g.releases| then g.releases[i := g.releases[i].(draft := false, assets := g.releases[i].assets + zip)]
      else g.releases + [Release(g.nextId, tag, c.sha, body, false, c.version == "0.0.0", zip)],
      if BecomesLatest(g, c) then Some(tag) else g.latest,
      g.nextId + (if i < |g.releases| then 0 else 1) + |zip|,
      g.attested,
      g.writes + (if tag in g.tags then [] else [WroteTag(tag, c.sha)])
               + (if i < |g.releases| then [] else [WroteDraft(tag)])
               + (if zip == [] then [] else [WroteAsset(tag, digest)])
               + [WrotePublic(tag, c.sha, digest)])
  }

  // The stages on the way, each from the one before.

  function WithTag(g: GitHub, c: Candidate): GitHub {
    if "v" + c.version in g.tags then g
    else g.(tags := g.tags["v" + c.version := CommitRef(c.sha)],
            writes := g.writes + [WroteTag("v" + c.version, c.sha)])
  }

  function WithDraft(g: GitHub, c: Candidate, body: string, i: nat): GitHub {
    if i < |g.releases| then g
    else g.(releases := g.releases
                        + [Release(g.nextId, "v" + c.version, c.sha, body, true, c.version == "0.0.0", [])],
            nextId := g.nextId + 1, writes := g.writes + [WroteDraft("v" + c.version)])
  }

  function WithZip(g: GitHub, c: Candidate, i: nat, digest: Digest): GitHub
    requires i < |g.releases|
  {
    var zip := [Asset("onesti_lock.zip", digest)];
    if !NeedsZip(g, i) then g
    else g.(releases := g.releases[i := g.releases[i].(assets := g.releases[i].assets + zip)],
            nextId := g.nextId + 1, writes := g.writes + [WroteAsset("v" + c.version, digest)])
  }

  function WithPublication(g: GitHub, c: Candidate, i: nat, digest: Digest, latest: bool): GitHub
    requires i < |g.releases|
  {
    g.(releases := g.releases[i := g.releases[i].(draft := false)],
       latest := if latest then Some("v" + c.version) else g.latest,
       writes := g.writes + [WrotePublic("v" + c.version, c.sha, digest)])
  }

  /** All four after one another. */
  function Whole(g: GitHub, c: Candidate, digest: Digest, body: string, i: nat): GitHub
    requires i <= |g.releases|
  {
    var drafted := WithDraft(WithTag(g, c), c, body, i);
    WithPublication(WithZip(drafted, c, i, digest), c, i, digest, BecomesLatest(g, c))
  }

  lemma WholeReleases(g: GitHub, c: Candidate, digest: Digest, body: string, i: nat)
    requires i <= |g.releases|
    ensures Whole(g, c, digest, body, i).releases == Public(g, c, digest, body, i).releases
  {
    hide BecomesLatest;
    var drafted := WithDraft(WithTag(g, c), c, body, i);
    var zip := if NeedsZip(g, i) then [Asset("onesti_lock.zip", digest)] else [];
    var r := drafted.releases[i];
    assert NeedsZip(drafted, i) == NeedsZip(g, i) && (i == |g.releases| ==> NeedsZip(g, i) && r.assets == []);
    assert r.assets + [] == r.assets && [] + zip == zip;
    hide NeedsZip;
    assert Whole(g, c, digest, body, i).releases == drafted.releases[i := r.(draft := false, assets := r.assets + zip)];
  }

  lemma WholeIsPublic(g: GitHub, c: Candidate, digest: Digest, body: string, i: nat)
    requires i <= |g.releases|
    ensures Whole(g, c, digest, body, i) == Public(g, c, digest, body, i)
  {
    WholeReleases(g, c, digest, body, i);
    hide BecomesLatest;
    var drafted := WithDraft(WithTag(g, c), c, body, i);
    assert NeedsZip(drafted, i) == NeedsZip(g, i);
    hide NeedsZip;
  }

  lemma TagGood(g: GitHub, c: Candidate)
    requires TagFits(g, c)
    ensures EnsureTag(g, c, false, GOOD_FORTUNE) == (WithTag(g, c), Got(()))
  {
  }

  lemma AssetGood(g: GitHub, c: Candidate, i: nat, digest: Digest)
    requires Drafted(g, c, i)
    ensures EnsureAsset(g, g.releases[i], digest, GOOD_FORTUNE).0 == WithZip(g, c, i, digest)
  {
    ZipFitsIff(g.releases[i].assets, digest);
    if NeedsZip(g, i) {
      UpdateAt(g.releases, c.Tag(), i, (x: Release) => x.(assets := x.assets + [Asset(ASSET_NAME, digest)]));
    }
  }

  lemma PublicGood(g: GitHub, c: Candidate, i: nat, r: Release, digest: Digest, latest: bool)
    requires Drafted(g, c, i) && r.id == g.releases[i].id
    ensures MakePublic(g, c, r, digest, latest, GOOD_FORTUNE).0 == WithPublication(g, c, i, digest, latest)
  {
    UpdateAt(g.releases, c.Tag(), i, (x: Release) => x.(draft := false));
  }

  /** Such a run leaves exactly that, and makes exactly those writes. */
  lemma PublishedState(g: GitHub, repo: Repo, call: Call, i: nat)
    requires g.Valid() && Publishes(call) && Publishable(g, repo, call)
    requires i <= |g.releases| && FreeOrDraft(g, call.candidate, i)
    ensures var c := call.candidate;
            var digest := repo.build(c.sha).value;
            Run(g, repo, call, GOOD_FORTUNE)
            == (Public(g, c, digest, repo.body(c.sha, c.version, digest).value, i), Published)
  {
    PublishesIff(g, repo, call);
    var c := call.candidate;
    var s := PublishedIsStaged(g, repo, call);
    ReadyGood(g, repo, call, s.ready, i);
    hide Prepare, Publishable, FindRelease, Run;
    WritesGood(g, c, s.ready, i);
    StagedIsPublished(g, repo, call, s);
    hide EnsureTag, EnsureDraft, EnsureAsset, MakePublic, WriteRelease, Public, FreeOrDraft;
    StagesAreWrites(g, c, s);
  }

  lemma StagesAreWrites(g: GitHub, c: Candidate, s: Stages)
    requires EnsureTag(g, c, false, GOOD_FORTUNE).0 == s.tagged && EnsureTag(g, c, false, GOOD_FORTUNE).1.Got?
    requires EnsureDraft(s.tagged, c, s.ready.release, s.ready.body, GOOD_FORTUNE) == (s.drafted, Got(s.draft))
    requires EnsureAsset(s.drafted, s.draft, s.ready.digest, GOOD_FORTUNE).0 == s.uploaded
    requires EnsureAsset(s.drafted, s.draft, s.ready.digest, GOOD_FORTUNE).1.Got?
    requires MakePublic(s.uploaded, c, s.draft, s.ready.digest, s.ready.latest, GOOD_FORTUNE).0 == s.public
    ensures WriteRelease(g, c, s.ready, GOOD_FORTUNE).0 == s.public
  {
    hide EnsureTag, EnsureDraft, EnsureAsset;
  }

  /** What such a run has settled before it writes. */
  lemma ReadyGood(g: GitHub, repo: Repo, call: Call, ready: Ready, i: nat)
    requires Publishes(call) && Prepare(g, repo, call, GOOD_FORTUNE) == Got(Some(ready))
    requires FreeOrDraft(g, call.candidate, i)
    ensures var c := call.candidate;
            && repo.build(c.sha) == Some(ready.digest) && repo.body(c.sha, c.version, ready.digest) == Some(ready.body)
            && ready.latest == BecomesLatest(g, c) && FindRelease(g, c, true) == Got(ready.release)
            && ready.release == if i < |g.releases| then Some(g.releases[i]) else None
  {
    var k := FreeOrDraftIff(g, call.candidate);
    hide FindRelease, VersionNumbers, StripV;
  }

  lemma DraftGood(g: GitHub, c: Candidate, release: Option<Release>, body: string, i: nat)
    requires g.Valid() && TagFits(g, c) && FreeOrDraft(g, c, i)
    requires i <= |g.releases| && release == if i < |g.releases| then Some(g.releases[i]) else None
    ensures var drafted := WithDraft(WithTag(g, c), c, body, i);
            && Drafted(drafted, c, i)
            && EnsureDraft(WithTag(g, c), c, release, body, GOOD_FORTUNE) == (drafted, Got(drafted.releases[i]))
  {
  }

  lemma WritesGood(g: GitHub, c: Candidate, ready: Ready, i: nat)
    requires g.Valid() && TagFits(g, c) && FreeOrDraft(g, c, i) && ready.latest == BecomesLatest(g, c)
    requires i <= |g.releases| && ready.release == if i < |g.releases| then Some(g.releases[i]) else None
    requires WriteRelease(g, c, ready, GOOD_FORTUNE).1.Published?
    ensures WriteRelease(g, c, ready, GOOD_FORTUNE).0 == Public(g, c, ready.digest, ready.body, i)
  {
    TagGood(g, c);
    DraftGood(g, c, ready.release, ready.body, i);
    var drafted := WithDraft(WithTag(g, c), c, ready.body, i);
    AssetGood(drafted, c, i, ready.digest);
    AssetStage(drafted, c, i, ready.digest, GOOD_FORTUNE);
    PublicGood(WithZip(drafted, c, i, ready.digest), c, i, drafted.releases[i], ready.digest, ready.latest);
    WholeIsPublic(g, c, ready.digest, ready.body, i);
    hide EnsureTag, EnsureDraft, EnsureAsset, MakePublic, BecomesLatest, WithDraft, WithTag, WithZip, WithPublication,
      Public, NeedsZip, FreeOrDraft, TagFits, Drafted;
  }
}
