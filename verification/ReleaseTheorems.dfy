/**
  What the release flow guarantees over any number of runs, each cut short at any call: whatever it makes
  public hangs together and stays so, and it ends where an uninterrupted run ends, with the same writes.
 */
module ReleaseTheorems {
  import opened Wrappers
  import opened Release

  // ----- Finding releases -----

  lemma {:induction false} TaggedConcat(a: seq<Release>, b: seq<Release>, tag: string)
    ensures Tagged(a + b, tag) == Tagged(a, tag) + Tagged(b, tag)
    decreases |a|
  {
    if a == [] {
      assert a + b == b;
    } else {
      assert (a + b)[1..] == a[1..] + b && (a + b)[0] == a[0];
      var head := if a[0].tag == tag then [a[0]] else [];
      assert Tagged(a + b, tag) == head + Tagged(a[1..] + b, tag) && Tagged(a, tag) == head + Tagged(a[1..], tag);
      hide Tagged;
      TaggedConcat(a[1..], b, tag);
      Reassociate(head, Tagged(a[1..], tag), Tagged(b, tag));
    }
  }

  lemma TaggedOne(r: Release, tag: string)
    ensures Tagged([r], tag) == if r.tag == tag then [r] else []
  {
  }

  /** The release at position i is the one the tag finds. */
  predicate OnlyAt(releases: seq<Release>, tag: string, i: nat) {
    && i < |releases| && releases[i].tag == tag
    && forall j | 0 <= j < |releases| && j != i :: releases[j].tag != tag
  }

  lemma {:induction false} NoneTagged(releases: seq<Release>, tag: string)
    ensures Tagged(releases, tag) == [] <==> forall j | 0 <= j < |releases| :: releases[j].tag != tag
  {
    if releases != [] {
      NoneTagged(releases[1..], tag);
      assert forall j | 0 < j < |releases| :: releases[j] == releases[1..][j - 1];
    }
  }

  lemma {:induction false} FoundAt(releases: seq<Release>, tag: string) returns (i: nat)
    requires |Tagged(releases, tag)| == 1
    ensures OnlyAt(releases, tag, i) && Tagged(releases, tag) == [releases[i]]
  {
    if releases[0].tag == tag {
      i := 0;
      NoneTagged(releases[1..], tag);
      assert forall j | 0 < j < |releases| :: releases[j] == releases[1..][j - 1];
    } else {
      var k := FoundAt(releases[1..], tag);
      i := k + 1;
      assert forall j | 0 < j < |releases| :: releases[j] == releases[1..][j - 1];
    }
  }

  lemma {:induction false} OnlyAtIsFound(releases: seq<Release>, tag: string, i: nat)
    requires OnlyAt(releases, tag, i)
    ensures Tagged(releases, tag) == [releases[i]]
  {
    var front, back := releases[..i], releases[i + 1..];
    assert releases == front + ([releases[i]] + back);
    TaggedConcat(front, [releases[i]] + back, tag);
    TaggedConcat([releases[i]], back, tag);
    TaggedOne(releases[i], tag);
    NoneTagged(front, tag);
    NoneTagged(back, tag);
  }

  lemma {:induction false} ByIdFinds(releases: seq<Release>, i: nat)
    requires i < |releases|
    requires forall j, k | 0 <= j < k < |releases| :: releases[j].id != releases[k].id
    ensures ReleaseById(releases, releases[i].id) == Some(releases[i])
  {
    if i > 0 {
      ByIdFinds(releases[1..], i - 1);
    }
  }

  lemma {:induction false} ZipAssetsConcat(a: seq<Asset>, b: seq<Asset>)
    ensures ZipAssets(a + b) == ZipAssets(a) + ZipAssets(b)
    decreases |a|
  {
    if a == [] {
      assert a + b == b;
    } else {
      assert (a + b)[1..] == a[1..] + b && (a + b)[0] == a[0];
      var head := if a[0].name == ASSET_NAME then [a[0]] else [];
      assert ZipAssets(a + b) == head + ZipAssets(a[1..] + b) && ZipAssets(a) == head + ZipAssets(a[1..]);
      hide ZipAssets;
      ZipAssetsConcat(a[1..], b);
      Reassociate(head, ZipAssets(a[1..]), ZipAssets(b));
    }
  }

  /** Changing one release, found under its tag, leaves the others and the tag's find where they were. */
  lemma UpdateAt(releases: seq<Release>, tag: string, i: nat, change: Release -> Release)
    requires OnlyAt(releases, tag, i)
    requires forall j, k | 0 <= j < k < |releases| :: releases[j].id != releases[k].id
    requires change(releases[i]).tag == tag && change(releases[i]).id == releases[i].id
    ensures var changed := Update(releases, releases[i].id, change);
            && changed == releases[i := change(releases[i])]
            && OnlyAt(changed, tag, i)
            && (forall j, k | 0 <= j < k < |changed| :: changed[j].id != changed[k].id)
            && Tagged(changed, tag) == [change(releases[i])]
            && ReleaseById(changed, releases[i].id) == Some(change(releases[i]))
  {
    var changed := Update(releases, releases[i].id, change);
    assert changed == releases[i := change(releases[i])];
    OnlyAtIsFound(changed, tag, i);
    ByIdFinds(changed, i);
  }

  // ----- The stages of a run -----

  /** The draft of this candidate is at position i, and the tag is on its commit. */
  predicate Drafted(g: GitHub, c: Candidate, i: nat) {
    && g.Valid() && OnlyAt(g.releases, c.Tag(), i) && g.releases[i].draft
    && c.Tag() in g.tags && !g.tags[c.Tag()].OtherRef? && g.tags[c.Tag()].sha == c.sha
  }

  /** The draft carries the candidate's ZIP as its first. */
  predicate Uploaded(g: GitHub, c: Candidate, i: nat, digest: Digest) {
    && Drafted(g, c, i)
    && ZipAssets(g.releases[i].assets) != [] && ZipAssets(g.releases[i].assets)[0].digest == digest
  }

  /** Everything but the tag, the candidate's release and the ids is as it was. */
  predicate Extends(g: GitHub, after: GitHub, c: Candidate) {
    && after.attested == g.attested
    && (forall tag | tag in g.tags :: tag in after.tags && after.tags[tag] == g.tags[tag])
    && |g.releases| <= |after.releases|
    && (forall j | 0 <= j < |g.releases| && (g.releases[j].tag != c.Tag() || !g.releases[j].draft) ::
          after.releases[j] == g.releases[j])
    && g.writes <= after.writes
  }

  predicate PublishesNothing(g: GitHub, after: GitHub) {
    forall k | |g.writes| <= k < |after.writes| :: !after.writes[k].WrotePublic?
  }

  lemma TagStage(g: GitHub, c: Candidate, f: Fortune)
    requires g.Valid()
    ensures var (after, tag) := EnsureTag(g, c, false, f);
            && after.Valid() && Extends(g, after, c) && after.releases == g.releases && after.latest == g.latest
            && PublishesNothing(g, after)
            && (tag.Got? ==>
                  c.Tag() in after.tags && !after.tags[c.Tag()].OtherRef?
                  && after.tags[c.Tag()].sha == c.sha)
  {
  }

  lemma DraftStage(g: GitHub, c: Candidate, release: Option<Release>, body: string, f: Fortune) returns (i: nat)
    requires g.Valid()
    requires c.Tag() in g.tags && !g.tags[c.Tag()].OtherRef? && g.tags[c.Tag()].sha == c.sha
    requires FindRelease(g, c, true) == Got(release) && (release.Some? ==> release.value.draft)
    ensures var (after, draft) := EnsureDraft(g, c, release, body, f);
            && after.Valid() && Extends(g, after, c) && after.tags == g.tags && after.latest == g.latest
            && PublishesNothing(g, after)
            && (draft.Got? ==> Drafted(after, c, i) && after.releases[i] == draft.value)
  {
    if release.Some? {
      i := FoundAt(g.releases, c.Tag());
    } else {
      i := |g.releases|;
      NoneTagged(g.releases, c.Tag());
    }
  }

  lemma AssetStage(g: GitHub, c: Candidate, i: nat, digest: Digest, f: Fortune)
    requires Drafted(g, c, i)
    ensures var (after, asset) := EnsureAsset(g, g.releases[i], digest, f);
            && Drafted(after, c, i) && Extends(g, after, c) && after.tags == g.tags && after.latest == g.latest
            && after.releases[i].id == g.releases[i].id
            && PublishesNothing(g, after)
            && (asset.Got? ==> Uploaded(after, c, i, digest))
  {
    var r := g.releases[i];
    if ZipAssets(r.assets) == [] && !f.upload.Nothing? {
      var stored := if f.upload.Intact? then digest else f.upload.digest;
      StoreStage(g, c, i, stored);
    } else {
      ByIdFinds(g.releases, i);
    }
  }

  lemma StoreStage(g: GitHub, c: Candidate, i: nat, stored: Digest)
    requires Drafted(g, c, i) && ZipAssets(g.releases[i].assets) == []
    ensures var after := StoreAsset(g, g.releases[i], stored);
            && Drafted(after, c, i) && Extends(g, after, c)
            && after.releases == g.releases[i := after.releases[i]]
            && after.releases[i].id == g.releases[i].id && after.releases[i].target == g.releases[i].target
            && ZipAssets(after.releases[i].assets) == [Asset(ASSET_NAME, stored)]
            && ReleaseById(after.releases, g.releases[i].id) == Some(after.releases[i])
            && after.writes == g.writes + [WroteAsset(g.releases[i].tag, stored)] && PublishesNothing(g, after)
  {
    var r := g.releases[i];
    UpdateAt(g.releases, c.Tag(), i, (x: Release) => x.(assets := x.assets + [Asset(ASSET_NAME, stored)]));
    ZipAssetsConcat(r.assets, [Asset(ASSET_NAME, stored)]);
    assert [Asset(ASSET_NAME, stored)][1..] == [];
  }

  lemma PublishStage(g: GitHub, c: Candidate, i: nat, digest: Digest, latest: bool, f: Fortune)
    requires Uploaded(g, c, i, digest)
    ensures var (after, published) := MakePublic(g, c, g.releases[i], digest, latest, f);
            && after.Valid() && Extends(g, after, c) && after.tags == g.tags
            && OnlyAt(after.releases, c.Tag(), i) && after.releases[i].assets == g.releases[i].assets
            && after.releases[i].draft == !f.publish.Applied()
            && after.writes == g.writes + (if f.publish.Applied() then [WrotePublic(c.Tag(), c.sha, digest)] else [])
            && (published.Got? ==> f.publish.Applied())
  {
  }

  // ----- Safety over every run -----

  /** A publication hangs together: tag, public release, first ZIP asset, build and attestation are one commit's. */
  predicate Proven(g: GitHub, repo: Repo, w: Write)
    requires w.WrotePublic?
  {
    && w.tag in g.tags && !g.tags[w.tag].OtherRef? && g.tags[w.tag].sha == w.sha
    && repo.build(w.sha) == Some(w.digest) && (w.sha, w.digest) in g.attested
    && exists i | 0 <= i < |g.releases| :: PublicWith(g.releases[i], w.tag, w.digest)
  }

  predicate PublicWith(r: Release, tag: string, digest: Digest) {
    r.tag == tag && !r.draft && ZipAssets(r.assets) != [] && ZipAssets(r.assets)[0].digest == digest
  }

  lemma StaysProven(g: GitHub, after: GitHub, c: Candidate, repo: Repo, w: Write)
    requires w.WrotePublic? && Proven(g, repo, w) && Extends(g, after, c)
    ensures Proven(after, repo, w)
  {
  }

  lemma ExtendsTransitive(a: GitHub, b: GitHub, d: GitHub, c: Candidate)
    requires Extends(a, b, c) && Extends(b, d, c)
    ensures Extends(a, d, c)
  {
  }

  /** Every write of a run comes after those before it, and the one that publishes is the last. */
  predicate NewWrites(g: GitHub, after: GitHub, repo: Repo, c: Candidate) {
    && g.writes <= after.writes
    && forall k | |g.writes| <= k < |after.writes| && after.writes[k].WrotePublic? ::
         && k == |after.writes| - 1
         && after.writes[k].tag == c.Tag() && after.writes[k].sha == c.sha
         && Proven(after, repo, after.writes[k])
  }

  lemma WriteReleaseIsSafe(g: GitHub, repo: Repo, c: Candidate, ready: Ready, f: Fortune)
    requires g.Valid()
    requires FindRelease(g, c, true) == Got(ready.release) && (ready.release.Some? ==> ready.release.value.draft)
    requires repo.build(c.sha) == Some(ready.digest) && (c.sha, ready.digest) in g.attested
    ensures var after := WriteRelease(g, c, ready, f).0;
            after.Valid() && Extends(g, after, c) && NewWrites(g, after, repo, c)
  {
    hide EnsureTag, EnsureDraft, EnsureAsset, MakePublic, FindRelease, ZipAssets;
    TagStage(g, c, f);
    var (tagged, tag) := EnsureTag(g, c, false, f);
    if tag.Got? {
      SameReleasesSameFind(g, tagged, c);
      var i := DraftStage(tagged, c, ready.release, ready.body, f);
      var (drafted, draft) := EnsureDraft(tagged, c, ready.release, ready.body, f);
      ExtendsTransitive(g, tagged, drafted, c);
      if draft.Got? {
        AssetStage(drafted, c, i, ready.digest, f);
        var (uploaded, asset) := EnsureAsset(drafted, draft.value, ready.digest, f);
        ExtendsTransitive(g, drafted, uploaded, c);
        if asset.Got? {
          PublishStage(uploaded, c, i, ready.digest, ready.latest, f);
          SamePublish(uploaded, c, draft.value, uploaded.releases[i], ready.digest, ready.latest, f);
          var after := MakePublic(uploaded, c, draft.value, ready.digest, ready.latest, f).0;
          ExtendsTransitive(g, uploaded, after, c);
          assert f.publish.Applied() ==> PublicWith(after.releases[i], c.Tag(), ready.digest);
        }
      }
    }
  }

  lemma SameReleasesSameFind(a: GitHub, b: GitHub, c: Candidate)
    requires a.releases == b.releases
    ensures FindRelease(a, c, true) == FindRelease(b, c, true)
  {
  }

  /** Publishing goes by the release's id alone. */
  lemma SamePublish(g: GitHub, c: Candidate, r: Release, x: Release, digest: Digest, latest: bool, f: Fortune)
    requires r.id == x.id
    ensures MakePublic(g, c, r, digest, latest, f) == MakePublic(g, c, x, digest, latest, f)
  {
  }

  /** What a run that reaches the writes has seen. */
  lemma PreparedMeans(g: GitHub, repo: Repo, call: Call, f: Fortune)
    requires Prepare(g, repo, call, f).Got? && Prepare(g, repo, call, f).value.Some?
    ensures var ready := Prepare(g, repo, call, f).value.value;
            && FindRelease(g, call.candidate, true) == Got(ready.release)
            && (ready.release.Some? ==> ready.release.value.draft)
            && repo.build(call.candidate.sha) == Some(ready.digest)
            && (!call.mode.Plan? ==> (call.candidate.sha, ready.digest) in g.attested)
            && (if call.trial then call.candidate.version == TRIAL_VERSION else repo.onMain(call.candidate.sha))
  {
  }

  /** One run, whatever fails in it. */
  lemma RunIsSafe(g: GitHub, repo: Repo, call: Call, f: Fortune)
    requires g.Valid()
    ensures var after := Run(g, repo, call, f).0;
            && after.Valid() && Extends(g, after, call.candidate) && NewWrites(g, after, repo, call.candidate)
            && (after.writes != g.writes ==>
                  && (call.trial || repo.onMain(call.candidate.sha))
                  && forall j | 0 <= j < |g.releases| && g.releases[j].tag == call.candidate.Tag() ::
                       g.releases[j].draft)
  {
    var prepared := Prepare(g, repo, call, f);
    if prepared.Got? && prepared.value.Some? {
      var ready := prepared.value.value;
      PreparedMeans(g, repo, call, f);
      if ready.release.Some? {
        var i := FoundAt(g.releases, call.candidate.Tag());
      } else {
        NoneTagged(g.releases, call.candidate.Tag());
      }
      hide Prepare, WriteRelease, FindRelease;
      if !call.mode.PlanOnly() {
        WriteReleaseIsSafe(g, repo, call.candidate, ready, f);
      }
    }
  }

  /** A run of the flow, or the workflow attesting a build between runs. */
  datatype Event = Flow(call: Call, fortune: Fortune) | Attest(sha: Sha, digest: Digest)

  function Happen(g: GitHub, repo: Repo, e: Event): GitHub {
    match e
    case Flow(call, f) => Run(g, repo, call, f).0
    case Attest(sha, digest) => g.(attested := g.attested + {(sha, digest)})
  }

  function HappenAll(g: GitHub, repo: Repo, es: seq<Event>): GitHub
    decreases |es|
  {
    if es == [] then g else HappenAll(Happen(g, repo, es[0]), repo, es[1..])
  }

  /** Everything the flow ever made public hangs together, and no version was made public twice. */
  predicate AllProven(g: GitHub, repo: Repo) {
    && g.Valid()
    && (forall k | 0 <= k < |g.writes| && g.writes[k].WrotePublic? :: Proven(g, repo, g.writes[k]))
    && (forall j, k | 0 <= j < k < |g.writes| && g.writes[j].WrotePublic? && g.writes[k].WrotePublic? ::
          g.writes[j].tag != g.writes[k].tag)
  }

  lemma EventKeepsProven(g: GitHub, repo: Repo, e: Event)
    requires AllProven(g, repo)
    ensures AllProven(Happen(g, repo, e), repo)
    ensures forall tag | tag in g.tags :: tag in Happen(g, repo, e).tags && Happen(g, repo, e).tags[tag] == g.tags[tag]
  {
    var after := Happen(g, repo, e);
    if e.Flow? {
      RunIsSafe(g, repo, e.call, e.fortune);
      hide Run;
      forall k | 0 <= k < |after.writes| && after.writes[k].WrotePublic?
        ensures Proven(after, repo, after.writes[k])
      {
        if k < |g.writes| {
          assert after.writes[k] == g.writes[k];
          StaysProven(g, after, e.call.candidate, repo, g.writes[k]);
        }
      }
      forall j, k | 0 <= j < k < |after.writes| && after.writes[j].WrotePublic? && after.writes[k].WrotePublic?
        ensures after.writes[j].tag != after.writes[k].tag
      {
        assert after.writes[j] == g.writes[j];
        if k < |g.writes| {
          assert after.writes[k] == g.writes[k];
        } else {
          var i :| 0 <= i < |g.releases| && PublicWith(g.releases[i], g.writes[j].tag, g.writes[j].digest);
        }
      }
    } else {
      forall k | 0 <= k < |g.writes| && g.writes[k].WrotePublic?
        ensures Proven(after, repo, g.writes[k])
      {
        var i :| 0 <= i < |g.releases| && PublicWith(g.releases[i], g.writes[k].tag, g.writes[k].digest);
        assert PublicWith(after.releases[i], g.writes[k].tag, g.writes[k].digest);
      }
    }
  }

  /**
    From any state of GitHub and over any runs, of any candidates, each cut short anywhere: what the flow made
    public has its tag on the commit, a public release whose first ZIP is that commit's build, attested; no tag
    ever moves; and no version is made public twice, from one commit or from two.
   */
  lemma {:induction false} PublicationsHangTogether(g: GitHub, repo: Repo, es: seq<Event>)
    requires AllProven(g, repo)
    ensures AllProven(HappenAll(g, repo, es), repo)
    ensures forall tag | tag in g.tags ::
              tag in HappenAll(g, repo, es).tags && HappenAll(g, repo, es).tags[tag] == g.tags[tag]
    decreases |es|
  {
    if es != [] {
      EventKeepsProven(g, repo, es[0]);
      PublicationsHangTogether(Happen(g, repo, es[0]), repo, es[1..]);
    }
  }

  // ----- Convergence -----

  /** The stages of an uninterrupted run that publishes: the tag, the draft, the asset and the publication. */
  datatype Stages = Stages(ready: Ready, tagged: GitHub, drafted: GitHub, draft: Release, uploaded: GitHub,
      public: GitHub)

  predicate Staged(g: GitHub, repo: Repo, call: Call, s: Stages) {
    var c := call.candidate;
    && g.Valid() && Prepare(g, repo, call, GOOD_FORTUNE) == Got(Some(s.ready))
    && EnsureTag(g, c, false, GOOD_FORTUNE).0 == s.tagged && EnsureTag(g, c, false, GOOD_FORTUNE).1.Got?
    && EnsureDraft(s.tagged, c, s.ready.release, s.ready.body, GOOD_FORTUNE) == (s.drafted, Got(s.draft))
    && EnsureAsset(s.drafted, s.draft, s.ready.digest, GOOD_FORTUNE).0 == s.uploaded
    && EnsureAsset(s.drafted, s.draft, s.ready.digest, GOOD_FORTUNE).1.Got?
    && MakePublic(s.uploaded, c, s.draft, s.ready.digest, s.ready.latest, GOOD_FORTUNE).0 == s.public
  }

  /** A publishing call: not a plan, not a check. */
  predicate Publishes(call: Call) {
    call.mode == Publish(false)
  }

  lemma PublishedIsStaged(g: GitHub, repo: Repo, call: Call) returns (s: Stages)
    requires g.Valid() && Publishes(call)
    requires Run(g, repo, call, GOOD_FORTUNE).1.Published?
    ensures Staged(g, repo, call, s) && s.public == Run(g, repo, call, GOOD_FORTUNE).0
  {
    hide Prepare, EnsureTag, EnsureDraft, EnsureAsset, MakePublic;
    var c := call.candidate;
    var ready := Prepare(g, repo, call, GOOD_FORTUNE).value.value;
    var tagged := EnsureTag(g, c, false, GOOD_FORTUNE).0;
    var (drafted, draft) := EnsureDraft(tagged, c, ready.release, ready.body, GOOD_FORTUNE);
    var uploaded := EnsureAsset(drafted, draft.value, ready.digest, GOOD_FORTUNE).0;
    var public := MakePublic(uploaded, c, draft.value, ready.digest, ready.latest, GOOD_FORTUNE).0;
    s := Stages(ready, tagged, drafted, draft.value, uploaded, public);
  }

  lemma StagedIsPublished(g: GitHub, repo: Repo, call: Call, s: Stages)
    requires Staged(g, repo, call, s) && Publishes(call)
    ensures Run(g, repo, call, GOOD_FORTUNE) == (s.public, Published)
  {
  }

  /** Where the draft is in each stage, and what each stage left alone. */
  lemma StagedShape(g: GitHub, repo: Repo, call: Call, s: Stages) returns (i: nat)
    requires Staged(g, repo, call, s)
    ensures var c := call.candidate;
            && s.tagged.Valid() && s.tagged.releases == g.releases && s.tagged.attested == g.attested
                && s.tagged.latest == g.latest
            && c.Tag() in s.tagged.tags && !s.tagged.tags[c.Tag()].OtherRef? && s.tagged.tags[c.Tag()].sha == c.sha
            && Drafted(s.drafted, c, i) && s.drafted.releases[i] == s.draft
            && s.drafted.attested == g.attested && s.drafted.latest == g.latest
            && Uploaded(s.uploaded, c, i, s.ready.digest) && s.uploaded.releases[i].id == s.draft.id
            && s.uploaded.releases[i].target == s.draft.target
            && s.uploaded.attested == g.attested && s.uploaded.latest == g.latest
            && OnlyAt(s.public.releases, c.Tag(), i) && !s.public.releases[i].draft
            && (s.ready.release == None || s.ready.release == Some(s.draft))
            && RequireDraftOnCandidate(c, s.draft).Got?
  {
    var c := call.candidate;
    PreparedMeans(g, repo, call, GOOD_FORTUNE);
    TagStage(g, c, GOOD_FORTUNE);
    SameReleasesSameFind(g, s.tagged, c);
    DraftTargetsCandidate(g, repo, call, s);
    hide Prepare;
    i := DraftStage(s.tagged, c, s.ready.release, s.ready.body, GOOD_FORTUNE);
    AssetStage(s.drafted, c, i, s.ready.digest, GOOD_FORTUNE);
    if ZipAssets(s.draft.assets) == [] {
      StoreStage(s.drafted, c, i, s.ready.digest);
    }
    SamePublish(s.uploaded, c, s.draft, s.uploaded.releases[i], s.ready.digest, s.ready.latest, GOOD_FORTUNE);
    PublishStage(s.uploaded, c, i, s.ready.digest, s.ready.latest, GOOD_FORTUNE);
  }

  lemma DraftTargetsCandidate(g: GitHub, repo: Repo, call: Call, s: Stages)
    requires Staged(g, repo, call, s)
    ensures RequireDraftOnCandidate(call.candidate, s.draft).Got?
    ensures s.ready.release == None || s.ready.release == Some(s.draft)
  {
  }

  /** Before the writes a run looks only at the release, the attestations and the latest version. */
  lemma PrepareMoves(g: GitHub, x: GitHub, repo: Repo, call: Call, ready: Ready, release: Option<Release>)
    requires Prepare(g, repo, call, GOOD_FORTUNE) == Got(Some(ready)) && Publishes(call)
    requires x.attested == g.attested && x.latest == g.latest
    requires FindRelease(x, call.candidate, true) == Got(release)
    requires release.Some? ==> release.value.draft && RequireDraftOnCandidate(call.candidate, release.value).Got?
    ensures Prepare(x, repo, call, GOOD_FORTUNE) == Got(Some(ready.(release := release)))
  {
  }

  /** A run that starts where an uninterrupted run has got to ends where that run ends. */
  lemma AnyStageLeadsOn(g: GitHub, repo: Repo, call: Call, s: Stages, x: GitHub)
    requires Staged(g, repo, call, s) && Publishes(call)
    requires x == s.tagged || x == s.drafted || x == s.uploaded
    ensures x.Valid() && Run(x, repo, call, GOOD_FORTUNE) == (s.public, Published)
  {
    var c := call.candidate;
    var i := StagedShape(g, repo, call, s);
    PreparedMeans(g, repo, call, GOOD_FORTUNE);
    var ready := s.ready;
    var later := s;
    if x == s.tagged {
      SameReleasesSameFind(g, x, c);
      PrepareMoves(g, x, repo, call, ready, ready.release);
    } else {
      OnlyAtIsFound(x.releases, c.Tag(), i);
      PrepareMoves(g, x, repo, call, ready, Some(x.releases[i]));
      later := Stages(ready.(release := Some(x.releases[i])), x, x, x.releases[i], s.uploaded, s.public);
      SamePublish(s.uploaded, c, s.draft, x.releases[i], ready.digest, ready.latest, GOOD_FORTUNE);
    }
    hide Prepare, FindRelease, MakePublic;
    assert Staged(x, repo, call, later);
    StagedIsPublished(x, repo, call, later);
  }

  /** Calls that fail can only keep a run from going on; they do not change what it goes on with. */
  lemma PreparationsAgree(g: GitHub, repo: Repo, call: Call, f: Fortune, ready: Ready)
    requires Prepare(g, repo, call, GOOD_FORTUNE) == Got(Some(ready))
    ensures var p := Prepare(g, repo, call, f); p.Got? ==> p.value == Some(ready)
  {
  }

  /** However a run is cut short, it leaves GitHub in one of the stages of the uninterrupted run. */
  lemma CutShortIsAStage(g: GitHub, repo: Repo, call: Call, f: Fortune, s: Stages)
    requires Staged(g, repo, call, s) && Publishes(call) && !f.upload.Corrupted?
    ensures Run(g, repo, call, f).0 in [g, s.tagged, s.drafted, s.uploaded, s.public]
  {
    var c := call.candidate;
    PreparationsAgree(g, repo, call, f, s.ready);
    var i := StagedShape(g, repo, call, s);
    ByIdFinds(s.drafted.releases, i);
    hide Prepare;
    if Prepare(g, repo, call, f).Got? {
      TagCutShort(g, c, f);
      DraftCutShort(s.tagged, c, s.ready.release, s.ready.body, f);
      AssetCutShort(s.drafted, s.draft, s.ready.digest, f);
      hide EnsureTag, EnsureDraft, EnsureAsset;
    }
  }

  lemma TagCutShort(g: GitHub, c: Candidate, f: Fortune)
    requires EnsureTag(g, c, false, GOOD_FORTUNE).1.Got?
    ensures var (after, tag) := EnsureTag(g, c, false, f);
            (after == g && !tag.Got?) || (after == EnsureTag(g, c, false, GOOD_FORTUNE).0)
  {
  }

  lemma DraftCutShort(g: GitHub, c: Candidate, release: Option<Release>, body: string, f: Fortune)
    ensures var (after, draft) := EnsureDraft(g, c, release, body, f);
            var (good, made) := EnsureDraft(g, c, release, body, GOOD_FORTUNE);
            (after == g && !draft.Got?) || (after == good && (draft.Got? ==> draft == made))
  {
  }

  lemma AssetCutShort(g: GitHub, r: Release, digest: Digest, f: Fortune)
    requires EnsureAsset(g, r, digest, GOOD_FORTUNE).1.Got? && !f.upload.Corrupted?
    requires ReleaseById(g.releases, r.id) == Some(r)
    ensures var (after, asset) := EnsureAsset(g, r, digest, f);
            (after == g && !asset.Got?) || after == EnsureAsset(g, r, digest, GOOD_FORTUNE).0
  {
  }

  /** Runs of one call, cut short or not, one after another. */
  function RunAll(g: GitHub, repo: Repo, call: Call, fs: seq<Fortune>): GitHub
    decreases |fs|
  {
    if fs == [] then g else RunAll(Run(g, repo, call, fs[0]).0, repo, call, fs[1..])
  }

  /** Once the version is public, no run of this call writes anything. */
  lemma PublicIsFinal(g: GitHub, repo: Repo, call: Call, i: nat, f: Fortune)
    requires OnlyAt(g.releases, call.candidate.Tag(), i) && !g.releases[i].draft
    ensures Run(g, repo, call, f).0 == g && !Run(g, repo, call, f).1.Published?
    ensures Publishes(call) ==> Run(g, repo, call, GOOD_FORTUNE) == (g, Noop)
  {
    OnlyAtIsFound(g.releases, call.candidate.Tag(), i);
  }

  lemma {:induction false} RunsConverge(g: GitHub, repo: Repo, call: Call, fs: seq<Fortune>, end: GitHub, i: nat)
    requires Publishes(call) && g.Valid()
    requires g == end || Run(g, repo, call, GOOD_FORTUNE) == (end, Published)
    requires OnlyAt(end.releases, call.candidate.Tag(), i) && !end.releases[i].draft
    requires forall k | 0 <= k < |fs| :: !fs[k].upload.Corrupted?
    ensures var x := RunAll(g, repo, call, fs);
            Run(x, repo, call, GOOD_FORTUNE) == (end, if x == end then Noop else Published)
    decreases |fs|
  {
    PublicIsFinal(end, repo, call, i, GOOD_FORTUNE);
    hide Run, Staged, Extends, NewWrites, OnlyAt;
    if fs != [] {
      var next := Run(g, repo, call, fs[0]).0;
      RunIsSafe(g, repo, call, fs[0]);
      if g == end {
        PublicIsFinal(end, repo, call, i, fs[0]);
      } else {
        CutShortLeadsOn(g, repo, call, fs[0]);
      }
      RunsConverge(next, repo, call, fs[1..], end, i);
    }
  }

  /** A run cut short leaves the state it began with, one an undisturbed run would still finish, or the finished one. */
  lemma CutShortLeadsOn(g: GitHub, repo: Repo, call: Call, f: Fortune)
    requires Publishes(call) && g.Valid() && !f.upload.Corrupted?
    requires Run(g, repo, call, GOOD_FORTUNE).1.Published?
    ensures var next, end := Run(g, repo, call, f).0, Run(g, repo, call, GOOD_FORTUNE);
            next == end.0 || Run(next, repo, call, GOOD_FORTUNE) == end
  {
    hide Run;
    var s := PublishedIsStaged(g, repo, call);
    CutShortIsAStage(g, repo, call, f, s);
    var next := Run(g, repo, call, f).0;
    if next == s.tagged || next == s.drafted || next == s.uploaded {
      AnyStageLeadsOn(g, repo, call, s, next);
    }
  }

  /**
    If an uninterrupted run from here would publish, then after any number of runs of the same call, each cut
    short at any call, one that is not cut short leaves GitHub exactly as the uninterrupted run would: the same
    tag, release and asset, and the same writes, each made once. A further run writes nothing.
   */
  lemma InterruptedRunsConverge(g: GitHub, repo: Repo, call: Call, fs: seq<Fortune>)
    requires Publishes(call) && g.Valid()
    requires Run(g, repo, call, GOOD_FORTUNE).1.Published?
    requires forall k | 0 <= k < |fs| :: !fs[k].upload.Corrupted?
    ensures var end := Run(g, repo, call, GOOD_FORTUNE).0;
            && Run(RunAll(g, repo, call, fs), repo, call, GOOD_FORTUNE).0 == end
            && Run(end, repo, call, GOOD_FORTUNE) == (end, Noop)
            && |Tagged(end.releases, call.candidate.Tag())| == 1
  {
    var s := PublishedIsStaged(g, repo, call);
    var i := StagedShape(g, repo, call, s);
    RunsConverge(g, repo, call, fs, s.public, i);
    PublicIsFinal(s.public, repo, call, i, GOOD_FORTUNE);
    OnlyAtIsFound(s.public.releases, call.candidate.Tag(), i);
  }

  // ----- A corrupted upload -----

  /** The candidate's draft carries some other file than the candidate's build under the asset's name. */
  predicate Spoiled(g: GitHub, repo: Repo, c: Candidate, i: nat) {
    && Drafted(g, c, i)
    && ZipAssets(g.releases[i].assets) != []
    && repo.build(c.sha) != Some(ZipAssets(g.releases[i].assets)[0].digest)
  }

  /**
    With the file there, no run for that tag writes or publishes anything, whatever fails in it: one from the same
    commit stops at the file, one from another at the draft's target or at the tag.
   */
  lemma SpoiledStays(g: GitHub, repo: Repo, c: Candidate, call: Call, f: Fortune, i: nat)
    requires Spoiled(g, repo, c, i) && call.candidate.Tag() == c.Tag()
    ensures var (after, outcome) := Run(g, repo, call, f);
            after == g && !outcome.Published? && (Publishes(call) ==> outcome.Stopped? || outcome.Failed?)
  {
    var d := call.candidate;
    OnlyAtIsFound(g.releases, c.Tag(), i);
    var prepared := Prepare(g, repo, call, f);
    if prepared.Got? && prepared.value.Some? {
      PreparedMeans(g, repo, call, f);
      var ready := prepared.value.value;
      assert ready.release == Some(g.releases[i]);
      hide Prepare, FindRelease, MakePublic;
      assert EnsureTag(g, d, false, f).0 == g && (d.sha != c.sha ==> !EnsureTag(g, d, false, f).1.Got?);
      assert EnsureDraft(g, d, ready.release, ready.body, f) == (g, Got(g.releases[i]));
      if d.sha == c.sha {
        assert EnsureAsset(g, g.releases[i], ready.digest, f).0 == g
            && !EnsureAsset(g, g.releases[i], ready.digest, f).1.Got?;
      }
    }
  }

  predicate StoredSomething(g: GitHub, after: GitHub) {
    exists k | |g.writes| <= k < |after.writes| :: after.writes[k].WroteAsset?
  }

  /** Before and after the upload no asset is stored. */
  lemma OnlyUploadsStore(g: GitHub, c: Candidate, release: Option<Release>, body: string, r: Release, latest: bool,
        f: Fortune)
    ensures !StoredSomething(g, EnsureTag(g, c, false, f).0) && g.writes <= EnsureTag(g, c, false, f).0.writes
    ensures !StoredSomething(g, EnsureDraft(g, c, release, body, f).0)
        && g.writes <= EnsureDraft(g, c, release, body, f).0.writes
    ensures forall digest ::
              !StoredSomething(g, MakePublic(g, c, r, digest, latest, f).0)
                  && g.writes <= MakePublic(g, c, r, digest, latest, f).0.writes
  {
  }

  lemma StoringNothingAdds(a: GitHub, b: GitHub, d: GitHub)
    requires a.writes <= b.writes <= d.writes && !StoredSomething(a, b) && !StoredSomething(b, d)
    ensures !StoredSomething(a, d)
  {
  }

  lemma PublishingNothingAdds(a: GitHub, b: GitHub, d: GitHub)
    requires a.writes <= b.writes <= d.writes && PublishesNothing(a, b) && PublishesNothing(b, d)
    ensures PublishesNothing(a, d)
  {
  }

  lemma WriteSpoils(g: GitHub, repo: Repo, c: Candidate, ready: Ready, f: Fortune) returns (i: nat)
    requires g.Valid() && f.upload.Corrupted? && repo.build(c.sha) == Some(ready.digest)
        && f.upload.digest != ready.digest
    requires FindRelease(g, c, true) == Got(ready.release) && (ready.release.Some? ==> ready.release.value.draft)
    ensures var (after, outcome) := WriteRelease(g, c, ready, f);
            StoredSomething(g, after) ==>
              Spoiled(after, repo, c, i) && PublishesNothing(g, after) && outcome in {Stopped, Failed}
  {
    hide EnsureTag, EnsureDraft, EnsureAsset, MakePublic, FindRelease, ZipAssets, Spoiled, Drafted;
    i := 0;
    TagStage(g, c, f);
    var (tagged, tag) := EnsureTag(g, c, false, f);
    OnlyUploadsStore(g, c, ready.release, ready.body, NewDraft(g, c, ""), ready.latest, f);
    if tag.Got? {
      SameReleasesSameFind(g, tagged, c);
      i := DraftStage(tagged, c, ready.release, ready.body, f);
      var (drafted, draft) := EnsureDraft(tagged, c, ready.release, ready.body, f);
      OnlyUploadsStore(tagged, c, ready.release, ready.body, NewDraft(g, c, ""), ready.latest, f);
      StoringNothingAdds(g, tagged, drafted);
      if draft.Got? {
        CorruptedAssetStops(drafted, repo, c, i, ready.digest, f);
        PublishingNothingAdds(g, tagged, drafted);
        if ZipAssets(draft.value.assets) == [] {
          PublishingNothingAdds(g, drafted, EnsureAsset(drafted, draft.value, ready.digest, f).0);
        }
        OnlyUploadsStore(drafted, c, ready.release, ready.body, draft.value, ready.latest, f);
        StoringNothingAdds(g, drafted, MakePublic(drafted, c, draft.value, ready.digest, ready.latest, f).0);
      }
    }
  }

  /** A run whose upload arrived as something else leaves that on the draft and publishes nothing. */
  lemma CorruptedUploadSpoils(g: GitHub, repo: Repo, call: Call, f: Fortune) returns (i: nat)
    requires g.Valid() && f.upload.Corrupted? && repo.build(call.candidate.sha) != Some(f.upload.digest)
    requires StoredSomething(g, Run(g, repo, call, f).0)
    ensures var (after, outcome) := Run(g, repo, call, f);
            Spoiled(after, repo, call.candidate, i) && PublishesNothing(g, after) && outcome in {Stopped, Failed}
  {
    var ready := Prepare(g, repo, call, f).value.value;
    PreparedMeans(g, repo, call, f);
    hide Prepare, FindRelease, WriteRelease;
    i := WriteSpoils(g, repo, call.candidate, ready, f);
  }

  /** The upload itself: nothing was there, what arrived is not the build, and reading it back does not pass. */
  lemma CorruptedAssetStops(g: GitHub, repo: Repo, c: Candidate, i: nat, digest: Digest, f: Fortune)
    requires Drafted(g, c, i) && repo.build(c.sha) == Some(digest)
    requires f.upload.Corrupted? && f.upload.digest != digest
    ensures var (after, asset) := EnsureAsset(g, g.releases[i], digest, f);
            if ZipAssets(g.releases[i].assets) != [] then after == g
            else Spoiled(after, repo, c, i) && !asset.Got? && PublishesNothing(g, after) && g.writes <= after.writes
  {
    if ZipAssets(g.releases[i].assets) == [] {
      StoreStage(g, c, i, f.upload.digest);
    }
  }

  /**
    A corrupted upload is never built on: the run that made it publishes nothing, and after it no run for the same tag,
    from whatever commit, in any mode and whatever fails in it, writes or publishes anything, until someone takes the
    file away.
   */
  lemma {:induction false} CorruptedUploadStops(g: GitHub, repo: Repo, call: Call, f: Fortune, es: seq<Event>)
    requires g.Valid() && f.upload.Corrupted? && repo.build(call.candidate.sha) != Some(f.upload.digest)
    requires StoredSomething(g, Run(g, repo, call, f).0)
    requires forall e | e in es && e.Flow? :: e.call.candidate.Tag() == call.candidate.Tag()
    ensures var (after, outcome) := Run(g, repo, call, f);
            && PublishesNothing(g, after) && outcome in {Stopped, Failed}
            && HappenAll(after, repo, es) == after.(attested := HappenAll(after, repo, es).attested)
  {
    var i := CorruptedUploadSpoils(g, repo, call, f);
    hide Run;
    SpoiledForGood(Run(g, repo, call, f).0, repo, call.candidate, i, es);
  }

  lemma {:induction false} SpoiledForGood(g: GitHub, repo: Repo, c: Candidate, i: nat, es: seq<Event>)
    requires Spoiled(g, repo, c, i) && forall e | e in es && e.Flow? :: e.call.candidate.Tag() == c.Tag()
    ensures HappenAll(g, repo, es) == g.(attested := HappenAll(g, repo, es).attested)
    decreases |es|
  {
    if es != [] {
      assert es[0] in es && forall e | e in es[1..] :: e in es;
      if es[0].Flow? {
        SpoiledStays(g, repo, c, es[0].call, es[0].fortune, i);
      }
      hide Run;
      SpoiledForGood(Happen(g, repo, es[0]), repo, c, i, es[1..]);
    }
  }

  // ----- The latest version -----

  function LatestVersion(g: GitHub): Option<Version> {
    if g.latest.None? then None else VersionNumbers(StripV(g.latest.value))
  }

  /** No run takes "latest" back to an older version, and the trial version never becomes it. */
  lemma LatestNeverGoesBack(g: GitHub, repo: Repo, call: Call, f: Fortune)
    ensures var after := Run(g, repo, call, f).0;
            && (LatestVersion(g).Some? ==>
                  LatestVersion(after).Some?
                  && (after.latest == g.latest || LatestVersion(after).value.Above(LatestVersion(g).value)))
            && (call.candidate.version == TRIAL_VERSION ==> after.latest == g.latest)
  {
    LatestOnlyByPublishing(g, repo, call, f);
    hide Run, Prepare, VersionNumbers, StripV;
    if Run(g, repo, call, f).0.latest != g.latest {
      PreparedLatest(g, repo, call, f);
      if VersionNumbers(call.candidate.version).Some? {
        TagVersion(call.candidate);
      }
    }
  }

  lemma PreparedLatest(g: GitHub, repo: Repo, call: Call, f: Fortune)
    requires Prepare(g, repo, call, f).Got? && Prepare(g, repo, call, f).value.Some?
    ensures Got(Prepare(g, repo, call, f).value.value.latest) == ShouldBeLatest(g, call.candidate, f.latest)
  {
  }

  /** The version a tag spells is the candidate's. */
  lemma TagVersion(c: Candidate)
    requires VersionNumbers(c.version).Some?
    ensures VersionNumbers(StripV(c.Tag())) == VersionNumbers(c.version)
  {
  }

  lemma LatestOnlyByPublishing(g: GitHub, repo: Repo, call: Call, f: Fortune)
    ensures var after := Run(g, repo, call, f).0;
            var p := Prepare(g, repo, call, f);
            after.latest != g.latest ==>
              p.Got? && p.value.Some? && p.value.value.latest && after.latest == Some(call.candidate.Tag())
  {
    hide Prepare, ReleaseById;
  }
}
