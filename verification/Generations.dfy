/**
 Which generation of a challenge its builds and instances belong to.  A record that names a
 source digest speaks for all of them; one without makes no claim.
 */
module Generations {
  import opened Store
  import opened Instances
  import opened Containers
  import opened Safety
  import opened Promotion

  /** No image and no container of build `b` is of any generation but `g`. */
  ghost predicate OfGeneration(w: World, b: BuildId, g: string) {
    && b in w.db.builds
    && w.db.builds[b].output.source == g
    && TagsOfGeneration(w.tags, w.db.builds[b].challenge, b, w.db.builds[b].output.images, g)
    && (forall i | i in w.db.instances && w.db.instances[i].build == b ::
          ContainersOfGeneration(w.containers, w.db.instances[i].runtime.containers, g))
  }

  /** Every image in `images` has a canonical tag, and it is of generation `g`. */
  ghost predicate TagsOf(tags: map<TagName, Image>, challenge: ChallengeId, b: BuildId, images: seq<HostImage>, g: string) {
    forall image | image in images ::
      CanonicalTag(challenge, b, image.host) in tags && tags[CanonicalTag(challenge, b, image.host)].source == g
  }

  /** Build `b` is finished, of generation `g`, and nothing of it is missing. */
  ghost predicate WhollyOf(w: World, b: BuildId, g: string) {
    && OfGeneration(w, b, g)
    && w.db.builds[b].output.flag != ""
    && (w.db.builds[b].output.hasArtifacts ==> Canonical(b) in w.artifacts)
    && TagsOf(w.tags, w.db.builds[b].challenge, b, w.db.builds[b].output.images, g)
  }

  lemma TagsAreOf(tags: map<TagName, Image>, challenge: ChallengeId, b: BuildId, images: seq<HostImage>, g: string)
    requires TagsOf(tags, challenge, b, images, g)
    ensures TagsOfGeneration(tags, challenge, b, images, g)
  {
  }

  /** A build that has produced nothing yet, and runs nothing. */
  ghost predicate Blank(w: World, b: BuildId) {
    && b in w.db.builds && w.db.builds[b].output.images == []
    && (forall i | i in w.db.instances && w.db.instances[i].build == b :: w.db.instances[i].runtime.containers == {})
  }

  ghost predicate BuildSpokenFor(w: World, b: BuildId, g: string)
    requires b in w.db.builds
  {
    if w.db.builds[b].output.flag == "" then Blank(w, b) else OfGeneration(w, b, g)
  }

  /** If the record of `ch` names a source digest, all its finished builds and their instances
      are of that generation, and its other builds are blank. */
  ghost predicate Generation(w: World, ch: ChallengeId) {
    ch in w.db.challenges && w.db.challenges[ch].sourceDigest != "" ==>
      forall b | b in w.db.builds && w.db.builds[b].challenge == ch :: BuildSpokenFor(w, b, w.db.challenges[ch].sourceDigest)
  }

  ghost predicate Consistent(w: World) {
    forall ch :: Generation(w, ch)
  }

  /** `d` is sound, and no less consistent than `s`. */
  ghost predicate Fine(s: World, d: World) {
    Sound(d) && (Consistent(s) ==> Consistent(d))
  }

  lemma FineSelf(s: World)
    requires Sound(s)
    ensures Fine(s, s)
  {
    hide Sound, Consistent;
  }

  // --------------------------------------------------- what keeps a generation

  /** Container `c` of `d` was made from a canonical image that build `b` had in `s`. */
  ghost predicate FromBuild(s: World, d: World, b: BuildId, c: ContainerId) {
    && b in s.db.builds && c in d.containers
    && exists image :: image in s.db.builds[b].output.images && IsImage(s.tags, CanonicalTag(s.db.builds[b].challenge, b, image.host), d.containers[c].image)
  }

  ghost predicate IsImage(tags: map<TagName, Image>, n: TagName, image: Image) {
    n in tags && tags[n] == image
  }

  /** Instance `i` runs what it ran in `s`, or less. */
  ghost predicate RunsOld(s: World, d: World, i: InstanceId)
    requires i in d.db.instances
  {
    && i in s.db.instances && s.db.instances[i].build == d.db.instances[i].build
    && d.db.instances[i].runtime.containers <= s.db.instances[i].runtime.containers
    && (forall c | c in d.db.instances[i].runtime.containers && c in d.containers :: c in s.containers && d.containers[c] == s.containers[c])
  }

  /** All that instance `i` runs was made from its build. */
  ghost predicate RunsNew(s: World, d: World, i: InstanceId)
    requires i in d.db.instances
  {
    forall c | c in d.db.instances[i].runtime.containers :: FromBuild(s, d, d.db.instances[i].build, c)
  }

  /** Build `b` has no other output, image or kind of instance than in `s`. */
  ghost predicate KeepsBuild(s: World, d: World, b: BuildId) {
    && b in s.db.builds && b in d.db.builds
    && d.db.builds[b].output == s.db.builds[b].output && d.db.builds[b].challenge == s.db.builds[b].challenge
    && (forall image | image in s.db.builds[b].output.images ::
          var n := CanonicalTag(s.db.builds[b].challenge, b, image.host); n in d.tags ==> n in s.tags && d.tags[n] == s.tags[n])
    && (forall i | i in d.db.instances && d.db.instances[i].build == b :: RunsOld(s, d, i) || RunsNew(s, d, i))
  }

  lemma KeptGeneration(s: World, d: World, b: BuildId, g: string)
    requires KeepsBuild(s, d, b) && OfGeneration(s, b, g)
    ensures OfGeneration(d, b, g)
  {
    hide RunsOld, RunsNew;
    forall i | i in d.db.instances && d.db.instances[i].build == b
      ensures ContainersOfGeneration(d.containers, d.db.instances[i].runtime.containers, g)
    {
      if RunsOld(s, d, i) { OldOfGeneration(s, d, b, i, g); } else { NewOfGeneration(s, d, b, i, g); }
    }
  }

  lemma OldOfGeneration(s: World, d: World, b: BuildId, i: InstanceId, g: string)
    requires OfGeneration(s, b, g) && i in d.db.instances && d.db.instances[i].build == b && RunsOld(s, d, i)
    ensures ContainersOfGeneration(d.containers, d.db.instances[i].runtime.containers, g)
  {
    hide TagsOfGeneration;
  }

  lemma NewOfGeneration(s: World, d: World, b: BuildId, i: InstanceId, g: string)
    requires OfGeneration(s, b, g) && i in d.db.instances && d.db.instances[i].build == b && RunsNew(s, d, i)
    ensures ContainersOfGeneration(d.containers, d.db.instances[i].runtime.containers, g)
  {
    forall c | c in d.db.instances[i].runtime.containers
      ensures c in d.containers && d.containers[c].image.source == g
    {
      assert FromBuild(s, d, b, c);
      var image :| image in s.db.builds[b].output.images && IsImage(s.tags, CanonicalTag(s.db.builds[b].challenge, b, image.host), d.containers[c].image);
      assert TagName(s.db.builds[b].challenge, b, image.host, "") in s.tags;
    }
  }

  lemma KeptBlank(s: World, d: World, b: BuildId)
    requires KeepsBuild(s, d, b) && Blank(s, b)
    ensures Blank(d, b)
  {
    forall i | i in d.db.instances && d.db.instances[i].build == b
      ensures d.db.instances[i].runtime.containers == {}
    {
      if c :| c in d.db.instances[i].runtime.containers {
        assert !FromBuild(s, d, b, c);
        assert RunsOld(s, d, i);
      }
    }
  }

  lemma KeptSpokenFor(s: World, d: World, b: BuildId, g: string)
    requires KeepsBuild(s, d, b) && BuildSpokenFor(s, b, g)
    ensures BuildSpokenFor(d, b, g)
  {
    hide KeepsBuild, OfGeneration, Blank;
    KeptOutput(s, d, b);
    if s.db.builds[b].output.flag == "" { KeptBlank(s, d, b); } else { KeptGeneration(s, d, b, g); }
  }

  lemma KeptOutput(s: World, d: World, b: BuildId)
    requires KeepsBuild(s, d, b)
    ensures b in s.db.builds && b in d.db.builds && d.db.builds[b].output == s.db.builds[b].output
    ensures d.db.builds[b].challenge == s.db.builds[b].challenge
  {
  }

  /** Digests stay on record, and builds are kept. */
  lemma KeptConsistent(s: World, d: World)
    requires Consistent(s)
    requires forall ch | ch in d.db.challenges && d.db.challenges[ch].sourceDigest != "" ::
      ch in s.db.challenges && s.db.challenges[ch].sourceDigest == d.db.challenges[ch].sourceDigest
    requires forall b | b in d.db.builds :: KeepsBuild(s, d, b)
    ensures Consistent(d)
  {
    hide KeepsBuild, BuildSpokenFor;
    forall ch: ChallengeId ensures Generation(d, ch) {
      if ch in d.db.challenges && d.db.challenges[ch].sourceDigest != "" {
        assert Generation(s, ch);
        forall b | b in d.db.builds && d.db.builds[b].challenge == ch
          ensures BuildSpokenFor(d, b, d.db.challenges[ch].sourceDigest)
        {
          assert KeepsBuild(s, d, b);
          KeptOutput(s, d, b);
          KeptSpokenFor(s, d, b, d.db.challenges[ch].sourceDigest);
        }
      }
    }
  }

  /** Rows and containers were only taken away. */
  ghost predicate OnlyLess(s: World, d: World) {
    && d.db.challenges == s.db.challenges
    && (forall b | b in d.db.builds :: b in s.db.builds && d.db.builds[b].output == s.db.builds[b].output && d.db.builds[b].challenge == s.db.builds[b].challenge)
    && (forall n | n in d.tags :: n in s.tags && d.tags[n] == s.tags[n])
    && (forall i | i in d.db.instances :: RunsOld(s, d, i))
  }

  lemma LessIsConsistent(s: World, d: World)
    requires OnlyLess(s, d) && Consistent(s)
    ensures Consistent(d)
  {
    hide Consistent, RunsOld, RunsNew;
    forall b | b in d.db.builds ensures KeepsBuild(s, d, b) { }
    KeptConsistent(s, d);
  }

  /** An instance that runs the images of its build was made from it. */
  lemma RunsFromBuild(s: World, d: World, b: BuildId, ids: set<ContainerId>)
    requires b in s.db.builds && RunsImages(s.tags, d.containers, ids, s.db.builds[b].challenge, b, s.db.builds[b].output.images)
    requires ids <= d.containers.Keys
    ensures forall c | c in ids :: FromBuild(s, d, b, c)
  {
    hide InOrder;
    var images := s.db.builds[b].output.images;
    var order := OrderOf(s.tags, d.containers, ids, s.db.builds[b].challenge, b, images);
    forall c | c in ids
      ensures FromBuild(s, d, b, c)
    {
      var k := ImageOf(s.tags, d.containers, ids, s.db.builds[b].challenge, b, images, order, c);
      assert images[k] in images && IsImage(s.tags, CanonicalTag(s.db.builds[b].challenge, b, images[k].host), d.containers[c].image);
    }
  }

  lemma ImageOf(tags: map<TagName, Image>, containers: map<ContainerId, Container>, ids: set<ContainerId>,
                challenge: ChallengeId, b: BuildId, images: seq<HostImage>, order: seq<ContainerId>, c: ContainerId) returns (k: nat)
    requires InOrder(tags, containers, ids, challenge, b, images, order) && c in ids && c in containers
    ensures k < |images| && TagName(challenge, b, images[k].host, "") in tags
    ensures containers[c].image == tags[TagName(challenge, b, images[k].host, "")]
  {
    k :| Runnable(images, k) && order[k] == c;
    assert MadeFrom(tags, containers, order[k], TagName(challenge, b, images[k].host, ""), images[k].ports);
  }
}
