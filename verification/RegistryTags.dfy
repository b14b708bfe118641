// Registry tags: which of them name a supported version, and how they split into a version name and a release.
module RegistryTags {
  import opened Kube
  import opened DrupalSites

  const MARK := "-RELEASE"

  predicate MarkAt(tag: string, p: nat) {
    p + |MARK| <= |tag| && tag[p..p + |MARK|] == MARK
  }

  /** The pattern of the operator: `v`, anything, `-RELEASE`, anything, on one line. */
  predicate Matches(tag: string, name: string, spec: string) {
    && tag == name + "-" + spec && '\n' !in tag
    && |name| > 0 && name[0] == 'v'
    && |spec| >= 7 && spec[..7] == "RELEASE"
  }

  /** The last position from `p` down where the mark is, and not at the very beginning. */
  function LastMark(tag: string, p: nat): (r: Option<nat>)
    ensures r.Some? ==> 0 < r.value <= p && MarkAt(tag, r.value)
    ensures forall q :: 0 < q <= p && MarkAt(tag, q) ==> r.Some? && q <= r.value
    decreases p
  {
    if p == 0 then None
    else if MarkAt(tag, p) then Some(p)
    else LastMark(tag, p - 1)
  }

  /** What the greedy pattern captures: the text around the last mark. */
  function Split(tag: string): Option<(string, string)> {
    if tag == [] || tag[0] != 'v' || '\n' in tag then None
    else
      match LastMark(tag, |tag|)
      case None => None
      case Some(p) => Some((tag[..p], tag[p + 1..]))
  }

  lemma MatchesAtMark(tag: string, name: string, spec: string)
    requires Matches(tag, name, spec)
    ensures MarkAt(tag, |name|) && name == tag[..|name|] && spec == tag[|name| + 1..]
  {
    assert tag[|name|] == '-';
    assert tag[|name| + 1..] == spec;
    assert tag[|name|..|name| + 8] == "-" + spec[..7];
  }

  lemma MarkMatches(tag: string, p: nat)
    requires MarkAt(tag, p) && p > 0 && tag[0] == 'v' && '\n' !in tag
    ensures Matches(tag, tag[..p], tag[p + 1..])
  {
    assert tag[p] == tag[p..p + 8][0] == '-';
    assert tag == tag[..p] + [tag[p]] + tag[p + 1..];
    assert tag[p + 1..][..7] == tag[p..p + 8][1..] == MARK[1..];
  }

  /** The split is the match with the longest name, and there is one whenever there is any match. */
  lemma SplitIsGreedyMatch(tag: string, name: string, spec: string)
    ensures Split(tag) == Some((name, spec))
      <==> Matches(tag, name, spec) && forall m, t :: Matches(tag, m, t) ==> |m| <= |name|
  {
    if Split(tag) == Some((name, spec)) {
      MarkMatches(tag, |name|);
      forall m, t | Matches(tag, m, t) ensures |m| <= |name| {
        MatchesAtMark(tag, m, t);
      }
    }
    if Matches(tag, name, spec) && forall m, t :: Matches(tag, m, t) ==> |m| <= |name| {
      MatchesAtMark(tag, name, spec);
      var p := LastMark(tag, |tag|).value;
      MarkMatches(tag, p);
      MatchesAtMark(tag, tag[..p], tag[p + 1..]);
    }
  }

  lemma SplitRejoins(tag: string)
    ensures Split(tag).Some? <==> exists name, spec :: Matches(tag, name, spec)
    ensures Split(tag).Some? ==> Matches(tag, Split(tag).value.0, Split(tag).value.1)
  {
    match Split(tag) {
      case Some(r) => SplitIsGreedyMatch(tag, r.0, r.1);
      case None =>
        forall name, spec | Matches(tag, name, spec) ensures false {
          MatchesAtMark(tag, name, spec);
        }
    }
  }

  predicate Contains(text: string) {
    exists p :: 0 <= p <= |text| && MarkAt(text, p)
  }

  lemma InnerMarkGivesLongerMatch(name: string, spec: string)
    requires Matches(name + "-" + spec, name, spec) && Contains(spec)
    ensures exists m, t :: Matches(name + "-" + spec, m, t) && |m| > |name|
  {
    var tag := name + "-" + spec;
    var p :| 0 <= p <= |spec| && MarkAt(spec, p);
    var q := |name| + 1 + p;
    assert tag[q..q + 8] == spec[p..p + 8];
    MarkMatches(tag, q);
  }

  lemma LongerMatchHasInnerMark(name: string, spec: string, m: string, t: string)
    requires Matches(name + "-" + spec, name, spec) && Matches(name + "-" + spec, m, t) && |m| > |name|
    ensures Contains(spec)
  {
    var tag := name + "-" + spec;
    MatchesAtMark(tag, m, t);
    var p := |m| - |name| - 1;
    assert spec[p..p + 8] == tag[|m|..|m| + 8];
    assert MarkAt(spec, p);
  }

  lemma MatchesRelease(name: string, spec: string)
    ensures Matches(name + "-" + spec, name, spec)
      <==> |name| > 0 && name[0] == 'v' && '\n' !in name && |spec| >= 7 && spec[..7] == "RELEASE" && '\n' !in spec
  {
    var tag := name + "-" + spec;
    assert forall c :: c in tag <==> c in name || c == '-' || c in spec;
  }

  /** The parser undoes the release identifier of a site exactly when the identifier could come from the registry. */
  lemma SplitInvertsReleaseId(spec: Spec)
    ensures Split(ReleaseId(spec)) == Some((spec.versionName, spec.releaseSpec))
      <==>
        && |spec.versionName| > 0 && spec.versionName[0] == 'v' && '\n' !in spec.versionName
        && |spec.releaseSpec| >= 7 && spec.releaseSpec[..7] == "RELEASE" && '\n' !in spec.releaseSpec
        && !Contains(spec.releaseSpec)
  {
    hide Matches, Split, Contains;
    var name, release, tag := spec.versionName, spec.releaseSpec, ReleaseId(spec);
    SplitIsGreedyMatch(tag, name, release);
    MatchesRelease(name, release);
    if Matches(tag, name, release) {
      if Contains(release) {
        InnerMarkGivesLongerMatch(name, release);
      }
      forall m, t | Matches(tag, m, t) && |m| > |name| ensures Contains(release) {
        LongerMatchHasInnerMark(name, release, m, t);
      }
    }
  }

  // ------------------------------------------------------------------ groups

  /** The releases of one version, in the order of the tags. */
  function Releases(tags: seq<string>, name: string): seq<string>
    decreases |tags|
  {
    if tags == [] then []
    else
      var last := Split(tags[|tags| - 1]);
      Releases(tags[..|tags| - 1], name) + if last.Some? && last.value.0 == name then [last.value.1] else []
  }

  ghost predicate Grouped(versions: map<string, seq<string>>, tags: seq<string>) {
    forall name :: (name in versions <==> Releases(tags, name) != [])
      && (name in versions ==> versions[name] == Releases(tags, name))
  }

  /** Groups the matching tags by version name; every release of a group is kept, in order. */
  method ParseRegistryTags(tags: seq<string>) returns (versions: map<string, seq<string>>)
    ensures Grouped(versions, tags)
  {
    versions := map[];
    for i := 0 to |tags|
      invariant Grouped(versions, tags[..i])
    {
      assert tags[..i + 1][..i] == tags[..i];
      var version := Split(tags[i]);
      if version.Some? {
        var name, release := version.value.0, version.value.1;
        if name in versions {
          versions := versions[name := versions[name] + [release]];
        } else {
          versions := versions[name := [release]];
        }
      }
    }
    assert tags[..|tags|] == tags;
  }

  /** Every release in a group comes from a tag that splits into the name of the group and that release. */
  lemma {:induction false} ReleasesRejoin(tags: seq<string>, name: string, spec: string)
    requires spec in Releases(tags, name)
    ensures name + "-" + spec in tags && Split(name + "-" + spec) == Some((name, spec))
    decreases |tags|
  {
    var before, last := tags[..|tags| - 1], tags[|tags| - 1];
    if spec in Releases(before, name) {
      ReleasesRejoin(before, name, spec);
      assert forall t :: t in before ==> t in tags;
    } else {
      SplitIsGreedyMatch(last, name, spec);
      assert last in tags;
    }
  }

  lemma OneMore<T>(s: seq<T>, x: T, y: T)
    ensures multiset(s + [x])[y] == multiset(s)[y] + if x == y then 1 else 0
  {
  }

  lemma SplitTellsTag(a: string, b: string)
    requires Split(a) == Split(b) && Split(a).Some?
    ensures a == b
  {
    SplitIsGreedyMatch(a, Split(a).value.0, Split(a).value.1);
    SplitIsGreedyMatch(b, Split(a).value.0, Split(a).value.1);
  }

  lemma ReleasesMore(tags: seq<string>, last: string, name: string)
    ensures Split(last).Some? && Split(last).value.0 == name ==>
      Releases(tags + [last], name) == Releases(tags, name) + [Split(last).value.1]
    ensures Split(last).None? || Split(last).value.0 != name ==> Releases(tags + [last], name) == Releases(tags, name)
  {
    hide Split;
    assert (tags + [last])[..|tags|] == tags;
  }

  /** Nothing is lost or counted twice: a matching tag occurs among the tags as often as its release in its group. */
  lemma {:induction false} TagsAreConserved(tags: seq<string>, tag: string, name: string, spec: string)
    requires Split(tag) == Some((name, spec))
    ensures multiset(Releases(tags, name))[spec] == multiset(tags)[tag]
    decreases |tags|
  {
    hide Split;
    if tags == [] {
      assert Releases(tags, name) == [];
    } else {
      hide Releases;
      var before, last := tags[..|tags| - 1], tags[|tags| - 1];
      TagsAreConserved(before, tag, name, spec);
      assert tags == before + [last];
      OneMore(before, last, tag);
      ReleasesMore(before, last, name);
      if Split(last).Some? && Split(last).value.0 == name {
        OneMore(Releases(before, name), Split(last).value.1, spec);
        if Split(last).value.1 == spec {
          SplitTellsTag(last, tag);
        }
      }
    }
  }
}
