// The list of supported versions: the latest release of every version in the registry, without the blacklisted ones.
module SupportedVersions {
  import opened Kube
  import opened ReleaseTimes
  import opened RegistryTags
  import Workflow

  // ------------------------------------------------------------------ the latest release

  const RELEASE_PREFIX := "RELEASE-"

  /** A release with a timestamp part; the operator breaks off on any other. */
  predicate Timestamped(spec: string) {
    |spec| >= 8 && spec[..8] == RELEASE_PREFIX && '\n' !in spec
  }

  function Stamp(spec: string): string
    requires Timestamped(spec)
  {
    spec[8..]
  }

  /** A library that reads times: the layout as it is, and anything for texts that stray from it. */
  ghost predicate ReadsTimes(parse: string -> Time) {
    forall s :: Valid(parse(s)) && (Canonical(s) ==> parse(s) == Read(s))
  }

  function ReleaseName(t: Time): string
    requires Valid(t)
  {
    RELEASE_PREFIX + Format(t)
  }

  /** `latest` is written from a time read from the group, and no time read from the group is later. */
  ghost predicate IsLatestTime(latest: string, group: seq<string>, parse: string -> Time)
    requires ReadsTimes(parse) && forall s :: s in group ==> Timestamped(s)
  {
    exists s :: s in group && latest == ReleaseName(parse(Stamp(s)))
      && forall r :: r in group ==> Instant(parse(Stamp(r))) <= Instant(parse(Stamp(s)))
  }

  ghost predicate AllTimestamped(versions: map<string, seq<string>>) {
    forall name :: name in versions ==> versions[name] != [] && forall s :: s in versions[name] ==> Timestamped(s)
  }

  /** The times of a group, in its order. */
  method ReadStamps(group: seq<string>, parse: string -> Time) returns (times: array<Time>)
    requires ReadsTimes(parse) && forall s :: s in group ==> Timestamped(s)
    ensures times.Length == |group| && fresh(times)
    ensures forall i :: 0 <= i < |group| ==> times[i] == parse(Stamp(group[i]))
  {
    times := new Time[|group|](i requires 0 <= i < |group| && Timestamped(group[i]) => parse(Stamp(group[i])));
  }

  /** The position of a latest time from `from` on. */
  method FindLatest(a: array<Time>, from: nat) returns (k: nat)
    requires from < a.Length
    ensures from <= k < a.Length
    ensures forall j :: from <= j < a.Length ==> Instant(a[j]) <= Instant(a[k])
  {
    hide Instant;
    k := from;
    for i := from + 1 to a.Length
      invariant from <= k < a.Length
      invariant forall j :: from <= j < i ==> Instant(a[j]) <= Instant(a[k])
    {
      if Instant(a[i]) > Instant(a[k]) {
        k := i;
      }
    }
  }

  ghost predicate LatestFirst(s: seq<Time>) {
    forall i, j :: 0 <= i < j < |s| ==> Instant(s[j]) <= Instant(s[i])
  }

  /** Sorts the times in place, the latest first. */
  method SortLatestFirst(a: array<Time>)
    modifies a
    ensures LatestFirst(a[..])
    ensures multiset(a[..]) == multiset(old(a[..]))
  {
    hide Instant;
    for i := 0 to a.Length
      invariant LatestFirst(a[..i])
      invariant forall j, k :: 0 <= j < i <= k < a.Length ==> Instant(a[k]) <= Instant(a[j])
      invariant multiset(a[..]) == multiset(old(a[..]))
    {
      var k := FindLatest(a, i);
      a[i], a[k] := a[k], a[i];
    }
    assert a[..a.Length] == a[..];
  }

  /** The first of the sorted times is a latest one of the group. */
  method LatestOf(group: seq<string>, parse: string -> Time) returns (latest: string)
    requires ReadsTimes(parse) && group != [] && forall s :: s in group ==> Timestamped(s)
    ensures IsLatestTime(latest, group, parse)
  {
    hide Instant, Format, Canonical;
    var times := ReadStamps(group, parse);
    ghost var read := times[..];
    SortLatestFirst(times);
    FromSorted(read, times[..]);
    assert times[..][0] in read;
    ghost var i :| 0 <= i < |read| && read[i] == times[..][0];
    assert group[i] in group && read[i] == parse(Stamp(group[i]));
    forall r | r in group ensures Instant(parse(Stamp(r))) <= Instant(times[0]) {
      var j :| 0 <= j < |group| && group[j] == r;
      assert read[j] in read;
    }
    latest := ReleaseName(times[0]);
  }

  /** The head of a sorted permutation is in the original, and nothing there is later. */
  lemma FromSorted(read: seq<Time>, sorted: seq<Time>)
    requires multiset(sorted) == multiset(read) && LatestFirst(sorted) && |sorted| > 0
    ensures sorted[0] in read
    ensures forall t :: t in read ==> Instant(t) <= Instant(sorted[0])
  {
    hide Instant;
    assert sorted[0] in multiset(sorted);
    forall t | t in read ensures Instant(t) <= Instant(sorted[0]) {
      assert t in multiset(read);
      assert t in sorted;
    }
  }

  /** The latest release of every version; none when a release without a timestamp part breaks the operator off. */
  method GetLatestRelease(versions: map<string, seq<string>>, parse: string -> Time)
    returns (r: Option<map<string, string>>)
    requires ReadsTimes(parse)
    ensures r.Some? <==> AllTimestamped(versions)
    ensures r.Some? ==> r.value.Keys == versions.Keys
    ensures r.Some? ==> forall name :: name in versions ==> IsLatestTime(r.value[name], versions[name], parse)
  {
    hide Instant, Format, Canonical, Timestamped;
    var latest: map<string, string> := map[];
    var names := versions.Keys;
    while names != {}
      invariant names <= versions.Keys && latest.Keys == versions.Keys - names
      invariant forall name :: name in latest ==> versions[name] != [] && forall s :: s in versions[name] ==>
        Timestamped(s)
      invariant forall name :: name in latest ==> IsLatestTime(latest[name], versions[name], parse)
      decreases |names|
    {
      var name :| name in names;
      names := names - {name};
      var group := versions[name];
      if group == [] || exists i :: 0 <= i < |group| && !Timestamped(group[i]) {
        return None;
      }
      var l := LatestOf(group, parse);
      latest := latest[name := l];
    }
    return Some(latest);
  }

  /** A release name carries its time. */
  lemma ReleaseNameStamp(t: Time)
    requires Valid(t)
    ensures
      var r := ReleaseName(t);
      Timestamped(r) && Stamp(r) == Format(t) && Canonical(Stamp(r)) && Read(Stamp(r)) == t
  {
    hide Format, Canonical, Read;
    ReadOfFormat(t);
    var r := ReleaseName(t);
    assert r[8..] == Format(t) && r[..8] == RELEASE_PREFIX;
    NoNewlines(t);
  }

  lemma NoNewlines(t: Time)
    requires Valid(t)
    ensures '\n' !in Format(t)
  {
    hide Valid, Format, Number;
    ReadOfFormat(t);
    var s := Format(t);
    forall i | 0 <= i < |s| ensures s[i] != '\n' {
      LayoutHasNoNewline(s, i);
    }
  }

  lemma LayoutHasNoNewline(s: string, i: nat)
    requires LayoutOf(s) && i < 20
    ensures s[i] != '\n'
  {
    if i < 4 {
      assert s[i] == s[..4][i];
    } else if 5 <= i < 7 {
      assert s[i] == s[5..7][i - 5];
    } else if 8 <= i < 10 {
      assert s[i] == s[8..10][i - 8];
    } else if 11 <= i < 13 {
      assert s[i] == s[11..13][i - 11];
    } else if 14 <= i < 16 {
      assert s[i] == s[14..16][i - 14];
    } else if 17 <= i < 19 {
      assert s[i] == s[17..19][i - 17];
    }
  }

  predicate CanonicalSpec(spec: string) {
    Timestamped(spec) && Canonical(Stamp(spec))
  }

  lemma CanonicalSpecIsName(spec: string)
    requires CanonicalSpec(spec)
    ensures spec == ReleaseName(Read(Stamp(spec)))
  {
    hide Format, Canonical, Read;
    FormatOfRead(Stamp(spec));
    assert spec == spec[..8] + spec[8..];
  }

  /** The answer is one of the releases exactly when a latest one is written as the layout says. */
  lemma LatestIsMember(latest: string, group: seq<string>, parse: string -> Time)
    requires ReadsTimes(parse) && (forall s :: s in group ==> Timestamped(s)) && IsLatestTime(latest, group, parse)
    ensures latest in group <==>
      exists s :: s in group && CanonicalSpec(s) && forall r :: r in group ==>
        Instant(parse(Stamp(r))) <= Instant(parse(Stamp(s)))
  {
    hide Format, Canonical, Read, Instant, Timestamped;
    var t :| t in group && latest == ReleaseName(parse(Stamp(t)))
      && forall r :: r in group ==> Instant(parse(Stamp(r))) <= Instant(parse(Stamp(t)));
    ReleaseNameStamp(parse(Stamp(t)));
    if latest in group {
      assert CanonicalSpec(latest);
    }
    forall s | s in group && CanonicalSpec(s) && forall r :: r in group ==>
      Instant(parse(Stamp(r))) <= Instant(parse(Stamp(s)))
      ensures latest == s
    {
      EarlierIsEarlier(parse(Stamp(s)), parse(Stamp(t)));
      CanonicalSpecIsName(s);
    }
  }

  ghost predicate CanonicalGroup(group: seq<string>) {
    group != [] && forall s :: s in group ==> CanonicalSpec(s)
  }

  /** A member that is last in time and last in text. */
  ghost predicate Greatest(latest: string, group: seq<string>)
    requires CanonicalGroup(group)
  {
    latest in group
    && (forall s :: s in group ==> Instant(Read(Stamp(s))) <= Instant(Read(Stamp(latest))))
    && (forall s :: s in group ==> s == latest || Before(s, latest))
  }

  lemma SpecOrder(a: string, b: string)
    requires CanonicalSpec(a) && CanonicalSpec(b)
    ensures Before(a, b) <==> Instant(Read(Stamp(a))) < Instant(Read(Stamp(b)))
    ensures a == b <==> Instant(Read(Stamp(a))) == Instant(Read(Stamp(b)))
  {
    hide Format, Read, Instant, Before;
    CanonicalSpecIsName(a);
    CanonicalSpecIsName(b);
    FormatOrder(Read(Stamp(a)), Read(Stamp(b)));
    EarlierIsEarlier(Read(Stamp(a)), Read(Stamp(b)));
    BeforeByParts(RELEASE_PREFIX, Format(Read(Stamp(a))), RELEASE_PREFIX, Format(Read(Stamp(b))));
    NotBeforeItself(RELEASE_PREFIX);
  }

  /** Of canonical releases the answer is the greatest member, in time and in text. */
  lemma LatestIsGreatest(latest: string, group: seq<string>, parse: string -> Time)
    requires CanonicalGroup(group) && ReadsTimes(parse) && IsLatestTime(latest, group, parse)
    ensures Greatest(latest, group)
  {
    hide Format, Canonical, Read, Instant, Timestamped, Before;
    var t :| t in group && latest == ReleaseName(parse(Stamp(t)))
      && forall r :: r in group ==> Instant(parse(Stamp(r))) <= Instant(parse(Stamp(t)));
    CanonicalSpecIsName(t);
    forall s | s in group ensures s == latest || Before(s, latest) {
      SpecOrder(s, latest);
    }
  }

  /** Hence the order of the tags does not matter. */
  lemma LatestIgnoresOrder(a: string, g: seq<string>, b: string, h: seq<string>, parse: string -> Time)
    requires CanonicalGroup(g) && ReadsTimes(parse) && forall s :: s in g <==> s in h
    requires IsLatestTime(a, g, parse) && IsLatestTime(b, h, parse)
    ensures a == b
  {
    hide IsLatestTime, Instant, Read, CanonicalSpec;
    assert g[0] in h;
    LatestIsGreatest(a, g, parse);
    LatestIsGreatest(b, h, parse);
    SpecOrder(a, b);
  }

  // ------------------------------------------------------------------ the list

  datatype DrupalVersion = DrupalVersion(name: string, latest: string)

  /** The list entries of a map of latest releases, one each. */
  function Entries(latest: map<string, string>): set<DrupalVersion> {
    set name | name in latest :: DrupalVersion(name, latest[name])
  }

  /** The list holds every entry of the map once, and nothing else. */
  predicate Lists(available: seq<DrupalVersion>, latest: map<string, string>) {
    multiset(available) == multiset(Entries(latest))
  }

  lemma {:induction false} EntriesCount(latest: map<string, string>)
    ensures |Entries(latest)| == |latest|
    decreases |latest|
  {
    if latest != map[] {
      var name :| name in latest;
      var rest := latest - {name};
      assert latest.Keys == rest.Keys + {name};
      EntriesCount(rest);
      assert Entries(latest) == Entries(rest) + {DrupalVersion(name, latest[name])};
    } else {
      assert Entries(latest) == {};
    }
  }

  /** The test of the operator: as many entries as keys, every key listed, and no listed key with another release. */
  ghost predicate Agrees(available: seq<DrupalVersion>, latest: map<string, string>) {
    && |latest| == |available|
    && forall name :: name in latest ==>
         && (exists i :: 0 <= i < |available| && available[i].name == name)
         && (forall i :: 0 <= i < |available| && available[i].name == name ==> available[i].latest == latest[name])
  }

  /** A part of a multiset that is as large as the whole is the whole. */
  lemma FullPart<T>(a: multiset<T>, b: multiset<T>)
    requires a <= b && |a| == |b|
    ensures a == b
  {
    assert b == a + (b - a);
  }

  /** By counting alone, the test holds exactly when the list is a permutation of the entries. */
  lemma AgreesMeansLists(available: seq<DrupalVersion>, latest: map<string, string>)
    ensures Agrees(available, latest) <==> Lists(available, latest)
  {
    EntriesCount(latest);
    if Agrees(available, latest) {
      forall e | e in multiset(Entries(latest)) ensures e in multiset(available) {
        var i :| 0 <= i < |available| && available[i].name == e.name;
        assert available[i] == e;
      }
      FullPart(multiset(Entries(latest)), multiset(available));
    }
    if Lists(available, latest) {
      assert |multiset(available)| == |available|;
      forall name | name in latest
        ensures exists i :: 0 <= i < |available| && available[i].name == name
      {
        assert DrupalVersion(name, latest[name]) in multiset(available);
      }
      forall i | 0 <= i < |available| ensures available[i] in Entries(latest) {
        assert available[i] in multiset(available);
      }
    }
  }

  class SupportedDrupalVersions {
    var blacklist: seq<string>
    var available: seq<DrupalVersion>

    constructor (blacklist: seq<string>, available: seq<DrupalVersion>)
      ensures this.blacklist == blacklist && this.available == available
    {
      this.blacklist, this.available := blacklist, available;
    }

    static method Find(slice: seq<string>, val: string) returns (found: bool)
      ensures found <==> val in slice
    {
      for i := 0 to |slice|
        invariant val !in slice[..i]
      {
        if slice[i] == val {
          return true;
        }
      }
      return false;
    }

    static method Names(available: seq<DrupalVersion>) returns (names: seq<string>)
      ensures |names| == |available| && forall i :: 0 <= i < |names| ==> names[i] == available[i].name
    {
      names := [];
      for i := 0 to |available|
        invariant |names| == i && forall j :: 0 <= j < i ==> names[j] == available[j].name
      {
        names := names + [available[i].name];
      }
    }

    /** Whether some entry of this name has another release. */
    static method Differs(available: seq<DrupalVersion>, name: string, release: string) returns (differs: bool)
      ensures differs <==> exists i ::
        0 <= i < |available| && available[i].name == name && available[i].latest != release
    {
      for i := 0 to |available|
        invariant forall j :: 0 <= j < i && available[j].name == name ==> available[j].latest == release
      {
        if available[i].name == name {
          if available[i].latest != release {
            return true;
          }
        }
      }
      return false;
    }

    /** Whether a list is what the registry says. */
    static method DrupalVersionsEqual(available: seq<DrupalVersion>, latest: map<string, string>) returns (equal: bool)
      ensures equal <==> Lists(available, latest)
    {
      AgreesMeansLists(available, latest);
      if |latest| != |available| {
        return false;
      }
      var listed := Names(available);
      var names := latest.Keys;
      while names != {}
        invariant names <= latest.Keys
        invariant forall name :: name in latest && name !in names ==>
          && name in listed
          && forall i :: 0 <= i < |available| && available[i].name == name ==> available[i].latest == latest[name]
        decreases |names|
      {
        var name :| name in names;
        names := names - {name};
        var found := Find(listed, name);
        if !found {
          return false;
        }
        var differs := Differs(available, name, latest[name]);
        if differs {
          return false;
        }
      }
      return true;
    }

    /** Rebuilds the list from the latest releases, without the blacklisted names. */
    method UpdateVersions(latest: map<string, string>)
      modifies `available
      ensures Lists(available, latest - (set name | name in blacklist))
    {
      hide Lists;
      ghost var banned := set name | name in blacklist;
      available := [];
      var names := latest.Keys;
      NothingKept(latest);
      while names != {}
        invariant names <= latest.Keys
        invariant Lists(available, Kept(latest, latest.Keys - names - banned))
        decreases |names|
      {
        var name :| name in names;
        ghost var done := latest.Keys - names - banned;
        var found := Find(blacklist, name);
        names := names - {name};
        if !found {
          assert latest.Keys - names - banned == done + {name};
          KeptGrows(available, latest, done, name);
          available := available + [DrupalVersion(name, latest[name])];
        } else {
          assert latest.Keys - names - banned == done;
        }
      }
      assert Kept(latest, latest.Keys - {} - banned) == latest - banned;
    }

    /**
     * One reconcile: from the registry tags to the stored list. It breaks off exactly when some tag has a release
     * without a timestamp part; when it finishes, the list holds the latest release of every version that is not
     * blacklisted, once; and otherwise the stored list is left as it was.
     */
    method Reconcile(tags: seq<string>, parse: string -> Time, first: Write, second: Write)
      returns (outcome: Workflow.Outcome, ghost latest: map<string, string>)
      requires ReadsTimes(parse)
      modifies `available
      ensures outcome == Workflow.Panicked <==> !AllTagsTimestamped(tags)
      ensures outcome != Workflow.Panicked ==>
        && (forall name :: name in latest <==> Releases(tags, name) != [])
        && (forall name :: name in latest ==>
              && (forall s :: s in Releases(tags, name) ==> Timestamped(s))
              && IsLatestTime(latest[name], Releases(tags, name), parse))
      ensures outcome == Workflow.Finished ==> Lists(available, latest - (set name | name in blacklist))
      ensures outcome != Workflow.Finished ==> available == old(available)
      ensures AllTagsTimestamped(tags) && blacklist == [] && Lists(old(available), latest) ==>
        outcome == Workflow.Finished && available == old(available)
      ensures
        (AllTagsTimestamped(tags) && !(blacklist == [] && Lists(old(available), latest))
         && first != Accepted && second != Accepted) ==>
        outcome == if second == Conflict then Workflow.Requeued else Workflow.Errored
      ensures first == Accepted || second == Accepted ==> outcome == Workflow.Finished || outcome == Workflow.Panicked
    {
      hide Lists, IsLatestTime, Timestamped;
      latest := map[];
      var versions := ParseRegistryTags(tags);
      TagsAllTimestamped(tags, versions);
      var r := GetLatestRelease(versions, parse);
      if r.None? {
        return Workflow.Panicked, latest;
      }
      latest := r.value;
      assert forall name :: name in latest <==> name in versions;
      var equal := DrupalVersionsEqual(available, r.value);
      if equal && |blacklist| == 0 {
        assert r.value - (set name | name in blacklist) == r.value;
        return Workflow.Finished, latest;
      }
      var stored := available;
      UpdateVersions(r.value);
      if first != Accepted && second != Accepted {
        available := stored;
        return Workflow.WriteOutcome(second), latest;
      }
      return Workflow.Finished, latest;
    }
  }

  predicate AllTagsTimestamped(tags: seq<string>) {
    forall i :: 0 <= i < |tags| && Split(tags[i]).Some? ==> Timestamped(Split(tags[i]).value.1)
  }

  /** One release without a timestamp part among the matching tags is enough to break the operator off. */
  lemma TagsAllTimestamped(tags: seq<string>, versions: map<string, seq<string>>)
    requires Grouped(versions, tags)
    ensures AllTimestamped(versions) <==> AllTagsTimestamped(tags)
  {
    hide Timestamped, Split, Releases;
    if AllTimestamped(versions) {
      forall i | 0 <= i < |tags| && Split(tags[i]).Some? ensures Timestamped(Split(tags[i]).value.1) {
        var (name, spec) := Split(tags[i]).value;
        TagsAreConserved(tags, tags[i], name, spec);
        assert tags[i] in multiset(tags);
        assert spec in multiset(Releases(tags, name));
        assert spec in versions[name];
      }
    }
    if AllTagsTimestamped(tags) {
      forall name, s | name in versions && s in versions[name] ensures Timestamped(s) {
        ReleasesRejoin(tags, name, s);
        var i :| 0 <= i < |tags| && tags[i] == name + "-" + s;
      }
    }
  }

  /** The tag `v9-RELEASEx` matches the pattern of tags and not the one of releases: it breaks the operator off. */
  lemma StrayTagBreaksOff(tags: seq<string>)
    requires "v9-RELEASEx" in tags
    ensures Split("v9-RELEASEx") == Some(("v9", "RELEASEx")) && !AllTagsTimestamped(tags)
  {
    var tag := "v9-RELEASEx";
    assert Matches(tag, "v9", "RELEASEx");
    forall m, t | Matches(tag, m, t) ensures |m| <= 2 {
      MatchesAtMark(tag, m, t);
      assert tag[|m|] == '-';
    }
    SplitIsGreedyMatch(tag, "v9", "RELEASEx");
    assert "RELEASEx"[7] == 'x' && RELEASE_PREFIX[7] == '-';
    var i :| 0 <= i < |tags| && tags[i] == tag;
    assert Split(tags[i]).Some? && !Timestamped(Split(tags[i]).value.1);
  }

  /** The part of a map on some of its keys. */
  function Kept(latest: map<string, string>, keys: set<string>): map<string, string> {
    map n | n in latest && n in keys :: latest[n]
  }

  lemma NothingKept(latest: map<string, string>)
    ensures forall keys :: keys == {} ==> Lists([], Kept(latest, keys))
  {
    assert Entries(Kept(latest, {})) == {};
  }

  lemma KeptGrows(available: seq<DrupalVersion>, latest: map<string, string>, keys: set<string>, name: string)
    requires name in latest && name !in keys && Lists(available, Kept(latest, keys))
    ensures Lists(available + [DrupalVersion(name, latest[name])], Kept(latest, keys + {name}))
  {
    EntriesGrow(Kept(latest, keys), name, latest[name]);
    assert Kept(latest, keys + {name}) == Kept(latest, keys)[name := latest[name]];
  }

  lemma EntriesGrow(m: map<string, string>, name: string, release: string)
    requires name !in m
    ensures multiset(Entries(m[name := release])) == multiset(Entries(m)) + multiset{DrupalVersion(name, release)}
  {
    var more, e := m[name := release], DrupalVersion(name, release);
    forall n | n in m ensures DrupalVersion(n, m[n]) in Entries(more) {
      assert n in more && more[n] == m[n];
    }
    assert name in more;
    assert Entries(more) == Entries(m) + {e};
  }

  lemma EntriesTellKeys(a: map<string, string>, b: map<string, string>)
    requires multiset(Entries(a)) == multiset(Entries(b))
    ensures a.Keys <= b.Keys
  {
    forall n | n in a ensures n in b {
      assert DrupalVersion(n, a[n]) in multiset(Entries(a));
      assert DrupalVersion(n, a[n]) in multiset(Entries(b));
    }
  }

  /** After an update the test holds exactly when nothing in the registry is blacklisted; otherwise it never does. */
  lemma UpdateSettles(available: seq<DrupalVersion>, latest: map<string, string>, blacklist: seq<string>)
    requires Lists(available, latest - (set name | name in blacklist))
    ensures Lists(available, latest) <==> forall name :: name in blacklist ==> name !in latest
  {
    var kept := latest - (set name | name in blacklist);
    if forall name :: name in blacklist ==> name !in latest {
      assert kept == latest;
    }
    if Lists(available, latest) {
      EntriesTellKeys(latest, kept);
    }
  }
}
