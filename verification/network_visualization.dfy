/**
 * What the graph view derives from the device list before handing it to the
 * force layout: the search/group filter, one simulation node per kept device,
 * and the horizontal target each group is pulled towards.
 */
module NetworkVisualization {
  import opened Wrappers
  import opened DeviceTypes
  import opened Seqs
  import opened Text
  import ServerApi

  /**
   * The case-insensitive half of the search: the term occurs in the given
   * name, host name or vendor once both sides are lower-cased (ASCII only).
   */
  predicate MatchesNames(d: Device, term: string) {
    || Contains(Lower(d.givenName), Lower(term))
    || Contains(Lower(d.hostname), Lower(term))
    || Contains(Lower(d.vendor), Lower(term))
  }

  /**
   * The search predicate: an empty term matches everything; otherwise the term
   * must match a name field ignoring case, or occur verbatim (case-sensitively)
   * in the IP address.
   */
  predicate MatchesSearch(d: Device, term: string) {
    term == "" || MatchesNames(d, term) || Contains(d.ip, term)
  }

  /** The group predicate: no filter (absent or empty) matches everything, else the group name must equal it. */
  predicate MatchesGroup(d: Device, groupFilter: Option<string>) {
    groupFilter.None? || groupFilter.value == "" || d.group.name == groupFilter.value
  }

  predicate Keep(term: string, groupFilter: Option<string>, d: Device) {
    MatchesSearch(d, term) && MatchesGroup(d, groupFilter)
  }

  /**
   * The visible devices: an order-preserving selection of the input that keeps
   * a device exactly when both the search and the group predicate hold.
   */
  function FilteredDevices(ds: seq<Device>, term: string, groupFilter: Option<string>): (r: seq<Device>)
    ensures |r| <= |ds|
    ensures IsSubsequence(r, ds)
    ensures forall d :: d in r <==> d in ds && MatchesSearch(d, term) && MatchesGroup(d, groupFilter)
    ensures forall d :: multiset(r)[d] == if Keep(term, groupFilter, d) then multiset(ds)[d] else 0
    ensures groupFilter.Some? && groupFilter.value != "" ==>
      forall i :: 0 <= i < |r| ==> r[i].group.name == groupFilter.value
  {
    var r := Filter(ds, d => Keep(term, groupFilter, d));
    assert forall i :: 0 <= i < |r| ==> r[i] in r;
    forall d ensures multiset(r)[d] == if Keep(term, groupFilter, d) then multiset(ds)[d] else 0 {
      FilterCounts(ds, d => Keep(term, groupFilter, d), d);
    }
    r
  }

  /** With no search term and no group filter every device is shown, in order. */
  lemma {:induction false} UnfilteredShowsAll(ds: seq<Device>)
    ensures FilteredDevices(ds, "", None) == ds
  {
    FilterKeepsAll(ds, d => Keep("", None, d));
  }

  /** Filtering the visible devices again with the same inputs changes nothing. */
  lemma {:induction false} FilterTwiceIsFilterOnce(ds: seq<Device>, term: string, groupFilter: Option<string>)
    ensures FilteredDevices(FilteredDevices(ds, term, groupFilter), term, groupFilter)
         == FilteredDevices(ds, term, groupFilter)
  {
    FilterIdempotent(ds, d => Keep(term, groupFilter, d));
  }

  /** The filtered list is empty exactly when no device satisfies both predicates at once. */
  lemma EmptyIffConflicting(ds: seq<Device>, term: string, groupFilter: Option<string>)
    ensures FilteredDevices(ds, term, groupFilter) == [] <==>
      forall i :: 0 <= i < |ds| ==> !(MatchesSearch(ds[i], term) && MatchesGroup(ds[i], groupFilter))
  {
    var r := FilteredDevices(ds, term, groupFilter);
    if r != [] {
      assert r[0] in r;
    } else {
      forall i | 0 <= i < |ds| ensures !(MatchesSearch(ds[i], term) && MatchesGroup(ds[i], groupFilter)) {
        assert ds[i] in ds;
      }
    }
  }

  /** Search terms that agree after lower-casing find the same devices by name. */
  lemma NameSearchIgnoresCase(d: Device, t1: string, t2: string)
    requires Lower(t1) == Lower(t2)
    ensures MatchesNames(d, t1) <==> MatchesNames(d, t2)
  {
  }

  /**
   * Case is ignored for the name fields but not for the IP: a device found by
   * a term is also found by the lower-cased term, unless only its IP matched.
   */
  lemma SearchFoldsCaseExceptIp(d: Device, term: string)
    ensures MatchesSearch(d, term) ==>
      MatchesSearch(d, Lower(term)) || (Contains(d.ip, term) && !MatchesNames(d, term))
  {
    LowerIdempotent(term);
    NameSearchIgnoresCase(d, term, Lower(term));
  }

  /** A string without the character `c` contains no needle that starts with `c`. */
  lemma MissingFirstChar(hay: string, needle: string)
    requires |needle| > 0 && forall i :: 0 <= i < |hay| ==> hay[i] != needle[0]
    ensures !Contains(hay, needle)
  {
    if exists i :: OccursAt(hay, needle, i) {
      var i :| OccursAt(hay, needle, i);
      assert hay[i..i + |needle|][0] == needle[0];
    }
  }

  /**
   * The IP comparison is case-sensitive: a device with nameless fields whose
   * IP holds `FE80` is found by `FE80` and lost by its lower-cased form.
   */
  lemma IpSearchIsCaseSensitive(d: Device)
    requires d.givenName == "" && d.hostname == "" && d.vendor == "" && d.ip == "FE80::1"
    ensures MatchesSearch(d, "FE80")
    ensures Lower("FE80") == "fe80"
    ensures !MatchesSearch(d, Lower("FE80"))
  {
    assert OccursAt(d.ip, "FE80", 0);
    assert Lower("FE80") == "fe80";
    MissingFirstChar(d.ip, "fe80");
    MissingFirstChar("", "fe80");
  }

  /** A simulation node: the device's own fields plus its group id as the layout's partition key. */
  datatype SimNode = SimNode(device: Device, groupId: int)

  /** One node per visible device, in order, each carrying the device unchanged and its group id. */
  function SimulationNodes(fs: seq<Device>): (r: seq<SimNode>)
    ensures |r| == |fs|
    ensures forall i :: 0 <= i < |fs| ==> r[i].device == fs[i] && r[i].groupId == fs[i].group.id
    decreases |fs|
  {
    if |fs| == 0 then []
    else [SimNode(fs[0], fs[0].group.id)] + SimulationNodes(fs[1..])
  }

  /** The x coordinate the grouping force pulls a node of group `groupId` towards. */
  function GroupTargetX(groupId: int, width: real): (x: real)
    ensures x == groupId as real * width / 4.0
  {
    (groupId - 1) as real * (width / 4.0) + width / 4.0
  }

  /** A background circle labelling one group. */
  datatype GroupBackground = GroupBackground(id: int, name: string, x: real)

  /** The four labelled background circles, one per known group. */
  function GroupPositions(width: real): (r: seq<GroupBackground>)
    ensures |r| == 4
    ensures forall i :: 0 <= i < |r| ==> r[i].id == i + 1 && r[i].x == GroupTargetX(i + 1, width)
  {
    [ GroupBackground(1, "Default", width / 4.0),
      GroupBackground(2, "Staff", width / 2.0),
      GroupBackground(3, "Guests", (3.0 * width) / 4.0),
      GroupBackground(4, "IoT", width) ]
  }

  /**
   * Each background circle sits exactly at the grouping target of its group,
   * and carries the same name the server's group table gives that id.
   */
  lemma BackgroundsMatchTargets(width: real)
    ensures |GroupPositions(width)| == 4
    ensures forall i :: 0 <= i < |GroupPositions(width)| ==>
      && GroupTargetX(GroupPositions(width)[i].id, width) == GroupPositions(width)[i].x
      && ServerApi.GroupNameTable(GroupPositions(width)[i].id) == Some(GroupPositions(width)[i].name)
  {
  }

  /** On a canvas of positive width, a higher group id is pulled further right. */
  lemma GroupTargetsOrdered(g1: int, g2: int, width: real)
    requires 0.0 < width && g1 < g2
    ensures GroupTargetX(g1, width) < GroupTargetX(g2, width)
  {
    assert (g2 as real - g1 as real) * width > 0.0;
  }
}
