/**
 * How one device is drawn in the graph: its fill colour, its radius, whether
 * the restriction marker is shown, and its label.
 */
module DeviceNode {
  import opened DeviceTypes
  import opened BlocklistRules

  /** The CSS colour variables a node can be filled with. */
  datatype NodeColor = DeviceInactive | DeviceComputer | DeviceMobile | DeviceIot | DeviceNetwork | Primary

  /**
   * Inactive devices are always drawn in the inactive colour. Active devices
   * are coloured by category; `entertainment` and `iot` share a colour and an
   * unknown category falls back to the primary colour.
   */
  function DeviceColor(d: Device): (c: NodeColor)
    ensures c == DeviceInactive <==> !d.isActive
    ensures d.isActive ==> (c == DeviceIot <==> d.classification.deviceCategory in {"entertainment", "iot"})
    ensures d.isActive ==>
      (c == Primary <==> d.classification.deviceCategory !in {"computer", "mobile", "entertainment", "iot", "office"})
  {
    if !d.isActive then DeviceInactive
    else
      match d.classification.deviceCategory
      case "computer" => DeviceComputer
      case "mobile" => DeviceMobile
      case "entertainment" => DeviceIot
      case "iot" => DeviceIot
      case "office" => DeviceNetwork
      case _ => Primary
  }

  /** The node radius: a base of 12 scaled by a confidence multiplier between one half and one. */
  function DeviceSize(confidence: real, scale: real): (r: real)
    ensures r == 6.0 * scale * (1.0 + confidence)
  {
    12.0 * (confidence * 0.5 + 0.5) * scale
  }

  /** The radius is 6·scale at confidence 0, 12·scale at confidence 1, and grows with confidence. */
  lemma SizeRange(c1: real, c2: real, scale: real)
    requires 0.0 <= scale && c1 <= c2
    ensures DeviceSize(0.0, scale) == 6.0 * scale
    ensures DeviceSize(1.0, scale) == 12.0 * scale
    ensures DeviceSize(c1, scale) <= DeviceSize(c2, scale)
  {
    assert scale * (c2 - c1) >= 0.0;
  }

  /** The flag values of a blocklist, in field declaration order; `some` over them does not depend on the order. */
  function Values(b: BlockList): (vs: seq<bool>)
    ensures |vs| == |AllFlags|
  {
    [ b.adsTrackers, b.gambling, b.socialMedia, b.porn, b.gaming, b.streaming,
      b.facebook, b.instagram, b.tiktok, b.netflix, b.youtube, b.ai, b.safesearch ]
  }

  /** The `i`-th value is the value of the `i`-th flag. */
  lemma ValuesFollowFlags(b: BlockList)
    ensures forall i :: 0 <= i < |Values(b)| ==> Values(b)[i] == Get(b, AllFlags[i])
  {
    forall i | 0 <= i < |Values(b)| ensures Values(b)[i] == Get(b, AllFlags[i]) {
      if i < 4 { ValueAtLow(b, i); }
      else if i < 8 { ValueAtMid(b, i); }
      else { ValueAtHigh(b, i); }
    }
  }

  lemma ValueAtLow(b: BlockList, i: int)
    requires 0 <= i < 4
    ensures Values(b)[i] == Get(b, AllFlags[i])
  {
    if i == 0 {} else if i == 1 {} else if i == 2 {} else {}
  }

  lemma ValueAtMid(b: BlockList, i: int)
    requires 4 <= i < 8
    ensures Values(b)[i] == Get(b, AllFlags[i])
  {
    if i == 4 {} else if i == 5 {} else if i == 6 {} else {}
  }

  lemma ValueAtHigh(b: BlockList, i: int)
    requires 8 <= i < 13
    ensures Values(b)[i] == Get(b, AllFlags[i])
  {
    if i == 8 {} else if i == 9 {} else if i == 10 {} else if i == 11 {} else {}
  }

  /** Whether some value is set and differs from `safesearch`, scanning left to right. */
  function SomeDiffers(vs: seq<bool>, safesearch: bool): (r: bool)
    ensures r <==> exists i :: 0 <= i < |vs| && vs[i] && vs[i] != safesearch
    decreases |vs|
  {
    if |vs| == 0 then false
    else if vs[0] && vs[0] != safesearch then true
    else
      var rest := SomeDiffers(vs[1..], safesearch);
      assert forall i :: 1 <= i < |vs| ==> vs[i] == vs[1..][i - 1];
      rest
  }

  /**
   * Whether the restriction marker is shown: some flag value is set and
   * differs from `safesearch`. Because a set flag differs from `safesearch`
   * only when `safesearch` is off, the marker never shows while `safesearch`
   * is on, and otherwise shows iff some other flag is set.
   */
  function HasRestrictions(b: BlockList): (r: bool)
    ensures b.safesearch ==> !r
    ensures !b.safesearch ==> (r <==> exists f :: f != Safesearch && Get(b, f))
  {
    var vs := Values(b);
    ValuesFollowFlags(b);
    var r := SomeDiffers(vs, b.safesearch);
    assert !b.safesearch && (exists f :: f != Safesearch && Get(b, f)) ==> r by {
      if !b.safesearch && exists f :: f != Safesearch && Get(b, f) {
        var f :| f != Safesearch && Get(b, f);
        FlagListed(f);
        var i :| 0 <= i < |AllFlags| && AllFlags[i] == f;
        assert vs[i];
      }
    }
    r
  }

  /** After `release` the marker is never shown. */
  lemma NoRestrictionsAfterRelease(b: BlockList)
    ensures !HasRestrictions(Released(b))
  {
  }

  /** After `isolate` the marker is shown exactly when `safesearch` was off. */
  lemma RestrictionsAfterIsolate(b: BlockList)
    ensures HasRestrictions(Isolated(b)) <==> !b.safesearch
  {
    assert Get(Isolated(b), AdsTrackers);
  }

  /** The label: the given name, or the host name when the given name is empty. */
  function Label(d: Device): (s: string)
    ensures d.givenName != "" ==> s == d.givenName
    ensures d.givenName == "" ==> s == d.hostname
    ensures s == "" <==> d.givenName == "" && d.hostname == ""
  {
    if d.givenName != "" then d.givenName else d.hostname
  }
}
