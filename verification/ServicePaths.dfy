/** Service paths: parsing, printing, prefixes and join (crates/swbus-proto/src/swbus.rs). */
module ServicePaths {
  import opened Text

  datatype ServicePath = ServicePath(
    regionId: string, clusterId: string, nodeId: string,
    serviceType: string, serviceId: string,
    resourceType: string, resourceId: string)

  const EmptyPath := ServicePath("", "", "", "", "", "", "")

  /** The paths whose fields do not hold the separators that end them. */
  predicate SeparatorFree(p: ServicePath) {
    && '.' !in p.regionId && '/' !in p.regionId
    && '.' !in p.clusterId && '/' !in p.clusterId
    && '/' !in p.nodeId
    && '/' !in p.serviceType && '/' !in p.serviceId
    && '/' !in p.resourceType && '/' !in p.resourceId
  }

  /** No empty location field before a non-empty one, and the same for the service part. */
  predicate GapFree(p: ServicePath) {
    && (p.regionId == "" ==> p.clusterId == "")
    && (p.clusterId == "" ==> p.nodeId == "")
    && (p.serviceType == "" ==> p.serviceId == "")
    && (p.serviceId == "" ==> p.resourceType == "")
    && (p.resourceType == "" ==> p.resourceId == "")
  }

  // ---------------------------------------------------------------- parsing

  function FromString(s: string): (p: ServicePath)
    ensures SeparatorFree(p)
  {
    var parts := Resize(Split(s, '/'), 5, "");
    var loc := Resize(SplitN(parts[0], 3, '.'), 3, "");
    SplitNKeeps(parts[0], 3, '.', '/');
    ServicePath(loc[0], loc[1], loc[2], parts[1], parts[2], parts[3], parts[4])
  }

  lemma SplitNKeeps(s: string, n: nat, sep: char, c: char)
    requires n >= 1 && c !in s
    ensures forall k :: 0 <= k < |SplitN(s, n, sep)| ==> c !in SplitN(s, n, sep)[k]
    decreases n
  {
    if n != 1 && sep in s {
      var i := IndexOf(s, sep);
      SplitNKeeps(s[i + 1..], n - 1, sep, c);
    }
  }

  // --------------------------------------------------------------- printing

  function ToRegionalPrefix(p: ServicePath): string { p.regionId }

  function ToClusterPrefix(p: ServicePath): string { p.regionId + "." + p.clusterId }

  function ToNodePrefix(p: ServicePath): string { p.regionId + "." + p.clusterId + "." + p.nodeId }

  function ToServicePrefix(p: ServicePath): string {
    p.regionId + "." + p.clusterId + "." + p.nodeId + "/" + p.serviceType + "/" + p.serviceId
  }

  /** `Display`: the location is cut at the last field that is not empty. */
  function Display(p: ServicePath): string {
    var tail := "/" + p.serviceType + "/" + p.serviceId + "/" + p.resourceType + "/" + p.resourceId;
    if p.nodeId != "" then p.regionId + "." + p.clusterId + "." + p.nodeId + tail
    else if p.clusterId != "" then p.regionId + "." + p.clusterId + tail
    else p.regionId + tail
  }

  function TakeWhileNonEmpty(fields: seq<string>): (r: seq<string>)
    ensures r <= fields
    ensures forall k :: 0 <= k < |r| ==> r[k] != ""
    ensures |r| < |fields| ==> fields[|r|] == ""
  {
    if fields == [] || fields[0] == "" then [] else [fields[0]] + TakeWhileNonEmpty(fields[1..])
  }

  function ToLongestPath(p: ServicePath): string {
    var loc := JoinOrEmpty(TakeWhileNonEmpty([p.regionId, p.clusterId, p.nodeId]), '.');
    var rsc := JoinOrEmpty(TakeWhileNonEmpty([p.serviceType, p.serviceId, p.resourceType, p.resourceId]), '/');
    if rsc == "" then loc else loc + "/" + rsc
  }

  // ------------------------------------------------- what a location parses to

  function Location(region: string, cluster: string, node: string): string {
    if node != "" then region + "." + cluster + "." + node
    else if cluster != "" then region + "." + cluster
    else region
  }

  lemma SplitLocation(region: string, cluster: string, node: string)
    requires '.' !in region && '.' !in cluster
    ensures Resize(SplitN(Location(region, cluster, node), 3, '.'), 3, "") == [region, cluster, node]
  {
    if node != "" {
      assert Location(region, cluster, node) == region + ['.'] + (cluster + ['.'] + node);
      SplitNFront(region, 3, '.', cluster + ['.'] + node);
      SplitNFront(cluster, 2, '.', node);
    } else if cluster != "" {
      SplitNFront(region, 3, '.', cluster);
    }
  }

  lemma LocationKeeps(region: string, cluster: string, node: string)
    requires '/' !in region && '/' !in cluster && '/' !in node
    ensures '/' !in Location(region, cluster, node)
  {
  }

  /** A location followed by any slash-free parts is read back field by field: four of them at most, the missing ones
      empty. */
  lemma {:induction false} ParseParts(region: string, cluster: string, node: string, rest: seq<string>)
    requires '.' !in region && '/' !in region && '.' !in cluster && '/' !in cluster && '/' !in node
    requires forall s :: s in rest ==> '/' !in s
    ensures var r := Resize(rest, 4, "");
            FromString(Join([Location(region, cluster, node)] + rest, '/'))
            == ServicePath(region, cluster, node, r[0], r[1], r[2], r[3])
  {
    var loc := Location(region, cluster, node);
    LocationKeeps(region, cluster, node);
    SplitJoin([loc] + rest, '/');
    SplitLocation(region, cluster, node);
    var parts := Resize([loc] + rest, 5, "");
    assert forall k :: 1 <= k < 5 ==> parts[k] == Resize(rest, 4, "")[k - 1];
  }

  lemma JoinTwo(a: string, b: string, sep: char)
    ensures Join([a, b], sep) == a + [sep] + b
  {
  }

  lemma JoinStep(a: string, rest: seq<string>, sep: char)
    requires rest != []
    ensures Join([a] + rest, sep) == a + [sep] + Join(rest, sep)
  {
    assert ([a] + rest)[1..] == rest;
  }

  lemma JoinFour(a: string, b: string, c: string, d: string)
    ensures Join([a, b, c, d], '/') == a + "/" + b + "/" + c + "/" + d
  {
    assert [a, b, c, d] == [a] + [b, c, d];
    JoinStep(a, [b, c, d], '/');
    assert [b, c, d] == [b] + [c, d];
    JoinStep(b, [c, d], '/');
    JoinTwo(c, d, '/');
  }

  lemma DisplayIsJoin(p: ServicePath)
    ensures Display(p) == Join([Location(p.regionId, p.clusterId, p.nodeId)]
                               + [p.serviceType, p.serviceId, p.resourceType, p.resourceId], '/')
  {
    var loc := Location(p.regionId, p.clusterId, p.nodeId);
    var rest := p.serviceType + "/" + p.serviceId + "/" + p.resourceType + "/" + p.resourceId;
    JoinStep(loc, [p.serviceType, p.serviceId, p.resourceType, p.resourceId], '/');
    JoinFour(p.serviceType, p.serviceId, p.resourceType, p.resourceId);
    assert "/" + p.serviceType + "/" + p.serviceId + "/" + p.resourceType + "/" + p.resourceId == "/" + rest;
    assert Display(p) == loc + ("/" + rest);
  }

  /** Parsing undoes `Display` on the separator-free paths and on no others. */
  lemma DisplayRoundTrip(p: ServicePath)
    ensures FromString(Display(p)) == p <==> SeparatorFree(p)
  {
    if SeparatorFree(p) {
      DisplayIsJoin(p);
      ParseParts(p.regionId, p.clusterId, p.nodeId, [p.serviceType, p.serviceId, p.resourceType, p.resourceId]);
    }
  }

  // ----------------------------------------------------------- longest path

  /** The path with everything after the first gap of each part dropped. */
  function CutAtGap(p: ServicePath): (q: ServicePath)
    ensures q == p <==> GapFree(p)
    ensures SeparatorFree(p) ==> SeparatorFree(q)
  {
    var c := if p.regionId == "" then "" else p.clusterId;
    var n := if c == "" then "" else p.nodeId;
    var si := if p.serviceType == "" then "" else p.serviceId;
    var rt := if si == "" then "" else p.resourceType;
    var ri := if rt == "" then "" else p.resourceId;
    ServicePath(p.regionId, c, n, p.serviceType, si, rt, ri)
  }

  lemma TakeLocation(p: ServicePath)
    ensures var q := CutAtGap(p);
            JoinOrEmpty(TakeWhileNonEmpty([p.regionId, p.clusterId, p.nodeId]), '.')
            == Location(q.regionId, q.clusterId, q.nodeId)
  {
    var t := TakeWhileNonEmpty([p.regionId, p.clusterId, p.nodeId]);
    if |t| == 3 {
      assert t == [p.regionId] + [p.clusterId, p.nodeId];
      JoinStep(p.regionId, [p.clusterId, p.nodeId], '.');
      JoinTwo(p.clusterId, p.nodeId, '.');
    } else if |t| == 2 {
      assert t == [p.regionId, p.clusterId];
      JoinTwo(p.regionId, p.clusterId, '.');
    } else if |t| == 1 {
      assert t == [p.regionId];
    }
  }

  lemma LongestPathCut(p: ServicePath)
    requires SeparatorFree(p)
    ensures FromString(ToLongestPath(p)) == CutAtGap(p)
  {
    var q := CutAtGap(p);
    var t := TakeWhileNonEmpty([p.serviceType, p.serviceId, p.resourceType, p.resourceId]);
    TakeLocation(p);
    var loc := Location(q.regionId, q.clusterId, q.nodeId);
    if t == [] {
      assert [loc] + t == [loc];
      assert ToLongestPath(p) == Join([loc] + t, '/');
    } else {
      JoinStep(loc, t, '/');
      assert Join(t, '/') != "";
      assert ToLongestPath(p) == Join([loc] + t, '/');
    }
    ParseParts(q.regionId, q.clusterId, q.nodeId, t);
  }

  /** Parsing undoes `to_longest_path` on exactly the separator-free paths without gaps. */
  lemma LongestPathRoundTrip(p: ServicePath)
    ensures FromString(ToLongestPath(p)) == p <==> SeparatorFree(p) && GapFree(p)
  {
    if SeparatorFree(p) {
      LongestPathCut(p);
    }
  }

  // -------------------------------------------------------------------- join

  function Fields(p: ServicePath): (fs: seq<string>)
    ensures |fs| == 7
  {
    [p.regionId, p.clusterId, p.nodeId, p.serviceType, p.serviceId, p.resourceType, p.resourceId]
  }

  function OfFields(fs: seq<string>): (p: ServicePath)
    requires |fs| == 7
    ensures Fields(p) == fs
  {
    ServicePath(fs[0], fs[1], fs[2], fs[3], fs[4], fs[5], fs[6])
  }

  /** The number of leading empty fields. */
  function Leading(fs: seq<string>): (k: nat)
    ensures k <= |fs|
    ensures forall i :: 0 <= i < k ==> fs[i] == ""
    ensures k < |fs| ==> fs[k] != ""
  {
    if fs == [] || fs[0] != "" then 0 else 1 + Leading(fs[1..])
  }

  function Overlay(a: seq<string>, b: seq<string>): (r: seq<string>)
    requires |a| == |b|
    ensures |r| == |a|
  {
    a[..Leading(b)] + b[Leading(b)..]
  }

  function JoinPath(p: ServicePath, other: ServicePath): ServicePath {
    OfFields(Overlay(Fields(p), Fields(other)))
  }

  /** `join` works on the seven field slots of `self`, skipping while the other side is empty. */
  method JoinInPlace(self: array<string>, other: ServicePath)
    requires self.Length == 7
    modifies self
    ensures self[..] == Fields(JoinPath(OfFields(old(self[..])), other))
  {
    var fs := Fields(other);
    var skipping := true;
    ghost var before := self[..];
    for i := 0 to 7
      invariant skipping ==> i <= Leading(fs)
      invariant !skipping ==> Leading(fs) < i
      invariant forall k :: 0 <= k < i ==> self[k] == Overlay(before, fs)[k]
      invariant forall k :: i <= k < 7 ==> self[k] == before[k]
    {
      skipping := skipping && fs[i] == "";
      if !skipping {
        self[i] := fs[i];
      }
    }
  }

  lemma LeadingUnique(fs: seq<string>, k: nat)
    requires k <= |fs| && (forall i :: 0 <= i < k ==> fs[i] == "") && (k < |fs| ==> fs[k] != "")
    ensures Leading(fs) == k
  {
  }

  lemma OverlayAssociative(a: seq<string>, b: seq<string>, c: seq<string>)
    requires |a| == |b| == |c|
    ensures Overlay(Overlay(a, b), c) == Overlay(a, Overlay(b, c))
  {
    var kb, kc := Leading(b), Leading(c);
    var bc := Overlay(b, c);
    if kb < kc {
      assert bc[kb] == b[kb];
      LeadingUnique(bc, kb);
    } else {
      LeadingUnique(bc, kc);
    }
  }

  /** `join` is associative and the empty path is its identity on both sides. */
  lemma JoinLaws(p: ServicePath, q: ServicePath, r: ServicePath)
    ensures JoinPath(JoinPath(p, q), r) == JoinPath(p, JoinPath(q, r))
    ensures JoinPath(p, EmptyPath) == p
    ensures JoinPath(EmptyPath, p) == p
  {
    OverlayAssociative(Fields(p), Fields(q), Fields(r));
    LeadingUnique(Fields(EmptyPath), 7);
    assert Overlay(Fields(p), Fields(EmptyPath)) == Fields(p);
    assert Overlay(Fields(EmptyPath), Fields(p)) == Fields(p);
  }

  predicate SomeUpTo(fs: seq<string>, k: nat)
    requires k < |fs|
  {
    exists i :: 0 <= i <= k && fs[i] != ""
  }

  /** Each field is taken from the other path from its first field that is not empty on, and kept before. */
  lemma JoinFieldByField(p: ServicePath, other: ServicePath, k: nat)
    requires k < 7
    ensures Fields(JoinPath(p, other))[k] == if SomeUpTo(Fields(other), k) then Fields(other)[k] else Fields(p)[k]
  {
  }

  lemma SomeUpToStep(fs: seq<string>, k: nat)
    requires k < |fs|
    ensures SomeUpTo(fs, k) <==> fs[k] != "" || (k > 0 && SomeUpTo(fs, k - 1))
  {
  }

  /** The same by name, from the region down to the resource id. */
  lemma JoinByName(p: ServicePath, other: ServicePath)
    ensures var j := JoinPath(p, other);
            var region := other.regionId != "";
            var cluster := region || other.clusterId != "";
            var node := cluster || other.nodeId != "";
            var stype := node || other.serviceType != "";
            var sid := stype || other.serviceId != "";
            var rtype := sid || other.resourceType != "";
            && j.regionId == (if region then other.regionId else p.regionId)
            && j.clusterId == (if cluster then other.clusterId else p.clusterId)
            && j.nodeId == (if node then other.nodeId else p.nodeId)
            && j.serviceType == (if stype then other.serviceType else p.serviceType)
            && j.serviceId == (if sid then other.serviceId else p.serviceId)
            && j.resourceType == (if rtype then other.resourceType else p.resourceType)
            && j.resourceId == (if rtype || other.resourceId != "" then other.resourceId else p.resourceId)
  {
    var fs := Fields(other);
    SomeUpToStep(fs, 0);
    SomeUpToStep(fs, 1);
    SomeUpToStep(fs, 2);
    SomeUpToStep(fs, 3);
    SomeUpToStep(fs, 4);
    SomeUpToStep(fs, 5);
    SomeUpToStep(fs, 6);
    JoinFieldByField(p, other, 0);
    JoinFieldByField(p, other, 1);
    JoinFieldByField(p, other, 2);
    JoinFieldByField(p, other, 3);
    JoinFieldByField(p, other, 4);
    JoinFieldByField(p, other, 5);
    JoinFieldByField(p, other, 6);
  }

  // -------------------------------------------------------------- route keys

  datatype ConnectionType = Client | Local | Cluster | Region | Global

  /** The key a connection is registered under (multiplexer.rs, `register`). */
  function RouteKey(ct: ConnectionType, p: ServicePath): string {
    match ct
    case Global => ToRegionalPrefix(p)
    case Region => ToClusterPrefix(p)
    case Cluster => ToNodePrefix(p)
    case Local => ToServicePrefix(p)
    case Client => Display(p)
  }

  predicate SameNode(p: ServicePath, q: ServicePath) {
    p.regionId == q.regionId && p.clusterId == q.clusterId && p.nodeId == q.nodeId
  }

  /** Two paths have the same fields down to the level of a connection type. */
  predicate AgreeAt(ct: ConnectionType, p: ServicePath, q: ServicePath) {
    match ct
    case Global => p.regionId == q.regionId
    case Region => p.regionId == q.regionId && p.clusterId == q.clusterId
    case Cluster => SameNode(p, q)
    case Local => SameNode(p, q) && p.serviceType == q.serviceType && p.serviceId == q.serviceId
    case Client => p == q
  }

  lemma NodePrefixShape(p: ServicePath)
    requires SeparatorFree(p)
    ensures '/' !in ToNodePrefix(p)
    ensures SplitN(ToNodePrefix(p), 3, '.') == [p.regionId, p.clusterId, p.nodeId]
  {
    assert ToNodePrefix(p) == p.regionId + ['.'] + (p.clusterId + ['.'] + p.nodeId);
    SplitNFront(p.regionId, 3, '.', p.clusterId + ['.'] + p.nodeId);
    SplitNFront(p.clusterId, 2, '.', p.nodeId);
  }

  lemma ClientKeyShape(p: ServicePath)
    requires SeparatorFree(p)
    ensures |Split(Display(p), '/')| == 5
  {
    var loc := Location(p.regionId, p.clusterId, p.nodeId);
    var parts := [loc] + [p.serviceType, p.serviceId, p.resourceType, p.resourceId];
    DisplayIsJoin(p);
    LocationKeeps(p.regionId, p.clusterId, p.nodeId);
    SplitJoin(parts, '/');
  }

  lemma ServicePrefixShape(p: ServicePath)
    requires SeparatorFree(p)
    ensures Split(ToServicePrefix(p), '/') == [ToNodePrefix(p), p.serviceType, p.serviceId]
  {
    NodePrefixShape(p);
    assert ToServicePrefix(p) == ToNodePrefix(p) + ['/'] + (p.serviceType + ['/'] + p.serviceId);
    SplitThree(ToNodePrefix(p), p.serviceType, p.serviceId);
  }

  lemma SplitThree(a: string, b: string, c: string)
    requires '/' !in a && '/' !in b && '/' !in c
    ensures Split(a + ['/'] + (b + ['/'] + c), '/') == [a, b, c]
  {
    SplitFront(a, '/', b + ['/'] + c);
    SplitFront(b, '/', c);
  }

  /** The slash-separated parts of a key tell its level apart from service and client keys. */
  lemma SlashParts(ct: ConnectionType, p: ServicePath)
    requires SeparatorFree(p)
    ensures |Split(RouteKey(ct, p), '/')| == (if ct == Client then 5 else if ct == Local then 3 else 1)
  {
    match ct
    case Client => ClientKeyShape(p);
    case Local => ServicePrefixShape(p);
    case _ => NodePrefixShape(p);
  }

  /** The dot-separated parts tell the three location levels apart. */
  lemma DotParts(ct: ConnectionType, p: ServicePath)
    requires SeparatorFree(p)
    ensures ct == Global ==> SplitN(RouteKey(ct, p), 3, '.') == [p.regionId]
    ensures ct == Region ==> SplitN(RouteKey(ct, p), 3, '.') == [p.regionId, p.clusterId]
    ensures ct == Cluster ==> SplitN(RouteKey(ct, p), 3, '.') == [p.regionId, p.clusterId, p.nodeId]
  {
    match ct
    case Region => SplitNFront(p.regionId, 3, '.', p.clusterId);
    case Cluster => NodePrefixShape(p);
    case _ =>
  }

  lemma SameLevel(ct: ConnectionType, p: ServicePath, ct': ConnectionType, q: ServicePath)
    requires SeparatorFree(p) && SeparatorFree(q) && RouteKey(ct, p) == RouteKey(ct', q)
    ensures ct == ct'
  {
    SlashParts(ct, p);
    SlashParts(ct', q);
    DotParts(ct, p);
    DotParts(ct', q);
  }

  lemma NodePrefixInjective(p: ServicePath, q: ServicePath)
    requires SeparatorFree(p) && SeparatorFree(q) && ToNodePrefix(p) == ToNodePrefix(q)
    ensures SameNode(p, q)
  {
    NodePrefixShape(p);
    NodePrefixShape(q);
    assert [p.regionId, p.clusterId, p.nodeId] == [q.regionId, q.clusterId, q.nodeId];
  }

  lemma SameFields(ct: ConnectionType, p: ServicePath, q: ServicePath)
    requires SeparatorFree(p) && SeparatorFree(q) && RouteKey(ct, p) == RouteKey(ct, q)
    ensures AgreeAt(ct, p, q)
  {
    match ct
    case Client =>
      DisplayRoundTrip(p);
      DisplayRoundTrip(q);
    case Local =>
      ServicePrefixShape(p);
      ServicePrefixShape(q);
      assert [ToNodePrefix(p), p.serviceType, p.serviceId] == [ToNodePrefix(q), q.serviceType, q.serviceId];
      NodePrefixInjective(p, q);
    case Cluster =>
      NodePrefixInjective(p, q);
    case Region =>
      DotParts(ct, p);
      DotParts(ct, q);
      assert [p.regionId, p.clusterId] == [q.regionId, q.clusterId];
    case Global =>
  }

  /** Keys of separator-free paths collide exactly when level and the fields of that level agree. */
  lemma RouteKeyInjective(ct: ConnectionType, p: ServicePath, ct': ConnectionType, q: ServicePath)
    requires SeparatorFree(p) && SeparatorFree(q)
    ensures RouteKey(ct, p) == RouteKey(ct', q) <==> ct == ct' && AgreeAt(ct, p, q)
  {
    if RouteKey(ct, p) == RouteKey(ct', q) {
      SameLevel(ct, p, ct', q);
      SameFields(ct, p, q);
    }
  }

  /** What a key of this level says of a path. */
  function AtLevel(ct: ConnectionType, p: ServicePath): ServicePath {
    match ct
    case Global => ServicePath(p.regionId, "", "", "", "", "", "")
    case Region => ServicePath(p.regionId, p.clusterId, "", "", "", "", "")
    case Cluster => ServicePath(p.regionId, p.clusterId, p.nodeId, "", "", "", "")
    case Local => ServicePath(p.regionId, p.clusterId, p.nodeId, p.serviceType, p.serviceId, "", "")
    case Client => p
  }

  /** What a text is read as, given its parts. */
  lemma ParseText(text: string, loc: string, region: string, cluster: string, node: string, rest: seq<string>)
    requires Split(text, '/') == [loc] + rest && |rest| <= 2
    requires Resize(SplitN(loc, 3, '.'), 3, "") == [region, cluster, node]
    ensures FromString(text)
         == ServicePath(region, cluster, node, if |rest| > 0 then rest[0] else "",
                        if |rest| > 1 then rest[1] else "", "", "")
  {
    var parts := Resize([loc] + rest, 5, "");
    assert parts[0] == loc && parts[3] == parts[4] == "";
  }

  lemma ServicePrefixParses(p: ServicePath)
    requires SeparatorFree(p)
    ensures FromString(ToServicePrefix(p)) == AtLevel(Local, p)
  {
    ServicePrefixShape(p);
    NodePrefixShape(p);
    ParseText(ToServicePrefix(p), ToNodePrefix(p), p.regionId, p.clusterId, p.nodeId, [p.serviceType, p.serviceId]);
  }

  lemma LocationParses(ct: ConnectionType, p: ServicePath)
    requires SeparatorFree(p) && ct in {Cluster, Region, Global}
    ensures FromString(RouteKey(ct, p)) == AtLevel(ct, p)
  {
    match ct
    case Cluster =>
      NodePrefixShape(p);
      ParseText(ToNodePrefix(p), ToNodePrefix(p), p.regionId, p.clusterId, p.nodeId, []);
    case Region =>
      DotParts(ct, p);
      ParseText(ToClusterPrefix(p), ToClusterPrefix(p), p.regionId, p.clusterId, "", []);
    case _ =>
      ParseText(p.regionId, p.regionId, p.regionId, "", "", []);
  }

  /** Parsing a route key gives the path down to the level of the key. */
  lemma KeyParses(ct: ConnectionType, p: ServicePath)
    requires SeparatorFree(p)
    ensures FromString(RouteKey(ct, p)) == AtLevel(ct, p)
  {
    match ct
    case Client => DisplayRoundTrip(p);
    case Local => ServicePrefixParses(p);
    case _ => LocationParses(ct, p);
  }
}
