// Coupling topology discovered from the host model's naming convention
// (envs/fluid/config_generator.py): which bodies carry fluid anchor sites,
// which proxy sites go with them, how anchors are paired with proxy bodies,
// and the rigid-body configuration records handed to the bridge.
//
// Naming convention: an anchor site is `<body>_SPH_SITE_<index>`, a proxy
// site `<body>_SPH_MOCAP_SITE_<index>`, and the mocap proxy body driven for
// it `<body>_SPH_MOCAP_<index as three digits>`.

module Topology {
  import opened Core
  import opened Strings
  import opened Ordering

  const AnchorMarker: string := "SPH_SITE"
  const AnchorInfix: string := "_SPH_SITE_"
  const ProxySiteInfix: string := "_SPH_MOCAP_SITE_"
  const ProxySiteMarker: string := "SPH_MOCAP_SITE_"
  const ProxyBodyInfix: string := "_SPH_MOCAP_"

  /** Default linear spring parameters of a generated rigid body. */
  const DefaultStiffness: real := 5000.0
  const DefaultDamping: real := 100.0

  /** What the host model reports: its body names and its site names, the
      latter in the site dictionary's key order. */
  datatype HostModel = HostModel(bodyNames: seq<string>, siteNames: seq<string>)

  datatype ConnectionPoint = ConnectionPoint(pointId: string, siteName: string, mocapName: string)

  datatype SpringParams = SpringParams(stiffness: real, damping: real)

  datatype RigidBodyConfig = RigidBodyConfig(
    objectId: string,
    mujocoBody: string,
    couplingMode: string,
    connectionPoints: seq<ConnectionPoint>,
    spring: SpringParams)

  function AnchorSiteName(body: string, index: nat): string
  {
    body + AnchorInfix + Format03(index)
  }

  function ProxySiteName(body: string, index: nat): string
  {
    body + ProxySiteInfix + Format03(index)
  }

  function ProxyBodyName(body: string, index: int): string
  {
    body + ProxyBodyInfix + Format03(index)
  }

  // ---------------------------------------------------------------------
  // identify_sph_bodies

  /** The body a site name designates: the text before the first
      `_SPH_SITE_`, for names that mention `SPH_SITE` at all. */
  function SiteBody(site: string): Option<string>
  {
    if Contains(site, AnchorMarker) then Some(SplitHead(site, AnchorInfix)) else None
  }

  /** `b` is an existing body that some site name designates. */
  ghost predicate IsSphBody(m: HostModel, b: string)
  {
    b in m.bodyNames && exists s :: s in m.siteNames && SiteBody(s) == Some(b)
  }

  /** The existing bodies designated by the site names in `sites`. */
  function DesignatedBodies(sites: seq<string>, bodyNames: seq<string>): set<string>
  {
    if sites == [] then {}
    else
      var last := sites[|sites| - 1];
      DesignatedBodies(sites[..|sites| - 1], bodyNames)
        + (if SiteBody(last).Some? && SiteBody(last).value in bodyNames then {SiteBody(last).value} else {})
  }

  /** DesignatedBodies collects exactly the bodies IsSphBody describes. */
  lemma {:induction false} DesignatedBodiesAreSphBodies(m: HostModel, sites: seq<string>)
    requires sites == m.siteNames
    ensures forall b :: b in DesignatedBodies(sites, m.bodyNames) <==> IsSphBody(m, b)
  {
    DesignatedPrefix(m, |sites|);
    SitesByIndex(m);
    assert sites[..|sites|] == sites;
  }

  lemma {:induction false} DesignatedPrefix(m: HostModel, n: nat)
    requires n <= |m.siteNames|
    ensures forall b :: b in DesignatedBodies(m.siteNames[..n], m.bodyNames) <==>
      b in m.bodyNames && exists j :: 0 <= j < n && SiteBody(m.siteNames[j]) == Some(b)
  {
    if n > 0 {
      var sites := m.siteNames;
      DesignatedPrefix(m, n - 1);
      DesignatedStep(sites, m.bodyNames, n - 1);
      var last := SiteBody(sites[n - 1]);
      forall b ensures b in DesignatedBodies(sites[..n], m.bodyNames) <==>
        b in m.bodyNames && exists j :: 0 <= j < n && SiteBody(sites[j]) == Some(b)
      {
        if exists j :: 0 <= j < n && SiteBody(sites[j]) == Some(b) {
          var j :| 0 <= j < n && SiteBody(sites[j]) == Some(b);
          if j < n - 1 {
            assert exists j' :: 0 <= j' < n - 1 && SiteBody(sites[j']) == Some(b);
          } else {
            assert last == Some(b);
          }
        }
      }
    }
  }

  lemma SitesByIndex(m: HostModel)
    ensures forall b ::
      (exists j :: 0 <= j < |m.siteNames| && SiteBody(m.siteNames[j]) == Some(b)) <==>
      (exists s :: s in m.siteNames && SiteBody(s) == Some(b))
  {
    var sites := m.siteNames;
    forall b | exists s :: s in sites && SiteBody(s) == Some(b)
      ensures exists j :: 0 <= j < |sites| && SiteBody(sites[j]) == Some(b)
    {
      var s :| s in sites && SiteBody(s) == Some(b);
      var j :| 0 <= j < |sites| && sites[j] == s;
      assert SiteBody(sites[j]) == Some(b);
    }
  }

  lemma DesignatedStep(sites: seq<string>, bodyNames: seq<string>, i: nat)
    requires i < |sites|
    ensures DesignatedBodies(sites[..i + 1], bodyNames) == DesignatedBodies(sites[..i], bodyNames)
      + (if SiteBody(sites[i]).Some? && SiteBody(sites[i]).value in bodyNames then {SiteBody(sites[i]).value} else {})
  {
    assert sites[..i + 1][..i] == sites[..i];
  }

  /** The sorted, duplicate-free list of existing bodies designated by site
      names; empty when the host query fails. */
  method IdentifySphBodies(m: Option<HostModel>) returns (bodies: seq<string>)
    ensures m.None? ==> bodies == []
    ensures m.Some? ==> StrictlySorted(bodies)
    ensures m.Some? ==> forall b :: b in bodies <==> b in DesignatedBodies(m.value.siteNames, m.value.bodyNames)
  {
    if m.None? {
      return [];
    }
    var bodyNames, sites := m.value.bodyNames, m.value.siteNames;
    var found: set<string> := {};
    var i := 0;
    while i < |sites|
      invariant 0 <= i <= |sites|
      invariant found == DesignatedBodies(sites[..i], bodyNames)
    {
      DesignatedStep(sites, bodyNames, i);
      var site := sites[i];
      if Contains(site, AnchorMarker) {
        var body := SplitHead(site, AnchorInfix);
        if body in bodyNames {
          found := found + {body};
        }
      }
      i := i + 1;
    }
    assert sites[..i] == sites;
    bodies := SortedNames(found);
  }

  // ---------------------------------------------------------------------
  // extract_sites_for_body

  /** The names in `names` that start with `p`, in their original order. */
  function WithPrefix(names: seq<string>, p: string): seq<string>
  {
    if names == [] then []
    else
      var last := names[|names| - 1];
      WithPrefix(names[..|names| - 1], p) + (if StartsWith(last, p) then [last] else [])
  }

  /** A name selected by prefix is exactly a listed name with that prefix. */
  lemma {:induction false} WithPrefixMembers(names: seq<string>, p: string)
    ensures forall x :: x in WithPrefix(names, p) <==> x in names && StartsWith(x, p)
    decreases |names|
  {
    if names != [] {
      var init := names[..|names| - 1];
      WithPrefixMembers(init, p);
      assert names == init + [names[|names| - 1]];
    }
  }

  /** The sort key of a site name: its trailing number, or 999 without one. */
  function IndexKey(name: string): int
  {
    match TrailingNumber(name)
    case Some(n) => n
    case None => 999
  }

  /** Anchor and proxy site names of `body`, each list stably sorted by
      IndexKey; both empty when the host query fails. */
  method ExtractSitesForBody(m: Option<HostModel>, body: string)
    returns (anchors: seq<string>, proxies: seq<string>)
    ensures m.None? ==> anchors == [] && proxies == []
    ensures m.Some? ==> anchors == SortByKey(WithPrefix(m.value.siteNames, body + AnchorInfix), IndexKey)
    ensures m.Some? ==> proxies == SortByKey(WithPrefix(m.value.siteNames, body + ProxySiteInfix), IndexKey)
  {
    if m.None? {
      return [], [];
    }
    var sites := m.value.siteNames;
    anchors, proxies := [], [];
    var i := 0;
    while i < |sites|
      invariant 0 <= i <= |sites|
      invariant anchors == WithPrefix(sites[..i], body + AnchorInfix)
      invariant proxies == WithPrefix(sites[..i], body + ProxySiteInfix)
    {
      assert sites[..i + 1][..i] == sites[..i];
      if StartsWith(sites[i], body + AnchorInfix) {
        anchors := anchors + [sites[i]];
      }
      if StartsWith(sites[i], body + ProxySiteInfix) {
        proxies := proxies + [sites[i]];
      }
      i := i + 1;
    }
    assert sites[..i] == sites;
    anchors := SortByKey(anchors, IndexKey);
    proxies := SortByKey(proxies, IndexKey);
  }

  /** Every extracted anchor is one of the body's anchor sites and vice
      versa, listed in ascending index order; same for proxies. */
  lemma ExtractedSitesAreTheBodysSites(m: HostModel, body: string, anchors: seq<string>)
    requires anchors == SortByKey(WithPrefix(m.siteNames, body + AnchorInfix), IndexKey)
    ensures forall x :: x in anchors <==> x in m.siteNames && StartsWith(x, body + AnchorInfix)
    ensures forall i, j :: 0 <= i < j < |anchors| ==> IndexKey(anchors[i]) <= IndexKey(anchors[j])
  {
    WithPrefixMembers(m.siteNames, body + AnchorInfix);
    var w := WithPrefix(m.siteNames, body + AnchorInfix);
    assert forall x :: x in anchors <==> x in multiset(anchors);
    assert forall x :: x in w <==> x in multiset(w);
  }

  /** An anchor named with a three-digit index sorts by that index. */
  lemma IndexKeyOfAnchorName(body: string, index: nat)
    ensures IndexKey(AnchorSiteName(body, index)) == index
  {
    Format03RoundTrip(index);
    TrailingDigitsOfJoin(body + AnchorInfix, Format03(index));
    assert AnchorSiteName(body, index) == (body + AnchorInfix) + Format03(index);
    var s := AnchorSiteName(body, index);
    assert s[|s| - |Format03(index)|..] == Format03(index);
  }

  // ---------------------------------------------------------------------
  // generate_connection_points

  /** The proxy body driven for the proxy site at position `i` of the
      sorted list: named after the site's own index when it has one, else
      after the position. */
  function ProxyBodyFor(body: string, proxySite: string, i: nat): string
  {
    match MarkedSuffixNumber(proxySite, ProxySiteMarker)
    case Some(index) => ProxyBodyName(body, index)
    case None => ProxyBodyName(body, i)
  }

  /** `[f(xs[0], ys[0], 0), ..., f(xs[n - 1], ys[n - 1], n - 1)]`. */
  function ZipIndexed<A, B, C>(f: (A, B, nat) -> C, xs: seq<A>, ys: seq<B>, n: nat): (r: seq<C>)
    requires n <= |xs| && n <= |ys|
    ensures |r| == n
  {
    if n == 0 then [] else ZipIndexed(f, xs, ys, n - 1) + [f(xs[n - 1], ys[n - 1], n - 1)]
  }

  lemma {:induction false} ZipIndexedElements<A, B, C>(f: (A, B, nat) -> C, xs: seq<A>, ys: seq<B>, n: nat)
    requires n <= |xs| && n <= |ys|
    ensures forall k: nat :: k < n ==> ZipIndexed(f, xs, ys, n)[k] == f(xs[k], ys[k], k)
  {
    if n > 0 {
      ZipIndexedElements(f, xs, ys, n - 1);
    }
  }

  /** The connection point for the anchor and proxy site at position `i`. */
  function PointAt(body: string): (string, string, nat) -> ConnectionPoint
  {
    (anchor: string, proxy: string, i: nat) => ConnectionPoint(anchor, anchor, ProxyBodyFor(body, proxy, i))
  }

  /** Positional pairing of the two sorted lists, up to the shorter one. */
  function PairedPoints(body: string, anchors: seq<string>, proxies: seq<string>): seq<ConnectionPoint>
  {
    ZipIndexed(PointAt(body), anchors, proxies, if |anchors| < |proxies| then |anchors| else |proxies|)
  }

  /** Pair `k` joins anchor `k` with the proxy body of proxy `k`. */
  lemma PairedPointsElements(body: string, anchors: seq<string>, proxies: seq<string>)
    ensures var ps := PairedPoints(body, anchors, proxies);
      |ps| == (if |anchors| < |proxies| then |anchors| else |proxies|)
      && forall k :: 0 <= k < |ps| ==>
           ps[k] == ConnectionPoint(anchors[k], anchors[k], ProxyBodyFor(body, proxies[k], k))
  {
    ZipIndexedElements(PointAt(body), anchors, proxies, if |anchors| < |proxies| then |anchors| else |proxies|);
  }

  /** `generate_connection_points`: pairs the sorted anchors and proxies by
      position, up to the shorter list. */
  method GenerateConnectionPoints(body: string, anchors: seq<string>, proxies: seq<string>)
    returns (points: seq<ConnectionPoint>)
    ensures |points| == if |anchors| < |proxies| then |anchors| else |proxies|
    ensures forall i :: 0 <= i < |points| ==>
      points[i].pointId == anchors[i] && points[i].siteName == anchors[i]
      && points[i].mocapName == ProxyBodyFor(body, proxies[i], i)
    ensures points == PairedPoints(body, anchors, proxies)
  {
    var n := if |anchors| < |proxies| then |anchors| else |proxies|;
    points := [];
    var i := 0;
    while i < n
      invariant 0 <= i <= n
      invariant points == ZipIndexed(PointAt(body), anchors, proxies, i)
    {
      points := points + [ConnectionPoint(anchors[i], anchors[i], ProxyBodyFor(body, proxies[i], i))];
      i := i + 1;
    }
    PairedPointsElements(body, anchors, proxies);
  }

  /** A proxy site named by the convention drives the proxy body with the
      same index, wherever it sits in the list. */
  lemma ProxyBodyOfConventionalSite(body: string, index: nat, i: nat)
    ensures ProxyBodyFor(body, ProxySiteName(body, index), i) == ProxyBodyName(body, index)
  {
    Format03RoundTrip(index);
    assert ProxySiteName(body, index) == (body + "_") + ProxySiteMarker + Format03(index);
    MarkedSuffixNumberOfJoin(body + "_", ProxySiteMarker, Format03(index));
  }

  /** When anchors and proxies are numbered 0, 1, 2, ... alike, each anchor
      is paired with the proxy body of its own index. */
  lemma AlignedIndicesPairByIndex(body: string, anchors: seq<string>, proxies: seq<string>)
    requires |anchors| == |proxies|
    requires forall i :: 0 <= i < |anchors| ==>
      anchors[i] == AnchorSiteName(body, i) && proxies[i] == ProxySiteName(body, i)
    ensures var ps := PairedPoints(body, anchors, proxies);
      |ps| == |anchors| && forall i :: 0 <= i < |ps| ==>
        ps[i].siteName == AnchorSiteName(body, i) && ps[i].mocapName == ProxyBodyName(body, i)
  {
    PairedPointsElements(body, anchors, proxies);
    forall i | 0 <= i < |anchors|
      ensures ProxyBodyFor(body, proxies[i], i) == ProxyBodyName(body, i)
    {
      ProxyBodyOfConventionalSite(body, i, i);
    }
  }

  /** Pairing is by position, not by index: if the proxy with index 0 is
      missing, the anchor with index 0 is paired with the proxy body of the
      first proxy present. */
  lemma PairingIsPositional(body: string, k: nat)
    ensures var ps := PairedPoints(body, [AnchorSiteName(body, 0)], [ProxySiteName(body, k)]);
      |ps| == 1 && ps[0].siteName == AnchorSiteName(body, 0) && ps[0].mocapName == ProxyBodyName(body, k)
  {
    ProxyBodyOfConventionalSite(body, k, 0);
  }

  // ---------------------------------------------------------------------
  // generate_rigid_bodies

  /** The connection points generated for `body` from the host's site names. */
  function PointsFor(m: HostModel, body: string): seq<ConnectionPoint>
  {
    PairedPoints(body,
      SortByKey(WithPrefix(m.siteNames, body + AnchorInfix), IndexKey),
      SortByKey(WithPrefix(m.siteNames, body + ProxySiteInfix), IndexKey))
  }

  /** The record generated for `body` with connection points `points`. */
  function RecordOf(body: string, points: seq<ConnectionPoint>): RigidBodyConfig
  {
    RigidBodyConfig(body, body, "multipoint_connect", points, SpringParams(DefaultStiffness, DefaultDamping))
  }

  /** The loop body of generate_rigid_bodies for one identified body: its
      record, or nothing when it lacks anchor sites or connection points. */
  method RigidBodyFor(m: Option<HostModel>, body: string) returns (rb: Option<RigidBodyConfig>)
    requires m.Some?
    ensures rb.Some? <==> |PointsFor(m.value, body)| > 0
    ensures rb.Some? ==> rb.value == RecordOf(body, PointsFor(m.value, body))
  {
    var anchors, proxies := ExtractSitesForBody(m, body);
    if |anchors| == 0 {
      return None;
    }
    var points := GenerateConnectionPoints(body, anchors, proxies);
    if |points| == 0 {
      return None;
    }
    rb := Some(RigidBodyConfig(body, body, "multipoint_connect", points,
                               SpringParams(DefaultStiffness, DefaultDamping)));
  }

  /** The records generated for `bodies`, in order: one per body whose
      connection-point list `pointsOf(body)` is non-empty. */
  function Records(pointsOf: string -> seq<ConnectionPoint>, bodies: seq<string>): seq<RigidBodyConfig>
  {
    if bodies == [] then []
    else
      var b := bodies[|bodies| - 1];
      Records(pointsOf, bodies[..|bodies| - 1])
        + (if |pointsOf(b)| > 0 then [RecordOf(b, pointsOf(b))] else [])
  }

  /** Each record is the generated record of one of `bodies`, with a
      non-empty connection-point list. */
  lemma {:induction false} RecordsShape(pointsOf: string -> seq<ConnectionPoint>, bodies: seq<string>)
    ensures forall rb :: rb in Records(pointsOf, bodies) ==>
      rb == RecordOf(rb.objectId, pointsOf(rb.objectId)) && |rb.connectionPoints| > 0 && rb.objectId in bodies
    decreases |bodies|
  {
    if bodies != [] {
      var init, b := bodies[..|bodies| - 1], bodies[|bodies| - 1];
      assert bodies == init + [b];
      RecordsShape(pointsOf, init);
    }
  }

  /** Records keeps the (strict) order of `bodies`. */
  lemma {:induction false} RecordsOrdered(pointsOf: string -> seq<ConnectionPoint>, bodies: seq<string>)
    requires StrictlySorted(bodies)
    ensures forall i, j :: 0 <= i < j < |Records(pointsOf, bodies)| ==>
      LexLess(Records(pointsOf, bodies)[i].objectId, Records(pointsOf, bodies)[j].objectId)
    decreases |bodies|
  {
    if bodies != [] {
      var init, b := bodies[..|bodies| - 1], bodies[|bodies| - 1];
      assert bodies == init + [b];
      RecordsOrdered(pointsOf, init);
      RecordsShape(pointsOf, init);
      var r0 := Records(pointsOf, init);
      forall k | 0 <= k < |r0| ensures LexLess(r0[k].objectId, b) {
        assert r0[k] in r0;
        var j :| 0 <= j < |init| && init[j] == r0[k].objectId;
      }
    }
  }

  /** Every body of `bodies` with connection points gets a record. */
  lemma {:induction false} RecordsComplete(pointsOf: string -> seq<ConnectionPoint>, bodies: seq<string>)
    ensures forall b :: b in bodies && |pointsOf(b)| > 0 ==>
      exists k :: 0 <= k < |Records(pointsOf, bodies)| && Records(pointsOf, bodies)[k].objectId == b
    decreases |bodies|
  {
    if bodies != [] {
      var init, b := bodies[..|bodies| - 1], bodies[|bodies| - 1];
      assert bodies == init + [b];
      RecordsComplete(pointsOf, init);
      var r0, r := Records(pointsOf, init), Records(pointsOf, bodies);
      forall c | c in bodies && |pointsOf(c)| > 0
        ensures exists k :: 0 <= k < |r| && r[k].objectId == c
      {
        if c == b {
          assert r[|r| - 1].objectId == b;
        } else {
          assert c in init;
          var k :| 0 <= k < |r0| && r0[k].objectId == c;
          assert r[k] == r0[k];
        }
      }
      assert r == Records(pointsOf, bodies);
    }
  }

  /** One record per identified body that has both anchor and proxy sites,
      in ascending body-name order, with the default spring parameters. */
  method GenerateRigidBodies(m: Option<HostModel>) returns (rbs: seq<RigidBodyConfig>)
    ensures m.None? ==> rbs == []
    ensures m.Some? ==> forall rb :: rb in rbs ==>
      rb == RecordOf(rb.objectId, PointsFor(m.value, rb.objectId)) && |rb.connectionPoints| > 0
      && rb.objectId in DesignatedBodies(m.value.siteNames, m.value.bodyNames)
    ensures forall i, j :: 0 <= i < j < |rbs| ==> LexLess(rbs[i].objectId, rbs[j].objectId)
    ensures m.Some? ==> forall b ::
      (b in DesignatedBodies(m.value.siteNames, m.value.bodyNames) && |PointsFor(m.value, b)| > 0) ==>
      exists k :: 0 <= k < |rbs| && rbs[k].objectId == b
  {
    var bodies := IdentifySphBodies(m);
    if |bodies| == 0 {
      return [];
    }
    var model := m.value;
    var pointsOf := b => PointsFor(model, b);
    rbs := [];
    var i := 0;
    while i < |bodies|
      invariant 0 <= i <= |bodies|
      invariant rbs == Records(pointsOf, bodies[..i])
    {
      RecordsStep(pointsOf, bodies, i);
      var rb := RigidBodyFor(m, bodies[i]);
      if rb.Some? {
        rbs := rbs + [rb.value];
      }
      i := i + 1;
    }
    assert bodies[..i] == bodies;
    RecordsSpec(model, pointsOf, bodies);
  }

  lemma RecordsStep(pointsOf: string -> seq<ConnectionPoint>, bodies: seq<string>, i: nat)
    requires i < |bodies|
    ensures Records(pointsOf, bodies[..i + 1]) == Records(pointsOf, bodies[..i])
      + (if |pointsOf(bodies[i])| > 0 then [RecordOf(bodies[i], pointsOf(bodies[i]))] else [])
  {
    assert bodies[..i + 1][..i] == bodies[..i];
  }

  /** The records of the designated bodies, listed in ascending order,
      have the three properties `generate_rigid_bodies` promises. */
  lemma RecordsSpec(model: HostModel, pointsOf: string -> seq<ConnectionPoint>, bodies: seq<string>)
    requires forall b :: pointsOf(b) == PointsFor(model, b)
    requires StrictlySorted(bodies)
    requires forall b :: b in bodies <==> b in DesignatedBodies(model.siteNames, model.bodyNames)
    ensures var rbs := Records(pointsOf, bodies);
      (forall rb :: rb in rbs ==>
         rb == RecordOf(rb.objectId, PointsFor(model, rb.objectId)) && |rb.connectionPoints| > 0
         && rb.objectId in DesignatedBodies(model.siteNames, model.bodyNames))
      && (forall i, j :: 0 <= i < j < |rbs| ==> LexLess(rbs[i].objectId, rbs[j].objectId))
      && (forall b ::
            (b in DesignatedBodies(model.siteNames, model.bodyNames) && |PointsFor(model, b)| > 0) ==>
            exists k :: 0 <= k < |rbs| && rbs[k].objectId == b)
  {
    RecordsShape(pointsOf, bodies);
    RecordsOrdered(pointsOf, bodies);
    RecordsComplete(pointsOf, bodies);
  }
}
