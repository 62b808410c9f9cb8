// The session controller between the host engine and the remote fluid
// solver: it prepares the client configuration, indexes the generated
// rigid bodies and their mocap proxies, connects once (pending ->
// connecting -> connected or failed, never retried), and runs one tick
// either through the configured coupling strategy or through its own
// legacy exchange.
//
// The remote client, the event loop and the engine are not modelled as
// code: what they answer is a parameter (`InitScript`, the readiness
// answer, `Tick`, `LegacyTick`), and what is sent to them is a ghost trace.

module Bridge {
  import opened Core
  import opened Strings
  import opened Topology
  import opened ForceLedger
  import opened PoseExchange
  import opened Coupling
  import opened Axes

  // ---------------------------------------------------------------------
  // The strategy factory

  function ModeName(k: ModeKind): string
  {
    match k
    case ForcePosition => "force_position"
    case SpringConstraint => "spring_constraint"
    case MultiPointForce => "multi_point_force"
  }

  /** `_create_mode`: exactly the three strategy names are known. */
  function CreateMode(name: string): (r: Option<ModeKind>)
    ensures r.Some? <==> name == "force_position" || name == "spring_constraint" || name == "multi_point_force"
    ensures r.Some? ==> ModeName(r.value) == name
  {
    if name == "force_position" then Some(ForcePosition)
    else if name == "spring_constraint" then Some(SpringConstraint)
    else if name == "multi_point_force" then Some(MultiPointForce)
    else None
  }

  /** Every strategy is created back from its own name. */
  lemma CreateModeOfName(k: ModeKind)
    ensures CreateMode(ModeName(k)) == Some(k)
  {
  }

  // ---------------------------------------------------------------------
  // Client configuration

  /** Python's `str()` of a scalar JSON value inside an f-string. */
  function Show(j: Json): string
  {
    match j
    case JNull => "None"
    case JBool(b) => if b then "True" else "False"
    case JNum(n) => IntToString(n)
    case JStr(s) => s
    case _ => ""
  }

  const DefaultHost: string := "localhost"
  const DefaultPort: int := 50351

  /** `host:port` from the connection section, with the defaults. */
  function ServerAddress(section: seq<(string, Json)>): string
  {
    Show(Get(section, "host", JStr(DefaultHost))) + ":" + Show(Get(section, "port", JNum(DefaultPort)))
  }

  lemma DefaultServerAddress()
    ensures ServerAddress([]) == "localhost:50351"
  {
    DefaultPortText();
    assert Show(Get([], "host", JStr(DefaultHost))) == "localhost";
    assert Show(Get([], "port", JNum(DefaultPort))) == "50351";
  }

  /** The default port's decimal text, one digit at a time. */
  lemma DefaultPortText()
    ensures IntToString(DefaultPort) == "50351"
  {
    assert NatToString(5) == "5";
    assert NatToString(50) == NatToString(5) + "0";
    assert NatToString(503) == NatToString(50) + "3";
    assert NatToString(5035) == NatToString(503) + "5";
    assert NatToString(50351) == NatToString(5035) + "1";
  }

  /** The client section: `enabled` and `server_address`, then the keys of
      the section's own `client` object (whose values win), and finally
      `server_address` and `enabled` forced back to the connection
      section's values.  `None` where unpacking a non-object raises. */
  function ClientSection(section: seq<(string, Json)>): (r: Option<seq<(string, Json)>>)
    ensures r.None? <==> !Get(section, "client", JObj([])).JObj?
    ensures r.Some? ==>
              DictGet(r.value, "server_address") == Some(JStr(ServerAddress(section)))
              && DictGet(r.value, "enabled") == Some(Get(section, "enabled", JBool(true)))
    ensures r.Some? ==> forall k :: k != "server_address" && k != "enabled" ==>
              DictGet(r.value, k) == DictGet(Get(section, "client", JObj([])).fields, k)
  {
    var client := Get(section, "client", JObj([]));
    if !client.JObj? then None
    else
      var r := ForcedMerge(Get(section, "enabled", JBool(true)), JStr(ServerAddress(section)), client.fields);
      Some(r)
  }

  /** `{"enabled": e, "server_address": a, **fields}` followed by the two
      forced assignments. */
  function ForcedMerge(enabled: Json, address: Json, fields: seq<(string, Json)>): (r: seq<(string, Json)>)
    ensures DictGet(r, "server_address") == Some(address)
    ensures DictGet(r, "enabled") == Some(enabled)
    ensures forall k :: k != "server_address" && k != "enabled" ==> DictGet(r, k) == DictGet(fields, k)
  {
    DistinctKeyNames();
    ForcedMergeOf("enabled", enabled, "server_address", address, fields)
  }

  /** The same merge with the two forced keys as parameters: the first
      key and value are placed first, and assigned last. */
  function ForcedMergeOf(k1: string, v1: Json, k2: string, v2: Json, fields: seq<(string, Json)>): (r: seq<(string, Json)>)
    requires k1 != k2
    ensures DictGet(r, k2) == Some(v2)
    ensures DictGet(r, k1) == Some(v1)
    ensures forall k :: k != k2 && k != k1 ==> DictGet(r, k) == DictGet(fields, k)
  {
    var base := [(k1, v1), (k2, v2)];
    MergeKeepsOthers(base, fields, k1, k2);
    DictPut(DictPut(DictOf(base + fields), k2, v2), k1, v1)
  }

  lemma DistinctKeyNames()
    ensures "server_address" != "enabled"
  {
    assert "server_address"[0] != "enabled"[0];
  }

  lemma MergeKeepsOthers(base: seq<(string, Json)>, fields: seq<(string, Json)>, k1: string, k2: string)
    requires forall i :: 0 <= i < |base| ==> base[i].0 == k1 || base[i].0 == k2
    ensures forall k :: k != k2 && k != k1 ==> DictGet(DictOf(base + fields), k) == DictGet(fields, k)
  {
    forall k | k != k2 && k != k1
      ensures DictGet(DictOf(base + fields), k) == DictGet(fields, k)
    {
      DictOfLastWins(base + fields, k);
      DictGetAppend(base, fields, k);
      DictGetAbsent(base, k);
    }
  }

  lemma {:induction false} DictGetAbsent<K(!new), V>(d: seq<(K, V)>, k: K)
    requires forall i :: 0 <= i < |d| ==> d[i].0 != k
    ensures DictGet(d, k) == None
    decreases |d|
  {
    if d != [] {
      DictGetAbsent(d[..|d| - 1], k);
    }
  }

  /** The bridge's prepared configuration. */
  datatype BridgeConfig = BridgeConfig(
    client: seq<(string, Json)>,
    bridge: Json,
    simulation: Json,
    rigidBodies: seq<RigidBodyConfig>,
    debug: Json)

  /** `_prepare_orcalink_config`, given the records the topology
      generator produced: raises when the `orcalink` section is missing
      or not an object, or its `client` entry is not an object. */
  function PrepareConfig(fluid: seq<(string, Json)>, generated: seq<RigidBodyConfig>): (r: Outcome<BridgeConfig>)
    ensures r.Returned? <==>
              (DictGet(fluid, "orcalink").Some? && DictGet(fluid, "orcalink").value.JObj?
               && ClientSection(DictGet(fluid, "orcalink").value.fields).Some?)
    ensures r.Returned? ==>
              var section := DictGet(fluid, "orcalink").value.fields;
              r.value.client == ClientSection(section).value
              && r.value.bridge == Get(section, "bridge", JObj([]))
              && r.value.rigidBodies == generated
    ensures r.Returned? ==>
              r.value.simulation == Get(fluid, "simulation", JObj([]))
              && r.value.debug == Get(fluid, "debug", JObj([]))
  {
    match DictGet(fluid, "orcalink")
    case None => Raised
    case Some(o) =>
      if !o.JObj? then Raised
      else match ClientSection(o.fields)
        case None => Raised
        case Some(client) =>
          Returned(BridgeConfig(client, Get(o.fields, "bridge", JObj([])),
                                Get(fluid, "simulation", JObj([])), generated, Get(fluid, "debug", JObj([]))))
  }

  // ---------------------------------------------------------------------
  // The rigid-body dictionary

  function BodyPairs(rbs: seq<RigidBodyConfig>): (r: seq<(string, RigidBodyConfig)>)
    ensures |r| == |rbs|
    ensures forall i :: 0 <= i < |rbs| ==> r[i] == (rbs[i].objectId, rbs[i])
  {
    if rbs == [] then [] else BodyPairs(rbs[..|rbs| - 1]) + [(rbs[|rbs| - 1].objectId, rbs[|rbs| - 1])]
  }

  lemma BodyPairsStep(rbs: seq<RigidBodyConfig>, i: nat)
    requires i < |rbs|
    ensures BodyPairs(rbs[..i + 1]) == BodyPairs(rbs[..i]) + [(rbs[i].objectId, rbs[i])]
  {
    assert rbs[..i + 1][..i] == rbs[..i];
  }

  /** `_parse_rigid_bodies`: one entry per object id, the last record for
      an id winning. */
  method ParseRigidBodies(rbs: seq<RigidBodyConfig>) returns (d: seq<(string, RigidBodyConfig)>)
    ensures d == DictOf(BodyPairs(rbs))
  {
    d := [];
    for i := 0 to |rbs|
      invariant d == DictOf(BodyPairs(rbs[..i]))
    {
      BodyPairsStep(rbs, i);
      DictOfSnoc(BodyPairs(rbs[..i]), (rbs[i].objectId, rbs[i]));
      d := DictPut(d, rbs[i].objectId, rbs[i]);
    }
    assert rbs[..|rbs|] == rbs;
  }

  /** With distinct keys, building the dictionary changes nothing. */
  lemma {:induction false} DictOfDistinct<K(!new), V>(pairs: seq<(K, V)>)
    requires DistinctKeys(pairs)
    ensures DictOf(pairs) == pairs
    decreases |pairs|
  {
    if pairs != [] {
      var init, last := pairs[..|pairs| - 1], pairs[|pairs| - 1];
      DictOfDistinct(init);
      assert last.0 !in DictKeys(init);
      assert pairs == init + [last];
    }
  }

  /** The generator's records have strictly ascending ids, so the
      dictionary holds every record, in generation order. */
  lemma GeneratedBodiesKeepOrder(rbs: seq<RigidBodyConfig>)
    requires forall i, j :: 0 <= i < j < |rbs| ==> Ordering.LexLess(rbs[i].objectId, rbs[j].objectId)
    ensures DictOf(BodyPairs(rbs)) == BodyPairs(rbs)
  {
    forall i, j | 0 <= i < j < |rbs| ensures rbs[i].objectId != rbs[j].objectId {
      if rbs[i].objectId == rbs[j].objectId {
        Ordering.LexIrreflexive(rbs[i].objectId);
      }
    }
    DictOfDistinct(BodyPairs(rbs));
  }

  function Values<K, V>(d: seq<(K, V)>): (r: seq<V>)
    ensures |r| == |d|
    ensures forall i :: 0 <= i < |d| ==> r[i] == d[i].1
  {
    if d == [] then [] else Values(d[..|d| - 1]) + [d[|d| - 1].1]
  }

  // ---------------------------------------------------------------------
  // The (body, index) -> mocap map

  /** `re.search(r'SPH_SITE_(\d+)$', name)`. */
  const IndexMarker: string := "SPH_SITE_"

  type MocapKey = (string, nat)

  /** The entry one point contributes, if its site name has an index. */
  function PointPair(body: string, pt: ConnectionPoint): (r: seq<(MocapKey, string)>)
    ensures |r| <= 1
  {
    match MarkedSuffixNumber(pt.siteName, IndexMarker)
    case None => []
    case Some(n) => [((body, n), pt.mocapName)]
  }

  /** The map entries one body's points contribute, in point order. */
  function PointPairs(body: string, pts: seq<ConnectionPoint>): seq<(MocapKey, string)>
  {
    if pts == [] then []
    else PointPairs(body, pts[..|pts| - 1]) + PointPair(body, pts[|pts| - 1])
  }

  /** Assigning at most one more pair. */
  function PutAll<K(==,!new), V>(d: seq<(K, V)>, extra: seq<(K, V)>): seq<(K, V)>
    requires |extra| <= 1
  {
    if extra == [] then d else DictPut(d, extra[0].0, extra[0].1)
  }

  lemma DictOfStep<K(!new), V>(pairs: seq<(K, V)>, extra: seq<(K, V)>)
    requires |extra| <= 1
    ensures DictOf(pairs + extra) == PutAll(DictOf(pairs), extra)
  {
    if extra == [] {
      assert pairs + extra == pairs;
    } else {
      assert extra == [extra[0]];
      DictOfSnoc(pairs, extra[0]);
    }
  }

  /** The map entries of all bodies, in dictionary order. */
  function MapPairs(rbs: seq<RigidBodyConfig>): seq<(MocapKey, string)>
  {
    if rbs == [] then []
    else MapPairs(rbs[..|rbs| - 1]) + PointPairs(rbs[|rbs| - 1].mujocoBody, rbs[|rbs| - 1].connectionPoints)
  }

  lemma MapPairsStep(rbs: seq<RigidBodyConfig>, i: nat)
    requires i < |rbs|
    ensures MapPairs(rbs[..i + 1]) == MapPairs(rbs[..i]) + PointPairs(rbs[i].mujocoBody, rbs[i].connectionPoints)
  {
    assert rbs[..i + 1][..i] == rbs[..i];
  }

  lemma PointPairsStep(body: string, before: seq<(MocapKey, string)>, pts: seq<ConnectionPoint>, j: nat)
    requires j < |pts|
    ensures DictOf(before + PointPairs(body, pts[..j + 1]))
         == PutAll(DictOf(before + PointPairs(body, pts[..j])), PointPair(body, pts[j]))
  {
    assert pts[..j + 1][..j] == pts[..j];
    var e := PointPair(body, pts[j]);
    assert before + PointPairs(body, pts[..j + 1]) == (before + PointPairs(body, pts[..j])) + e;
    DictOfStep(before + PointPairs(body, pts[..j]), e);
  }

  /** Adds one body's entries to the map being built. */
  method AddBodyEntries(m0: seq<(MocapKey, string)>, ghost before: seq<(MocapKey, string)>, rb: RigidBodyConfig)
    returns (m: seq<(MocapKey, string)>)
    requires m0 == DictOf(before)
    ensures m == DictOf(before + PointPairs(rb.mujocoBody, rb.connectionPoints))
  {
    m := m0;
    var pts := rb.connectionPoints;
    assert PointPairs(rb.mujocoBody, pts[..0]) == [];
    assert before + [] == before;
    for j := 0 to |pts|
      invariant m == DictOf(before + PointPairs(rb.mujocoBody, pts[..j]))
    {
      PointPairsStep(rb.mujocoBody, before, pts, j);
      m := PutAll(m, PointPair(rb.mujocoBody, pts[j]));
    }
    assert pts[..|pts|] == pts;
  }

  /** `_build_mocap_id_mapping`: every point whose site name ends in
      `SPH_SITE_<digits>` maps `(body, number)` to its mocap body; a later
      point with the same key overwrites an earlier one. */
  method BuildMocapMap(bodies: seq<(string, RigidBodyConfig)>) returns (m: seq<(MocapKey, string)>)
    ensures m == DictOf(MapPairs(Values(bodies)))
  {
    var rbs := Values(bodies);
    m := [];
    for i := 0 to |rbs|
      invariant m == DictOf(MapPairs(rbs[..i]))
    {
      MapPairsStep(rbs, i);
      m := AddBodyEntries(m, MapPairs(rbs[..i]), rbs[i]);
    }
    assert rbs[..|rbs|] == rbs;
  }

  // ---------------------------------------------------------------------
  // Routing remote site ids

  /** `re.search(r'(.+)_SPH_SITE_(\d+)$', id)`: the body before the last
      `_SPH_SITE_` that is followed by digits only, and the number those
      digits write. */
  function ParseRemoteSite(s: string): Option<MocapKey>
  {
    ParseInfixed(s, AnchorInfix)
  }

  /** The body before `infix` when `infix` is followed by digits only at
      the end of `s`, and the number those digits write. */
  function ParseInfixed(s: string, infix: string): Option<MocapKey>
  {
    var k := TrailingDigitCount(s);
    SplitInfixed(s[..|s| - k], s[|s| - k..], infix)
  }

  /** The body and number of a name already split into the part before
      its trailing digits and those digits. */
  function SplitInfixed(pre: string, digits: string, infix: string): Option<MocapKey>
    requires AllDigits(digits)
  {
    if digits == [] || |pre| <= |infix| || !EndsWith(pre, infix) then None
    else Some((pre[..|pre| - |infix|], DecimalValue(digits)))
  }

  /** A split that succeeds names a non-empty body that the infix
      follows, and a non-empty digit run. */
  lemma SplitInfixedShape(pre: string, digits: string, infix: string)
    requires AllDigits(digits)
    ensures var r := SplitInfixed(pre, digits, infix);
            r.Some? ==>
              r.value.0 != [] && digits != [] && pre == r.value.0 + infix
              && r.value.1 == DecimalValue(digits)
  {
    if SplitInfixed(pre, digits, infix).Some? {
      var body := pre[..|pre| - |infix|];
      assert body + infix == pre;
    }
  }

  /** The split of a conventional anchor name into its prefix and its
      three-digit suffix. */
  lemma AnchorNameParts(body: string, index: nat)
    ensures var s := AnchorSiteName(body, index);
            var k := |Format03(index)|;
            0 < k <= |s| && TrailingDigitCount(s) == k && s[..|s| - k] == body + AnchorInfix
            && s[|s| - k..] == Format03(index) && DecimalValue(Format03(index)) == index
  {
    var digits := Format03(index);
    Format03RoundTrip(index);
    var s := body + AnchorInfix + digits;
    assert AnchorSiteName(body, index) == s;
    TrailingDigitsOfJoin(body + AnchorInfix, digits);
    assert s[..|s| - |digits|] == body + AnchorInfix;
    assert s[|s| - |digits|..] == digits;
  }

  /** A conventional anchor name parses back to its body and index. */
  lemma ParseAnchorName(body: string, index: nat)
    requires body != []
    ensures ParseRemoteSite(AnchorSiteName(body, index)) == Some((body, index))
  {
    AnchorNameParts(body, index);
    SplitOfParts(body, AnchorInfix, Format03(index));
  }

  /** A non-empty body, the infix and a non-empty digit run split back
      into the body and the number the digits write. */
  lemma SplitOfParts(body: string, infix: string, digits: string)
    requires body != [] && digits != [] && AllDigits(digits)
    ensures SplitInfixed(body + infix, digits, infix) == Some((body, DecimalValue(digits)))
  {
    var pre := body + infix;
    assert pre[|pre| - |infix|..] == infix;
    assert pre[..|pre| - |infix|] == body;
  }

  /** The bridge's generic suffix parser reads the same index back. */
  lemma MarkedAnchorName(body: string, index: nat)
    ensures MarkedSuffixNumber(AnchorSiteName(body, index), IndexMarker) == Some(index)
  {
    AnchorNameParts(body, index);
    assert IndexMarker == AnchorInfix[1..];
    EndsWithTail(body, AnchorInfix, IndexMarker);
  }

  /** `body + infix` ends with every marker that is `infix` without its
      first character. */
  lemma EndsWithTail(body: string, infix: string, marker: string)
    requires infix != [] && marker == infix[1..]
    ensures EndsWith(body + infix, marker)
  {
    var pre := body + infix;
    assert pre[|pre| - |marker|..] == marker;
  }

  /** What one routed sample sets: the position as received and the
      identity quaternion. */
  datatype MocapUpdate = MocapUpdate(pos: Vec3, quat: Quat)

  /** The updates in sample order: unparsable ids and ids whose key has
      no mocap are skipped. */
  function RoutedPairs(m: seq<(MocapKey, string)>, samples: seq<TargetSample>): (r: seq<(string, MocapUpdate)>)
    ensures |r| <= |samples|
    ensures forall i :: 0 <= i < |r| ==> r[i].1.quat == IdentityQuat
  {
    if samples == [] then []
    else RoutedPairs(m, samples[..|samples| - 1]) + RouteOne(m, samples[|samples| - 1])
  }

  /** The update one sample gives, if its id routes to a mocap. */
  function RouteOne(m: seq<(MocapKey, string)>, s: TargetSample): (r: seq<(string, MocapUpdate)>)
    ensures |r| <= 1
    ensures r != [] ==> r[0].1.quat == IdentityQuat
  {
    match ParseRemoteSite(s.objectId)
    case None => []
    case Some(key) =>
      match DictGet(m, key)
      case None => []
      case Some(mocap) => [(mocap, MocapUpdate(s.position, IdentityQuat))]
  }

  /** Every routed update goes to a mocap body the map names, from a
      sample whose id parses to that map key. */
  lemma {:induction false} RoutedPairsFromMap(m: seq<(MocapKey, string)>, samples: seq<TargetSample>, i: nat)
    requires i < |RoutedPairs(m, samples)|
    ensures exists j, key :: 0 <= j < |samples| && ParseRemoteSite(samples[j].objectId) == Some(key)
              && DictGet(m, key) == Some(RoutedPairs(m, samples)[i].0)
              && RoutedPairs(m, samples)[i].1.pos == samples[j].position
    decreases |samples|
  {
    var init := samples[..|samples| - 1];
    var prev := RoutedPairs(m, init);
    if i < |prev| {
      RoutedPairsFromMap(m, init, i);
      var j, key :| 0 <= j < |init| && ParseRemoteSite(init[j].objectId) == Some(key)
                    && DictGet(m, key) == Some(prev[i].0) && prev[i].1.pos == init[j].position;
      assert samples[j] == init[j];
    } else {
      var j := |samples| - 1;
      var key := ParseRemoteSite(samples[j].objectId).value;
      assert ParseRemoteSite(samples[j].objectId) == Some(key);
    }
  }

  /** A sample carrying a conventional anchor name lands on the mocap the
      map holds for that body and index. */
  lemma RouteOfAnchorName(m: seq<(MocapKey, string)>, body: string, index: nat, pos: Vec3, rot: Option<seq<real>>)
    requires body != [] && DictGet(m, (body, index)).Some?
    ensures RoutedPairs(m, [TargetSample(AnchorSiteName(body, index), pos, rot)])
         == [(DictGet(m, (body, index)).value, MocapUpdate(pos, IdentityQuat))]
  {
    ParseAnchorName(body, index);
    var samples := [TargetSample(AnchorSiteName(body, index), pos, rot)];
    assert samples[..0] == [];
  }

  /** Whether a sample's id routes to the mocap body `mocap`. */
  predicate RoutesTo(m: seq<(MocapKey, string)>, s: TargetSample, mocap: string)
  {
    var r := RouteOne(m, s);
    r != [] && r[0].0 == mocap
  }

  /** The last sample routed to a mocap body decides its update. */
  lemma {:induction false} RoutedPairsLastWins(m: seq<(MocapKey, string)>, samples: seq<TargetSample>, j: nat, mocap: string)
    requires j < |samples| && RoutesTo(m, samples[j], mocap)
    requires forall l :: j < l < |samples| ==> !RoutesTo(m, samples[l], mocap)
    ensures DictGet(RoutedPairs(m, samples), mocap) == Some(MocapUpdate(samples[j].position, IdentityQuat))
    decreases |samples|
  {
    var init := samples[..|samples| - 1];
    var e := RouteOne(m, samples[|samples| - 1]);
    assert RoutedPairs(m, samples) == RoutedPairs(m, init) + e;
    if j == |samples| - 1 {
      assert e == [(mocap, MocapUpdate(samples[j].position, IdentityQuat))];
    } else {
      assert !RoutesTo(m, samples[|samples| - 1], mocap);
      forall l | j < l < |init|
        ensures !RoutesTo(m, init[l], mocap)
      {
        assert init[l] == samples[l];
      }
      assert init[j] == samples[j];
      RoutedPairsLastWins(m, init, j, mocap);
      if e != [] {
        assert (RoutedPairs(m, init) + e)[..|RoutedPairs(m, init)|] == RoutedPairs(m, init);
      } else {
        assert RoutedPairs(m, init) + e == RoutedPairs(m, init);
      }
    }
  }

  /** A mocap body no sample routes to gets no pair. */
  lemma {:induction false} RoutedPairsUnrouted(m: seq<(MocapKey, string)>, samples: seq<TargetSample>, mocap: string)
    requires forall l :: 0 <= l < |samples| ==> !RoutesTo(m, samples[l], mocap)
    ensures DictGet(RoutedPairs(m, samples), mocap) == None
    decreases |samples|
  {
    if samples != [] {
      var init := samples[..|samples| - 1];
      var e := RouteOne(m, samples[|samples| - 1]);
      assert RoutedPairs(m, samples) == RoutedPairs(m, init) + e;
      forall l | 0 <= l < |init|
        ensures !RoutesTo(m, init[l], mocap)
      {
        assert init[l] == samples[l];
      }
      RoutedPairsUnrouted(m, init, mocap);
      assert !RoutesTo(m, samples[|samples| - 1], mocap);
      if e != [] {
        assert (RoutedPairs(m, init) + e)[..|RoutedPairs(m, init)|] == RoutedPairs(m, init);
      } else {
        assert RoutedPairs(m, init) + e == RoutedPairs(m, init);
      }
    }
  }

  /** The updates written in one batch: a mocap body gets the position of
      the last sample routed to it, with the identity quaternion, and a
      body no sample routes to gets nothing. */
  lemma MocapUpdatesLastWins(m: seq<(MocapKey, string)>, samples: seq<TargetSample>, mocap: string)
    ensures (forall l :: 0 <= l < |samples| ==> !RoutesTo(m, samples[l], mocap))
              ==> DictGet(MocapUpdates(m, samples), mocap) == None
    ensures forall j :: 0 <= j < |samples| && RoutesTo(m, samples[j], mocap)
                        && (forall l :: j < l < |samples| ==> !RoutesTo(m, samples[l], mocap))
              ==> DictGet(MocapUpdates(m, samples), mocap) == Some(MocapUpdate(samples[j].position, IdentityQuat))
  {
    DictOfLastWins(RoutedPairs(m, samples), mocap);
    if forall l :: 0 <= l < |samples| ==> !RoutesTo(m, samples[l], mocap) {
      RoutedPairsUnrouted(m, samples, mocap);
    }
    forall j | 0 <= j < |samples| && RoutesTo(m, samples[j], mocap)
               && (forall l :: j < l < |samples| ==> !RoutesTo(m, samples[l], mocap))
      ensures DictGet(MocapUpdates(m, samples), mocap) == Some(MocapUpdate(samples[j].position, IdentityQuat))
    {
      RoutedPairsLastWins(m, samples, j, mocap);
    }
  }

  /** The dictionary `receive_and_apply_sph_targets` builds, keyed by
      mocap name. */
  function MocapUpdates(m: seq<(MocapKey, string)>, samples: seq<TargetSample>): seq<(string, MocapUpdate)>
  {
    DictOf(RoutedPairs(m, samples))
  }

  /** The loop of `receive_and_apply_sph_targets` that collects the
      updates; they are empty exactly when no sample was routed. */
  method RouteUpdates(m: seq<(MocapKey, string)>, samples: seq<TargetSample>) returns (updates: seq<(string, MocapUpdate)>)
    ensures updates == MocapUpdates(m, samples)
    ensures updates == [] <==> RoutedPairs(m, samples) == []
  {
    updates := [];
    for i := 0 to |samples|
      invariant updates == DictOf(RoutedPairs(m, samples[..i]))
    {
      assert samples[..i + 1][..i] == samples[..i];
      var e := RouteOne(m, samples[i]);
      DictOfStep(RoutedPairs(m, samples[..i]), e);
      updates := PutAll(updates, e);
    }
    assert samples[..|samples|] == samples;
    DictOfEmpty(RoutedPairs(m, samples));
  }

  /** The dictionary is empty exactly when no pair was assigned. */
  lemma DictOfEmpty<K(!new), V>(pairs: seq<(K, V)>)
    ensures DictOf(pairs) == [] <==> pairs == []
  {
    if pairs != [] {
      var k := pairs[|pairs| - 1].0;
      assert DictGet(DictOf(pairs), k).Some?;
    }
  }

  // ---------------------------------------------------------------------
  // Sending site positions (legacy path)

  /** The poses one body's points give: a point is sent when the host
      reports its site with a position, under the site's own name and the
      identity quaternion. */
  function SitePosesOf(pts: seq<ConnectionPoint>, host: map<string, Option<Vec3>>): seq<Pose>
  {
    if pts == [] then []
    else
      var pt := pts[|pts| - 1];
      SitePosesOf(pts[..|pts| - 1], host)
      + if pt.siteName in host && host[pt.siteName].Some?
        then [Pose(pt.siteName, host[pt.siteName].value, IdentityQuat)]
        else []
  }

  function SentPoses(rbs: seq<RigidBodyConfig>, host: map<string, Option<Vec3>>): seq<Pose>
  {
    if rbs == [] then []
    else SentPoses(rbs[..|rbs| - 1], host) + SitePosesOf(rbs[|rbs| - 1].connectionPoints, host)
  }

  /** A point's pose is sent exactly when the host reports a position for
      its site. */
  lemma {:induction false} SitePosesOfMembers(pts: seq<ConnectionPoint>, host: map<string, Option<Vec3>>, p: Pose)
    ensures p in SitePosesOf(pts, host) <==>
              exists i :: 0 <= i < |pts| && pts[i].siteName in host && host[pts[i].siteName].Some?
                          && p == Pose(pts[i].siteName, host[pts[i].siteName].value, IdentityQuat)
    decreases |pts|
  {
    if pts != [] {
      var init := pts[..|pts| - 1];
      SitePosesOfMembers(init, host, p);
      if exists i :: 0 <= i < |init| && init[i].siteName in host && host[init[i].siteName].Some?
                     && p == Pose(init[i].siteName, host[init[i].siteName].value, IdentityQuat) {
        var i :| 0 <= i < |init| && init[i].siteName in host && host[init[i].siteName].Some?
                 && p == Pose(init[i].siteName, host[init[i].siteName].value, IdentityQuat);
        assert pts[i] == init[i];
      }
      if exists i :: 0 <= i < |pts| && pts[i].siteName in host && host[pts[i].siteName].Some?
                     && p == Pose(pts[i].siteName, host[pts[i].siteName].value, IdentityQuat) {
        var i :| 0 <= i < |pts| && pts[i].siteName in host && host[pts[i].siteName].Some?
                 && p == Pose(pts[i].siteName, host[pts[i].siteName].value, IdentityQuat);
        if i < |init| {
          assert init[i] == pts[i];
        }
      }
    }
  }

  /** Collects the site poses of `send_positions_to_sph`, body by body. */
  method CollectSentPoses(rbs: seq<RigidBodyConfig>, host: map<string, Option<Vec3>>) returns (poses: seq<Pose>)
    ensures poses == SentPoses(rbs, host)
  {
    poses := [];
    for i := 0 to |rbs|
      invariant poses == SentPoses(rbs[..i], host)
    {
      assert rbs[..i + 1][..i] == rbs[..i];
      var pts := rbs[i].connectionPoints;
      ghost var before := poses;
      for j := 0 to |pts|
        invariant poses == before + SitePosesOf(pts[..j], host)
      {
        assert pts[..j + 1][..j] == pts[..j];
        var pt := pts[j];
        if pt.siteName in host && host[pt.siteName].Some? {
          poses := poses + [Pose(pt.siteName, host[pt.siteName].value, IdentityQuat)];
        }
      }
      assert pts[..|pts|] == pts;
    }
    assert rbs[..|rbs|] == rbs;
  }

  // ---------------------------------------------------------------------
  // Applying forces (legacy path)

  /** The host calls of the legacy force path: each sample's force mapped
      as (f0, f2, -f1), which is the Z-up to Y-up map, at the sample's
      site, with zero torque. */
  function LegacyForceCalls(batch: seq<ForceSample>): (r: seq<Applied>)
    ensures |r| == |batch|
  {
    if batch == [] then []
    else
      var f := batch[|batch| - 1];
      LegacyForceCalls(batch[..|batch| - 1]) + [Applied(f.objectId, Wrench(ZUpToYUp(f.force), Zero3))]
  }

  /** How many samples of a batch the legacy loop applies before a call
      raises: the length of the leading run whose sites the host accepts. */
  function AcceptedPrefix(batch: seq<ForceSample>, known: set<string>): (n: nat)
    ensures n <= |batch|
    ensures forall i :: 0 <= i < n ==> batch[i].objectId in known
    ensures n < |batch| ==> batch[n].objectId !in known
  {
    if batch == [] || batch[0].objectId !in known then 0 else 1 + AcceptedPrefix(batch[1..], known)
  }

  /** The host calls one legacy force batch makes: the samples before the
      first one whose call raises (every sample when the host accepts all
      their sites), or none without the site primitive. */
  function LegacyApplied(batch: seq<ForceSample>, hasSiteApi: bool, known: set<string>): (r: seq<Applied>)
    ensures hasSiteApi ==> r == LegacyForceCalls(batch[..AcceptedPrefix(batch, known)])
  {
    if hasSiteApi then LegacyForceCalls(batch[..AcceptedPrefix(batch, known)]) else []
  }

  /** A batch whose sites the host all accepts is applied in full. */
  lemma LegacyAppliesAllKnown(batch: seq<ForceSample>, known: set<string>)
    requires forall i :: 0 <= i < |batch| ==> batch[i].objectId in known
    ensures LegacyApplied(batch, true, known) == LegacyForceCalls(batch)
  {
    assert batch[..|batch|] == batch;
  }

  /** A call that raises abandons the rest of the batch: the samples after
      an unknown site are not applied, even on known sites. */
  lemma LegacyStopsAtUnknown(pre: seq<ForceSample>, f: ForceSample, post: seq<ForceSample>, known: set<string>)
    requires forall i :: 0 <= i < |pre| ==> pre[i].objectId in known
    requires f.objectId !in known
    ensures LegacyApplied(pre + [f] + post, true, known) == LegacyForceCalls(pre)
  {
    StopsAt(pre, f, post, known);
  }

  /** The accepted run of a batch ends at its first unknown site. */
  lemma {:induction false} StopsAt(pre: seq<ForceSample>, f: ForceSample, post: seq<ForceSample>, known: set<string>)
    requires forall i :: 0 <= i < |pre| ==> pre[i].objectId in known
    requires f.objectId !in known
    ensures AcceptedPrefix(pre + [f] + post, known) == |pre|
    ensures (pre + [f] + post)[..|pre|] == pre
  {
    var batch := pre + [f] + post;
    assert batch[..|pre|] == pre;
    if pre == [] {
      assert batch[0] == f;
    } else {
      assert batch[0] == pre[0];
      assert batch[1..] == pre[1..] + [f] + post;
      StopsAt(pre[1..], f, post, known);
    }
  }

  /** The legacy path never applies a torque. */
  lemma {:induction false} LegacyForcesHaveNoTorque(batch: seq<ForceSample>, s: string)
    ensures SumAt(LegacyForceCalls(batch), s).torque == Zero3
    decreases |batch|
  {
    if batch != [] {
      LegacyForcesHaveNoTorque(batch[..|batch| - 1], s);
    }
  }

  /** The legacy path keeps no ledger: a force received on two ticks is
      applied twice and the host accumulates both. */
  lemma LegacyForcesAccumulate(trace: seq<Applied>, f: ForceSample)
    ensures SumAt(trace + LegacyForceCalls([f]) + LegacyForceCalls([f]), f.objectId).force
         == Add3(Add3(SumAt(trace, f.objectId).force, ZUpToYUp(f.force)), ZUpToYUp(f.force))
  {
    var c := LegacyForceCalls([f]);
    assert [f][..0] == [];
    assert c == [Applied(f.objectId, Wrench(ZUpToYUp(f.force), Zero3))];
    SumAtAppend(trace + c, c, f.objectId);
    SumAtAppend(trace, c, f.objectId);
    assert c[..0] == [];
  }

  // ---------------------------------------------------------------------
  // The session controller

  datatype ConnState = Pending | Connecting | Connected | Failed

  /** A channel's publish/subscribe flags. */
  datatype Channel = Channel(publish: bool, subscribe: bool)

  /** What the connection attempt meets: the client configuration says
      the link is disabled; creating or starting the client fails (an
      import error, `initialize()` returning false or raising); or the
      client joins and reports the coupling mode and channel settings.
      For a join, whether the client object has a truthy `loop`
      attribute is an input too; the strategy's own configuration comes
      from the bridge's prepared configuration (`StrategyBodies`). */
  datatype InitScript =
    | Disabled
    | ClientFails
    | Joined(couplingMode: string, forceChannel: Option<Channel>, positionChannel: Option<Channel>,
             clientHasLoop: bool)

  /** The fourth argument the bridge hands the strategy's `initialize`:
      as written, the loop for every strategy; corrected, the loop only
      for the force/position strategy, whose `initialize` is the one that
      takes it. */
  function LoopArg(k: ModeKind, asWritten: bool): (r: Option<bool>)
    ensures !asWritten ==> (if r.Some? then 4 else 3) == InitArity(k)
    ensures asWritten ==> r.Some?
  {
    if asWritten || k == ForcePosition then Some(true) else None
  }

  /** `self.config.get('orcalink_bridge', {}).get(mode, {})`: the
      strategy's own section of the bridge configuration, an empty object
      when it has none; `.get` raises when the bridge configuration is not
      an object. */
  function ModeSection(bridge: Json, mode: string): (r: Outcome<Json>)
    ensures r.Raised? <==> !bridge.JObj?
    ensures r.Returned? && DictGet(bridge.fields, mode).None? ==> r.value == JObj([])
  {
    if bridge.JObj? then Returned(Get(bridge.fields, mode, JObj([]))) else Raised
  }

  /** The rigid bodies the named strategy is initialized with, or `Raised`
      when reading its section fails (the bridge configuration or the
      section is not an object). */
  function StrategyBodies(bridge: Json, mode: string): (r: Outcome<seq<BodyConfig>>)
    ensures r.Returned? <==> bridge.JObj? && Get(bridge.fields, mode, JObj([])).JObj?
  {
    match ModeSection(bridge, mode)
    case Raised => Raised
    case Returned(section) =>
      if ModeBodies(section).Some? then Returned(ModeBodies(section).value) else Raised
  }

  /** Each strategy reads its bodies from the section named after it:
      whatever the other strategies' sections hold, before or after it,
      the strategy gets the records written in its own. */
  lemma StrategyReadsOwnSection(before: seq<(string, Json)>, mode: string, other: seq<(string, Json)>,
                                bs: seq<BodyConfig>, after: seq<(string, Json)>)
    requires forall i :: 0 <= i < |after| ==> after[i].0 != mode
    ensures StrategyBodies(JObj(before + [(mode, JObj(other + [("rigid_bodies", BodiesJson(bs))]))] + after), mode)
         == Returned(bs)
  {
    var fields := before + [(mode, JObj(other + [("rigid_bodies", BodiesJson(bs))]))] + after;
    DictGetAppend(before + [(mode, JObj(other + [("rigid_bodies", BodiesJson(bs))]))], after, mode);
    DictGetAbsent(after, mode);
    ModeBodiesOfWritten(other, bs);
  }

  /** A strategy without a section of its own runs with no bodies. */
  lemma StrategyWithoutSection(fields: seq<(string, Json)>, mode: string)
    requires DictGet(fields, mode).None?
    ensures StrategyBodies(JObj(fields), mode) == Returned([])
  {
  }

  /** The call the bridge makes on the strategy it created for a join,
      with the strategy's section as its configuration. */
  function JoinCall(script: InitScript, section: Json, env: HostEnv, k: ModeKind, asWritten: bool): InitCall
    requires script.Joined?
  {
    InitCall(section, env, ClientInfo(true, script.clientHasLoop), LoopArg(k, asWritten))
  }

  /** As written, the call binds only for the force/position strategy:
      the other two raise a `TypeError` before their body runs. */
  lemma AsWrittenBindsOnlyForcePosition(script: InitScript, section: Json, env: HostEnv, k: ModeKind)
    requires script.Joined?
    ensures Binds(k, JoinCall(script, section, env, k, true)) <==> k == ForcePosition
  {
  }

  /** Corrected, the call binds for every strategy. */
  lemma CorrectedBindsAll(script: InitScript, section: Json, env: HostEnv, k: ModeKind)
    requires script.Joined?
    ensures Binds(k, JoinCall(script, section, env, k, false))
  {
  }

  /** The bridge's two indexes over the configured records: by object id,
      and by (body, site index). */
  function Indexed(rbs: seq<RigidBodyConfig>): (seq<(string, RigidBodyConfig)>, seq<(MocapKey, string)>)
  {
    var bodies := DictOf(BodyPairs(rbs));
    (bodies, DictOf(MapPairs(Values(bodies))))
  }

  method IndexBodies(rbs: seq<RigidBodyConfig>) returns (bodies: seq<(string, RigidBodyConfig)>, m: seq<(MocapKey, string)>)
    ensures (bodies, m) == Indexed(rbs)
  {
    bodies := ParseRigidBodies(rbs);
    m := BuildMocapMap(bodies);
  }

  /** `_create_mode` followed by the strategy's `initialize`: a fresh
      strategy of the given kind, initialized when the call binds. */
  method StartMode(k: ModeKind, call: InitCall) returns (m: CouplingMode, r: Outcome<bool>)
    requires call.env.Valid()
    ensures fresh(m) && m.kind == k && m.Valid() && m in m.Repr
    ensures fresh(m.Repr - {call.env, call.env.mocapPos, call.env.mocapQuat})
    ensures Accepts(k, call) <==> r.Returned?
    ensures r.Returned? ==>
              m.poses != null && m.clientPresent == call.client.present
              && m.poses.rigidBodies == ModeBodies(call.config).value
  {
    m := new CouplingMode(k);
    r := m.Initialize(call);
  }

  /** What the legacy path meets in one tick. */
  datatype LegacyTick = LegacyTick(
    forces: Option<seq<ForceSample>>,
    positions: Option<seq<TargetSample>>,
    sites: map<string, Option<Vec3>>,
    pause: Outcome<bool>)

  datatype LegacyPhase = ForcesIn | TargetsIn | PauseCheck | PositionsOut

  function LegacyRank(p: LegacyPhase): nat
  {
    match p
    case ForcesIn => 0
    case TargetsIn => 1
    case PauseCheck => 2
    case PositionsOut => 3
  }

  predicate Subscribes(c: Option<Channel>)
  {
    c.Some? && c.value.subscribe
  }

  predicate Publishes(c: Option<Channel>)
  {
    c.Some? && c.value.publish
  }

  /** The phases of one legacy tick: each subscription that is configured,
      the pause check, and the position publish when configured and not
      paused. */
  function LegacyPhases(forcesIn: bool, targetsIn: bool, publish: bool): (r: seq<LegacyPhase>)
    ensures forall i, j :: 0 <= i < j < |r| ==> LegacyRank(r[i]) < LegacyRank(r[j])
    ensures PauseCheck in r
    ensures PositionsOut in r <==> publish
  {
    (if forcesIn then [ForcesIn] else [])
    + (if targetsIn then [TargetsIn] else [])
    + [PauseCheck]
    + (if publish then [PositionsOut] else [])
  }

  /** The host force calls one legacy tick makes: the converted forces of
      the received batch, when forces are subscribed and the host offers
      the site primitive. */
  function LegacyForceEffect(subscribed: bool, hasSiteApi: bool, known: set<string>, t: LegacyTick): seq<Applied>
  {
    if subscribed && t.forces.Some? then LegacyApplied(t.forces.value, hasSiteApi, known) else []
  }

  /** The mocap batch one legacy tick hands the host: the routed updates,
      when targets are subscribed and some sample was routed. */
  function LegacyTargetEffect(subscribed: bool, m: seq<(MocapKey, string)>, t: LegacyTick): seq<seq<(string, MocapUpdate)>>
  {
    if subscribed && t.positions.Some? && RoutedPairs(m, t.positions.value) != [] then [MocapUpdates(m, t.positions.value)]
    else []
  }

  /** The pose batch one legacy tick publishes: the reported sites' poses,
      when the tick publishes and some site was reported. */
  function LegacyPublishEffect(publishes: bool, rigidBodies: seq<(string, RigidBodyConfig)>, t: LegacyTick): seq<seq<Pose>>
  {
    var poses := SentPoses(Values(rigidBodies), t.sites);
    if publishes && poses != [] then [poses] else []
  }

  class OrcaLinkBridge {
    const env: HostEnv
    const config: BridgeConfig
    /** object id -> rigid-body record, in insertion order. */
    var rigidBodies: seq<(string, RigidBodyConfig)>
    /** (body, site index) -> mocap body name, in insertion order. */
    var siteIndexToMocap: seq<(MocapKey, string)>
    var state: ConnState
    /** A client object exists. */
    var clientPresent: bool
    var forceChannel: Option<Channel>
    var positionChannel: Option<Channel>
    var mode: CouplingMode?

    /** Legacy host force calls. */
    ghost var siteForceCalls: seq<Applied>
    /** Legacy batched mocap updates handed to the host. */
    ghost var mocapBatches: seq<seq<(string, MocapUpdate)>>
    /** Legacy site-pose batches published. */
    ghost var published: seq<seq<Pose>>
    ghost var legacyPhases: seq<LegacyPhase>
    ghost var Repr: set<object>

    ghost predicate Valid()
      reads this, Repr
    {
      this in Repr && env in Repr && env.mocapPos in Repr && env.mocapQuat in Repr && env.Valid()
      && (mode != null ==> mode in Repr && mode.Repr <= Repr && this !in mode.Repr && mode.Valid())
      && (state == Pending ==> !clientPresent && mode == null)
    }

    /** The constructor after configuration: indexes the records by id and
        builds the (body, index) -> mocap map; no connection yet. */
    constructor (env: HostEnv, config: BridgeConfig)
      requires env.Valid()
      ensures Valid() && Repr == {this, env, env.mocapPos, env.mocapQuat}
      ensures this.env == env && this.config == config
      ensures (rigidBodies, siteIndexToMocap) == Indexed(config.rigidBodies)
      ensures state == Pending && !clientPresent && mode == null
      ensures forceChannel.None? && positionChannel.None?
      ensures siteForceCalls == [] && mocapBatches == [] && published == [] && legacyPhases == []
    {
      var bodies, m := IndexBodies(config.rigidBodies);
      this.env := env;
      this.config := config;
      rigidBodies := bodies;
      siteIndexToMocap := m;
      state := Pending;
      clientPresent := false;
      forceChannel := None;
      positionChannel := None;
      mode := null;
      siteForceCalls := [];
      mocapBatches := [];
      published := [];
      legacyPhases := [];
      Repr := {this, env, env.mocapPos, env.mocapQuat};
    }

    /** `is_connected`. */
    predicate IsConnected()
      reads this
    {
      state == Connected
    }

    /** `_init_orcalink`: nothing when the link is disabled; raises when
        the client cannot be created or started; otherwise records the
        channel settings, creates the named strategy (none for an unknown
        name, leaving the legacy path) and initializes it with
        `LoopArg(kind, asWritten)` as its fourth argument (three arguments
        where that is `None`).  When the strategy's `initialize` raises,
        so does this, and the strategy object stays set. */
    method InitOrcaLink(script: InitScript, asWritten: bool) returns (r: Outcome<()>)
      requires Valid() && state == Connecting && mode == null
      modifies this
      ensures Valid() && fresh(Repr - old(Repr))
      ensures state == old(state)
      ensures script.Disabled? ==> r.Returned? && mode == null && clientPresent == old(clientPresent)
      ensures script.ClientFails? ==> r == Raised && mode == null
      ensures script.Joined? ==>
                clientPresent && forceChannel == script.forceChannel && positionChannel == script.positionChannel
      ensures script.Joined? && CreateMode(script.couplingMode).None? ==> r.Returned? && mode == null
      ensures script.Joined? && CreateMode(script.couplingMode).Some? ==>
                var k := CreateMode(script.couplingMode).value;
                var section := ModeSection(config.bridge, script.couplingMode);
                mode != null && mode.kind == k
                && (r.Returned? <==> section.Returned? && Accepts(k, JoinCall(script, section.value, env, k, asWritten)))
                && (r.Returned? ==> mode.poses != null && mode.clientPresent
                                    && mode.poses.rigidBodies == StrategyBodies(config.bridge, script.couplingMode).value)
    {
      match script {
        case Disabled =>
          return Returned(());
        case ClientFails =>
          return Raised;
        case Joined(_, _, _, _) =>
          r := Join(script, asWritten);
      }
    }

    /** The part of `_init_orcalink` after the client has started. */
    method Join(script: InitScript, asWritten: bool) returns (r: Outcome<()>)
      requires Valid() && state == Connecting && mode == null && script.Joined?
      modifies this
      ensures Valid() && fresh(Repr - old(Repr))
      ensures state == old(state)
      ensures clientPresent && forceChannel == script.forceChannel && positionChannel == script.positionChannel
      ensures CreateMode(script.couplingMode).None? ==> r.Returned? && mode == null
      ensures CreateMode(script.couplingMode).Some? ==>
                var k := CreateMode(script.couplingMode).value;
                var section := ModeSection(config.bridge, script.couplingMode);
                mode != null && mode.kind == k
                && (r.Returned? <==> section.Returned? && Accepts(k, JoinCall(script, section.value, env, k, asWritten)))
                && (r.Returned? ==> mode.poses != null && mode.clientPresent
                                    && mode.poses.rigidBodies == StrategyBodies(config.bridge, script.couplingMode).value)
    {
      clientPresent := true;
      forceChannel := script.forceChannel;
      positionChannel := script.positionChannel;
      var kind := CreateMode(script.couplingMode);
      if kind.None? {
        return Returned(());
      }
      var section := ModeSection(config.bridge, script.couplingMode);
      if section.Raised? {
        var created := new CouplingMode(kind.value);
        mode := created;
        Repr := Repr + created.Repr;
        return Raised;
      }
      var m, res := StartMode(kind.value, JoinCall(script, section.value, env, kind.value, asWritten));
      mode := m;
      Repr := Repr + m.Repr;
      r := if res.Raised? then Raised else Returned(());
    }

    /** `connect()`: succeeds at once when connected, refuses when failed or
        already connecting, and otherwise tries exactly once, ending
        connected or failed.  Each strategy is initialized with the
        arguments its `initialize` accepts, so a join with a known
        strategy always connects. */
    method Connect(script: InitScript) returns (ok: bool)
      requires Valid()
      modifies Repr
      ensures Valid() && fresh(Repr - old(Repr))
      ensures old(state) != Pending ==>
                ok == (old(state) == Connected) && state == old(state) && mode == old(mode)
                && clientPresent == old(clientPresent)
      ensures old(state) == Pending ==> (ok <==> state == Connected) && (!ok <==> state == Failed)
      ensures old(state) == Pending && script.Disabled? ==> ok && !clientPresent && mode == null
      ensures old(state) == Pending && script.ClientFails? ==> !ok
      ensures old(state) == Pending && script.Joined? ==>
                clientPresent && forceChannel == script.forceChannel && positionChannel == script.positionChannel
                && (mode == null <==> CreateMode(script.couplingMode).None?)
                && (mode != null ==> mode.kind == CreateMode(script.couplingMode).value)
                && (ok <==> CreateMode(script.couplingMode).None?
                            || StrategyBodies(config.bridge, script.couplingMode).Returned?)
                && (ok && mode != null ==>
                      mode.poses != null && mode.clientPresent
                      && mode.poses.rigidBodies == StrategyBodies(config.bridge, script.couplingMode).value)
    {
      if state == Connected {
        return true;
      }
      if state == Failed || state == Connecting {
        return false;
      }
      state := Connecting;
      var r := InitOrcaLink(script, false);
      if script.Joined? && CreateMode(script.couplingMode).Some? {
        var k := CreateMode(script.couplingMode).value;
        var section := ModeSection(config.bridge, script.couplingMode);
        if section.Returned? {
          CorrectedBindsAll(script, section.value, env, k);
        }
      }
      if r.Raised? {
        state := Failed;
        return false;
      }
      state := Connected;
      return true;
    }

    /** `connect()` as written: every strategy's `initialize` is called
        with four arguments, so joining with the spring or multi-point
        strategy fails and the bridge ends `Failed`. */
    method ConnectAsWritten(script: InitScript) returns (ok: bool)
      requires Valid() && state == Pending
      modifies Repr
      ensures Valid() && fresh(Repr - old(Repr))
      ensures (ok <==> state == Connected) && (!ok <==> state == Failed)
      ensures script.Joined? && CreateMode(script.couplingMode).Some? ==>
                (ok <==> CreateMode(script.couplingMode).value == ForcePosition
                         && StrategyBodies(config.bridge, script.couplingMode).Returned?)
    {
      state := Connecting;
      var r := InitOrcaLink(script, true);
      if script.Joined? && CreateMode(script.couplingMode).Some? {
        var k := CreateMode(script.couplingMode).value;
        var section := ModeSection(config.bridge, script.couplingMode);
        if section.Returned? {
          AsWrittenBindsOnlyForcePosition(script, section.value, env, k);
        }
      }
      if r.Raised? {
        state := Failed;
        return false;
      }
      state := Connected;
      return true;
    }

    /** The legacy force path: the samples of a batch are applied in turn
        at their sites, mapped to the host's axes, with zero torque, and
        nothing is cancelled first.  The first call that raises (an
        unknown site, or any call without the host's site primitive)
        abandons the rest of the batch, and the error is caught. */
    method SubscribeAndApplyForces(fetched: Option<seq<ForceSample>>)
      modifies this
      ensures siteForceCalls == old(siteForceCalls)
                + (if fetched.Some? then LegacyApplied(fetched.value, env.hasSiteApi, env.knownSites) else [])
      ensures mocapBatches == old(mocapBatches) && published == old(published) && legacyPhases == old(legacyPhases)
      ensures state == old(state) && mode == old(mode) && Repr == old(Repr) && clientPresent == old(clientPresent)
      ensures rigidBodies == old(rigidBodies) && siteIndexToMocap == old(siteIndexToMocap)
      ensures forceChannel == old(forceChannel) && positionChannel == old(positionChannel)
    {
      if fetched.None? || fetched.value == [] || !env.hasSiteApi {
        return;
      }
      var batch := fetched.value;
      ghost var calls := siteForceCalls;
      var i := 0;
      while i < |batch| && batch[i].objectId in env.knownSites
        invariant i <= AcceptedPrefix(batch, env.knownSites)
        invariant calls == old(siteForceCalls) + LegacyForceCalls(batch[..i])
      {
        var f := batch[i];
        assert batch[..i + 1][..i] == batch[..i];
        calls := calls + [Applied(f.objectId, Wrench(ZUpToYUp(f.force), Zero3))];
        i := i + 1;
      }
      siteForceCalls := calls;
    }

    /** `receive_and_apply_sph_targets`: routes the samples through the
        map and hands the host one batch, only when some update survived. */
    method ReceiveAndApplySphTargets(positions: Option<seq<TargetSample>>)
      modifies this
      ensures positions.None? ==> mocapBatches == old(mocapBatches)
      ensures positions.Some? ==>
                mocapBatches == old(mocapBatches)
                  + (if RoutedPairs(siteIndexToMocap, positions.value) == [] then []
                     else [MocapUpdates(siteIndexToMocap, positions.value)])
      ensures siteForceCalls == old(siteForceCalls) && published == old(published) && legacyPhases == old(legacyPhases)
      ensures state == old(state) && mode == old(mode) && Repr == old(Repr) && clientPresent == old(clientPresent)
      ensures rigidBodies == old(rigidBodies) && siteIndexToMocap == old(siteIndexToMocap)
      ensures forceChannel == old(forceChannel) && positionChannel == old(positionChannel)
    {
      if positions.None? {
        return;
      }
      if positions.value == [] {
        assert RoutedPairs(siteIndexToMocap, positions.value) == [];
        return;
      }
      var updates := RouteUpdates(siteIndexToMocap, positions.value);
      if updates != [] {
        mocapBatches := mocapBatches + [updates];
      }
    }

    /** `send_positions_to_sph`: one pose per configured site the host
        reports a position for, published only when there is one. */
    method SendPositionsToSph(sites: map<string, Option<Vec3>>)
      modifies this
      ensures var poses := SentPoses(Values(rigidBodies), sites);
              published == old(published) + (if poses == [] then [] else [poses])
      ensures siteForceCalls == old(siteForceCalls) && mocapBatches == old(mocapBatches) && legacyPhases == old(legacyPhases)
      ensures state == old(state) && mode == old(mode) && Repr == old(Repr) && clientPresent == old(clientPresent)
      ensures rigidBodies == old(rigidBodies) && siteIndexToMocap == old(siteIndexToMocap)
      ensures forceChannel == old(forceChannel) && positionChannel == old(positionChannel)
    {
      var poses := CollectSentPoses(Values(rigidBodies), sites);
      if poses != [] {
        published := published + [poses];
      }
    }

    /** `_legacy_step`: the configured subscriptions, then the pause
        check (whose failure raises), then the configured publish unless
        paused. */
    method LegacyStep(t: LegacyTick) returns (r: Outcome<bool>)
      modifies this
      ensures r == (match t.pause case Raised => Raised case Returned(p) => Returned(!p))
      ensures legacyPhases == old(legacyPhases)
                + LegacyPhases(Subscribes(forceChannel), Subscribes(positionChannel),
                               r == Returned(true) && Publishes(positionChannel))
      ensures siteForceCalls == old(siteForceCalls) + LegacyForceEffect(Subscribes(forceChannel), env.hasSiteApi, env.knownSites, t)
      ensures mocapBatches == old(mocapBatches) + LegacyTargetEffect(Subscribes(positionChannel), siteIndexToMocap, t)
      ensures published == old(published)
                + LegacyPublishEffect(r == Returned(true) && Publishes(positionChannel), rigidBodies, t)
      ensures state == old(state) && mode == old(mode) && Repr == old(Repr) && clientPresent == old(clientPresent)
      ensures rigidBodies == old(rigidBodies) && siteIndexToMocap == old(siteIndexToMocap)
      ensures forceChannel == old(forceChannel) && positionChannel == old(positionChannel)
    {
      var forcesIn := Subscribes(forceChannel);
      var targetsIn := Subscribes(positionChannel);
      if forcesIn {
        SubscribeAndApplyForces(t.forces);
      }
      assert siteForceCalls == old(siteForceCalls) + LegacyForceEffect(forcesIn, env.hasSiteApi, env.knownSites, t);
      if targetsIn {
        ReceiveAndApplySphTargets(t.positions);
      }
      assert mocapBatches == old(mocapBatches) + LegacyTargetEffect(targetsIn, siteIndexToMocap, t);
      match t.pause {
        case Raised =>
          legacyPhases := legacyPhases + LegacyPhases(forcesIn, targetsIn, false);
          return Raised;
        case Returned(pause) =>
          if pause {
            legacyPhases := legacyPhases + LegacyPhases(forcesIn, targetsIn, false);
            return Returned(false);
          }
      }
      var publish := Publishes(positionChannel);
      if publish {
        SendPositionsToSph(t.sites);
      }
      legacyPhases := legacyPhases + LegacyPhases(forcesIn, targetsIn, publish);
      return Returned(true);
    }

    /** `step()`: `False` unless connected; the readiness query runs outside
        the exception handler, so its failure (or a missing client)
        escapes; otherwise the strategy's or the legacy tick's result,
        with any exception turned into `False`. */
    method Step(ready: Outcome<bool>, t: Tick, lt: LegacyTick) returns (r: Outcome<bool>)
      requires Valid()
      modifies Repr
      ensures Valid() && Repr == old(Repr)
      ensures state == old(state) && mode == old(mode)
      ensures state != Connected ==> r == Returned(false)
      ensures state == Connected && (!clientPresent || ready.Raised?) ==> r == Raised
      ensures state == Connected && clientPresent && ready == Returned(false) ==> r == Returned(false)
      ensures state == Connected && clientPresent && ready == Returned(true) && mode != null ==>
                r == (match GateResult(mode.clientPresent, t.pause)
                      case Raised => Returned(false)
                      case Returned(b) => Returned(b))
      ensures state == Connected && clientPresent && ready == Returned(true) && mode == null ==>
                r == (match lt.pause case Raised => Returned(false) case Returned(p) => Returned(!p))
      ensures r.Raised? ==> state == Connected
      ensures clientPresent == old(clientPresent) && rigidBodies == old(rigidBodies)
      ensures siteIndexToMocap == old(siteIndexToMocap)
      ensures forceChannel == old(forceChannel) && positionChannel == old(positionChannel)
      // a tick that does not reach the strategy or the legacy path changes nothing
      ensures !(state == Connected && clientPresent && ready == Returned(true)) ==> unchanged(Repr)
      // the strategy's tick, as `CouplingMode.Step` gives it
      ensures mode != null ==> mode.poses == old(mode.poses) && mode.forces == old(mode.forces)
      ensures state == Connected && clientPresent && ready == Returned(true) && mode != null ==>
                unchanged(this)
                && mode.phases == old(mode.phases)
                     + TickPhases(mode.HasInbound(), Queried(mode.clientPresent, t.pause),
                                  r == Returned(true) && mode.poses != null)
                && (mode.poses != null && r != Returned(true) ==> unchanged(mode.poses))
                && (mode.poses != null && r == Returned(true) && mode.poses.hasClient ==>
                      mode.poses.published == old(mode.poses.published)
                        + (var ps := OutboundPoses(mode.kind, mode.poses.rigidBodies, t); if ps == [] then [] else [ps]))
      ensures state == Connected && clientPresent && ready == Returned(true) && mode != null
              && mode.kind == MultiPointForce && mode.forces != null ==>
                mode.forces.bodyCalls == old(mode.forces.bodyCalls)
                && mode.forces.ledger == (if !mode.forces.Fires(t.forces) then old(mode.forces.ledger)
                                          else if mode.forces.hasSiteApi then RecordSum(t.forces.value)
                                          else [])
      ensures state == Connected && clientPresent && ready == Returned(true) && mode != null
              && mode.kind == ForcePosition && mode.forces != null ==>
                mode.forces.ledger == old(mode.forces.ledger) && mode.forces.siteCalls == old(mode.forces.siteCalls)
                && mode.forces.bodyCalls == old(mode.forces.bodyCalls)
                     + (if mode.forces.hasClient && mode.forces.hasBodyApi && t.forces.Some? then BodyCalls(t.forces.value) else [])
      // the legacy tick, as `LegacyStep` gives it
      ensures state == Connected && clientPresent && ready == Returned(true) && mode == null ==>
                legacyPhases == old(legacyPhases)
                  + LegacyPhases(Subscribes(forceChannel), Subscribes(positionChannel),
                                 r == Returned(true) && Publishes(positionChannel))
                && siteForceCalls == old(siteForceCalls) + LegacyForceEffect(Subscribes(forceChannel), env.hasSiteApi, env.knownSites, lt)
                && mocapBatches == old(mocapBatches) + LegacyTargetEffect(Subscribes(positionChannel), siteIndexToMocap, lt)
                && published == old(published)
                     + LegacyPublishEffect(r == Returned(true) && Publishes(positionChannel), rigidBodies, lt)
    {
      if state != Connected {
        return Returned(false);
      }
      if !clientPresent {
        return Raised;
      }
      match ready {
        case Raised =>
          return Raised;
        case Returned(b) =>
          if !b {
            return Returned(false);
          }
      }
      if mode != null {
        var mr := mode.Step(t);
        r := if mr.Raised? then Returned(false) else mr;
      } else {
        var lr := LegacyStep(lt);
        r := if lr.Raised? then Returned(false) else lr;
      }
    }
  }

  /** No path leaves `Failed`: whatever the remote does, a failed bridge
      stays failed and refuses to connect. */
  method FailedIsFinal(b: OrcaLinkBridge, script: InitScript) returns (ok: bool)
    requires b.Valid() && b.state == Failed
    modifies b.Repr
    ensures !ok && b.state == Failed
  {
    ok := b.Connect(script);
  }
}
