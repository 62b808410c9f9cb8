// The fluid scene generator: it finds the bodies the host model marks for
// the fluid solver, caches their mesh geometry, and writes the solver's
// scene: rigid bodies (optionally after a container wall) and, for each
// dynamic body, the anchor points tying it to its proxy bodies.
//
// The host model is a value: its geoms (each with the name of the body it
// belongs to), its meshes' attributes, its site and body names, the world
// positions the host reports for sites and bodies, and the body masses.

module Scene {
  import opened Core
  import opened Strings
  import opened Ordering
  import opened Axes

  const StaticGeomMarker: string := "_SPH_STATIC_MESH_GEOM"
  const DynamicGeomMarker: string := "_SPH_MESH_GEOM"
  const SiteInfix: string := "_SPH_SITE_"
  const MocapSiteInfix: string := "_SPH_MOCAP_SITE_"
  const MocapBodyInfix: string := "_SPH_MOCAP_"

  const UnitScale: Json := JList([JNum(1), JNum(1), JNum(1)])

  /** What the generator reads from the host. `geoms` is `None` when the
      geom table is not available; a geom without a body name has "". */
  datatype HostScene = HostScene(
    geoms: Option<seq<(string, string)>>,
    meshes: seq<(string, seq<(string, Json)>)>,
    siteNames: seq<string>,
    bodyNames: seq<string>,
    sitePositions: seq<(string, Vec3)>,
    bodyPositions: seq<(string, Vec3)>,
    masses: seq<(string, real)>)

  // ---------------------------------------------------------------------
  // identify_sph_bodies

  datatype GeomKind = StaticGeom | DynamicGeom | OtherGeom

  /** A geom is static when its name holds the static marker, dynamic when
      it holds the dynamic marker but not the static one. */
  function Classify(geomName: string): GeomKind
  {
    if Contains(geomName, StaticGeomMarker) then StaticGeom
    else if Contains(geomName, DynamicGeomMarker) then DynamicGeom
    else OtherGeom
  }

  /** The mesh a marked body's geometry is looked up under. */
  function MeshNameFor(body: string, isStatic: bool): string
  {
    body + (if isStatic then "_SPH_STATIC_MESH" else "_SPH_MESH")
  }

  /** The cached geometry of a body: mesh file, scale and whether the body
      is static. */
  datatype GeomInfo = GeomInfo(meshName: Json, scale: Json, isStatic: bool)

  /** A mesh's scale; a missing or empty one is `[1, 1, 1]`. */
  function ScaleOf(attrs: seq<(string, Json)>): (r: Json)
    ensures Truthy(r)
    ensures Truthy(Get(attrs, "Scale", UnitScale)) ==> r == Get(attrs, "Scale", UnitScale)
  {
    var s := Get(attrs, "Scale", UnitScale);
    if Truthy(s) then s else UnitScale
  }

  /** Whether geom `g` marks its body: a marked name and a body name. */
  predicate Marks(g: (string, string))
  {
    Classify(g.0) != OtherGeom && g.1 != ""
  }

  /** The bodies marked by some geom. */
  function SphBodies(geoms: seq<(string, string)>): set<string>
  {
    if geoms == [] then {}
    else
      var g := geoms[|geoms| - 1];
      SphBodies(geoms[..|geoms| - 1]) + (if Marks(g) then {g.1} else {})
  }

  /** The cache after visiting one more geom: a marked geom whose mesh is
      found (with some attributes) sets its body's entry. */
  function CacheStep(cache: map<string, GeomInfo>, g: (string, string), meshes: seq<(string, seq<(string, Json)>)>)
    : map<string, GeomInfo>
  {
    if !Marks(g) then cache
    else
      var isStatic := Classify(g.0) == StaticGeom;
      match DictGet(meshes, MeshNameFor(g.1, isStatic))
      case Some(attrs) =>
        if attrs != [] then cache[g.1 := GeomInfo(Get(attrs, "File", JStr("")), ScaleOf(attrs), isStatic)]
        else cache
      case None => cache
  }

  function GeomCache(geoms: seq<(string, string)>, meshes: seq<(string, seq<(string, Json)>)>): map<string, GeomInfo>
  {
    if geoms == [] then map[]
    else CacheStep(GeomCache(geoms[..|geoms| - 1], meshes), geoms[|geoms| - 1], meshes)
  }

  /** The marked bodies of the host (none when its geoms are not
      available). */
  function SphNames(host: HostScene): set<string>
  {
    if host.geoms.None? then {} else SphBodies(host.geoms.value)
  }

  /** The geometry cache `identify_sph_bodies` leaves behind. */
  function CacheOf(host: HostScene): map<string, GeomInfo>
  {
    if host.geoms.None? then map[] else GeomCache(host.geoms.value, host.meshes)
  }

  /** Every cached body is a marked body whose mesh, named after the
      body and its kind, was found with attributes; the entry holds that
      mesh's file and a non-empty scale. */
  lemma {:induction false} CacheEntriesFromMeshes(geoms: seq<(string, string)>, meshes: seq<(string, seq<(string, Json)>)>, b: string)
    requires b in GeomCache(geoms, meshes)
    ensures b in SphBodies(geoms) && b != ""
    ensures var info := GeomCache(geoms, meshes)[b];
            var mesh := DictGet(meshes, MeshNameFor(b, info.isStatic));
            mesh.Some? && mesh.value != [] &&
            info.meshName == Get(mesh.value, "File", JStr("")) && info.scale == ScaleOf(mesh.value) && Truthy(info.scale)
    decreases |geoms|
  {
    var init := geoms[..|geoms| - 1];
    var prev := GeomCache(init, meshes);
    if b in prev && GeomCache(geoms, meshes)[b] == prev[b] {
      CacheEntriesFromMeshes(init, meshes, b);
    }
  }

  /** The marked body names are never empty. */
  lemma {:induction false} SphBodiesNamed(geoms: seq<(string, string)>)
    ensures "" !in SphBodies(geoms)
    decreases |geoms|
  {
    if geoms != [] {
      SphBodiesNamed(geoms[..|geoms| - 1]);
    }
  }

  // ---------------------------------------------------------------------
  // Extracting indexed sites and proxy bodies

  /** A name with the index parsed from its suffix. */
  datatype Indexed = Indexed(name: string, index: int)

  function EntryIndex(e: Indexed): int
  {
    e.index
  }

  /** `name.replace(prefix, "")`, parsed as a decimal index. */
  function SuffixIndex(name: string, prefix: string): Option<nat>
    requires |prefix| > 0
  {
    ParseDecimal(ReplaceAll(name, prefix, ""))
  }

  /** The names with the prefix whose suffix is an index, in order. */
  function Candidates(names: seq<string>, prefix: string): seq<Indexed>
    requires |prefix| > 0
  {
    if names == [] then []
    else
      var last := names[|names| - 1];
      Candidates(names[..|names| - 1], prefix) +
      (if StartsWith(last, prefix) && SuffixIndex(last, prefix).Some?
       then [Indexed(last, SuffixIndex(last, prefix).value)] else [])
  }

  /** An extracted entry is exactly a listed name with the prefix whose
      suffix parses, paired with that index. */
  lemma {:induction false} CandidatesMembers(names: seq<string>, prefix: string, e: Indexed)
    requires |prefix| > 0
    ensures e in Candidates(names, prefix) <==>
            e.name in names && StartsWith(e.name, prefix) &&
            SuffixIndex(e.name, prefix).Some? && SuffixIndex(e.name, prefix).value == e.index
    decreases |names|
  {
    if names != [] {
      var init := names[..|names| - 1];
      CandidatesMembers(init, prefix, e);
      assert names == init + [names[|names| - 1]];
    }
  }

  /** Sorting keeps exactly the candidates. */
  lemma SortedCandidatesMembers(names: seq<string>, prefix: string, e: Indexed)
    requires |prefix| > 0
    ensures e in SortByKey(Candidates(names, prefix), EntryIndex) <==> e in Candidates(names, prefix)
  {
    var c := Candidates(names, prefix);
    assert e in c <==> e in multiset(c);
    assert e in SortByKey(c, EntryIndex) <==> e in multiset(SortByKey(c, EntryIndex));
  }

  /** A name written `<prefix><index:03d>` reads back its index, when the
      prefix ends in a non-digit. */
  lemma ConventionalIndex(prefix: string, index: nat)
    requires |prefix| > 0 && !IsDigit(prefix[|prefix| - 1])
    ensures StartsWith(prefix + Format03(index), prefix)
    ensures SuffixIndex(prefix + Format03(index), prefix) == Some(index)
  {
    Format03RoundTrip(index);
    NoOccurrenceInDigits(Format03(index), prefix, |prefix| - 1);
    ReplaceAllStripsPrefix(prefix, Format03(index));
    assert (prefix + Format03(index))[..|prefix|] == prefix;
  }

  /** Every listed name `<prefix><index:03d>` is extracted with its index. */
  lemma ConventionalNameExtracted(names: seq<string>, prefix: string, index: nat)
    requires |prefix| > 0 && !IsDigit(prefix[|prefix| - 1])
    requires prefix + Format03(index) in names
    ensures Indexed(prefix + Format03(index), index) in SortByKey(Candidates(names, prefix), EntryIndex)
  {
    ConventionalIndex(prefix, index);
    CandidatesMembers(names, prefix, Indexed(prefix + Format03(index), index));
    SortedCandidatesMembers(names, prefix, Indexed(prefix + Format03(index), index));
  }

  /** The extractors' loop: names with the prefix whose suffix is an
      index, then a stable sort by index. */
  method ExtractIndexed(names: seq<string>, prefix: string) returns (r: seq<Indexed>)
    requires |prefix| > 0
    ensures r == SortByKey(Candidates(names, prefix), EntryIndex)
  {
    r := [];
    for i := 0 to |names|
      invariant r == Candidates(names[..i], prefix)
    {
      assert names[..i + 1][..i] == names[..i];
      var name := names[i];
      if StartsWith(name, prefix) {
        var index := SuffixIndex(name, prefix);
        if index.Some? {
          r := r + [Indexed(name, index.value)];
        }
      }
    }
    assert names[..|names|] == names;
    r := SortByKey(r, EntryIndex);
  }

  /** A proxy body for a proxy site: its name, index and the site's world
      position (Z up). */
  datatype ProxyBody = ProxyBody(mocapBodyName: string, index: int, worldPosition: Vec3)

  function ProxyBodyName(body: string, index: int): string
  {
    body + MocapBodyInfix + Format03(index)
  }

  function ProxyBodies(body: string, entries: seq<Indexed>, positions: seq<(string, Vec3)>): seq<ProxyBody>
  {
    seq(|entries|, i requires 0 <= i < |entries| =>
      ProxyBody(ProxyBodyName(body, entries[i].index), entries[i].index, DictGet(positions, entries[i].name).GetOr(Zero3)))
  }

  /** A point of an anchor set, in the solver's frame (Y up). */
  datatype AnchorPoint = AnchorPoint(pointId: string, position: Vec3)

  /** The anchor points of the extracted entries: each named after its
      site or body and placed at its converted world position (the origin
      when the host did not report one). */
  function PointsOf(entries: seq<Indexed>, positions: seq<(string, Vec3)>): seq<AnchorPoint>
  {
    seq(|entries|, i requires 0 <= i < |entries| =>
      AnchorPoint(entries[i].name, ZUpToYUp(DictGet(positions, entries[i].name).GetOr(Zero3))))
  }

  method ConvertPoints(entries: seq<Indexed>, positions: seq<(string, Vec3)>) returns (points: seq<AnchorPoint>)
    ensures points == PointsOf(entries, positions)
  {
    points := [];
    for i := 0 to |entries|
      invariant |points| == i
      invariant forall k :: 0 <= k < i ==> points[k] == PointsOf(entries, positions)[k]
    {
      var e := entries[i];
      points := points + [AnchorPoint(e.name, ZUpToYUp(DictGet(positions, e.name).GetOr(Zero3)))];
    }
  }

  // ---------------------------------------------------------------------
  // generate_anchor_points

  /** The spring parameters of an anchor set as configured. */
  datatype AnchorSet = AnchorSet(rigidBodyId: int, objectName: string, stiffness: Json, damping: Json,
                                 sitePoints: seq<AnchorPoint>, mocapPoints: seq<AnchorPoint>)

  /** `orcalink_bridge.shared_modules.spring_force` of the run-time
      configuration: `Raised` when a step on the way is not an object, or
      the spring section is missing or empty. */
  function SpringForce(runtime: seq<(string, Json)>): (r: Outcome<seq<(string, Json)>>)
    ensures r.Returned? ==> r.value != []
  {
    var bridge := Get(runtime, "orcalink_bridge", JObj([]));
    if !bridge.JObj? then Raised
    else
      var shared := Get(bridge.fields, "shared_modules", JObj([]));
      if !shared.JObj? then Raised
      else
        var spring := Get(shared.fields, "spring_force", JObj([]));
        if spring.JObj? && spring.fields != [] then Returned(spring.fields) else Raised
  }

  /** `d.get(key)`, with `None` for a missing key and for `null`. */
  function Param(fields: seq<(string, Json)>, key: string): (r: Option<Json>)
    ensures r.Some? ==> r.value != JNull && DictGet(fields, key) == Some(r.value)
    ensures r.None? ==> DictGet(fields, key).None? || DictGet(fields, key) == Some(JNull)
  {
    match DictGet(fields, key)
    case Some(v) => if v == JNull then None else Some(v)
    case None => None
  }

  function SiteEntries(host: HostScene, body: string): seq<Indexed>
  {
    SortByKey(Candidates(host.siteNames, body + SiteInfix), EntryIndex)
  }

  function MocapEntries(host: HostScene, body: string): seq<Indexed>
  {
    SortByKey(Candidates(host.bodyNames, body + MocapBodyInfix), EntryIndex)
  }

  /** The anchor set of a body: none without site or proxy-body points;
      otherwise `Raised` unless the spring section gives both the
      stiffness and the damping. */
  function AnchorSetFor(host: HostScene, runtime: seq<(string, Json)>, body: string, rbId: int): Outcome<Option<AnchorSet>>
  {
    var sites := PointsOf(SiteEntries(host, body), host.sitePositions);
    var mocaps := PointsOf(MocapEntries(host, body), host.bodyPositions);
    if sites == [] && mocaps == [] then Returned(None)
    else
      match SpringForce(runtime)
      case Raised => Raised
      case Returned(spring) =>
        var k, c := Param(spring, "linear_spring_stiffness"), Param(spring, "linear_damping_coefficient");
        if k.None? || c.None? then Raised
        else Returned(Some(AnchorSet(rbId, body, k.value, c.value, sites, mocaps)))
  }

  /** When an anchor set is produced: nothing exactly when the body has
      neither site nor proxy-body points; otherwise a failure exactly when
      the spring parameters are incomplete. */
  lemma AnchorSetOutcome(host: HostScene, runtime: seq<(string, Json)>, body: string, rbId: int)
    ensures var r := AnchorSetFor(host, runtime, body, rbId);
            var points := |SiteEntries(host, body)| + |MocapEntries(host, body)|;
            var spring := SpringForce(runtime);
            (r == Returned(None) <==> points == 0) &&
            (r.Raised? <==>
               (points > 0 &&
                (spring.Raised? ||
                 Param(spring.value, "linear_spring_stiffness").None? ||
                 Param(spring.value, "linear_damping_coefficient").None?)))
  {
    var sites := PointsOf(SiteEntries(host, body), host.sitePositions);
    var mocaps := PointsOf(MocapEntries(host, body), host.bodyPositions);
    assert |sites| + |mocaps| == |SiteEntries(host, body)| + |MocapEntries(host, body)|;
  }

  /** A produced anchor set carries the body's id and name, the configured
      parameters, and one point per extracted site and proxy body, named
      after it, in index order. */
  lemma AnchorSetContents(host: HostScene, runtime: seq<(string, Json)>, body: string, rbId: int)
    requires AnchorSetFor(host, runtime, body, rbId).Returned?
    requires AnchorSetFor(host, runtime, body, rbId).value.Some?
    ensures var a := AnchorSetFor(host, runtime, body, rbId).value.value;
            var spring := SpringForce(runtime);
            a.rigidBodyId == rbId && a.objectName == body && spring.Returned? &&
            Some(a.stiffness) == Param(spring.value, "linear_spring_stiffness") &&
            Some(a.damping) == Param(spring.value, "linear_damping_coefficient") &&
            |a.sitePoints| == |SiteEntries(host, body)| && |a.mocapPoints| == |MocapEntries(host, body)| &&
            (forall i :: 0 <= i < |a.sitePoints| ==> a.sitePoints[i].pointId == SiteEntries(host, body)[i].name) &&
            (forall i :: 0 <= i < |a.mocapPoints| ==> a.mocapPoints[i].pointId == MocapEntries(host, body)[i].name)
  {
  }

  // ---------------------------------------------------------------------
  // identify_sph_bodies, as a list

  /** The marked bodies in name order, each once. */
  function SortedBodies(geoms: seq<(string, string)>): (r: seq<string>)
    ensures StrictlySorted(r)
    ensures forall y :: y in r <==> y in SphBodies(geoms)
  {
    if geoms == [] then []
    else
      var g := geoms[|geoms| - 1];
      var prev := SortedBodies(geoms[..|geoms| - 1]);
      if Marks(g) then InsertSorted(g.1, prev) else prev
  }

  /** The list `identify_sph_bodies` returns. */
  function Identified(host: HostScene): (r: seq<string>)
    ensures StrictlySorted(r)
    ensures forall y :: y in r <==> y in SphNames(host)
  {
    if host.geoms.None? then [] else SortedBodies(host.geoms.value)
  }

  // ---------------------------------------------------------------------
  // extract_body_info and extract_rigid_body_config

  /** A rigid body of the solver's scene (the fields the generator derives;
      the fixed colour, velocity, collision and map fields are left out). */
  datatype RigidBody = RigidBody(id: int, entityName: string, geometryFile: Json, isDynamic: Json,
                                 density: Json, mass: real, translation: Vec3, scale: Json)

  /** The defaults every generated rigid body draws on. */
  function RigidBodyDefaults(config: seq<(string, Json)>): Json
  {
    Get(config, "default_rigid_body", JObj([]))
  }

  /** The configuration of one marked body: `Raised` when its geometry was
      not cached or the defaults are not an object. A static body is
      never dynamic; a dynamic one is as the defaults say (dynamic when
      they are silent). */
  function RigidBodyFor(host: HostScene, config: seq<(string, Json)>, cache: map<string, GeomInfo>,
                        body: string, rbId: int): (r: Outcome<RigidBody>)
    ensures r.Raised? <==> body !in cache || !RigidBodyDefaults(config).JObj?
    ensures r.Returned? ==>
              r.value.id == rbId && r.value.entityName == body &&
              r.value.geometryFile == cache[body].meshName &&
              (cache[body].isStatic ==> r.value.isDynamic == JBool(false)) &&
              (!cache[body].isStatic ==> r.value.isDynamic == Get(RigidBodyDefaults(config).fields, "isDynamic", JBool(true))) &&
              r.value.translation == ZUpToYUp(DictGet(host.bodyPositions, body).GetOr(Zero3)) &&
              r.value.mass == DictGet(host.masses, body).GetOr(1.0) &&
              Truthy(r.value.scale)
  {
    if body !in cache then Raised
    else
      var info := cache[body];
      var defaults := RigidBodyDefaults(config);
      if !defaults.JObj? then Raised
      else
        var isDynamic := if info.isStatic then JBool(false) else Get(defaults.fields, "isDynamic", JBool(true));
        Returned(RigidBody(rbId, body, info.meshName, isDynamic, Get(defaults.fields, "density", JNum(500)),
                           DictGet(host.masses, body).GetOr(1.0),
                           ZUpToYUp(DictGet(host.bodyPositions, body).GetOr(Zero3)),
                           if Truthy(info.scale) then info.scale else UnitScale))
  }

  /** The rigid bodies of `generate_scene_json`, numbered from 1 in list
      order: `Raised` exactly when some body's configuration fails. */
  function MainBodies(host: HostScene, config: seq<(string, Json)>, cache: map<string, GeomInfo>,
                      bodies: seq<string>): (r: Outcome<seq<RigidBody>>)
    ensures r.Raised? <==> exists i :: 0 <= i < |bodies| && RigidBodyFor(host, config, cache, bodies[i], i + 1).Raised?
    ensures r.Returned? ==>
              |r.value| == |bodies| &&
              forall i :: 0 <= i < |bodies| ==> Returned(r.value[i]) == RigidBodyFor(host, config, cache, bodies[i], i + 1)
  {
    if bodies == [] then Returned([])
    else
      var n := |bodies|;
      match MainBodies(host, config, cache, bodies[..n - 1])
      case Raised => Raised
      case Returned(prev) =>
        match RigidBodyFor(host, config, cache, bodies[n - 1], n)
        case Raised => Raised
        case Returned(rb) => Returned(prev + [rb])
  }

  // ---------------------------------------------------------------------
  // generate_scene_json

  /** A template section: the configured value, or the built-in default. */
  datatype Section = Given(value: Json) | Builtin

  function SectionOf(template: seq<(string, Json)>, key: string): Section
  {
    match DictGet(template, key)
    case Some(v) => Given(v)
    case None => Builtin
  }

  function SceneTemplate(config: seq<(string, Json)>): Json
  {
    Get(config, "scene_template", JObj([]))
  }

  /** `generate_scene_json`'s result; without marked bodies it holds only
      the (empty) rigid bodies. */
  datatype SceneJson = SceneJson(configuration: Option<Section>, materials: Option<Section>, rigidBodies: seq<RigidBody>)

  function SceneJsonOf(host: HostScene, config: seq<(string, Json)>): Outcome<SceneJson>
  {
    var bodies := Identified(host);
    if bodies == [] then Returned(SceneJson(None, None, []))
    else
      match MainBodies(host, config, CacheOf(host), bodies)
      case Raised => Raised
      case Returned(rbs) =>
        var template := SceneTemplate(config);
        if !template.JObj? then Raised
        else Returned(SceneJson(Some(SectionOf(template.fields, "Configuration")),
                                Some(SectionOf(template.fields, "Materials")), rbs))
  }

  /** `generate_scene_json` fails exactly when there are marked bodies and
      one of them has no cached geometry, or the rigid-body defaults or the
      scene template are not objects. */
  lemma SceneJsonRaises(host: HostScene, config: seq<(string, Json)>)
    ensures SceneJsonOf(host, config).Raised? <==>
            SphNames(host) != {} &&
            ((exists b :: b in SphNames(host) && b !in CacheOf(host)) ||
             !RigidBodyDefaults(config).JObj? || !SceneTemplate(config).JObj?)
  {
    var bodies := Identified(host);
    if bodies == [] {
      assert forall b :: b !in SphNames(host) by {
        forall b ensures b !in SphNames(host) {
          assert b !in bodies;
        }
      }
    } else {
      assert bodies[0] in SphNames(host);
      if exists b :: b in SphNames(host) && b !in CacheOf(host) {
        var b :| b in SphNames(host) && b !in CacheOf(host);
        assert b in bodies;
        var i :| 0 <= i < |bodies| && bodies[i] == b;
        assert RigidBodyFor(host, config, CacheOf(host), bodies[i], i + 1).Raised?;
      } else if !RigidBodyDefaults(config).JObj? {
        assert RigidBodyFor(host, config, CacheOf(host), bodies[0], 1).Raised?;
      }
    }
  }

  /** The scene's rigid bodies are the marked bodies in name order,
      numbered 1, 2, ...; each is dynamic only if its geometry is not
      static. */
  lemma SceneJsonBodies(host: HostScene, config: seq<(string, Json)>, i: int)
    requires SceneJsonOf(host, config).Returned?
    requires 0 <= i < |SceneJsonOf(host, config).value.rigidBodies|
    ensures var rb := SceneJsonOf(host, config).value.rigidBodies[i];
            i < |Identified(host)| && rb.entityName == Identified(host)[i] && rb.id == i + 1 &&
            rb.entityName in CacheOf(host) &&
            (CacheOf(host)[rb.entityName].isStatic ==> rb.isDynamic == JBool(false))
  {
    var bodies := Identified(host);
    var rbs := MainBodies(host, config, CacheOf(host), bodies);
    assert Returned(rbs.value[i]) == RigidBodyFor(host, config, CacheOf(host), bodies[i], i + 1);
  }

  // ---------------------------------------------------------------------
  // generate_complete_scene

  /** An entry of the complete scene's rigid bodies: the container wall
      (only its id and geometry file are modelled) or a marked body. */
  datatype SceneBody = WallBody(id: int, geometryFile: Json) | MainBody(body: RigidBody)

  function BodyId(b: SceneBody): int
  {
    match b
    case WallBody(id, _) => id
    case MainBody(rb) => rb.id
  }

  const DefaultWallGeometry: string := "../models/UnitBox.obj"

  /** The file-system part of path resolution: where a relative geometry
      path is found (next to the generator, or in the solver's package). */
  type PathResolver = string -> string

  /** `_resolve_geometry_path`: an empty path and an absolute one are kept,
      any other is resolved by the file system. */
  function ResolveGeometryPath(file: string, resolveRelative: PathResolver): string
  {
    if file == [] then file
    else if file[0] == '/' then file
    else resolveRelative(file)
  }

  /** The wall's geometry file: a text is resolved, any other false value
      is kept, and any other value makes the path check raise. */
  function WallGeometry(geometry: Json, resolve: PathResolver): Outcome<Json>
  {
    match geometry
    case JStr(file) => Returned(JStr(ResolveGeometryPath(file, resolve)))
    case _ => if Truthy(geometry) then Raised else Returned(geometry)
  }

  /** The wall, when asked for and configured: `Raised` when the wall
      configuration is a non-empty value that is not an object, or its
      geometry file is an unusable value. */
  function WallFor(config: seq<(string, Json)>, includeWall: bool, resolve: PathResolver): Outcome<seq<SceneBody>>
  {
    if !includeWall then Returned([])
    else
      var wall := Get(config, "wall_rigid_body", JObj([]));
      if !Truthy(wall) then Returned([])
      else if !wall.JObj? then Raised
      else
        match WallGeometry(Get(wall.fields, "geometryFile", JStr(DefaultWallGeometry)), resolve)
        case Raised => Raised
        case Returned(file) => Returned([WallBody(0, file)])
  }

  /** An absolute (or empty) path is returned unchanged; resolving never turns a
      relative path into the empty one unless the file system says so. */
  lemma ResolveKeepsAbsolute(file: string, resolve: PathResolver)
    ensures file == [] || file[0] == '/' ==> ResolveGeometryPath(file, resolve) == file
    ensures file != [] && file[0] != '/' ==> ResolveGeometryPath(file, resolve) == resolve(file)
  {
  }

  /** The main bodies as renumbered in place: bodies with an entity name
      get consecutive ids from `first`, the others are dropped. */
  function Renumber(main: seq<RigidBody>, first: int): seq<RigidBody>
  {
    if main == [] then []
    else
      var prev := Renumber(main[..|main| - 1], first);
      var last := main[|main| - 1];
      if last.entityName == "" then prev else prev + [last.(id := first + |prev|)]
  }

  /** The main bodies after the in-place loop: a named body carries its new
      id (the next after the named bodies before it), a body without a
      name keeps its old one. */
  function InPlace(main: seq<RigidBody>, first: int): (r: seq<RigidBody>)
  {
    seq(|main|, k requires 0 <= k < |main| =>
      if main[k].entityName == "" then main[k] else main[k].(id := first + |Renumber(main[..k], first)|))
  }

  /** With every entity name present, renumbering keeps the bodies and
      gives the body at position `i` the id `first + i`. */
  lemma {:induction false} RenumberNamed(main: seq<RigidBody>, first: int)
    requires forall i :: 0 <= i < |main| ==> main[i].entityName != ""
    ensures |Renumber(main, first)| == |main|
    ensures forall i :: 0 <= i < |main| ==> Renumber(main, first)[i] == main[i].(id := first + i)
    decreases |main|
  {
    if main != [] {
      RenumberNamed(main[..|main| - 1], first);
    }
  }

  /** Python's `x == False`, which also holds for the number 0. */
  predicate IsFalse(j: Json)
  {
    j == JBool(false) || j == JNum(0)
  }

  /** Whether the anchor loop asks a body for its anchor set. */
  predicate Anchored(rb: RigidBody)
  {
    rb.entityName != "" && !IsFalse(rb.isDynamic)
  }

  /** The anchor set the loop asks a body for. */
  function Asker(host: HostScene, runtime: seq<(string, Json)>): RigidBody -> Outcome<Option<AnchorSet>>
  {
    (rb: RigidBody) => AnchorSetFor(host, runtime, rb.entityName, rb.id)
  }

  /** The anchor sets of the (renumbered) main bodies, in order, where
      `ask` gives a body's anchor set: static bodies are skipped, a body
      without points adds nothing, and the first failing body makes the
      whole `Raised`. */
  function AnchorsFor(bodies: seq<RigidBody>, ask: RigidBody -> Outcome<Option<AnchorSet>>): (r: Outcome<seq<AnchorSet>>)
    ensures r.Raised? <==> exists j :: 0 <= j < |bodies| && Anchored(bodies[j]) && ask(bodies[j]).Raised?
  {
    if bodies == [] then Returned([])
    else
      var n := |bodies|;
      var b := bodies[n - 1];
      match AnchorsFor(bodies[..n - 1], ask)
      case Raised => Raised
      case Returned(prev) =>
        if !Anchored(b) then Returned(prev)
        else
          match ask(b)
          case Raised => Raised
          case Returned(None) => Returned(prev)
          case Returned(Some(a)) => Returned(prev + [a])
  }

  /** Every anchor set produced is that of a body the loop asks. */
  lemma {:induction false} AnchorsSound(bodies: seq<RigidBody>, ask: RigidBody -> Outcome<Option<AnchorSet>>, a: AnchorSet)
    requires AnchorsFor(bodies, ask).Returned? && a in AnchorsFor(bodies, ask).value
    ensures exists j :: 0 <= j < |bodies| && Anchored(bodies[j]) && ask(bodies[j]) == Returned(Some(a))
    decreases |bodies|
  {
    var n := |bodies|;
    var init := bodies[..n - 1];
    var prev := AnchorsFor(init, ask).value;
    if a in prev {
      AnchorsSound(init, ask, a);
      var j :| 0 <= j < |init| && Anchored(init[j]) && ask(init[j]) == Returned(Some(a));
      assert bodies[j] == init[j];
    } else {
      assert ask(bodies[n - 1]) == Returned(Some(a));
    }
  }

  /** Every asked body that has points contributes its anchor set. */
  lemma {:induction false} AnchorsComplete(bodies: seq<RigidBody>, ask: RigidBody -> Outcome<Option<AnchorSet>>, j: int)
    requires AnchorsFor(bodies, ask).Returned?
    requires 0 <= j < |bodies| && Anchored(bodies[j])
    ensures ask(bodies[j]).Returned?
    ensures ask(bodies[j]).value.Some? ==> ask(bodies[j]).value.value in AnchorsFor(bodies, ask).value
    decreases |bodies|
  {
    var n := |bodies|;
    var init := bodies[..n - 1];
    if j < n - 1 {
      assert init[j] == bodies[j];
      AnchorsComplete(init, ask, j);
    }
  }

  /** The complete scene: template sections, the rigid bodies (the wall
      first), the anchor sets (present only when there are some) and the
      fluid blocks when asked for. */
  datatype CompleteScene = CompleteScene(configuration: Json, materials: Json, rigidBodies: seq<SceneBody>,
                                         anchorPoints: Option<seq<AnchorSet>>, fluidBlocks: Option<Section>)

  function Wrapped(main: seq<RigidBody>): (r: seq<SceneBody>)
  {
    seq(|main|, i requires 0 <= i < |main| => MainBody(main[i]))
  }

  function CompleteSceneOf(host: HostScene, config: seq<(string, Json)>, runtime: seq<(string, Json)>, resolve: PathResolver,
                           includeFluidBlocks: bool, includeWall: bool): Outcome<CompleteScene>
  {
    match SceneJsonOf(host, config)
    case Raised => Raised
    case Returned(sj) =>
      match WallFor(config, includeWall, resolve)
      case Raised => Raised
      case Returned(wall) =>
        var main := Renumber(sj.rigidBodies, |wall|);
        var template := SceneTemplate(config);
        if !template.JObj? then Raised
        else
          match AnchorsFor(InPlace(sj.rigidBodies, |wall|), Asker(host, runtime))
          case Raised => Raised
          case Returned(anchors) =>
            Returned(CompleteScene(Get(template.fields, "Configuration", JObj([])),
                                   Get(template.fields, "Materials", JList([])),
                                   wall + Wrapped(main),
                                   if anchors == [] then None else Some(anchors),
                                   if includeFluidBlocks then Some(SectionOf(template.fields, "FluidBlocks")) else None))
  }

  /** The scene's main bodies all carry their (non-empty) body names. */
  lemma SceneJsonNamed(host: HostScene, config: seq<(string, Json)>)
    requires SceneJsonOf(host, config).Returned?
    ensures forall i :: 0 <= i < |SceneJsonOf(host, config).value.rigidBodies| ==>
              SceneJsonOf(host, config).value.rigidBodies[i].entityName != ""
  {
    var rbs := SceneJsonOf(host, config).value.rigidBodies;
    forall i | 0 <= i < |rbs| ensures rbs[i].entityName != "" {
      SceneJsonBodies(host, config, i);
      if host.geoms.Some? {
        SphBodiesNamed(host.geoms.value);
      }
    }
  }

  /** How a produced complete scene is made up: the wall, then the
      renumbered main bodies, and the anchor sets of the latter. */
  lemma CompleteSceneShape(host: HostScene, config: seq<(string, Json)>, runtime: seq<(string, Json)>, resolve: PathResolver,
                           includeFluidBlocks: bool, includeWall: bool)
    requires CompleteSceneOf(host, config, runtime, resolve, includeFluidBlocks, includeWall).Returned?
    ensures SceneJsonOf(host, config).Returned? && WallFor(config, includeWall, resolve).Returned?
    ensures var wall := WallFor(config, includeWall, resolve).value;
            var rbs := SceneJsonOf(host, config).value.rigidBodies;
            var scene := CompleteSceneOf(host, config, runtime, resolve, includeFluidBlocks, includeWall).value;
            AnchorsFor(InPlace(rbs, |wall|), Asker(host, runtime)).Returned? &&
            scene.rigidBodies == wall + Wrapped(Renumber(rbs, |wall|)) &&
            (scene.anchorPoints.Some? ==> scene.anchorPoints.value == AnchorsFor(InPlace(rbs, |wall|), Asker(host, runtime)).value)
  {
  }

  /** The wall part holds at most the wall, with id 0. */
  lemma WallShape(config: seq<(string, Json)>, includeWall: bool, resolve: PathResolver)
    requires WallFor(config, includeWall, resolve).Returned?
    ensures var wall := WallFor(config, includeWall, resolve).value;
            |wall| <= 1 && (|wall| == 1 ==> BodyId(wall[0]) == 0)
  {
  }

  /** Renumbering named bodies after the wall makes every id a position. */
  lemma IdsArePositions(wall: seq<SceneBody>, rbs: seq<RigidBody>)
    requires |wall| <= 1 && (|wall| == 1 ==> BodyId(wall[0]) == 0)
    requires forall i :: 0 <= i < |rbs| ==> rbs[i].entityName != ""
    ensures var bodies := wall + Wrapped(Renumber(rbs, |wall|));
            forall i :: 0 <= i < |bodies| ==> BodyId(bodies[i]) == i
  {
    RenumberNamed(rbs, |wall|);
    var main := Renumber(rbs, |wall|);
    var bodies := wall + Wrapped(main);
    forall i | 0 <= i < |bodies| ensures BodyId(bodies[i]) == i {
      if i >= |wall| {
        assert bodies[i] == MainBody(main[i - |wall|]);
      }
    }
  }

  /** In the complete scene every rigid body's id is its position in the
      list: the wall, when present, is 0 and the marked bodies follow. */
  lemma CompleteSceneIds(host: HostScene, config: seq<(string, Json)>, runtime: seq<(string, Json)>, resolve: PathResolver,
                         includeFluidBlocks: bool, includeWall: bool)
    requires CompleteSceneOf(host, config, runtime, resolve, includeFluidBlocks, includeWall).Returned?
    ensures var bodies := CompleteSceneOf(host, config, runtime, resolve, includeFluidBlocks, includeWall).value.rigidBodies;
            forall i :: 0 <= i < |bodies| ==> BodyId(bodies[i]) == i
  {
    CompleteSceneShape(host, config, runtime, resolve, includeFluidBlocks, includeWall);
    SceneJsonNamed(host, config);
    WallShape(config, includeWall, resolve);
    IdsArePositions(WallFor(config, includeWall, resolve).value, SceneJsonOf(host, config).value.rigidBodies);
  }

  /** A configured wall comes first, with id 0. */
  lemma WallComesFirst(host: HostScene, config: seq<(string, Json)>, runtime: seq<(string, Json)>, resolve: PathResolver, includeFluidBlocks: bool)
    requires CompleteSceneOf(host, config, runtime, resolve, includeFluidBlocks, true).Returned?
    requires Truthy(Get(config, "wall_rigid_body", JObj([])))
    ensures var scene := CompleteSceneOf(host, config, runtime, resolve, includeFluidBlocks, true).value;
            |scene.rigidBodies| > 0 && scene.rigidBodies[0].WallBody? && BodyId(scene.rigidBodies[0]) == 0
  {
    CompleteSceneShape(host, config, runtime, resolve, includeFluidBlocks, true);
  }

  /** The named body at position `j` sits at `|wall| + j` in the scene,
      renumbered to that id. */
  lemma RenumberedAt(wall: seq<SceneBody>, rbs: seq<RigidBody>, j: int)
    requires forall i :: 0 <= i < |rbs| ==> rbs[i].entityName != ""
    requires 0 <= j < |rbs|
    ensures var bodies := wall + Wrapped(Renumber(rbs, |wall|));
            |wall| + j < |bodies| && bodies[|wall| + j] == MainBody(rbs[j].(id := |wall| + j))
  {
    RenumberNamed(rbs, |wall|);
    var main := Renumber(rbs, |wall|);
    var bodies := wall + Wrapped(main);
    assert bodies[|wall| + j] == MainBody(main[j]);
  }

  /** With every entity name present, the body at position `j` of the
      in-place result is the original one with id `first + j`. */
  lemma InPlaceNamedAt(rbs: seq<RigidBody>, first: int, j: int)
    requires forall i :: 0 <= i < |rbs| ==> rbs[i].entityName != ""
    requires 0 <= j < |rbs|
    ensures InPlace(rbs, first)[j] == rbs[j].(id := first + j)
  {
    RenumberNamed(rbs[..j], first);
  }

  /** An anchor set collected from named bodies renumbered in place after
      the wall belongs to the body at some position `j`: it is named after
      it, carries its new id and the body is not static-flagged. */
  lemma AnchorOwner(host: HostScene, runtime: seq<(string, Json)>, wall: seq<SceneBody>, rbs: seq<RigidBody>, a: AnchorSet)
      returns (j: int)
    requires forall i :: 0 <= i < |rbs| ==> rbs[i].entityName != ""
    requires AnchorsFor(InPlace(rbs, |wall|), Asker(host, runtime)).Returned?
    requires a in AnchorsFor(InPlace(rbs, |wall|), Asker(host, runtime)).value
    ensures 0 <= j < |rbs| && a.objectName == rbs[j].entityName && a.rigidBodyId == |wall| + j &&
            !IsFalse(rbs[j].isDynamic)
  {
    var main := InPlace(rbs, |wall|);
    AnchorsSound(main, Asker(host, runtime), a);
    j :| 0 <= j < |main| && Anchored(main[j]) && Asker(host, runtime)(main[j]) == Returned(Some(a));
    InPlaceNamedAt(rbs, |wall|, j);
    var rb := main[j];
    assert AnchorSetFor(host, runtime, rb.entityName, rb.id) == Returned(Some(a));
    AnchorSetContents(host, runtime, rb.entityName, rb.id);
  }

  /** The anchor-set facts for the wall followed by the renumbered bodies
      of the scene description. */
  lemma AnchorsOfParts(host: HostScene, config: seq<(string, Json)>, runtime: seq<(string, Json)>,
                       wall: seq<SceneBody>, a: AnchorSet)
    requires SceneJsonOf(host, config).Returned?
    requires var rbs := SceneJsonOf(host, config).value.rigidBodies;
             AnchorsFor(InPlace(rbs, |wall|), Asker(host, runtime)).Returned? &&
             a in AnchorsFor(InPlace(rbs, |wall|), Asker(host, runtime)).value
    ensures a.objectName in CacheOf(host) && !CacheOf(host)[a.objectName].isStatic
    ensures var bodies := wall + Wrapped(Renumber(SceneJsonOf(host, config).value.rigidBodies, |wall|));
            0 <= a.rigidBodyId < |bodies| && bodies[a.rigidBodyId].MainBody? &&
            bodies[a.rigidBodyId].body.entityName == a.objectName
  {
    SceneJsonNamed(host, config);
    var rbs := SceneJsonOf(host, config).value.rigidBodies;
    var j := AnchorOwner(host, runtime, wall, rbs, a);
    RenumberedAt(wall, rbs, j);
    SceneJsonBodies(host, config, j);
  }

  /** A static body never gets an anchor set, and every anchor set names a
      body of the scene by its id there. */
  lemma AnchorsOnlyForDynamicBodies(host: HostScene, config: seq<(string, Json)>, runtime: seq<(string, Json)>, resolve: PathResolver,
                                    includeFluidBlocks: bool, includeWall: bool, a: AnchorSet)
    requires CompleteSceneOf(host, config, runtime, resolve, includeFluidBlocks, includeWall).Returned?
    requires var scene := CompleteSceneOf(host, config, runtime, resolve, includeFluidBlocks, includeWall).value;
             scene.anchorPoints.Some? && a in scene.anchorPoints.value
    ensures a.objectName in CacheOf(host) && !CacheOf(host)[a.objectName].isStatic
    ensures var bodies := CompleteSceneOf(host, config, runtime, resolve, includeFluidBlocks, includeWall).value.rigidBodies;
            0 <= a.rigidBodyId < |bodies| && bodies[a.rigidBodyId].MainBody? &&
            bodies[a.rigidBodyId].body.entityName == a.objectName
  {
    CompleteSceneShape(host, config, runtime, resolve, includeFluidBlocks, includeWall);
    AnchorsOfParts(host, config, runtime, WallFor(config, includeWall, resolve).value, a);
  }

  // ---------------------------------------------------------------------
  // extract_mocap_bodies_for_body

  /** The proxy-body sites of a body, by index. */
  function ProxySiteEntries(host: HostScene, body: string): seq<Indexed>
  {
    SortByKey(Candidates(host.siteNames, body + MocapSiteInfix), EntryIndex)
  }

  /** A proxy site named by the convention `<body>_SPH_MOCAP_SITE_<k:03d>`
      yields the proxy body `<body>_SPH_MOCAP_<k:03d>` with index `k`. */
  lemma ConventionalProxy(host: HostScene, body: string, k: nat)
    requires body + MocapSiteInfix + Format03(k) in host.siteNames
    ensures var proxies := ProxyBodies(body, ProxySiteEntries(host, body), host.sitePositions);
            exists i :: 0 <= i < |proxies| && proxies[i].mocapBodyName == ProxyBodyName(body, k) &&
                        proxies[i].index == k
  {
    var prefix := body + MocapSiteInfix;
    assert !IsDigit(prefix[|prefix| - 1]);
    ConventionalNameExtracted(host.siteNames, prefix, k);
    ProxyOfEntry(body, ProxySiteEntries(host, body), host.sitePositions, Indexed(prefix + Format03(k), k));
  }

  /** Every extracted proxy site yields a proxy body named after its index. */
  lemma ProxyOfEntry(body: string, entries: seq<Indexed>, positions: seq<(string, Vec3)>, e: Indexed)
    requires e in entries
    ensures var proxies := ProxyBodies(body, entries, positions);
            exists i :: 0 <= i < |proxies| && proxies[i].mocapBodyName == ProxyBodyName(body, e.index) &&
                        proxies[i].index == e.index
  {
    var i :| 0 <= i < |entries| && entries[i] == e;
    assert ProxyBodies(body, entries, positions)[i].index == e.index;
  }

  /** A proxy body the host lists under its conventional name is found
      again, with the same index, among the body's anchor mocap points. */
  lemma ProxyBodyFoundAgain(host: HostScene, body: string, k: nat)
    requires ProxyBodyName(body, k) in host.bodyNames
    ensures Indexed(ProxyBodyName(body, k), k) in MocapEntries(host, body)
  {
    var prefix := body + MocapBodyInfix;
    assert !IsDigit(prefix[|prefix| - 1]);
    assert ProxyBodyName(body, k) == prefix + Format03(k);
    ConventionalNameExtracted(host.bodyNames, prefix, k);
  }

  /** The loop naming one proxy body per extracted proxy site. */
  method NameProxies(body: string, entries: seq<Indexed>, positions: seq<(string, Vec3)>) returns (r: seq<ProxyBody>)
    ensures r == ProxyBodies(body, entries, positions)
  {
    r := [];
    for i := 0 to |entries|
      invariant |r| == i
      invariant forall k :: 0 <= k < i ==> r[k] == ProxyBodies(body, entries, positions)[k]
    {
      var e := entries[i];
      r := r + [ProxyBody(ProxyBodyName(body, e.index), e.index, DictGet(positions, e.name).GetOr(Zero3))];
    }
  }

  /** One more geom: the marked bodies and the cache grow as a single
      step says. */
  lemma IdentifySnoc(geoms: seq<(string, string)>, meshes: seq<(string, seq<(string, Json)>)>, i: nat)
    requires i < |geoms|
    ensures SphBodies(geoms[..i + 1]) == SphBodies(geoms[..i]) + (if Marks(geoms[i]) then {geoms[i].1} else {})
    ensures GeomCache(geoms[..i + 1], meshes) == CacheStep(GeomCache(geoms[..i], meshes), geoms[i], meshes)
  {
    assert geoms[..i + 1][..i] == geoms[..i];
  }

  // ---------------------------------------------------------------------
  // The generator

  /** The scene generator of one host model, with the geometry cache its
      identification pass fills. */
  class SceneGenerator {
    const host: HostScene
    const config: seq<(string, Json)>
    const runtimeConfig: seq<(string, Json)>
    const resolveRelative: PathResolver
    var geomCache: map<string, GeomInfo>

    constructor (host: HostScene, config: seq<(string, Json)>, runtimeConfig: seq<(string, Json)>, resolveRelative: PathResolver)
      ensures this.host == host && this.config == config && this.runtimeConfig == runtimeConfig
      ensures this.resolveRelative == resolveRelative
      ensures geomCache == map[]
    {
      this.host := host;
      this.config := config;
      this.runtimeConfig := runtimeConfig;
      this.resolveRelative := resolveRelative;
      geomCache := map[];
    }

    /** Clears the cache, scans the geoms for marked ones, caches their
        meshes and returns the marked bodies in name order. */
    method IdentifySphBodies() returns (r: seq<string>)
      modifies this
      ensures r == Identified(host) && geomCache == CacheOf(host)
    {
      geomCache := map[];
      if host.geoms.None? {
        return [];
      }
      var geoms := host.geoms.value;
      var found: set<string> := {};
      for i := 0 to |geoms|
        invariant found == SphBodies(geoms[..i])
        invariant geomCache == GeomCache(geoms[..i], host.meshes)
      {
        IdentifySnoc(geoms, host.meshes, i);
        var (geomName, bodyName) := geoms[i];
        var isStatic := Contains(geomName, StaticGeomMarker);
        var isDynamic := Contains(geomName, DynamicGeomMarker) && !isStatic;
        if (isStatic || isDynamic) && bodyName != "" {
          found := found + {bodyName};
          var mesh := DictGet(host.meshes, MeshNameFor(bodyName, isStatic));
          if mesh.Some? && mesh.value != [] {
            geomCache := geomCache[bodyName := GeomInfo(Get(mesh.value, "File", JStr("")), ScaleOf(mesh.value), isStatic)];
          }
        }
      }
      assert geoms[..|geoms|] == geoms;
      r := SortedNames(found);
      StrictlySortedUnique(r, SortedBodies(geoms));
    }

    /** The proxy bodies of a body's proxy sites, by index. */
    method ExtractMocapBodiesForBody(body: string) returns (r: seq<ProxyBody>)
      ensures r == ProxyBodies(body, ProxySiteEntries(host, body), host.sitePositions)
    {
      var entries := ExtractIndexed(host.siteNames, body + MocapSiteInfix);
      r := NameProxies(body, entries, host.sitePositions);
    }

    /** The anchor set of a body, or `Raised` when the spring parameters
        are incomplete. */
    method GenerateAnchorPoints(body: string, rbId: int) returns (r: Outcome<Option<AnchorSet>>)
      ensures r == AnchorSetFor(host, runtimeConfig, body, rbId)
    {
      var siteEntries := ExtractIndexed(host.siteNames, body + SiteInfix);
      var sitePoints := ConvertPoints(siteEntries, host.sitePositions);
      var mocapEntries := ExtractIndexed(host.bodyNames, body + MocapBodyInfix);
      var mocapPoints := ConvertPoints(mocapEntries, host.bodyPositions);
      if sitePoints == [] && mocapPoints == [] {
        return Returned(None);
      }
      var spring := SpringForce(runtimeConfig);
      if spring.Raised? {
        return Raised;
      }
      var stiffness := Param(spring.value, "linear_spring_stiffness");
      var damping := Param(spring.value, "linear_damping_coefficient");
      if stiffness.None? || damping.None? {
        return Raised;
      }
      r := Returned(Some(AnchorSet(rbId, body, stiffness.value, damping.value, sitePoints, mocapPoints)));
    }

    /** The configuration of one body from the cache and the defaults. */
    method ExtractRigidBodyConfig(body: string, rbId: int) returns (r: Outcome<RigidBody>)
      ensures r == RigidBodyFor(host, config, geomCache, body, rbId)
    {
      if body !in geomCache {
        return Raised;
      }
      var info := geomCache[body];
      var defaults := RigidBodyDefaults(config);
      if !defaults.JObj? {
        return Raised;
      }
      var isDynamic := if info.isStatic then JBool(false) else Get(defaults.fields, "isDynamic", JBool(true));
      var position := DictGet(host.bodyPositions, body).GetOr(Zero3);
      r := Returned(RigidBody(rbId, body, info.meshName, isDynamic, Get(defaults.fields, "density", JNum(500)),
                              DictGet(host.masses, body).GetOr(1.0), ZUpToYUp(position),
                              if Truthy(info.scale) then info.scale else UnitScale));
    }

    /** Identifies the marked bodies and configures them, numbered from 1. */
    method GenerateSceneJson() returns (r: Outcome<SceneJson>)
      modifies this
      ensures r == SceneJsonOf(host, config) && geomCache == CacheOf(host)
    {
      var bodies := IdentifySphBodies();
      if bodies == [] {
        return Returned(SceneJson(None, None, []));
      }
      var rigid: seq<RigidBody> := [];
      for i := 0 to |bodies|
        invariant geomCache == CacheOf(host)
        invariant MainBodies(host, config, geomCache, bodies[..i]) == Returned(rigid)
      {
        assert bodies[..i + 1][..i] == bodies[..i];
        var rb := ExtractRigidBodyConfig(bodies[i], i + 1);
        if rb.Raised? {
          assert MainBodies(host, config, geomCache, bodies).Raised?;
          return Raised;
        }
        rigid := rigid + [rb.value];
      }
      assert bodies[..|bodies|] == bodies;
      var template := SceneTemplate(config);
      if !template.JObj? {
        return Raised;
      }
      r := Returned(SceneJson(Some(SectionOf(template.fields, "Configuration")),
                              Some(SectionOf(template.fields, "Materials")), rigid));
    }

    /** The anchor loop over the renumbered bodies. */
    method CollectAnchors(main: seq<RigidBody>) returns (r: Outcome<seq<AnchorSet>>)
      ensures r == AnchorsFor(main, Asker(host, runtimeConfig))
    {
      var anchors: seq<AnchorSet> := [];
      for i := 0 to |main|
        invariant AnchorsFor(main[..i], Asker(host, runtimeConfig)) == Returned(anchors)
      {
        assert main[..i + 1][..i] == main[..i];
        var rb := main[i];
        if rb.entityName == "" || IsFalse(rb.isDynamic) {
          continue;
        }
        var a := GenerateAnchorPoints(rb.entityName, rb.id);
        if a.Raised? {
          assert Anchored(main[i]) && Asker(host, runtimeConfig)(main[i]).Raised?;
          return Raised;
        }
        if a.value.Some? {
          anchors := anchors + [a.value.value];
        }
      }
      assert main[..|main|] == main;
      r := Returned(anchors);
    }

    /** The complete scene: the wall (id 0) when asked for and configured,
        the marked bodies renumbered in place after it, and the anchor sets
        of the renumbered dynamic bodies. */
    method GenerateCompleteScene(includeFluidBlocks: bool, includeWall: bool) returns (r: Outcome<CompleteScene>)
      modifies this
      ensures r == CompleteSceneOf(host, config, runtimeConfig, resolveRelative, includeFluidBlocks, includeWall)
      ensures geomCache == CacheOf(host)
    {
      var sceneJson := GenerateSceneJson();
      if sceneJson.Raised? {
        return Raised;
      }
      var all: seq<SceneBody> := [];
      if includeWall {
        var wall := Get(config, "wall_rigid_body", JObj([]));
        if Truthy(wall) {
          if !wall.JObj? {
            return Raised;
          }
          var geometry := Get(wall.fields, "geometryFile", JStr(DefaultWallGeometry));
          if geometry.JStr? {
            geometry := JStr(ResolveGeometryPath(geometry.s, resolveRelative));
          } else if Truthy(geometry) {
            return Raised;
          }
          all := [WallBody(0, geometry)];
        }
      }
      assert all == WallFor(config, includeWall, resolveRelative).value;
      var main := sceneJson.value.rigidBodies;
      main, all := AppendRenumbered(main, all);
      var template := SceneTemplate(config);
      if !template.JObj? {
        return Raised;
      }
      var anchors := CollectAnchors(main);
      if anchors.Raised? {
        return Raised;
      }
      r := Returned(CompleteScene(Get(template.fields, "Configuration", JObj([])),
                                  Get(template.fields, "Materials", JList([])),
                                  all, if anchors.value == [] then None else Some(anchors.value),
                                  if includeFluidBlocks then Some(SectionOf(template.fields, "FluidBlocks")) else None));
    }
  }

  /** Renumbering one more body. */
  lemma RenumberSnoc(main: seq<RigidBody>, i: nat, first: int)
    requires i < |main|
    ensures var prev := Renumber(main[..i], first);
            Renumber(main[..i + 1], first) ==
              if main[i].entityName == "" then prev else prev + [main[i].(id := first + |prev|)]
  {
    assert main[..i + 1][..i] == main[..i];
  }

  lemma WrappedSnoc(main: seq<RigidBody>, rb: RigidBody)
    ensures Wrapped(main + [rb]) == Wrapped(main) + [MainBody(rb)]
  {
  }

  /** The state of the main-body loop after `i` bodies. */
  ghost predicate Appended(main: seq<RigidBody>, all: seq<SceneBody>, i: int,
                           main': seq<RigidBody>, all': seq<SceneBody>, renumbered: seq<RigidBody>, current: int)
  {
    0 <= i <= |main| && renumbered == Renumber(main[..i], |all|) && current == |all| + |renumbered| &&
    all' == all + Wrapped(renumbered) && |main'| == |main| &&
    (forall k :: 0 <= k < i ==> main'[k] == InPlace(main, |all|)[k]) &&
    (forall k :: i <= k < |main| ==> main'[k] == main[k])
  }

  /** One turn of the main-body loop keeps its state. */
  lemma AppendStep(main: seq<RigidBody>, all: seq<SceneBody>, i: int,
                   main': seq<RigidBody>, all': seq<SceneBody>, renumbered: seq<RigidBody>, current: int)
    requires i < |main| && Appended(main, all, i, main', all', renumbered, current)
    ensures var rb := main[i].(id := current);
            if main[i].entityName == "" then Appended(main, all, i + 1, main', all', renumbered, current)
            else Appended(main, all, i + 1, main'[i := rb], all' + [MainBody(rb)], renumbered + [rb], current + 1)
  {
    RenumberSnoc(main, i, |all|);
    var rb := main[i].(id := current);
    assert InPlace(main, |all|)[i] == if main[i].entityName == "" then main[i] else rb;
    if main[i].entityName != "" {
      WrappedSnoc(renumbered, rb);
    }
  }

  /** The main-body loop of `generate_complete_scene`: each named body gets
      the next id in place and is appended after what `all` holds; a body
      without a name is skipped and keeps its id. */
  method AppendRenumbered(main: seq<RigidBody>, all: seq<SceneBody>) returns (main': seq<RigidBody>, all': seq<SceneBody>)
    ensures all' == all + Wrapped(Renumber(main, |all|))
    ensures main' == InPlace(main, |all|)
  {
    main' := main;
    all' := all;
    var current := |all|;
    ghost var renumbered: seq<RigidBody> := [];
    for i := 0 to |main|
      invariant Appended(main, all, i, main', all', renumbered, current)
    {
      AppendStep(main, all, i, main', all', renumbered, current);
      var rb := main'[i];
      if rb.entityName != "" {
        main' := main'[i := rb.(id := current)];
        renumbered := renumbered + [rb.(id := current)];
        all' := all' + [MainBody(rb.(id := current))];
        current := current + 1;
      }
    }
    assert main[..|main|] == main;
  }
}
