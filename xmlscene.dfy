// The stand-alone scene generator that reads the host model's XML file
// instead of a running host. The parsed document is a value: its sites,
// bodies and meshes, each list in document order, with their attributes
// as the file gives them (absent attributes are `None`). Python's `float`
// on one token is a parameter: `None` stands for the `ValueError` it
// raises on a token that is not a number.

module XmlScene {
  import opened Core
  import opened Strings
  import opened Ordering
  import opened Axes
  import Scene

  const SiteMark: string := "SPH_SITE"
  const MeshSuffix: string := "_SPH_MESH"
  const DefaultMeshFile: string := "../models/box_small.obj"
  const DefaultMassText: string := "1.0"
  /** The tokens of the default `pos` attribute "0 0 0". */
  const DefaultPositionTokens: seq<string> := ["0", "0", "0"]
  /** The tokens of the default `scale` attribute "1.0 1.0 1.0". */
  const DefaultScaleTokens: seq<string> := ["1.0", "1.0", "1.0"]
  const UnitScale: seq<real> := [1.0, 1.0, 1.0]

  type FloatParser = string -> Option<real>

  datatype XmlSite = XmlSite(name: Option<string>)
  datatype XmlInertial = XmlInertial(mass: Option<string>)
  datatype XmlBody = XmlBody(name: Option<string>, pos: Option<string>, inertial: Option<XmlInertial>)
  datatype XmlMesh = XmlMesh(name: Option<string>, file: Option<string>, scale: Option<string>)
  datatype XmlDoc = XmlDoc(sites: seq<XmlSite>, bodies: seq<XmlBody>, meshes: seq<XmlMesh>)

  // ---------------------------------------------------------------------
  // Searching the document

  /** The position of the first element satisfying `p`, as a `for` loop
      that returns on the first match finds it. */
  function FirstWhere<T>(s: seq<T>, p: T -> bool): (r: Option<nat>)
    ensures r.Some? ==> r.value < |s| && p(s[r.value]) && forall j :: 0 <= j < r.value ==> !p(s[j])
    ensures r.None? ==> forall j :: 0 <= j < |s| ==> !p(s[j])
  {
    if s == [] then None
    else if p(s[0]) then Some(0)
    else
      match FirstWhere(s[1..], p)
      case None => None
      case Some(k) => Some(k + 1)
  }

  function BodyNamed(name: string): XmlBody -> bool
  {
    (b: XmlBody) => b.name == Some(name)
  }

  function BodyWithInertialNamed(name: string): XmlBody -> bool
  {
    (b: XmlBody) => b.name == Some(name) && b.inertial.Some?
  }

  function MeshNamed(name: string): XmlMesh -> bool
  {
    (m: XmlMesh) => m.name == Some(name)
  }

  /** `[float(x) for x in tokens]`: `None` when some token is not a number. */
  function ParseAll(tokens: seq<string>, parse: FloatParser): (r: Option<seq<real>>)
    ensures r.Some? <==> forall i :: 0 <= i < |tokens| ==> parse(tokens[i]).Some?
    ensures r.Some? ==> |r.value| == |tokens| &&
                        forall i :: 0 <= i < |tokens| ==> parse(tokens[i]) == Some(r.value[i])
  {
    if tokens == [] then Some([])
    else
      match parse(tokens[0])
      case None => None
      case Some(x) =>
        match ParseAll(tokens[1..], parse)
        case None => None
        case Some(rest) => Some([x] + rest)
  }

  // ---------------------------------------------------------------------
  // identify_sph_bodies

  function SiteName(site: XmlSite): string
  {
    site.name.GetOr("")
  }

  /** A site the generator takes as a fluid site: its name mentions the mark. */
  predicate Marked(name: string)
  {
    Contains(name, SiteMark)
  }

  /** The body a marked site belongs to: the text before the first
      `_SPH_SITE_`, or the whole name when there is none. */
  function SiteBody(name: string): string
  {
    SplitHead(name, Scene.SiteInfix)
  }

  /** The bodies named by the marked sites among `sites`. */
  function SiteBodies(sites: seq<XmlSite>): set<string>
  {
    set i | 0 <= i < |sites| && Marked(SiteName(sites[i])) :: SiteBody(SiteName(sites[i]))
  }

  lemma SiteBodiesSnoc(sites: seq<XmlSite>, site: XmlSite)
    ensures SiteBodies(sites + [site]) ==
            SiteBodies(sites) + (if Marked(SiteName(site)) then {SiteBody(SiteName(site))} else {})
  {
    var all := sites + [site];
    assert forall i :: 0 <= i < |sites| ==> all[i] == sites[i];
    assert all[|sites|] == site;
  }

  /** The list `identify_sph_bodies` returns: those bodies, sorted, once each. */
  function SortedSiteBodies(sites: seq<XmlSite>): (r: seq<string>)
    ensures StrictlySorted(r)
  {
    if sites == [] then []
    else
      var n := |sites|;
      var prev := SortedSiteBodies(sites[..n - 1]);
      var name := SiteName(sites[n - 1]);
      if Marked(name) then InsertSorted(SiteBody(name), prev) else prev
  }

  /** The sorted list holds exactly the bodies of the marked sites. */
  lemma {:induction false} SortedSiteBodiesMembers(sites: seq<XmlSite>)
    ensures forall y :: y in SortedSiteBodies(sites) <==> y in SiteBodies(sites)
  {
    if sites != [] {
      var n := |sites|;
      SortedSiteBodiesMembers(sites[..n - 1]);
      SiteBodiesSnoc(sites[..n - 1], sites[n - 1]);
      assert sites[..n - 1] + [sites[n - 1]] == sites;
    }
  }

  /** An identified body never holds the separator itself, and it heads
      some marked site's name. */
  lemma IdentifiedBodyHeadsASite(doc: XmlDoc, y: string)
    requires y in SortedSiteBodies(doc.sites)
    ensures !Contains(y, Scene.SiteInfix)
    ensures exists i :: 0 <= i < |doc.sites| && Marked(SiteName(doc.sites[i])) && StartsWith(SiteName(doc.sites[i]), y)
  {
    SortedSiteBodiesMembers(doc.sites);
    var i :| 0 <= i < |doc.sites| && Marked(SiteName(doc.sites[i])) && SiteBody(SiteName(doc.sites[i])) == y;
    SplitHeadHasNoSeparator(SiteName(doc.sites[i]), Scene.SiteInfix);
  }

  /** A separator starting early enough in the body would put the mark
      inside the body. */
  lemma {:induction false} NoSeparatorInsideBody(b: string, rest: string, j: nat)
    requires !Contains(b, SiteMark)
    requires j + 1 + |SiteMark| <= |b|
    ensures !OccursAt(b + Scene.SiteInfix + rest, Scene.SiteInfix, j)
  {
    var sep := Scene.SiteInfix;
    var s := b + sep + rest;
    assert !OccursAt(b, SiteMark, j + 1);
    assert s[j + 1..j + 1 + |SiteMark|] == b[j + 1..j + 1 + |SiteMark|];
    assert sep[1..1 + |SiteMark|] == SiteMark by {
      assert forall k :: 0 <= k < |SiteMark| ==> sep[1..1 + |SiteMark|][k] == SiteMark[k];
    }
    assert s[j..j + |sep|][1..1 + |SiteMark|] == s[j + 1..j + 1 + |SiteMark|];
  }

  /** A separator straddling the body's end would have the appended
      separator's "_" at some offset t of it, and its "P" at t + 2; no
      offset of "_SPH_SITE_" fits both. */
  lemma {:induction false} NoSeparatorAcrossBodyEnd(b: string, rest: string, j: nat)
    requires j < |b| < j + 1 + |SiteMark|
    ensures !OccursAt(b + Scene.SiteInfix + rest, Scene.SiteInfix, j)
  {
    var sep := Scene.SiteInfix;
    var s := b + sep + rest;
    var w := s[j..j + |sep|];
    var t := |b| - j;
    assert s[|b|] == '_' && s[|b| + 2] == 'P';
    assert w[t] == '_';
    if t == 4 {
      assert w[6] == 'P';
    }
    assert t == 1 || t == 2 || t == 3 || t == 4 || t == 5 || t == 6 || t == 7 || t == 8;
  }

  /** In `<body>_SPH_SITE_<rest>` the first separator is the one after the
      body, when the body does not mention the mark. */
  lemma {:induction false} FirstSeparatorAfterBody(b: string, rest: string)
    requires !Contains(b, SiteMark)
    ensures SiteBody(b + Scene.SiteInfix + rest) == b
  {
    var sep := Scene.SiteInfix;
    var s := b + sep + rest;
    assert OccursAt(s, sep, |b|) by {
      assert s[|b|..|b| + |sep|] == sep;
    }
    assert s[..|b|] == b;
    assert s[|b|..|b| + |sep|] == sep;
    assert s[|b|] == '_' && s[|b| + 2] == 'P';
    forall j | 0 <= j < |b| ensures !OccursAt(s, sep, j) {
      if j + 1 + |SiteMark| <= |b| {
        NoSeparatorInsideBody(b, rest, j);
      } else {
        NoSeparatorAcrossBodyEnd(b, rest, j);
      }
    }
    assert Contains(s, sep);
  }

  /** A site named by the convention `<body>_SPH_SITE_<k>` identifies its
      body, whatever else the model holds. */
  lemma ConventionalSiteIdentified(doc: XmlDoc, b: string, rest: string)
    requires !Contains(b, SiteMark)
    requires exists i :: 0 <= i < |doc.sites| && SiteName(doc.sites[i]) == b + Scene.SiteInfix + rest
    ensures b in SortedSiteBodies(doc.sites)
  {
    var i :| 0 <= i < |doc.sites| && SiteName(doc.sites[i]) == b + Scene.SiteInfix + rest;
    var s := b + Scene.SiteInfix + rest;
    SortedSiteBodiesMembers(doc.sites);
    FirstSeparatorAfterBody(b, rest);
    assert OccursAt(s, SiteMark, |b| + 1) by {
      assert s[|b| + 1..|b| + 1 + |SiteMark|] == SiteMark;
    }
    assert Marked(s);
  }

  // ---------------------------------------------------------------------
  // The getters

  function PositionTokens(body: XmlBody): seq<string>
  {
    match body.pos
    case None => DefaultPositionTokens
    case Some(text) => SplitWhitespace(text)
  }

  /** `get_body_position`: the parsed `pos` of the first body with the
      name, zeros when there is none; `Raised` on a token that is not a
      number. */
  function BodyPosition(doc: XmlDoc, name: string, parse: FloatParser): Outcome<seq<real>>
  {
    match FirstWhere(doc.bodies, BodyNamed(name))
    case None => Returned([0.0, 0.0, 0.0])
    case Some(k) =>
      match ParseAll(PositionTokens(doc.bodies[k]), parse)
      case None => Raised
      case Some(v) => Returned(v)
  }

  /** Where a body's position comes from, and when reading it fails. */
  lemma BodyPositionCases(doc: XmlDoc, name: string, parse: FloatParser)
    ensures (forall j :: 0 <= j < |doc.bodies| ==> doc.bodies[j].name != Some(name)) ==>
              BodyPosition(doc, name, parse) == Returned([0.0, 0.0, 0.0])
    ensures forall k :: 0 <= k < |doc.bodies| && doc.bodies[k].name == Some(name) &&
                        (forall j :: 0 <= j < k ==> doc.bodies[j].name != Some(name)) ==>
              var tokens := PositionTokens(doc.bodies[k]);
              (BodyPosition(doc, name, parse).Raised? <==> exists t :: 0 <= t < |tokens| && parse(tokens[t]).None?) &&
              (BodyPosition(doc, name, parse).Returned? ==>
                 |BodyPosition(doc, name, parse).value| == |tokens| &&
                 forall t :: 0 <= t < |tokens| ==> parse(tokens[t]) == Some(BodyPosition(doc, name, parse).value[t]))
  {
    var f := FirstWhere(doc.bodies, BodyNamed(name));
    forall k | 0 <= k < |doc.bodies| && doc.bodies[k].name == Some(name) &&
               (forall j :: 0 <= j < k ==> doc.bodies[j].name != Some(name))
      ensures f == Some(k)
    {
      assert BodyNamed(name)(doc.bodies[k]);
      assert forall j :: 0 <= j < k ==> !BodyNamed(name)(doc.bodies[j]);
    }
    if forall j :: 0 <= j < |doc.bodies| ==> doc.bodies[j].name != Some(name) {
      assert forall j :: 0 <= j < |doc.bodies| ==> !BodyNamed(name)(doc.bodies[j]);
    }
  }

  /** `get_sph_mesh_file`: the `file` of the body's fluid mesh, "" when
      there is no such mesh or it has no file. */
  function SphMeshFile(doc: XmlDoc, body: string): string
  {
    match FirstWhere(doc.meshes, MeshNamed(body + MeshSuffix))
    case None => ""
    case Some(k) => doc.meshes[k].file.GetOr("")
  }

  function ScaleTokens(mesh: XmlMesh): seq<string>
  {
    match mesh.scale
    case None => DefaultScaleTokens
    case Some(text) => SplitWhitespace(text)
  }

  /** `get_mesh_scale`: the three parsed components of the first mesh's
      `scale`, or the unit scale when there is no such mesh, a component
      is not a number, or there are not exactly three. */
  function MeshScale(doc: XmlDoc, meshName: string, parse: FloatParser): (r: seq<real>)
    ensures |r| == 3
  {
    match FirstWhere(doc.meshes, MeshNamed(meshName))
    case None => UnitScale
    case Some(k) =>
      match ParseAll(ScaleTokens(doc.meshes[k]), parse)
      case Some(v) => if |v| == 3 then v else UnitScale
      case None => UnitScale
  }

  /** A scale that is not the unit scale was read, component by component,
      from exactly three tokens of a mesh with that name; with the
      default attribute (and `float("1.0") == 1.0`) the scale is the unit. */
  lemma MeshScaleFrom(doc: XmlDoc, meshName: string, parse: FloatParser)
    ensures var r := MeshScale(doc, meshName, parse);
            r == UnitScale ||
            exists k :: 0 <= k < |doc.meshes| && doc.meshes[k].name == Some(meshName) &&
                        var tokens := ScaleTokens(doc.meshes[k]);
                        |tokens| == 3 && forall t :: 0 <= t < 3 ==> parse(tokens[t]) == Some(r[t])
    ensures parse("1.0") == Some(1.0) &&
            (forall k :: 0 <= k < |doc.meshes| && doc.meshes[k].name == Some(meshName) ==> doc.meshes[k].scale.None?) ==>
              MeshScale(doc, meshName, parse) == UnitScale
  {
    var f := FirstWhere(doc.meshes, MeshNamed(meshName));
    if f.Some? {
      var k := f.value;
      assert MeshNamed(meshName)(doc.meshes[k]);
      if doc.meshes[k].scale.None? && parse("1.0") == Some(1.0) {
        var v := ParseAll(DefaultScaleTokens, parse).value;
        assert v == [v[0], v[1], v[2]] && v[0] == 1.0 && v[1] == 1.0 && v[2] == 1.0;
      }
    }
  }

  /** `get_body_mass`: the `mass` of the first body with the name that has
      an inertial element (later bodies with the name are searched when an
      earlier one has none), 1.0 when there is none; `Raised` when that
      mass is not a number. */
  function BodyMass(doc: XmlDoc, name: string, parse: FloatParser): Outcome<real>
  {
    match FirstWhere(doc.bodies, BodyWithInertialNamed(name))
    case None => Returned(1.0)
    case Some(k) =>
      match parse(doc.bodies[k].inertial.value.mass.GetOr(DefaultMassText))
      case None => Raised
      case Some(m) => Returned(m)
  }

  /** Bodies before the first one with an inertial element do not matter,
      whatever their names. */
  lemma {:induction false} BodyMassSkipsBodiesWithoutInertial(doc: XmlDoc, name: string, parse: FloatParser, n: nat)
    requires n <= |doc.bodies|
    requires forall j :: 0 <= j < n ==> doc.bodies[j].inertial.None?
    ensures BodyMass(doc, name, parse) == BodyMass(doc.(bodies := doc.bodies[n..]), name, parse)
  {
    var p := BodyWithInertialNamed(name);
    var f := FirstWhere(doc.bodies, p);
    var g := FirstWhere(doc.bodies[n..], p);
    assert forall j :: 0 <= j < |doc.bodies| - n ==> doc.bodies[n..][j] == doc.bodies[j + n];
    assert forall j :: 0 <= j < n ==> !p(doc.bodies[j]);
    if f.Some? {
      assert doc.bodies[n..][f.value - n] == doc.bodies[f.value];
    }
  }

  /** The mass falls back to 1.0 exactly when no body with the name has an
      inertial element, provided every mass read is a number. */
  lemma BodyMassDefault(doc: XmlDoc, name: string, parse: FloatParser)
    requires forall t :: parse(t).Some? && (t == DefaultMassText ==> parse(t) == Some(1.0))
    ensures BodyMass(doc, name, parse).Returned?
    ensures (forall j :: 0 <= j < |doc.bodies| ==> !(doc.bodies[j].name == Some(name) && doc.bodies[j].inertial.Some?)) ==>
              BodyMass(doc, name, parse) == Returned(1.0)
  {
    if forall j :: 0 <= j < |doc.bodies| ==> !(doc.bodies[j].name == Some(name) && doc.bodies[j].inertial.Some?) {
      assert forall j :: 0 <= j < |doc.bodies| ==> !BodyWithInertialNamed(name)(doc.bodies[j]);
    }
  }

  // ---------------------------------------------------------------------
  // generate_scene_json

  /** A rigid body of the generated scene (the fixed rotation, velocity,
      collision, restitution, friction and map fields are left out). */
  datatype XmlRigidBody = XmlRigidBody(id: int, entityName: string, geometryFile: string, isDynamic: bool,
                                       density: Json, translation: Vec3, scale: seq<real>)

  /** The container wall (its other configured fields are left out). */
  datatype XmlWall = XmlWall(id: int, geometryFile: Json, isDynamic: Json, isWall: Json)

  datatype XmlSceneBody = WallEntry(wall: XmlWall) | BodyEntry(body: XmlRigidBody)

  function EntryId(e: XmlSceneBody): int
  {
    match e
    case WallEntry(w) => w.id
    case BodyEntry(b) => b.id
  }

  datatype XmlSceneData = XmlSceneData(configuration: Json, materials: Json, rigidBodies: seq<XmlSceneBody>,
                                       fluidBlocks: Json)

  function WallConfig(config: seq<(string, Json)>): Json
  {
    Get(config, "wall_rigid_body", JObj([]))
  }

  /** The wall part: nothing when the wall configuration is empty, the
      wall with id 0 when it is an object, `Raised` otherwise. */
  function WallOf(config: seq<(string, Json)>): (r: Outcome<seq<XmlSceneBody>>)
    ensures r.Raised? <==> Truthy(WallConfig(config)) && !WallConfig(config).JObj?
    ensures r.Returned? ==> (|r.value| == 1 <==> Truthy(WallConfig(config))) && |r.value| <= 1 &&
                            forall i :: 0 <= i < |r.value| ==> r.value[i].WallEntry? && EntryId(r.value[i]) == 0
  {
    var wall := WallConfig(config);
    if !Truthy(wall) then Returned([])
    else if !wall.JObj? then Raised
    else Returned([WallEntry(XmlWall(0, Get(wall.fields, "geometryFile", JStr(Scene.DefaultWallGeometry)),
                                     Get(wall.fields, "isDynamic", JBool(false)),
                                     Get(wall.fields, "isWall", JBool(true))))])
  }

  /** One fluid body's entry: `Raised` when its position cannot be read
      or has fewer than three components, or the rigid-body defaults are
      not an object. */
  function RigidBodyFor(doc: XmlDoc, config: seq<(string, Json)>, parse: FloatParser, name: string, id: int): Outcome<XmlRigidBody>
  {
    match BodyPosition(doc, name, parse)
    case Raised => Raised
    case Returned(pos) =>
      if |pos| < 3 then Raised
      else
        var defaults := Scene.RigidBodyDefaults(config);
        if !defaults.JObj? then Raised
        else
          var meshFile := SphMeshFile(doc, name);
          Returned(XmlRigidBody(id, name, if meshFile != "" then meshFile else DefaultMeshFile, true,
                                Get(defaults.fields, "density", JNum(500)),
                                SwapYZ(Vec3(pos[0], pos[1], pos[2])), MeshScale(doc, name + MeshSuffix, parse)))
  }

  /** What a fluid body's entry holds: its name and id, a non-empty
      geometry file (the fluid mesh's file, or the default box), always
      dynamic, the configured density, the position with y and z swapped,
      and a three-component scale. */
  lemma RigidBodyContents(doc: XmlDoc, config: seq<(string, Json)>, parse: FloatParser, name: string, id: int)
    ensures var r := RigidBodyFor(doc, config, parse, name, id);
            r.Raised? <==> BodyPosition(doc, name, parse).Raised? || |BodyPosition(doc, name, parse).value| < 3 ||
                           !Scene.RigidBodyDefaults(config).JObj?
    ensures var r := RigidBodyFor(doc, config, parse, name, id);
            r.Returned? ==>
              var pos := BodyPosition(doc, name, parse).value;
              r.value.id == id && r.value.entityName == name && r.value.isDynamic &&
              r.value.geometryFile != "" &&
              (SphMeshFile(doc, name) != "" ==> r.value.geometryFile == SphMeshFile(doc, name)) &&
              r.value.density == Get(Scene.RigidBodyDefaults(config).fields, "density", JNum(500)) &&
              r.value.translation == Vec3(pos[0], pos[2], pos[1]) &&
              |r.value.scale| == 3
  {
  }

  /** The entry function the generator applies to each name and id. */
  function EntryMaker(doc: XmlDoc, config: seq<(string, Json)>, parse: FloatParser): (r: (string, int) -> Outcome<XmlRigidBody>)
    ensures forall name, id :: r(name, id) == RigidBodyFor(doc, config, parse, name, id)
  {
    (name: string, id: int) => RigidBodyFor(doc, config, parse, name, id)
  }

  /** The entries of `names` numbered from 1 in list order: `Raised`
      exactly when some name's entry fails. */
  function Numbered(names: seq<string>, entry: (string, int) -> Outcome<XmlRigidBody>): (r: Outcome<seq<XmlRigidBody>>)
    ensures r.Raised? <==> exists i :: 0 <= i < |names| && entry(names[i], i + 1).Raised?
    ensures r.Returned? ==>
              |r.value| == |names| &&
              forall i :: 0 <= i < |names| ==> Returned(r.value[i]) == entry(names[i], i + 1)
  {
    if names == [] then Returned([])
    else
      var n := |names|;
      match Numbered(names[..n - 1], entry)
      case Raised => Raised
      case Returned(prev) =>
        match entry(names[n - 1], n)
        case Raised => Raised
        case Returned(rb) => Returned(prev + [rb])
  }

  function Entries(rbs: seq<XmlRigidBody>): (r: seq<XmlSceneBody>)
  {
    seq(|rbs|, i requires 0 <= i < |rbs| => BodyEntry(rbs[i]))
  }

  /** The scene for the given body names, each name's entry made by
      `entry`. */
  function SceneFor(names: seq<string>, config: seq<(string, Json)>, entry: (string, int) -> Outcome<XmlRigidBody>): Outcome<XmlSceneData>
  {
    match WallOf(config)
    case Raised => Raised
    case Returned(wall) =>
      match Numbered(names, entry)
      case Raised => Raised
      case Returned(rbs) =>
        var template := Scene.SceneTemplate(config);
        if !template.JObj? then Raised
        else Returned(XmlSceneData(Get(template.fields, "Configuration", JObj([])),
                                   Get(template.fields, "Materials", JList([])),
                                   wall + Entries(rbs),
                                   Get(template.fields, "FluidBlocks", JList([]))))
  }

  /** The scene `generate_scene_json` returns. */
  function XmlSceneOf(doc: XmlDoc, config: seq<(string, Json)>, parse: FloatParser): Outcome<XmlSceneData>
  {
    SceneFor(SortedSiteBodies(doc.sites), config, EntryMaker(doc, config, parse))
  }

  /** When the scene for some names fails. */
  lemma SceneForRaises(names: seq<string>, config: seq<(string, Json)>, entry: (string, int) -> Outcome<XmlRigidBody>)
    ensures SceneFor(names, config, entry).Raised? <==>
              (Truthy(WallConfig(config)) && !WallConfig(config).JObj?) ||
              (exists i :: 0 <= i < |names| && entry(names[i], i + 1).Raised?) ||
              !Scene.SceneTemplate(config).JObj?
  {
  }

  /** How the scene for some names is made up: the wall part, then the
      numbered entries. */
  lemma SceneForShape(names: seq<string>, config: seq<(string, Json)>, entry: (string, int) -> Outcome<XmlRigidBody>)
    requires SceneFor(names, config, entry).Returned?
    ensures WallOf(config).Returned? && Numbered(names, entry).Returned?
    ensures SceneFor(names, config, entry).value.rigidBodies == WallOf(config).value + Entries(Numbered(names, entry).value)
  {
  }

  /** `generate_scene_json` fails exactly when the wall configuration is a
      non-empty non-object, some identified body's entry fails, or the
      scene template is not an object. */
  lemma XmlSceneRaises(doc: XmlDoc, config: seq<(string, Json)>, parse: FloatParser)
    ensures var names := SortedSiteBodies(doc.sites);
            XmlSceneOf(doc, config, parse).Raised? <==>
              (Truthy(WallConfig(config)) && !WallConfig(config).JObj?) ||
              (exists i :: 0 <= i < |names| && RigidBodyFor(doc, config, parse, names[i], i + 1).Raised?) ||
              !Scene.SceneTemplate(config).JObj?
  {
    var names := SortedSiteBodies(doc.sites);
    var entry := EntryMaker(doc, config, parse);
    SceneForRaises(names, config, entry);
    assert forall i :: 0 <= i < |names| ==> entry(names[i], i + 1) == RigidBodyFor(doc, config, parse, names[i], i + 1);
  }

  /** Position `p` of the scene for some names: the wall, or entry
      `p - |wall|`. */
  lemma SceneForAt(names: seq<string>, config: seq<(string, Json)>, entry: (string, int) -> Outcome<XmlRigidBody>, p: int)
    requires SceneFor(names, config, entry).Returned?
    requires 0 <= p < |SceneFor(names, config, entry).value.rigidBodies|
    ensures var bodies := SceneFor(names, config, entry).value.rigidBodies;
            var w := if Truthy(WallConfig(config)) then 1 else 0;
            |bodies| == w + |names| &&
            (p < w ==> bodies[p].WallEntry? && EntryId(bodies[p]) == 0) &&
            (w <= p ==> bodies[p].BodyEntry? && Returned(bodies[p].body) == entry(names[p - w], p - w + 1))
  {
    SceneForShape(names, config, entry);
    var wall := WallOf(config).value;
    var rbs := Numbered(names, entry).value;
    if |wall| <= p {
      assert (wall + Entries(rbs))[p] == BodyEntry(rbs[p - |wall|]);
    }
  }

  /** The ids of the generated scene: with a wall, every entry's id is its
      position; without one, the fluid bodies still start at 1, so every
      id is one more than its position. */
  lemma XmlSceneIds(doc: XmlDoc, config: seq<(string, Json)>, parse: FloatParser)
    requires XmlSceneOf(doc, config, parse).Returned?
    ensures var bodies := XmlSceneOf(doc, config, parse).value.rigidBodies;
            var offset := if Truthy(WallConfig(config)) then 0 else 1;
            |bodies| == |SortedSiteBodies(doc.sites)| + 1 - offset &&
            forall p :: 0 <= p < |bodies| ==> EntryId(bodies[p]) == p + offset
  {
    var names := SortedSiteBodies(doc.sites);
    var entry := EntryMaker(doc, config, parse);
    var bodies := SceneFor(names, config, entry).value.rigidBodies;
    var w := if Truthy(WallConfig(config)) then 1 else 0;
    SceneForShape(names, config, entry);
    forall p | 0 <= p < |bodies| ensures EntryId(bodies[p]) == p + 1 - w {
      SceneForAt(names, config, entry, p);
      if w <= p {
        RigidBodyContents(doc, config, parse, names[p - w], p - w + 1);
      }
    }
  }

  /** The fluid bodies of the generated scene are the identified bodies in
      name order, each once: entry `w + i` is body `i`'s entry, `w` being 1
      with a wall and 0 without. */
  lemma XmlSceneBodies(doc: XmlDoc, config: seq<(string, Json)>, parse: FloatParser, i: int)
    requires XmlSceneOf(doc, config, parse).Returned?
    requires 0 <= i < |SortedSiteBodies(doc.sites)|
    ensures var bodies := XmlSceneOf(doc, config, parse).value.rigidBodies;
            var w := if Truthy(WallConfig(config)) then 1 else 0;
            var name := SortedSiteBodies(doc.sites)[i];
            w + i < |bodies| && bodies[w + i].BodyEntry? &&
            Returned(bodies[w + i].body) == RigidBodyFor(doc, config, parse, name, i + 1) &&
            name in SiteBodies(doc.sites) &&
            forall j :: 0 <= j < |SortedSiteBodies(doc.sites)| && j != i ==> SortedSiteBodies(doc.sites)[j] != name
  {
    var names := SortedSiteBodies(doc.sites);
    var entry := EntryMaker(doc, config, parse);
    var w := if Truthy(WallConfig(config)) then 1 else 0;
    SortedSiteBodiesMembers(doc.sites);
    SceneForShape(names, config, entry);
    SceneForAt(names, config, entry, w + i);
    forall j | 0 <= j < |names| && j != i ensures names[j] != names[i] {
      if j < i {
        assert LexLess(names[j], names[i]);
      } else {
        assert LexLess(names[i], names[j]);
      }
      LexIrreflexive(names[i]);
    }
  }

  /** The loop of `generate_scene_json`: appends each name's entry,
      numbered from 1, after `start`, and stops at the first failure. */
  method AppendEntries(names: seq<string>, entry: (string, int) -> Outcome<XmlRigidBody>, start: seq<XmlSceneBody>)
      returns (r: Outcome<seq<XmlSceneBody>>)
    ensures r.Raised? <==> Numbered(names, entry).Raised?
    ensures r.Returned? ==> r.value == start + Entries(Numbered(names, entry).value)
  {
    var rigidBodies := start;
    ghost var added: seq<XmlRigidBody> := [];
    for i := 0 to |names|
      invariant Numbered(names[..i], entry) == Returned(added)
      invariant rigidBodies == start + Entries(added)
    {
      assert names[..i + 1][..i] == names[..i];
      var rb := entry(names[i], i + 1);
      if rb.Raised? {
        return Raised;
      }
      assert Entries(added + [rb.value]) == Entries(added) + [BodyEntry(rb.value)];
      rigidBodies := rigidBodies + [BodyEntry(rb.value)];
      added := added + [rb.value];
    }
    assert names[..|names|] == names;
    r := Returned(rigidBodies);
  }

  // ---------------------------------------------------------------------
  // The generator

  class XmlSceneGenerator {
    const doc: XmlDoc
    const config: seq<(string, Json)>
    const parse: FloatParser

    constructor (doc: XmlDoc, config: seq<(string, Json)>, parse: FloatParser)
      ensures this.doc == doc && this.config == config && this.parse == parse
    {
      this.doc := doc;
      this.config := config;
      this.parse := parse;
    }

    /** Collects the bodies of the marked sites into a set, then sorts it. */
    method IdentifySphBodies() returns (r: seq<string>)
      ensures r == SortedSiteBodies(doc.sites)
      ensures StrictlySorted(r) && forall y :: y in r <==> y in SiteBodies(doc.sites)
    {
      var found: set<string> := {};
      for i := 0 to |doc.sites|
        invariant found == SiteBodies(doc.sites[..i])
      {
        var name := SiteName(doc.sites[i]);
        SiteBodiesSnoc(doc.sites[..i], doc.sites[i]);
        assert doc.sites[..i + 1] == doc.sites[..i] + [doc.sites[i]];
        if Marked(name) {
          found := found + {SiteBody(name)};
        }
      }
      assert doc.sites[..|doc.sites|] == doc.sites;
      r := SortedNames(found);
      SortedSiteBodiesMembers(doc.sites);
      StrictlySortedUnique(r, SortedSiteBodies(doc.sites));
    }

    /** Appends the wall (when configured) and then each identified body's
        entry, numbered from 1. */
    method GenerateSceneJson() returns (r: Outcome<XmlSceneData>)
      ensures r == XmlSceneOf(doc, config, parse)
    {
      var names := IdentifySphBodies();
      var rigidBodies: seq<XmlSceneBody> := [];
      var wall := WallConfig(config);
      if Truthy(wall) {
        if !wall.JObj? {
          return Raised;
        }
        rigidBodies := [WallEntry(XmlWall(0, Get(wall.fields, "geometryFile", JStr(Scene.DefaultWallGeometry)),
                                          Get(wall.fields, "isDynamic", JBool(false)),
                                          Get(wall.fields, "isWall", JBool(true))))];
      }
      assert rigidBodies == WallOf(config).value;
      var all := AppendEntries(names, EntryMaker(doc, config, parse), rigidBodies);
      if all.Raised? {
        return Raised;
      }
      var template := Scene.SceneTemplate(config);
      if !template.JObj? {
        return Raised;
      }
      r := Returned(XmlSceneData(Get(template.fields, "Configuration", JObj([])),
                                 Get(template.fields, "Materials", JList([])),
                                 all.value,
                                 Get(template.fields, "FluidBlocks", JList([]))));
    }
  }
}
