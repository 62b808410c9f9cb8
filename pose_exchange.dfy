// The position-publishing module of the fluid coupling layer: it reads the
// configured rigid bodies (or their connection points), asks the host
// engine for their current placements and publishes one pose per answer to
// the remote solver.
//
// The rigid-body configuration is JSON, so every key may be missing
// (`Option`).  The host's answers are parameters of the collecting
// methods; the calls made to the host and the batches published are ghost
// traces.

module PoseExchange {
  import opened Core

  datatype PointConfig = PointConfig(siteName: Option<string>, pointId: Option<string>, objectId: Option<string>)

  datatype BodyConfig = BodyConfig(
    mujocoBody: Option<string>,
    objectId: Option<string>,
    connectionPoints: Option<seq<PointConfig>>)

  // ---------------------------------------------------------------------
  // Reading the records from the configuration's JSON

  /** `d.get(key)` for a text entry: the text, or `None` when the key is
      missing or holds no text. */
  function TextField(fields: seq<(string, Json)>, key: string): Option<string>
  {
    var v := DictGet(fields, key);
    if v.Some? && v.value.JStr? then Some(v.value.s) else None
  }

  /** A connection point's entry; anything but an object reads as one
      with every key missing. */
  function PointOf(j: Json): PointConfig
  {
    if j.JObj? then PointConfig(TextField(j.fields, "site_name"), TextField(j.fields, "point_id"),
                                TextField(j.fields, "object_id"))
    else PointConfig(None, None, None)
  }

  function PointsOf(items: seq<Json>): (r: seq<PointConfig>)
    ensures |r| == |items| && forall i :: 0 <= i < |items| ==> r[i] == PointOf(items[i])
  {
    if items == [] then [] else [PointOf(items[0])] + PointsOf(items[1..])
  }

  /** A rigid body's entry: its `mujoco_body`, `object_id` and
      `connection_points` keys. */
  function BodyOf(j: Json): BodyConfig
  {
    if !j.JObj? then BodyConfig(None, None, None)
    else
      var v := DictGet(j.fields, "connection_points");
      var cps := if v.Some? && v.value.JList? then Some(PointsOf(v.value.items)) else None;
      BodyConfig(TextField(j.fields, "mujoco_body"), TextField(j.fields, "object_id"), cps)
  }

  /** A `rigid_bodies` list, entry by entry; anything but a list reads as
      no bodies. */
  function BodiesOf(j: Json): (r: seq<BodyConfig>)
    ensures j.JList? ==> |r| == |j.items| && forall i :: 0 <= i < |j.items| ==> r[i] == BodyOf(j.items[i])
    ensures !j.JList? ==> r == []
  {
    if j.JList? then BodiesOfItems(j.items) else []
  }

  function BodiesOfItems(items: seq<Json>): (r: seq<BodyConfig>)
    ensures |r| == |items| && forall i :: 0 <= i < |items| ==> r[i] == BodyOf(items[i])
  {
    if items == [] then [] else [BodyOf(items[0])] + BodiesOfItems(items[1..])
  }

  /** The JSON entry a text key contributes: none when the value is missing. */
  function TextEntry(key: string, v: Option<string>): seq<(string, Json)>
  {
    if v.Some? then [(key, JStr(v.value))] else []
  }

  /** The configuration JSON that writes down a point's record. */
  function PointJson(p: PointConfig): Json
  {
    JObj(TextEntry("site_name", p.siteName) + TextEntry("point_id", p.pointId) + TextEntry("object_id", p.objectId))
  }

  function PointsJson(ps: seq<PointConfig>): (r: seq<Json>)
    ensures |r| == |ps| && forall i :: 0 <= i < |ps| ==> r[i] == PointJson(ps[i])
  {
    if ps == [] then [] else [PointJson(ps[0])] + PointsJson(ps[1..])
  }

  /** The configuration JSON that writes down a body's record. */
  function BodyJson(b: BodyConfig): Json
  {
    JObj(TextEntry("mujoco_body", b.mujocoBody) + TextEntry("object_id", b.objectId)
         + (if b.connectionPoints.Some? then [("connection_points", JList(PointsJson(b.connectionPoints.value)))] else []))
  }

  function BodiesJson(bs: seq<BodyConfig>): (r: Json)
    ensures r.JList? && |r.items| == |bs| && forall i :: 0 <= i < |bs| ==> r.items[i] == BodyJson(bs[i])
  {
    JList(BodiesJsonItems(bs))
  }

  function BodiesJsonItems(bs: seq<BodyConfig>): (r: seq<Json>)
    ensures |r| == |bs| && forall i :: 0 <= i < |bs| ==> r[i] == BodyJson(bs[i])
  {
    if bs == [] then [] else [BodyJson(bs[0])] + BodiesJsonItems(bs[1..])
  }

  /** Looking a key up in the entry one text key contributes. */
  lemma TextEntryGet(key: string, v: Option<string>, k: string)
    ensures DictGet(TextEntry(key, v), k) == if k == key && v.Some? then Some(JStr(v.value)) else None
  {
  }

  /** Looking a key up in three consecutive groups of entries. */
  lemma DictGet3(a: seq<(string, Json)>, b: seq<(string, Json)>, c: seq<(string, Json)>, k: string)
    ensures DictGet(a + b + c, k)
         == if DictGet(c, k).Some? then DictGet(c, k) else if DictGet(b, k).Some? then DictGet(b, k) else DictGet(a, k)
  {
    DictGetAppend(a + b, c, k);
    DictGetAppend(a, b, k);
  }

  /** Writing a point's record down and reading it back gives the record. */
  lemma PointRoundTrip(p: PointConfig)
    ensures PointOf(PointJson(p)) == p
  {
    var a := TextEntry("site_name", p.siteName);
    var b := TextEntry("point_id", p.pointId);
    var c := TextEntry("object_id", p.objectId);
    assert PointJson(p).fields == a + b + c;
    DictGet3(a, b, c, "site_name");
    TextEntryGet("point_id", p.pointId, "site_name");
    TextEntryGet("object_id", p.objectId, "site_name");
    DictGet3(a, b, c, "point_id");
    TextEntryGet("object_id", p.objectId, "point_id");
    TextEntryGet("site_name", p.siteName, "point_id");
    DictGet3(a, b, c, "object_id");
    TextEntryGet("point_id", p.pointId, "object_id");
    TextEntryGet("site_name", p.siteName, "object_id");
  }

  lemma PointsRoundTrip(ps: seq<PointConfig>)
    ensures PointsOf(PointsJson(ps)) == ps
  {
    forall i | 0 <= i < |ps|
      ensures PointsOf(PointsJson(ps))[i] == ps[i]
    {
      PointRoundTrip(ps[i]);
    }
  }

  /** The three keys of a body's written record, looked up. */
  lemma BodyJsonFields(b: BodyConfig)
    ensures var f := BodyJson(b).fields;
            TextField(f, "mujoco_body") == b.mujocoBody && TextField(f, "object_id") == b.objectId
            && DictGet(f, "connection_points")
               == if b.connectionPoints.Some? then Some(JList(PointsJson(b.connectionPoints.value))) else None
  {
    var x := TextEntry("mujoco_body", b.mujocoBody);
    var y := TextEntry("object_id", b.objectId);
    var z: seq<(string, Json)> :=
      if b.connectionPoints.Some? then [("connection_points", JList(PointsJson(b.connectionPoints.value)))] else [];
    assert BodyJson(b).fields == x + y + z;
    DictGet3(x, y, z, "mujoco_body");
    TextEntryGet("object_id", b.objectId, "mujoco_body");
    DictGet3(x, y, z, "object_id");
    TextEntryGet("mujoco_body", b.mujocoBody, "object_id");
    DictGet3(x, y, z, "connection_points");
    TextEntryGet("mujoco_body", b.mujocoBody, "connection_points");
    TextEntryGet("object_id", b.objectId, "connection_points");
  }

  /** Writing a body's record down and reading it back gives the record. */
  lemma BodyRoundTrip(b: BodyConfig)
    ensures BodyOf(BodyJson(b)) == b
  {
    BodyJsonFields(b);
    if b.connectionPoints.Some? {
      PointsRoundTrip(b.connectionPoints.value);
    }
  }

  /** A `rigid_bodies` list written from records reads back as those
      records, in order. */
  lemma BodiesRoundTrip(bs: seq<BodyConfig>)
    ensures BodiesOf(BodiesJson(bs)) == bs
  {
    forall i | 0 <= i < |bs|
      ensures BodiesOf(BodiesJson(bs))[i] == bs[i]
    {
      BodyRoundTrip(bs[i]);
    }
  }

  /** A placement as the host reports it. */
  datatype Placement = Placement(pos: Vec3, quat: Quat)

  /** A pose as it goes on the wire. */
  datatype Pose = Pose(objectId: string, pos: Vec3, quat: Quat)

  /** The host calls the collectors make. */
  datatype HostQuery = Forward | QueryBodies(bodies: seq<string>) | QuerySites(sites: seq<string>)

  // ---------------------------------------------------------------------
  // Body poses

  /** `(body, wire id)` for each configured body with a non-empty name, in
      configuration order; the wire id defaults to the body name. */
  function BodyEntries(config: seq<BodyConfig>): (r: seq<(string, string)>)
    ensures forall i :: 0 <= i < |r| ==> r[i].0 != ""
    ensures |r| <= |config|
  {
    if config == [] then []
    else
      var b := config[|config| - 1];
      var name := b.mujocoBody.GetOr("");
      BodyEntries(config[..|config| - 1]) + (if name != "" then [(name, b.objectId.GetOr(name))] else [])
  }

  /** Collection follows configuration order: the entries of a concatenation
      are the entries of its parts, in order. */
  lemma {:induction false} BodyEntriesAppend(a: seq<BodyConfig>, b: seq<BodyConfig>)
    ensures BodyEntries(a + b) == BodyEntries(a) + BodyEntries(b)
    decreases |b|
  {
    if b == [] {
      assert a + b == a;
    } else {
      assert (a + b)[..|a + b| - 1] == a + b[..|b| - 1];
      BodyEntriesAppend(a, b[..|b| - 1]);
    }
  }

  /** A configuration whose entries all name a body yields one entry per
      configuration item. */
  lemma {:induction false} BodyEntriesAllNamed(config: seq<BodyConfig>)
    requires forall i :: 0 <= i < |config| ==> config[i].mujocoBody.Some? && config[i].mujocoBody.value != ""
    ensures |BodyEntries(config)| == |config|
    ensures forall i :: 0 <= i < |config| ==>
              BodyEntries(config)[i] == (config[i].mujocoBody.value, config[i].objectId.GetOr(config[i].mujocoBody.value))
    decreases |config|
  {
    if config != [] {
      BodyEntriesAllNamed(config[..|config| - 1]);
    }
  }

  /** The poses `_collect_body_positions` returns for a host reply: empty
      when no body is named, when the query fails, or when the reply does
      not hold one placement per queried name (the reshape raises);
      otherwise the i-th placement under the id last configured for the
      i-th name. */
  function BodyPoses(config: seq<BodyConfig>, reply: Option<seq<Placement>>): (r: seq<Pose>)
    ensures r != [] ==> reply.Some? && |r| == |BodyEntries(config)| == |reply.value|
  {
    var entries := BodyEntries(config);
    var names := DictKeys(entries);
    var ids := DictOf(entries);
    if names == [] || reply.None? || |reply.value| != |names| then []
    else seq(|names|, i requires 0 <= i < |names| =>
               Pose(DictGet(ids, names[i]).GetOr(names[i]), reply.value[i].pos, reply.value[i].quat))
  }

  /** With distinct body names, pose i carries the i-th configured body's own
      wire id and the host's i-th placement unchanged. */
  lemma BodyPosesFollowConfig(config: seq<BodyConfig>, reply: seq<Placement>, i: nat)
    requires DistinctKeys(BodyEntries(config))
    requires |reply| == |BodyEntries(config)| && i < |reply|
    ensures BodyPoses(config, Some(reply))[i]
         == Pose(BodyEntries(config)[i].1, reply[i].pos, reply[i].quat)
  {
    var entries := BodyEntries(config);
    DictOfLastWins(entries, entries[i].0);
    DictGetDistinct(entries, i);
  }

  // ---------------------------------------------------------------------
  // Site poses

  /** A connection point's wire id: `point_id`, else `object_id`, else the
      site name. */
  function WireId(cp: PointConfig): (r: string)
    ensures cp.pointId.Some? ==> r == cp.pointId.value
    ensures cp.pointId.None? && cp.objectId.Some? ==> r == cp.objectId.value
    ensures cp.pointId.None? && cp.objectId.None? ==> r == cp.siteName.GetOr("")
  {
    cp.pointId.GetOr(cp.objectId.GetOr(cp.siteName.GetOr("")))
  }

  /** `(site, wire id)` for each point with a non-empty site name. */
  function PointEntries(points: seq<PointConfig>): (r: seq<(string, string)>)
    ensures forall i :: 0 <= i < |r| ==> r[i].0 != ""
  {
    if points == [] then []
    else
      var cp := points[|points| - 1];
      var site := cp.siteName.GetOr("");
      PointEntries(points[..|points| - 1]) + (if site != "" then [(site, WireId(cp))] else [])
  }

  /** The site entries of every configured body, bodies in order. */
  function SiteEntries(config: seq<BodyConfig>): (r: seq<(string, string)>)
    ensures forall i :: 0 <= i < |r| ==> r[i].0 != ""
  {
    if config == [] then []
    else SiteEntries(config[..|config| - 1]) + PointEntries(config[|config| - 1].connectionPoints.GetOr([]))
  }

  /** The poses `_collect_site_positions` returns: empty when no site is
      named or the query fails; otherwise one pose per site in the host's
      reply, in reply order, under the wire id configured last for that
      site (the site name for a site the configuration does not know),
      carrying the site's own position and quaternion. */
  function SitePoses(config: seq<BodyConfig>, reply: Option<seq<(string, Placement)>>): (r: seq<Pose>)
    ensures DictKeys(SiteEntries(config)) != [] && reply.Some? ==> |r| == |reply.value|
    ensures DictKeys(SiteEntries(config)) == [] || reply.None? ==> r == []
    ensures r != [] ==> reply.Some? && |r| == |reply.value|
                        && forall i :: 0 <= i < |r| ==> r[i].pos == reply.value[i].1.pos && r[i].quat == reply.value[i].1.quat
  {
    var entries := SiteEntries(config);
    var ids := DictOf(entries);
    if DictKeys(entries) == [] || reply.None? then []
    else seq(|reply.value|, i requires 0 <= i < |reply.value| =>
               Pose(DictGet(ids, reply.value[i].0).GetOr(reply.value[i].0), reply.value[i].1.pos, reply.value[i].1.quat))
  }

  /** The wire id of a reported site is the id of the last configured point
      for that site, or the site name when no point names it. */
  lemma SitePoseId(config: seq<BodyConfig>, reply: seq<(string, Placement)>, i: nat)
    requires DictKeys(SiteEntries(config)) != [] && i < |reply|
    ensures SitePoses(config, Some(reply))[i].objectId
         == DictGet(SiteEntries(config), reply[i].0).GetOr(reply[i].0)
  {
    DictOfLastWins(SiteEntries(config), reply[i].0);
  }

  // ---------------------------------------------------------------------
  // The collecting loops

  lemma BodyEntriesStep(config: seq<BodyConfig>, i: nat)
    requires i < |config|
    ensures var name := config[i].mujocoBody.GetOr("");
            BodyEntries(config[..i + 1])
            == if name != "" then BodyEntries(config[..i]) + [(name, config[i].objectId.GetOr(name))]
               else BodyEntries(config[..i])
  {
    assert config[..i + 1][..i] == config[..i];
    assert BodyEntries(config[..i]) + [] == BodyEntries(config[..i]);
  }

  /** The names to query and the name -> wire id dictionary, built by one
      pass over the configuration. */
  method BodyNamesAndIds(config: seq<BodyConfig>) returns (names: seq<string>, ids: seq<(string, string)>)
    ensures names == DictKeys(BodyEntries(config))
    ensures ids == DictOf(BodyEntries(config))
  {
    names, ids := [], [];
    for i := 0 to |config|
      invariant names == DictKeys(BodyEntries(config[..i]))
      invariant ids == DictOf(BodyEntries(config[..i]))
    {
      var b := config[i];
      var name := b.mujocoBody.GetOr("");
      var objectId := b.objectId.GetOr(name);
      BodyEntriesStep(config, i);
      if name != "" {
        DictOfSnoc(BodyEntries(config[..i]), (name, objectId));
        names := names + [name];
        ids := DictPut(ids, name, objectId);
      }
    }
    assert config[..|config|] == config;
  }

  /** Pose i: the i-th placement under the wire id recorded for name i. */
  method LabelPlacements(names: seq<string>, ids: seq<(string, string)>, placements: seq<Placement>)
    returns (poses: seq<Pose>)
    requires |placements| == |names|
    ensures |poses| == |names|
    ensures forall j :: 0 <= j < |names| ==>
              poses[j] == Pose(DictGet(ids, names[j]).GetOr(names[j]), placements[j].pos, placements[j].quat)
  {
    poses := [];
    for i := 0 to |names|
      invariant |poses| == i
      invariant forall j :: 0 <= j < i ==>
                  poses[j] == Pose(DictGet(ids, names[j]).GetOr(names[j]), placements[j].pos, placements[j].quat)
    {
      var objectId := DictGet(ids, names[i]).GetOr(names[i]);
      poses := poses + [Pose(objectId, placements[i].pos, placements[i].quat)];
    }
  }

  lemma PointEntriesStep(points: seq<PointConfig>, j: nat)
    requires j < |points|
    ensures var site := points[j].siteName.GetOr("");
            PointEntries(points[..j + 1])
            == if site != "" then PointEntries(points[..j]) + [(site, WireId(points[j]))]
               else PointEntries(points[..j])
  {
    assert points[..j + 1][..j] == points[..j];
    assert PointEntries(points[..j]) + [] == PointEntries(points[..j]);
  }

  lemma AppendAssoc<T>(a: seq<T>, b: seq<T>, x: T)
    ensures a + (b + [x]) == (a + b) + [x]
  {
  }

  /** Extends the site names and the dictionary with one body's points. */
  method AddPointEntries(sites: seq<string>, ids: seq<(string, string)>, ghost base: seq<(string, string)>,
                         points: seq<PointConfig>)
    returns (sites': seq<string>, ids': seq<(string, string)>)
    requires sites == DictKeys(base) && ids == DictOf(base)
    ensures sites' == DictKeys(base + PointEntries(points))
    ensures ids' == DictOf(base + PointEntries(points))
  {
    sites', ids' := sites, ids;
    assert base + PointEntries(points[..0]) == base;
    for j := 0 to |points|
      invariant sites' == DictKeys(base + PointEntries(points[..j]))
      invariant ids' == DictOf(base + PointEntries(points[..j]))
    {
      var cp := points[j];
      var site := cp.siteName.GetOr("");
      PointEntriesStep(points, j);
      if site != "" {
        DictOfSnoc(base + PointEntries(points[..j]), (site, WireId(cp)));
        AppendAssoc(base, PointEntries(points[..j]), (site, WireId(cp)));
        sites' := sites' + [site];
        ids' := DictPut(ids', site, WireId(cp));
      }
    }
    assert points[..|points|] == points;
  }

  /** The sites to query and the site -> wire id dictionary, built by one
      pass over every body's connection points. */
  method SiteNamesAndIds(config: seq<BodyConfig>) returns (sites: seq<string>, ids: seq<(string, string)>)
    ensures sites == DictKeys(SiteEntries(config))
    ensures ids == DictOf(SiteEntries(config))
  {
    sites, ids := [], [];
    for i := 0 to |config|
      invariant sites == DictKeys(SiteEntries(config[..i]))
      invariant ids == DictOf(SiteEntries(config[..i]))
    {
      assert config[..i + 1][..i] == config[..i];
      sites, ids := AddPointEntries(sites, ids, SiteEntries(config[..i]), config[i].connectionPoints.GetOr([]));
    }
    assert config[..|config|] == config;
  }

  /** One pose per answer, in answer order, under the recorded wire id. */
  method LabelAnswers(ids: seq<(string, string)>, answers: seq<(string, Placement)>) returns (poses: seq<Pose>)
    ensures |poses| == |answers|
    ensures forall j :: 0 <= j < |answers| ==>
              poses[j] == Pose(DictGet(ids, answers[j].0).GetOr(answers[j].0), answers[j].1.pos, answers[j].1.quat)
  {
    poses := [];
    for i := 0 to |answers|
      invariant |poses| == i
      invariant forall j :: 0 <= j < i ==>
                  poses[j] == Pose(DictGet(ids, answers[j].0).GetOr(answers[j].0), answers[j].1.pos, answers[j].1.quat)
    {
      var objectId := DictGet(ids, answers[i].0).GetOr(answers[i].0);
      poses := poses + [Pose(objectId, answers[i].1.pos, answers[i].1.quat)];
    }
  }

  // ---------------------------------------------------------------------
  // The module

  class PoseModule {
    /** The module was given both a remote client and an event loop. */
    const hasClient: bool
    const rigidBodies: seq<BodyConfig>

    ghost var hostQueries: seq<HostQuery>
    /** The batches handed to the remote, in order. */
    ghost var published: seq<seq<Pose>>

    constructor (hasClient: bool, rigidBodies: seq<BodyConfig>)
      ensures this.hasClient == hasClient && this.rigidBodies == rigidBodies
      ensures hostQueries == [] && published == []
    {
      this.hasClient := hasClient;
      this.rigidBodies := rigidBodies;
      hostQueries := [];
      published := [];
    }

    /** Collects body poses: queries the host only when some body is named. */
    method CollectBodyPositions(reply: Option<seq<Placement>>) returns (poses: seq<Pose>)
      modifies this
      ensures poses == BodyPoses(rigidBodies, reply)
      ensures var names := DictKeys(BodyEntries(rigidBodies));
              hostQueries == old(hostQueries) + (if names == [] then [] else [Forward, QueryBodies(names)])
      ensures published == old(published)
    {
      var names, ids := BodyNamesAndIds(rigidBodies);
      if names == [] {
        return [];
      }
      hostQueries := hostQueries + [Forward, QueryBodies(names)];
      if reply.None? || |reply.value| != |names| {
        return [];
      }
      poses := LabelPlacements(names, ids, reply.value);
    }

    /** Collects site poses: queries the host only when some site is named,
        then emits one pose per site in the host's answer. */
    method CollectSitePositions(reply: Option<seq<(string, Placement)>>) returns (poses: seq<Pose>)
      modifies this
      ensures poses == SitePoses(rigidBodies, reply)
      ensures var sites := DictKeys(SiteEntries(rigidBodies));
              hostQueries == old(hostQueries) + (if sites == [] then [] else [Forward, QuerySites(sites)])
      ensures published == old(published)
    {
      var sites, ids := SiteNamesAndIds(rigidBodies);
      if sites == [] {
        return [];
      }
      hostQueries := hostQueries + [Forward, QuerySites(sites)];
      if reply.None? {
        return [];
      }
      poses := LabelAnswers(ids, reply.value);
    }

    /** `publish_positions`: without a client nothing happens; otherwise the
        body poses are collected and published only when there are some. */
    method PublishPositions(reply: Option<seq<Placement>>)
      modifies this
      ensures !hasClient ==> hostQueries == old(hostQueries) && published == old(published)
      ensures hasClient ==>
                var names := DictKeys(BodyEntries(rigidBodies));
                var poses := BodyPoses(rigidBodies, reply);
                hostQueries == old(hostQueries) + (if names == [] then [] else [Forward, QueryBodies(names)])
                && published == old(published) + (if poses == [] then [] else [poses])
    {
      if !hasClient {
        return;
      }
      var poses := CollectBodyPositions(reply);
      if poses != [] {
        published := published + [poses];
      }
    }

    /** `publish_site_positions`: as `PublishPositions`, over sites. */
    method PublishSitePositions(reply: Option<seq<(string, Placement)>>)
      modifies this
      ensures !hasClient ==> hostQueries == old(hostQueries) && published == old(published)
      ensures hasClient ==>
                var sites := DictKeys(SiteEntries(rigidBodies));
                var poses := SitePoses(rigidBodies, reply);
                hostQueries == old(hostQueries) + (if sites == [] then [] else [Forward, QuerySites(sites)])
                && published == old(published) + (if poses == [] then [] else [poses])
    {
      if !hasClient {
        return;
      }
      var poses := CollectSitePositions(reply);
      if poses != [] {
        published := published + [poses];
      }
    }
  }
}
