// Publishing the legged-robot scene: the robots are laid out on a square
// grid with 0.5 m spacing, then the terrain pieces are added (unless
// skipped). Asset paths have "//" replaced by "/". The remote scene
// service is the host: the model returns the actors in the order they are
// added and publishes nothing.

module SceneUtil {
  import opened Core
  import opened Strings

  // ---------------------------------------------------------------------
  // Path normalisation

  /** `path.replace("//", "/")`. */
  function NormalizePath(path: string): string
  {
    ReplaceAll(path, "//", "/")
  }

  /** A path without "//" is left as it is. */
  lemma NormalizeCleanPath(path: string)
    requires forall j :: !OccursAt(path, "//", j)
    ensures NormalizePath(path) == path
  {
    ReplaceAllAbsent(path, "//", "/");
  }

  /** Each "//" is replaced once, left to right, so a run of three slashes
      still leaves two: the replacement does not fully collapse slashes,
      and applying it again changes the result. */
  lemma NormalizeTripleSlash()
    ensures NormalizePath("///") == "//"
    ensures NormalizePath(NormalizePath("///")) == "/"
  {
    assert "///"[..2] == "//" && "///"[2..] == "/";
    assert ReplaceAll("/", "//", "/") == "/";
    assert "//"[..2] == "//" && "//"[2..] == [];
    assert ReplaceAll([], "//", "/") == [];
  }

  /** The replacement never lengthens a path. */
  lemma {:induction false} NormalizeShortens(path: string)
    ensures |NormalizePath(path)| <= |path|
    decreases |path|
  {
    if |path| >= 2 {
      if path[..2] == "//" {
        NormalizeShortens(path[2..]);
      } else {
        NormalizeShortens(path[1..]);
      }
    }
  }

  // ---------------------------------------------------------------------
  // The grid

  /** `int(np.ceil(np.sqrt(n)))`: the least width whose square holds `n`
      cells. */
  function CeilSqrt(n: nat): (w: nat)
    ensures w * w >= n
    ensures w == 0 || (w - 1) * (w - 1) < n
  {
    CeilSqrtFrom(n, 0)
  }

  function CeilSqrtFrom(n: nat, w: nat): (r: nat)
    requires w == 0 || (w - 1) * (w - 1) < n
    ensures r * r >= n
    ensures r == 0 || (r - 1) * (r - 1) < n
    decreases n - w
  {
    if w * w >= n then w
    else
      SquareAtLeast(w);
      CeilSqrtFrom(n, w + 1)
  }

  lemma SquareAtLeast(w: nat)
    ensures w <= w * w
  {
    if w > 0 {
      assert w * w == w * (w - 1) + w;
    }
  }

  /** The robots fit in `w` rows of `w`: the row of the last robot is below
      the width. */
  lemma {:induction false} RowsFit(n: nat, i: nat)
    requires i < n
    ensures CeilSqrt(n) > 0 && i / CeilSqrt(n) < CeilSqrt(n)
  {
    var w := CeilSqrt(n);
    assert w != 0;
    var q := i / w;
    assert q * w <= i;
    BelowSquare(q, w);
  }

  lemma BelowSquare(q: nat, w: nat)
    requires w > 0 && q * w < w * w
    ensures q < w
  {
  }

  /** The grid cell of robot `i`: its column and row. */
  function Cell(i: nat, w: nat): (nat, nat)
    requires w > 0
  {
    (i % w, i / w)
  }

  /** Different robots get different cells. */
  lemma CellsDistinct(i: nat, j: nat, w: nat)
    requires w > 0 && i != j
    ensures Cell(i, w) != Cell(j, w)
  {
  }

  /** A scene actor: name, asset path and position (rotation identity,
      scale 1). */
  datatype Actor = Actor(name: string, assetPath: string, x: real, y: real)

  /** Robot `i`'s actor: named `<agent>_<i:03d>`, on its cell 0.5 m apart,
      offset by minus half the width on both axes. */
  function RobotActor(agentName: string, path: string, i: nat, w: nat): Actor
    requires w > 0
  {
    var offset := -(w as real) / 2.0;
    Actor(agentName + "_" + Format03(i), NormalizePath(path),
          (i % w) as real * 0.5 + offset, (i / w) as real * 0.5 + offset)
  }

  /** A terrain piece: named by its normalised path, at the origin. */
  function TerrainActor(path: string): Actor
  {
    Actor(NormalizePath(path), NormalizePath(path), 0.0, 0.0)
  }

  /** Robots stand at distinct positions. */
  lemma RobotPositionsDistinct(agentName: string, path: string, i: nat, j: nat, w: nat)
    requires w > 0 && i != j
    ensures var a, b := RobotActor(agentName, path, i, w), RobotActor(agentName, path, j, w);
            (a.x, a.y) != (b.x, b.y)
  {
    CellsDistinct(i, j, w);
  }

  /** Robots have distinct names. */
  lemma RobotNamesDistinct(agentName: string, path: string, i: nat, j: nat, w: nat)
    requires w > 0 && i != j
    ensures RobotActor(agentName, path, i, w).name != RobotActor(agentName, path, j, w).name
  {
    Format03RoundTrip(i);
    Format03RoundTrip(j);
    var p := agentName + "_";
    assert (p + Format03(i))[|p|..] == Format03(i);
    assert (p + Format03(j))[|p|..] == Format03(j);
  }

  /** Every robot of a run stands in the square `[-w/2, -w/2 + (w-1)/2]`
      on both axes. */
  lemma RobotInSquare(agentName: string, path: string, n: nat, i: nat)
    requires i < n
    ensures var w := CeilSqrt(n); var a := RobotActor(agentName, path, i, w);
            -(w as real) / 2.0 <= a.x <= -(w as real) / 2.0 + (w - 1) as real * 0.5 &&
            -(w as real) / 2.0 <= a.y <= -(w as real) / 2.0 + (w - 1) as real * 0.5
  {
    var w := CeilSqrt(n);
    RowsFit(n, i);
    CoordInRange(i % w, w);
    CoordInRange(i / w, w);
  }

  lemma CoordInRange(c: nat, w: nat)
    requires c < w
    ensures -(w as real) / 2.0 <= c as real * 0.5 + -(w as real) / 2.0 <= -(w as real) / 2.0 + (w - 1) as real * 0.5
  {
  }

  // ---------------------------------------------------------------------
  // Publishing

  /** `publish_scene`: `Raised` when no scene address is given (the first
      one is used); otherwise the actors added, robots first. */
  method PublishScene(addresses: seq<string>, agentName: string, agentPath: string, agentNum: nat,
                      terrains: seq<string>, skipTerrain: bool) returns (r: Outcome<seq<Actor>>)
    ensures r.Raised? <==> addresses == []
    ensures r.Returned? ==>
              |r.value| == agentNum + (if skipTerrain then 0 else |terrains|) &&
              (forall i :: 0 <= i < agentNum ==> r.value[i] == RobotActor(agentName, agentPath, i, CeilSqrt(agentNum))) &&
              (!skipTerrain ==> r.value[agentNum..] == TerrainActors(terrains))
  {
    if addresses == [] {
      return Raised;
    }
    var w := CeilSqrt(agentNum);
    // The grid has a column as soon as there is a robot to place.
    assert agentNum == 0 || w > 0;
    var actors: seq<Actor> := [];
    for i := 0 to agentNum
      invariant |actors| == i
      invariant forall k :: 0 <= k < i ==> actors[k] == RobotActor(agentName, agentPath, k, w)
    {
      actors := actors + [RobotActor(agentName, agentPath, i, w)];
    }
    if !skipTerrain {
      var added := AddTerrains(terrains);
      actors := actors + added;
    }
    return Returned(actors);
  }

  /** `publish_terrain`: `Raised` without an address; otherwise the
      terrain actors in order. */
  method PublishTerrain(addresses: seq<string>, terrains: seq<string>) returns (r: Outcome<seq<Actor>>)
    ensures r.Raised? <==> addresses == []
    ensures r.Returned? ==> r.value == TerrainActors(terrains)
  {
    if addresses == [] {
      return Raised;
    }
    var added := AddTerrains(terrains);
    return Returned(added);
  }

  method AddTerrains(terrains: seq<string>) returns (actors: seq<Actor>)
    ensures actors == TerrainActors(terrains)
  {
    actors := [];
    for i := 0 to |terrains|
      invariant actors == TerrainActors(terrains[..i])
    {
      assert terrains[..i + 1][..i] == terrains[..i];
      actors := actors + [TerrainActor(terrains[i])];
    }
    assert terrains[..|terrains|] == terrains;
  }

  /** The terrain pieces' actors, in order. */
  function TerrainActors(terrains: seq<string>): (r: seq<Actor>)
    ensures |r| == |terrains|
    ensures forall i :: 0 <= i < |terrains| ==> r[i] == TerrainActor(terrains[i])
  {
    if terrains == [] then []
    else TerrainActors(terrains[..|terrains| - 1]) + [TerrainActor(terrains[|terrains| - 1])]
  }
}
