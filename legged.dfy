// The legged-robot driver: the gym registration of one robot, splitting a
// flat observation dictionary per robot, and the keyboard controller that
// turns key states into a velocity command and switches terrain and policy
// kind on key release. The keyboard device is the host: each update is
// given the key states it read.

module LeggedSim {
  import opened Core
  import opened Strings
  import SimLoop
  import SceneUtil

  // ---------------------------------------------------------------------
  // `register_env`

  /** The id and the agent names registered for one robot: the id format
      of the fluid driver, and the single agent `<agent>_000`. */
  function Registration(address: string, envName: string, index: int, agentName: string): (seq<string>, string)
  {
    ([agentName + "_" + Format03(0)], SimLoop.EnvId(address, envName, index))
  }

  /** The registered agent is the robot the scene publisher names first. */
  lemma RegisteredAgentIsFirstRobot(address: string, envName: string, index: int, agentName: string, path: string, w: nat)
    requires w > 0
    ensures Registration(address, envName, index, agentName).0 == [SceneUtil.RobotActor(agentName, path, 0, w).name]
  {
  }

  // ---------------------------------------------------------------------
  // `segment_obs`

  /** The observation keys of one robot, renamed: every key that starts
      with the robot's name, with each `<name>_` in it removed. */
  function Renamed<V>(obs: seq<(string, V)>, agent: string): seq<(string, V)>
  {
    if obs == [] then []
    else
      var rest := Renamed(obs[..|obs| - 1], agent);
      var (k, v) := obs[|obs| - 1];
      if StartsWith(k, agent) then rest + [(ReplaceAll(k, agent + "_", ""), v)] else rest
  }

  /** One robot's observation dictionary. */
  function Segment<V>(obs: seq<(string, V)>, agent: string): seq<(string, V)>
  {
    DictOf(Renamed(obs, agent))
  }

  function SegmentPairs<V>(obs: seq<(string, V)>, agents: seq<string>): (r: seq<(string, seq<(string, V)>)>)
    ensures |r| == |agents|
    ensures forall i :: 0 <= i < |agents| ==> r[i] == (agents[i], Segment(obs, agents[i]))
  {
    if agents == [] then []
    else SegmentPairs(obs, agents[..|agents| - 1]) + [(agents[|agents| - 1], Segment(obs, agents[|agents| - 1]))]
  }

  /** `segment_obs`: a single robot gets the whole observation; otherwise
      each robot gets its own renamed keys. */
  method SegmentObs<V>(obs: seq<(string, V)>, agents: seq<string>) returns (r: seq<(string, seq<(string, V)>)>)
    ensures |agents| == 1 ==> r == [(agents[0], obs)]
    ensures |agents| != 1 ==> r == DictOf(SegmentPairs(obs, agents))
  {
    if |agents| == 1 {
      return [(agents[0], obs)];
    }
    r := [];
    for i := 0 to |agents|
      invariant r == DictOf(SegmentPairs(obs, agents[..i]))
    {
      var agent := agents[i];
      var own: seq<(string, V)> := [];
      for j := 0 to |obs|
        invariant own == DictOf(Renamed(obs[..j], agent))
      {
        assert obs[..j + 1][..j] == obs[..j];
        var (k, v) := obs[j];
        if StartsWith(k, agent) {
          DictOfSnoc(Renamed(obs[..j], agent), (ReplaceAll(k, agent + "_", ""), v));
          own := DictPut(own, ReplaceAll(k, agent + "_", ""), v);
        }
      }
      assert obs[..|obs|] == obs;
      assert agents[..i + 1][..i] == agents[..i];
      r := DictPut(r, agent, own);
    }
    assert agents[..|agents|] == agents;
  }

  /** Looking a robot up in the split observation gives its own segment;
      a name that is not a robot finds nothing. */
  lemma SegmentLookup<V>(obs: seq<(string, V)>, agents: seq<string>, a: string)
    ensures a in agents ==> DictGet(DictOf(SegmentPairs(obs, agents)), a) == Some(Segment(obs, a))
    ensures a !in agents ==> DictGet(DictOf(SegmentPairs(obs, agents)), a) == None
  {
    DictOfLastWins(SegmentPairs(obs, agents), a);
    PairsLookup(obs, agents, a);
  }

  lemma {:induction false} PairsLookup<V>(obs: seq<(string, V)>, agents: seq<string>, a: string)
    ensures a in agents ==> DictGet(SegmentPairs(obs, agents), a) == Some(Segment(obs, a))
    ensures a !in agents ==> DictGet(SegmentPairs(obs, agents), a) == None
    decreases |agents|
  {
    if agents != [] {
      var init := agents[..|agents| - 1];
      PairsLookup(obs, init, a);
      assert SegmentPairs(obs, agents)[..|agents| - 1] == SegmentPairs(obs, init);
      assert agents == init + [agents[|agents| - 1]];
    }
  }

  /** A key written `<robot>_<rest>`, where `rest` does not contain
      `<robot>_` again, appears in the robot's segment under `rest`. */
  lemma {:induction false} SegmentStripsName<V>(obs: seq<(string, V)>, agent: string, rest: string, v: V)
    requires forall j :: !OccursAt(rest, agent + "_", j)
    requires DictGet(obs, agent + "_" + rest) == Some(v)
    ensures DictGet(Segment(obs, agent), rest).Some?
  {
    RenamedHas(obs, agent, rest, v);
    DictOfLastWins(Renamed(obs, agent), rest);
  }

  lemma {:induction false} RenamedHas<V>(obs: seq<(string, V)>, agent: string, rest: string, v: V)
    requires forall j :: !OccursAt(rest, agent + "_", j)
    requires DictGet(obs, agent + "_" + rest) == Some(v)
    ensures DictGet(Renamed(obs, agent), rest).Some?
    decreases |obs|
  {
    var key := agent + "_" + rest;
    var (k, w) := obs[|obs| - 1];
    if k == key {
      assert key[..|agent|] == agent;
      ReplaceAllStripsPrefix(agent + "_", rest);
      assert ReplaceAll(k, agent + "_", "") == rest;
    } else {
      RenamedHas(obs[..|obs| - 1], agent, rest, v);
      var r0 := Renamed(obs[..|obs| - 1], agent);
      DictGetAppend(r0, [(ReplaceAll(k, agent + "_", ""), w)], rest);
    }
  }

  /** The split keys by name prefix only: robot `<p>_1000`'s keys also
      start with `<p>_100`, so they are filed under that robot too. */
  lemma PrefixNamesOverlap(p: string)
    ensures StartsWith(p + "_" + Format03(1000) + "_x", p + "_" + Format03(100))
  {
    ThousandText();
    var long := p + "_" + Format03(1000) + "_x";
    var short := p + "_" + Format03(100);
    assert |short| == |p| + 4;
    assert long[..|short|] == short;
  }

  lemma ThousandText()
    ensures Format03(100) == "100" && Format03(1000) == "1000"
  {
    assert NatToString(1) == "1";
    assert NatToString(10) == NatToString(1) + "0";
    assert NatToString(100) == NatToString(10) + "0";
    assert NatToString(1000) == NatToString(100) + "0";
  }

  // ---------------------------------------------------------------------
  // The keyboard controller

  /** The keys the controller reads, pressed or not. */
  datatype Keys = Keys(w: bool, a: bool, s: bool, d: bool, q: bool, e: bool,
                       r: bool, lshift: bool, space: bool, m: bool)

  const NoKeys: Keys := Keys(false, false, false, false, false, false, false, false, false, false)

  /** One terrain's entry of the command model: forward and left speed
      ranges (index 0 the negative direction, 1 the positive), turn speed
      and the turbo factor. */
  datatype TerrainCommand = TerrainCommand(forward: (real, real), left: (real, real), turn: real, turbo: real)

  /** The command an update returns. */
  datatype Command = Command(linX: real, linY: real, ang: real, reborn: bool, terrain: string, model: string)

  const FlatTerrain: string := "flat_terrain"
  const RoughTerrain: string := "rough_terrain"
  const ModelTypes: seq<string> := ["sb3", "onnx", "grpc", "rllib"]

  /** Whether any key that reads the command model is down. */
  predicate Moves(k: Keys)
  {
    k.w || k.s || k.q || k.e || k.a || k.d || k.lshift
  }

  /** The velocity command for the current terrain: `Raised` (KeyError)
      when a movement key is down and the terrain is not in the command
      model. S wins over W, E over Q and D over A; the turn direction
      follows the sign of the forward speed; LShift scales both linear
      speeds. */
  function Velocity(model: seq<(string, TerrainCommand)>, terrain: string, k: Keys): Outcome<(real, real, real)>
  {
    if !Moves(k) then Returned((0.0, 0.0, 0.0))
    else if DictGet(model, terrain).None? then Raised
    else
      var c := DictGet(model, terrain).value;
      var x := if k.s then c.forward.0 else if k.w then c.forward.1 else 0.0;
      var y := if k.e then c.left.1 else if k.q then c.left.0 else 0.0;
      var ang := if k.d then (if x >= 0.0 then -c.turn else c.turn)
                 else if k.a then (if x >= 0.0 then c.turn else -c.turn)
                 else 0.0;
      var scale := if k.lshift then c.turbo else 1.0;
      Returned((x * scale, y * scale, ang))
  }

  /** Left and right mirror each other: D alone turns exactly opposite to
      A alone, whatever the other keys. */
  lemma TurnMirror(model: seq<(string, TerrainCommand)>, terrain: string, k: Keys)
    requires DictGet(model, terrain).Some?
    ensures var left := Velocity(model, terrain, k.(a := true, d := false));
            var right := Velocity(model, terrain, k.(a := false, d := true));
            left.Returned? && right.Returned? && left.value.2 == -right.value.2 &&
            left.value.0 == right.value.0 && left.value.1 == right.value.1
  {
  }

  /** Holding S and W together drives backwards. */
  lemma BackwardWins(model: seq<(string, TerrainCommand)>, terrain: string, k: Keys)
    requires DictGet(model, terrain).Some? && k.s && !k.lshift
    ensures Velocity(model, terrain, k) == Velocity(model, terrain, k.(w := !k.w))
    ensures Velocity(model, terrain, k).value.0 == DictGet(model, terrain).value.forward.0
  {
  }

  /** The terrain after a Space release. `Raised` when there are no terrain
      types (the message names the first), or when the current terrain is
      flat, not in the list and rough is not either (`index` fails). */
  function NextTerrain(available: seq<string>, terrain: string): (r: Outcome<string>)
  {
    if |available| > 1 then
      if terrain == FlatTerrain then
        if RoughTerrain in available then Returned(RoughTerrain)
        else if FlatTerrain in available then Returned(available[(IndexOf(available, FlatTerrain) + 1) % |available|])
        else Raised
      else if FlatTerrain in available then Returned(FlatTerrain)
      else Returned(available[0])
    else if |available| == 1 then Returned(terrain)
    else Raised
  }

  /** `list.index`: the first position of `x`. */
  function IndexOf(s: seq<string>, x: string): (i: nat)
    requires x in s
    ensures i < |s| && s[i] == x && x !in s[..i]
  {
    if s[0] == x then 0
    else
      var i := 1 + IndexOf(s[1..], x);
      assert s[..i] == [s[0]] + s[1..][..i - 1];
      i
  }

  /** With several terrain types, a switch always lands on one of them;
      with one, the terrain stays. */
  lemma NextTerrainAvailable(available: seq<string>, terrain: string)
    requires NextTerrain(available, terrain).Returned?
    ensures |available| > 1 ==> NextTerrain(available, terrain).value in available
    ensures |available| == 1 ==> NextTerrain(available, terrain).value == terrain
  {
  }

  /** With flat and rough terrain both available, Space toggles between
      them. */
  lemma FlatRoughToggle(available: seq<string>)
    requires FlatTerrain in available && RoughTerrain in available
    ensures NextTerrain(available, FlatTerrain) == Returned(RoughTerrain)
    ensures NextTerrain(available, RoughTerrain) == Returned(FlatTerrain)
  {
    DistinctTerrainNames();
    assert |available| > 1 by {
      var i :| 0 <= i < |available| && available[i] == FlatTerrain;
      var j :| 0 <= j < |available| && available[j] == RoughTerrain;
      assert i != j;
    }
  }

  lemma DistinctTerrainNames()
    ensures FlatTerrain != RoughTerrain
  {
    assert FlatTerrain[0] != RoughTerrain[0];
  }

  /** Without flat and rough terrain, leaving the initial flat terrain
      raises: the controller starts on flat whatever the model holds. */
  lemma SwitchFromMissingFlatRaises(available: seq<string>)
    requires |available| > 1 && FlatTerrain !in available && RoughTerrain !in available
    ensures NextTerrain(available, FlatTerrain).Raised?
  {
  }

  /** The policy kind after an M release: the next supported kind,
      cyclically; an unsupported kind stays. */
  function NextModel(model: string): (r: string)
    ensures model in ModelTypes <==> r in ModelTypes
  {
    if model in ModelTypes then ModelTypes[(IndexOf(ModelTypes, model) + 1) % 4] else model
  }

  /** Four M releases come back to the same policy kind. */
  lemma ModelCycle(model: string)
    ensures NextModel(NextModel(NextModel(NextModel(model)))) == model
  {
    if model in ModelTypes {
      var i := IndexOf(ModelTypes, model);
      var m1 := NextModel(model);
      var m2 := NextModel(m1);
      var m3 := NextModel(m2);
      NextModelAt(i);
      NextModelAt((i + 1) % 4);
      NextModelAt((i + 2) % 4);
      NextModelAt((i + 3) % 4);
      ModCycle(i);
    }
  }

  lemma ModCycle(i: nat)
    requires i < 4
    ensures ((i + 1) % 4 + 1) % 4 == (i + 2) % 4
    ensures ((i + 2) % 4 + 1) % 4 == (i + 3) % 4
    ensures ((i + 3) % 4 + 1) % 4 == i
  {
  }

  lemma ModelTypesDistinct()
    ensures forall i, j :: 0 <= i < j < 4 ==> ModelTypes[i] != ModelTypes[j]
  {
    assert ModelTypes[0][0] == 's' && ModelTypes[1][0] == 'o' && ModelTypes[2][0] == 'g' && ModelTypes[3][0] == 'r';
  }

  lemma NextModelAt(i: nat)
    requires i < 4
    ensures NextModel(ModelTypes[i]) == ModelTypes[(i + 1) % 4]
  {
    ModelTypesDistinct();
    assert IndexOf(ModelTypes, ModelTypes[i]) == i;
  }

  /** The controller's state between updates. */
  datatype Pad = Pad(terrain: string, model: string, last: Keys)

  /** One `update()`: the command and the next state, or `Raised` with the
      state untouched (every raising lookup comes before the first
      assignment). */
  function Update(cm: seq<(string, TerrainCommand)>, p: Pad, k: Keys): Outcome<(Pad, Command)>
  {
    var vel := Velocity(cm, p.terrain, k);
    if vel.Raised? then Raised
    else
      var released := p.last.space && !k.space;
      var terrain := if released then NextTerrain(DictKeys(cm), p.terrain) else Returned(p.terrain);
      if terrain.Raised? then Raised
      else
        var model := if p.last.m && !k.m then NextModel(p.model) else p.model;
        var (x, y, ang) := vel.value;
        Returned((Pad(terrain.value, model, k), Command(x, y, ang, !p.last.r && k.r, terrain.value, model)))
  }

  /** Rebirth is edge-triggered: holding R requests it on the first update
      only. */
  lemma RebornOnce(cm: seq<(string, TerrainCommand)>, p: Pad, k: Keys)
    requires k.r && !p.last.r
    requires Update(cm, p, k).Returned? && Update(cm, Update(cm, p, k).value.0, k).Returned?
    ensures Update(cm, p, k).value.1.reborn
    ensures !Update(cm, Update(cm, p, k).value.0, k).value.1.reborn
  {
  }

  /** Terrain and policy kind change only on the release of their keys:
      holding Space or M down changes neither. */
  lemma HeldKeysChangeNothing(cm: seq<(string, TerrainCommand)>, p: Pad, k: Keys)
    requires k.space && k.m
    requires Update(cm, p, k).Returned?
    ensures Update(cm, p, k).value.0 == Pad(p.terrain, p.model, k)
  {
  }

  /** `KeyboardControl`: terrain starts flat, the last key state all up. */
  class KeyboardControl {
    const commandModel: seq<(string, TerrainCommand)>
    var terrainType: string
    var modelType: string
    var lastKeys: Keys

    constructor (commandModel: seq<(string, TerrainCommand)>, modelType: string)
      ensures this.commandModel == commandModel && this.modelType == modelType
      ensures terrainType == FlatTerrain && lastKeys == NoKeys
    {
      this.commandModel := commandModel;
      this.modelType := modelType;
      terrainType := FlatTerrain;
      lastKeys := NoKeys;
    }

    /** `update()` with the key states read from the device. */
    method UpdateKeys(k: Keys) returns (r: Outcome<Command>)
      modifies this
      ensures var u := Update(commandModel, old(Pad(terrainType, modelType, lastKeys)), k);
              (u.Raised? ==> r.Raised? && Pad(terrainType, modelType, lastKeys) == old(Pad(terrainType, modelType, lastKeys))) &&
              (u.Returned? ==> r == Returned(u.value.1) && Pad(terrainType, modelType, lastKeys) == u.value.0)
    {
      var vel := Velocity(commandModel, terrainType, k);
      if vel.Raised? {
        return Raised;
      }
      var reborn := !lastKeys.r && k.r;
      if lastKeys.space && !k.space {
        var next := NextTerrain(DictKeys(commandModel), terrainType);
        if next.Raised? {
          return Raised;
        }
        terrainType := next.value;
      }
      if lastKeys.m && !k.m {
        modelType := NextModel(modelType);
      }
      lastKeys := k;
      var (x, y, ang) := vel.value;
      r := Returned(Command(x, y, ang, reborn, terrainType, modelType));
    }
  }
}
