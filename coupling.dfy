// The three coupling strategies of the fluid coupling layer.  All share one
// contract (initialize / step / shutdown); since the strategies differ only
// in which modules they build and which of their operations a tick calls,
// they are one class tagged with a `ModeKind`.
//
// A tick is: the inbound exchange, then the remote's flow-control gate,
// then the outbound publish.  What the remote answers during a tick is a
// `Tick` value; the phases a tick runs are a ghost trace, so the order of
// the phases and "a paused tick publishes nothing" are stated on it.
//
// The spring strategy writes received targets straight into the engine's
// mocap position and quaternion buffers, kept here as arrays of a
// `HostEnv` object.

module Coupling {
  import opened Core
  import opened ForceLedger
  import opened PoseExchange

  datatype ModeKind = ForcePosition | SpringConstraint | MultiPointForce

  /** Number of positional parameters (besides `self`) of each strategy's
      `initialize`: the force/position one takes the event loop as a
      fourth argument, the other two take three and read the loop from
      the client. */
  function InitArity(k: ModeKind): nat
  {
    match k
    case ForcePosition => 4
    case _ => 3
  }

  // ---------------------------------------------------------------------
  // Flow-control gate

  /** What asking the client `should_pause_this_cycle` gives: the client
      has no such method, it answers, or the call raises. */
  datatype PauseAnswer = NoPauseQuery | Answer(pause: bool) | QueryRaises

  /** Result of a strategy's `step`, decided by the gate alone: `False`
      exactly when a present client says to pause; an exception from the
      query escapes `step`. */
  function GateResult(clientPresent: bool, a: PauseAnswer): (r: Outcome<bool>)
    ensures r == Returned(false) <==> clientPresent && a == Answer(true)
    ensures r == Raised <==> clientPresent && a == QueryRaises
    ensures !clientPresent ==> r == Returned(true)
  {
    if !clientPresent then Returned(true)
    else match a
      case NoPauseQuery => Returned(true)
      case Answer(p) => Returned(!p)
      case QueryRaises => Raised
  }

  /** Whether the gate consults the client at all. */
  predicate Queried(clientPresent: bool, a: PauseAnswer)
  {
    clientPresent && a != NoPauseQuery
  }

  // ---------------------------------------------------------------------
  // Phases of a tick

  datatype Phase = Inbound | FlowCheck | Outbound

  function Rank(p: Phase): nat
  {
    match p
    case Inbound => 0
    case FlowCheck => 1
    case Outbound => 2
  }

  /** The phases one tick runs: inbound when the strategy has an inbound
      step, the flow check when the client is consulted, the publish when
      there is a publisher and the gate let the tick through. */
  function TickPhases(inbound: bool, queried: bool, published: bool): (r: seq<Phase>)
    ensures forall i, j :: 0 <= i < j < |r| ==> Rank(r[i]) < Rank(r[j])
    ensures Inbound in r <==> inbound
    ensures FlowCheck in r <==> queried
    ensures Outbound in r <==> published
  {
    (if inbound then [Inbound] else [])
    + (if queried then [FlowCheck] else [])
    + (if published then [Outbound] else [])
  }

  // ---------------------------------------------------------------------
  // The engine's mocap buffers

  /** The engine facts the spring strategy consults: the id of each named
      body (a name without an id is unknown to the engine) and, per body
      id, its mocap slot or a negative number for a body that is not a
      mocap body. */
  datatype BodyTable = BodyTable(bodyId: map<string, nat>, mocapIdOf: seq<int>, mocapCount: nat)

  predicate WellFormed(t: BodyTable)
  {
    (forall n :: n in t.bodyId ==> t.bodyId[n] < |t.mocapIdOf|)
    && (forall b :: 0 <= b < |t.mocapIdOf| ==> t.mocapIdOf[b] < t.mocapCount)
  }

  /** The mocap slot of a named body, if it is a known mocap body. */
  function MocapSlot(t: BodyTable, name: string): (r: Option<nat>)
    requires WellFormed(t)
    ensures r.Some? <==> name in t.bodyId && t.mocapIdOf[t.bodyId[name]] >= 0
    ensures r.Some? ==> r.value < t.mocapCount && r.value == t.mocapIdOf[t.bodyId[name]]
  {
    if name !in t.bodyId then None
    else
      var m := t.mocapIdOf[t.bodyId[name]];
      if m < 0 then None else Some(m)
  }

  /** A target pose received from the remote; the rotation attribute may
      be missing and has no fixed length. */
  datatype TargetSample = TargetSample(objectId: string, position: Vec3, rotation: Option<seq<real>>)

  const DefaultRotation: seq<real> := [1.0, 0.0, 0.0, 0.0]

  function Rotation(s: TargetSample): seq<real>
  {
    s.rotation.GetOr(DefaultRotation)
  }

  function ToQuat(q: seq<real>): Quat
    requires |q| == 4
  {
    Quat(q[0], q[1], q[2], q[3])
  }

  /** The slot a sample writes: none for an unknown body, a body that is
      not a mocap body, or a rotation whose length is not 4. */
  function Target(t: BodyTable, s: TargetSample): (r: Option<nat>)
    requires WellFormed(t)
    ensures r.Some? <==> MocapSlot(t, s.objectId).Some? && |Rotation(s)| == 4
    ensures r.Some? ==> r == MocapSlot(t, s.objectId)
  {
    if |Rotation(s)| != 4 then None else MocapSlot(t, s.objectId)
  }

  /** The mocap positions after the samples are written in order. */
  function PosAfter(t: BodyTable, pos: seq<Vec3>, samples: seq<TargetSample>): (r: seq<Vec3>)
    requires WellFormed(t) && |pos| == t.mocapCount
    ensures |r| == |pos|
  {
    if samples == [] then pos
    else
      var p := PosAfter(t, pos, samples[..|samples| - 1]);
      var s := samples[|samples| - 1];
      match Target(t, s)
      case None => p
      case Some(m) => p[m := s.position]
  }

  /** The mocap quaternions after the samples are written in order. */
  function QuatAfter(t: BodyTable, quat: seq<Quat>, samples: seq<TargetSample>): (r: seq<Quat>)
    requires WellFormed(t) && |quat| == t.mocapCount
    ensures |r| == |quat|
  {
    if samples == [] then quat
    else
      var q := QuatAfter(t, quat, samples[..|samples| - 1]);
      var s := samples[|samples| - 1];
      match Target(t, s)
      case None => q
      case Some(m) => q[m := ToQuat(Rotation(s))]
  }

  /** Reference: the last sample that writes slot `m`, if any. */
  function LastTargeting(t: BodyTable, samples: seq<TargetSample>, m: nat): (r: Option<TargetSample>)
    requires WellFormed(t)
    ensures r.None? <==> forall i :: 0 <= i < |samples| ==> Target(t, samples[i]) != Some(m)
    ensures r.Some? ==> r.value in samples && Target(t, r.value) == Some(m)
  {
    if samples == [] then None
    else if Target(t, samples[|samples| - 1]) == Some(m) then Some(samples[|samples| - 1])
    else
      var r := LastTargeting(t, samples[..|samples| - 1], m);
      assert forall i :: 0 <= i < |samples| - 1 ==> samples[i] == samples[..|samples| - 1][i];
      r
  }

  /** Each mocap slot ends at the position of the last sample that targets
      it, and a slot no sample targets keeps its old position. */
  lemma {:induction false} PosAfterLastWins(t: BodyTable, pos: seq<Vec3>, samples: seq<TargetSample>, m: nat)
    requires WellFormed(t) && |pos| == t.mocapCount && m < |pos|
    ensures PosAfter(t, pos, samples)[m]
         == match LastTargeting(t, samples, m) case Some(s) => s.position case None => pos[m]
    decreases |samples|
  {
    if samples != [] {
      PosAfterLastWins(t, pos, samples[..|samples| - 1], m);
    }
  }

  /** Each mocap slot ends at the quaternion of the last sample that
      targets it, taken unconverted; an untargeted slot keeps its own. */
  lemma {:induction false} QuatAfterLastWins(t: BodyTable, quat: seq<Quat>, samples: seq<TargetSample>, m: nat)
    requires WellFormed(t) && |quat| == t.mocapCount && m < |quat|
    ensures QuatAfter(t, quat, samples)[m]
         == match LastTargeting(t, samples, m)
            case Some(s) => ToQuat(Rotation(s))
            case None => quat[m]
    decreases |samples|
  {
    if samples != [] {
      QuatAfterLastWins(t, quat, samples[..|samples| - 1], m);
    }
  }

  /** Calls made through the environment's own setters when the engine's
      model and data are not reachable. */
  datatype MocapCall = SetPos(name: string, pos: Vec3) | SetQuat(name: string, rotation: seq<real>)

  /** The fallback's calls: a position per sample and, when the
      environment also has the quaternion setter, the sample's rotation;
      reading a missing rotation raises and ends the batch. */
  function FallbackCalls(samples: seq<TargetSample>, withQuat: bool): seq<MocapCall>
  {
    if samples == [] then []
    else
      [SetPos(samples[0].objectId, samples[0].position)]
      + if !withQuat then FallbackCalls(samples[1..], withQuat)
        else if samples[0].rotation.None? then []
        else [SetQuat(samples[0].objectId, samples[0].rotation.value)] + FallbackCalls(samples[1..], withQuat)
  }

  /** Without the quaternion setter the fallback sets every sample's
      position, unconverted, in order, and nothing else. */
  lemma {:induction false} FallbackPositionsOnly(samples: seq<TargetSample>)
    ensures |FallbackCalls(samples, false)| == |samples|
    ensures forall i :: 0 <= i < |samples| ==>
              FallbackCalls(samples, false)[i] == SetPos(samples[i].objectId, samples[i].position)
    decreases |samples|
  {
    if samples != [] {
      FallbackPositionsOnly(samples[1..]);
    }
  }

  /** With the quaternion setter and every rotation present, each sample
      gives its position call followed by its rotation call. */
  lemma {:induction false} FallbackPairs(samples: seq<TargetSample>)
    requires forall i :: 0 <= i < |samples| ==> samples[i].rotation.Some?
    ensures |FallbackCalls(samples, true)| == 2 * |samples|
    ensures forall i :: 0 <= i < |samples| ==>
              FallbackCalls(samples, true)[2 * i] == SetPos(samples[i].objectId, samples[i].position)
              && FallbackCalls(samples, true)[2 * i + 1] == SetQuat(samples[i].objectId, samples[i].rotation.value)
    decreases |samples|
  {
    if samples != [] {
      FallbackPairs(samples[1..]);
      var rest := FallbackCalls(samples[1..], true);
      var s := samples[0];
      assert FallbackCalls(samples, true) == [SetPos(s.objectId, s.position), SetQuat(s.objectId, s.rotation.value)] + rest;
    }
  }

  lemma FallbackStep(samples: seq<TargetSample>, i: nat, withQuat: bool)
    requires i < |samples|
    ensures FallbackCalls(samples[i..], withQuat)
         == [SetPos(samples[i].objectId, samples[i].position)]
            + (if !withQuat then FallbackCalls(samples[i + 1..], withQuat)
               else if samples[i].rotation.None? then []
               else [SetQuat(samples[i].objectId, samples[i].rotation.value)] + FallbackCalls(samples[i + 1..], withQuat))
  {
    assert samples[i..][0] == samples[i] && samples[i..][1..] == samples[i + 1..];
  }

  /** The environment a strategy runs against. */
  class HostEnv {
    /** `mj_apply_force_at_site` exists. */
    const hasSiteApi: bool
    /** The sites `mj_apply_force_at_site` accepts; a call naming any
        other site raises. */
    const knownSites: set<string>
    /** `apply_force_to_body` exists. */
    const hasBodyApi: bool
    /** `mj_model` and `mj_data` are reachable. */
    const hasEngineData: bool
    /** `set_mocap_pos` exists. */
    const hasSetMocapPos: bool
    /** `set_mocap_quat` exists. */
    const hasSetMocapQuat: bool
    const table: BodyTable
    /** The engine's `mocap_pos` buffer, one row per mocap slot. */
    const mocapPos: array<Vec3>
    /** The engine's `mocap_quat` buffer. */
    const mocapQuat: array<Quat>
    /** Calls made through the fallback setters. */
    ghost var mocapCalls: seq<MocapCall>

    ghost predicate Valid()
      reads this
    {
      WellFormed(table) && mocapPos.Length == table.mocapCount && mocapQuat.Length == table.mocapCount
    }

    constructor (hasSiteApi: bool, hasBodyApi: bool, hasEngineData: bool,
                 hasSetMocapPos: bool, hasSetMocapQuat: bool,
                 table: BodyTable, pos0: seq<Vec3>, quat0: seq<Quat>, knownSites: set<string>)
      requires WellFormed(table) && |pos0| == table.mocapCount && |quat0| == table.mocapCount
      ensures Valid()
      ensures this.hasSiteApi == hasSiteApi && this.hasBodyApi == hasBodyApi && this.knownSites == knownSites
      ensures this.hasEngineData == hasEngineData && this.table == table
      ensures this.hasSetMocapPos == hasSetMocapPos && this.hasSetMocapQuat == hasSetMocapQuat
      ensures mocapPos[..] == pos0 && mocapQuat[..] == quat0 && mocapCalls == []
      ensures fresh(mocapPos) && fresh(mocapQuat)
    {
      this.hasSiteApi := hasSiteApi;
      this.knownSites := knownSites;
      this.hasBodyApi := hasBodyApi;
      this.hasEngineData := hasEngineData;
      this.hasSetMocapPos := hasSetMocapPos;
      this.hasSetMocapQuat := hasSetMocapQuat;
      this.table := table;
      mocapPos := new Vec3[|pos0|](i requires 0 <= i < |pos0| => pos0[i]);
      mocapQuat := new Quat[|quat0|](i requires 0 <= i < |quat0| => quat0[i]);
      mocapCalls := [];
    }

    /** The fallback path: the environment's own setters, sample by sample. */
    method SetThroughSetters(samples: seq<TargetSample>)
      modifies this
      ensures mocapCalls == old(mocapCalls) + FallbackCalls(samples, hasSetMocapQuat)
    {
      var i := 0;
      while i < |samples|
        invariant 0 <= i <= |samples|
        invariant mocapCalls + FallbackCalls(samples[i..], hasSetMocapQuat)
               == old(mocapCalls) + FallbackCalls(samples, hasSetMocapQuat)
        decreases |samples| - i
      {
        var s := samples[i];
        FallbackStep(samples, i, hasSetMocapQuat);
        ghost var rest := FallbackCalls(samples[i + 1..], hasSetMocapQuat);
        var setPos := SetPos(s.objectId, s.position);
        if hasSetMocapQuat {
          if s.rotation.None? {
            mocapCalls := mocapCalls + [setPos];
            return;
          }
          var setQuat := SetQuat(s.objectId, s.rotation.value);
          ConcatAssoc(mocapCalls, [setPos, setQuat], rest);
          mocapCalls := mocapCalls + [setPos, setQuat];
        } else {
          ConcatAssoc(mocapCalls, [setPos], rest);
          mocapCalls := mocapCalls + [setPos];
        }
        i := i + 1;
      }
      assert samples[i..] == [];
    }
  }

  /** Writes every accepted sample into the mocap buffers, in order. */
  method WriteTargets(t: BodyTable, pos: array<Vec3>, quat: array<Quat>, samples: seq<TargetSample>)
    requires WellFormed(t) && pos.Length == t.mocapCount && quat.Length == t.mocapCount
    modifies pos, quat
    ensures pos[..] == PosAfter(t, old(pos[..]), samples)
    ensures quat[..] == QuatAfter(t, old(quat[..]), samples)
  {
    for i := 0 to |samples|
      invariant pos[..] == PosAfter(t, old(pos[..]), samples[..i])
      invariant quat[..] == QuatAfter(t, old(quat[..]), samples[..i])
    {
      var s := samples[i];
      assert samples[..i + 1][..i] == samples[..i];
      var target := Target(t, s);
      if target.Some? {
        var rot := Rotation(s);
        pos[target.value] := s.position;
        quat[target.value] := ToQuat(rot);
      }
    }
    assert samples[..|samples|] == samples;
  }

  // ---------------------------------------------------------------------
  // Strategies

  /** The client as `initialize` sees it: whether it is truthy, and
      whether it carries a truthy `loop` attribute. */
  datatype ClientInfo = ClientInfo(present: bool, loop: bool)

  /** A call of `initialize`: the strategy's configuration section, the
      environment, the client and, when the caller passes one, a fourth
      argument with the truthiness of the event loop. */
  datatype InitCall = InitCall(config: Json, env: HostEnv, client: ClientInfo, loop: Option<bool>)

  /** `config.get('rigid_bodies', [])` inside `initialize`: the records of
      the section's `rigid_bodies` list, none when the key is missing, and
      `None` when the section is not an object, where `.get` raises. */
  function ModeBodies(config: Json): (r: Option<seq<BodyConfig>>)
    ensures r.Some? <==> config.JObj?
    ensures config.JObj? && DictGet(config.fields, "rigid_bodies").None? ==> r == Some([])
  {
    if config.JObj? then Some(BodiesOf(Get(config.fields, "rigid_bodies", JList([])))) else None
  }

  /** A section whose `rigid_bodies` list was written from records hands
      the strategy exactly those records, in order. */
  lemma ModeBodiesOfWritten(other: seq<(string, Json)>, bs: seq<BodyConfig>)
    ensures ModeBodies(JObj(other + [("rigid_bodies", BodiesJson(bs))])) == Some(bs)
  {
    BodiesRoundTrip(bs);
  }

  /** `initialize` runs to completion: the call binds and the section is
      an object. */
  predicate Accepts(k: ModeKind, call: InitCall)
  {
    Binds(k, call) && call.config.JObj?
  }

  /** Python binds the call only when the argument count matches. */
  predicate Binds(k: ModeKind, call: InitCall)
  {
    (if call.loop.Some? then 4 else 3) == InitArity(k)
  }

  /** What the remote answers during one tick. */
  datatype Tick = Tick(
    forces: Option<seq<ForceSample>>,
    targets: Option<seq<TargetSample>>,
    bodyReply: Option<seq<Placement>>,
    siteReply: Option<seq<(string, Placement)>>,
    pause: PauseAnswer)

  /** The poses a tick publishes: site poses for the multi-point
      strategy, body poses for the other two. */
  function OutboundPoses(k: ModeKind, rigidBodies: seq<BodyConfig>, t: Tick): seq<Pose>
  {
    if k == MultiPointForce then SitePoses(rigidBodies, t.siteReply) else BodyPoses(rigidBodies, t.bodyReply)
  }

  /** The modules a strategy builds in `initialize`: a pose module for
      the configured bodies always, and a force module, with an empty
      ledger, for the two force strategies. */
  ghost predicate ModulesBuilt(k: ModeKind, hasClient: bool, env: HostEnv, rigidBodies: seq<BodyConfig>,
                               f: ForceModule?, p: PoseModule)
    reads f, p
  {
    p.hasClient == hasClient && p.rigidBodies == rigidBodies
    && p.published == [] && p.hostQueries == []
    && (k == SpringConstraint <==> f == null)
    && (f != null ==>
          f.Valid() && f.ledger == [] && f.hasClient == hasClient
          && f.hasSiteApi == env.hasSiteApi && f.hasBodyApi == env.hasBodyApi)
  }

  method NewModules(k: ModeKind, hasClient: bool, env: HostEnv, rigidBodies: seq<BodyConfig>)
      returns (f: ForceModule?, p: PoseModule)
    ensures fresh(p) && (f != null ==> fresh(f))
    ensures ModulesBuilt(k, hasClient, env, rigidBodies, f, p)
  {
    f := null;
    if k != SpringConstraint {
      f := new ForceModule(hasClient, env.hasSiteApi, env.hasBodyApi);
    }
    p := new PoseModule(hasClient, rigidBodies);
  }

  class CouplingMode {
    const kind: ModeKind
    var env: HostEnv?
    /** The stored client is truthy. */
    var clientPresent: bool
    /** The stored event loop is truthy. */
    var hasLoop: bool
    var forces: ForceModule?
    var poses: PoseModule?
    /** Phases run by all ticks so far. */
    ghost var phases: seq<Phase>
    ghost var Repr: set<object>

    ghost predicate Valid()
      reads this, Repr
    {
      this in Repr
      && (forces != null ==> forces in Repr && forces.Valid())
      && (poses != null ==> poses in Repr)
      && (env != null ==> env in Repr && env.mocapPos in Repr && env.mocapQuat in Repr && env.Valid())
      && (clientPresent ==> env != null)
      && (kind == SpringConstraint ==> forces == null)
    }

    constructor (kind: ModeKind)
      ensures Valid() && fresh(Repr)
      ensures this.kind == kind && env == null && forces == null && poses == null
      ensures !clientPresent && !hasLoop && phases == []
    {
      this.kind := kind;
      env := null;
      clientPresent := false;
      hasLoop := false;
      forces := null;
      poses := null;
      phases := [];
      Repr := {this};
    }

    /** `initialize`: a call with the wrong number of arguments raises
        before the body runs; otherwise the strategy stores the
        environment, the client and the loop (passed, or read from the
        client), builds its modules from the rigid bodies of its section
        and returns `True`; a section that is not an object raises.  The
        spring strategy builds no force module. */
    method Initialize(call: InitCall) returns (r: Outcome<bool>)
      requires call.env.Valid()
      modifies this
      ensures !Accepts(kind, call) ==> r == Raised && unchanged(this)
      ensures Accepts(kind, call) ==>
                var loop := if kind == ForcePosition then call.loop.value else call.client.loop;
                r == Returned(true) && Valid()
                && env == call.env && clientPresent == call.client.present && hasLoop == loop
                && poses != null && fresh(poses) && (forces != null ==> fresh(forces))
                && ModulesBuilt(kind, call.client.present && loop, call.env, ModeBodies(call.config).value, forces, poses)
                && Repr == {this, call.env, call.env.mocapPos, call.env.mocapQuat, poses}
                          + (if forces != null then {forces} else {})
      ensures phases == old(phases)
    {
      if !Binds(kind, call) {
        return Raised;
      }
      var bodies := ModeBodies(call.config);
      if bodies.None? {
        return Raised;
      }
      var loop := if kind == ForcePosition then call.loop.value else call.client.loop;
      var moduleClient := call.client.present && loop;
      var f, p := NewModules(kind, moduleClient, call.env, bodies.value);
      env := call.env;
      clientPresent := call.client.present;
      hasLoop := loop;
      forces := f;
      poses := p;
      Repr := {this, call.env, call.env.mocapPos, call.env.mocapQuat, p}
              + (if f != null then {f} else {});
      r := Returned(true);
    }

    /** Whether a tick runs an inbound step. */
    predicate HasInbound()
      reads this
    {
      kind == SpringConstraint || forces != null
    }

    /** The spring strategy's `_receive_and_apply_target_positions`:
        nothing without a client, a loop or a non-empty batch; the
        environment's setters when the engine data is not reachable;
        otherwise every accepted sample is written into the mocap
        buffers. */
    method ReceiveTargets(targets: Option<seq<TargetSample>>)
      requires Valid()
      modifies if env != null then {env, env.mocapPos, env.mocapQuat} else {}
      ensures Valid()
      ensures !clientPresent || !hasLoop || targets.None? || targets.value == [] ==>
                env == null || (unchanged(env) && unchanged(env.mocapPos) && unchanged(env.mocapQuat))
      ensures clientPresent && hasLoop && targets.Some? && targets.value != [] ==>
                env != null
                && (!env.hasEngineData ==>
                      unchanged(env.mocapPos) && unchanged(env.mocapQuat)
                      && env.mocapCalls == old(env.mocapCalls)
                           + (if env.hasSetMocapPos then FallbackCalls(targets.value, env.hasSetMocapQuat) else []))
                && (env.hasEngineData ==>
                      env.mocapCalls == old(env.mocapCalls)
                      && env.mocapPos[..] == PosAfter(env.table, old(env.mocapPos[..]), targets.value)
                      && env.mocapQuat[..] == QuatAfter(env.table, old(env.mocapQuat[..]), targets.value))
    {
      if !clientPresent || !hasLoop || targets.None? || targets.value == [] {
        return;
      }
      var e := env;
      if !e.hasEngineData {
        if e.hasSetMocapPos {
          e.SetThroughSetters(targets.value);
        }
        return;
      }
      WriteTargets(e.table, e.mocapPos, e.mocapQuat, targets.value);
    }

    /** The inbound half of a tick: body forces for the force/position
        strategy, site forces through the ledger for the multi-point
        strategy, received targets for the spring strategy. */
    method RunInbound(t: Tick)
      requires Valid()
      modifies Repr
      ensures Valid() && Repr == old(Repr) && unchanged(this)
      ensures poses != null ==> unchanged(poses)
      ensures kind == MultiPointForce && forces != null ==>
                forces.bodyCalls == old(forces.bodyCalls)
                && forces.ledger == (if !forces.Fires(t.forces) then old(forces.ledger)
                                     else if forces.hasSiteApi then RecordSum(t.forces.value)
                                     else [])
      ensures kind == ForcePosition && forces != null ==>
                forces.ledger == old(forces.ledger) && forces.siteCalls == old(forces.siteCalls)
                && forces.bodyCalls == old(forces.bodyCalls)
                     + (if forces.hasClient && forces.hasBodyApi && t.forces.Some? then BodyCalls(t.forces.value) else [])
      ensures kind != SpringConstraint && env != null ==>
                unchanged(env) && unchanged(env.mocapPos) && unchanged(env.mocapQuat)
    {
      match kind {
        case ForcePosition =>
          if forces != null {
            forces.ApplyBodyForces(t.forces);
          }
        case MultiPointForce =>
          if forces != null {
            forces.ApplySiteForces(t.forces);
          }
        case SpringConstraint =>
          ReceiveTargets(t.targets);
      }
    }

    /** The outbound half of a tick: body poses, or site poses for the
        multi-point strategy. */
    method RunOutbound(t: Tick)
      requires Valid() && poses != null
      modifies poses
      ensures Valid()
      ensures !poses.hasClient ==>
                poses.published == old(poses.published) && poses.hostQueries == old(poses.hostQueries)
      ensures poses.hasClient ==>
                poses.published == old(poses.published)
                  + (var ps := OutboundPoses(kind, poses.rigidBodies, t); if ps == [] then [] else [ps])
    {
      if kind == MultiPointForce {
        poses.PublishSitePositions(t.siteReply);
      } else {
        poses.PublishPositions(t.bodyReply);
      }
    }

    /** One tick: the inbound exchange, the flow-control gate, then the
        outbound publish unless the gate paused (or raised). */
    method Step(t: Tick) returns (r: Outcome<bool>)
      requires Valid()
      modifies Repr
      ensures Valid() && Repr == old(Repr)
      ensures env == old(env) && forces == old(forces) && poses == old(poses)
      ensures clientPresent == old(clientPresent) && hasLoop == old(hasLoop)
      ensures r == GateResult(clientPresent, t.pause)
      ensures phases == old(phases)
                + TickPhases(HasInbound(), Queried(clientPresent, t.pause), r == Returned(true) && poses != null)
      ensures poses != null && r != Returned(true) ==> unchanged(poses)
      ensures poses != null && r == Returned(true) && poses.hasClient ==>
                poses.published == old(poses.published)
                  + (var ps := OutboundPoses(kind, poses.rigidBodies, t); if ps == [] then [] else [ps])
      ensures kind == MultiPointForce && forces != null ==>
                forces.bodyCalls == old(forces.bodyCalls)
                && forces.ledger == (if !forces.Fires(t.forces) then old(forces.ledger)
                                     else if forces.hasSiteApi then RecordSum(t.forces.value)
                                     else [])
      ensures kind == ForcePosition && forces != null ==>
                forces.ledger == old(forces.ledger) && forces.siteCalls == old(forces.siteCalls)
                && forces.bodyCalls == old(forces.bodyCalls)
                     + (if forces.hasClient && forces.hasBodyApi && t.forces.Some? then BodyCalls(t.forces.value) else [])
      ensures kind != SpringConstraint && env != null ==>
                unchanged(env) && unchanged(env.mocapPos) && unchanged(env.mocapQuat)
    {
      ghost var inbound := HasInbound();
      RunInbound(t);
      ghost var queried := Queried(clientPresent, t.pause);
      r := GateResult(clientPresent, t.pause);
      if r != Returned(true) {
        phases := phases + TickPhases(inbound, queried, false);
        return;
      }
      if poses != null {
        RunOutbound(t);
      }
      phases := phases + TickPhases(inbound, queried, poses != null);
    }

    /** `shutdown`: drops the publisher and, except in the spring
        strategy (which has none), the force module; the client, loop and
        environment stay. */
    method Shutdown()
      requires Valid()
      modifies this
      ensures Valid() && Repr == old(Repr)
      ensures poses == null && forces == null
      ensures env == old(env) && clientPresent == old(clientPresent) && hasLoop == old(hasLoop)
      ensures phases == old(phases)
    {
      poses := null;
      if kind != SpringConstraint {
        forces := null;
      }
    }
  }

  /** After `shutdown`, a force strategy's tick exchanges nothing and
      only the flow check can run, while a spring strategy's tick still
      receives targets: its client and loop are kept. */
  method ShutdownThenStep(m: CouplingMode, t: Tick) returns (r: Outcome<bool>)
    requires m.Valid()
    modifies m.Repr
    ensures m.Valid()
    ensures r == GateResult(m.clientPresent, t.pause)
    ensures m.forces == null && m.poses == null
    ensures m.phases == old(m.phases)
              + (if m.kind == SpringConstraint then [Inbound] else [])
              + (if Queried(m.clientPresent, t.pause) then [FlowCheck] else [])
  {
    m.Shutdown();
    r := m.Step(t);
  }
}
