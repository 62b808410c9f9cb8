# A verified model of the OrcaPlayground fluid–rigid coupling

OrcaPlayground runs robots and rigid bodies in a MuJoCo-based host engine (OrcaGym). Its fluid examples couple that engine with a remote SPH fluid solver (OrcaSPH), reached through a relay service (OrcaLink). On every tick the two sides exchange forces and poses, and the solver's flow control may hold the rigid-body simulation back. This project is a Dafny model of the logic that decides what crosses that boundary, in which order, and whether the host may advance. It also models the smaller utilities around it: the scene generators, the launcher, the driver loops, the legged-robot and humanoid helpers, and the install script.

The modules follow the program's structure:

- `Core`, `Strings`, `Ordering` (`core.dfy`, `strings.dfy`, `ordering.dfy`) are the shared vocabulary:
  - Python values and exceptions (`Outcome` is a returned value or a raised exception);
  - ordered dictionaries as association lists;
  - the string operations the naming conventions use, written out over `seq<char>`;
  - `sorted(set(...))` and the stable `list.sort(key=...)`.
- `Axes` (`axes.dfy`) is the Z-up to Y-up rotation and the Y/Z swap of the XML generator.
- `Topology` (`topology.dfy`) is the naming convention `<body>_SPH_SITE_<n>` / `<body>_SPH_MOCAP_SITE_<n>` / `<body>_SPH_MOCAP_<nnn>` and the rigid-body records built from it.
- `ForceLedger` (`force_ledger.dfy`) is the force-application module. The host's force primitive is additive, so the module keeps a ledger of the forces it applied last and cancels them before it applies a new batch. The host accumulators are a ghost trace of the calls made.
- `PoseExchange` (`pose_exchange.dfy`) is the position-publishing module.
- `Coupling` (`coupling.dfy`) holds the three coupling strategies: force/position, multi-point force and spring constraint. They share one contract, so they are one class tagged by a `ModeKind`. A tick is the inbound exchange, then the flow-control gate, then the outbound publish, recorded as a ghost phase trace.
- `Bridge` (`bridge.dfy`) is the session controller `OrcaLinkBridge`:
  - it prepares the client configuration;
  - it indexes rigid bodies and mocap proxies;
  - its connection state machine runs pending → connecting → connected or failed, and never retries;
  - its step either delegates to a strategy or runs its own legacy exchange.
- `Scene` and `XmlScene` (`scene.dfy`, `xmlscene.dfy`) are the two scene generators. One reads a running host model. The other reads the model's XML file, given here as an already parsed document value.
- `Launch` (`launch.dfy`) covers the solver configuration file, the relay's command line and the process table.
- `SimLoop` (`simloop.dfy`) is the fluid examples' driver: command-line booleans, the environment id, and the main loop.
- `Devices`, `LeggedSim`, `SceneUtil` (`devices.dfy`, `legged.dfy`, `sceneutil.dfy`) cover the legged-robot examples: execution providers, observation splitting, the keyboard controller, and the scene layout.
- `RobotState` (`robotstate.dfy`) holds the humanoid's state and command buffers, remapped between joint and motor order in place.
- `Requirements` (`requirements.dfy`) is the install script's filter over requirements.txt.

Everything the program asks of the outside world is a parameter of the model, and everything it sends out is a ghost trace. This covers the remote client and its event loop, the host engine, the keyboard, the operating system's processes, torch and onnxruntime. Reals stand for floating-point numbers.

## Behaviour of the code worth knowing

- Per-point poses carry each site's own quaternion as the host reports it (`envs/fluid/modules/position_publish.py:168-192`, `PoseExchange.SitePoses`). The bridge's own legacy publish sends the identity rotation instead (`Bridge.SitePosesOfMembers`).
- Anchors are paired with proxies by position: both lists are sorted by index and zipped (`envs/fluid/config_generator.py:141-159`). `Topology.PairingIsPositional` exhibits a pair of lists where anchor 0 is joined with the proxy body of index `k`. `Topology.AlignedIndicesPairByIndex` shows that the pairing matches indices when the numbering is aligned.
- The force module replaces the previous tick's forces only by cancelling them: it applies the negated recorded wrench. It never clears the host accumulators (`ForceLedger.TickReplacesContribution`).
- The XML generator writes a translation as `(x, z, y)` (`examples/fluid/generate_scene_from_xml.py:148`). That is a reflection (`Axes.SwapYZIsReflection`), while the other generator uses the rotation `(x, y, z) → (x, z, −y)`. `Axes.SwapYZAgreesOnlyOnPlane` states that the two agree only where `y = 0`.
- The bridge's legacy force path converts a force as `[f0, f2, −f1]`. That is the same rotation (`Bridge.LegacyForceCalls`). The legacy path keeps no ledger, so its forces add up across ticks (`Bridge.LegacyForcesAccumulate`).
- A disabled configuration connects without creating a client (`envs/fluid/orcalink_bridge.py:260-262`). The next `step()` then asks a missing client whether the session is ready. That query sits outside the step's `try`, so the exception escapes `step()` (`Bridge.OrcaLinkBridge.Step`).
- Every strategy reads its rigid bodies from the configuration section named after the strategy (`orcalink_bridge.<mode>.rigid_bodies`). It does not read the records generated from the host model (`envs/fluid/orcalink_bridge.py:315`, `Bridge.StrategyReadsOwnSection`).
- The multi-point strategy uses the force module with the corrected, summing ledger described under Findings. `Coupling.CouplingMode.RunInbound` and `Coupling.CouplingMode.Step` state the ledger as the per-site totals of the batch.

## Model

One row per member whose contract states what the cited source does. `SimLoop.MainLoop` also stands for the same gating in the main loop of `envs/fluid/utils.py:302-329`.

| member | source | states |
|---|---|---|
| Core.DictPut | envs/fluid/orcalink_bridge.py:191 | assigning a key makes it look up the new value and leaves every other key alone; an existing key keeps its place, a new one goes last |
| Core.DictOfLastWins | envs/fluid/orcalink_bridge.py:162 | a dictionary built by assignments holds, for every key, the value of its last assignment |
| Strings.SplitHead | examples/fluid/generate_scene_from_xml.py:55 | `split(sep)[0]` is a prefix of the text, and the whole text when the separator does not occur |
| Strings.SplitHeadHasNoSeparator | examples/fluid/generate_scene_from_xml.py:55 | the head of a split never contains the separator |
| Strings.ReplaceAllStripsPrefix | envs/fluid/scene_generator.py:567 | `replace(prefix, "")` leaves the rest of the name when the rest cannot contain the prefix |
| Strings.Format03RoundTrip | envs/fluid/scene_generator.py:377 | the three-digit index format is at least three digits and reads back as its index |
| Strings.MarkedSuffixNumberOfJoin | envs/fluid/orcalink_bridge.py:188 | the suffix pattern reads back exactly the digits that follow the marker at the end of a name |
| Strings.StripTrimmed | setup.py:19 | a stripped line has no whitespace at either end |
| Strings.StripIdempotent | setup.py:19 | stripping twice is stripping once |
| Strings.SplitWhitespace | examples/fluid/generate_scene_from_xml.py:67 | splitting on whitespace gives non-empty words without whitespace |
| Strings.SplitWhitespaceJoin | examples/fluid/generate_scene_from_xml.py:67 | the words, laid end to end, are exactly the input's non-whitespace characters in order |
| Strings.SplitWhitespaceEmpty | examples/fluid/generate_scene_from_xml.py:67 | the split is empty exactly when the input is all whitespace |
| Strings.SplitWhitespaceWord | examples/fluid/generate_scene_from_xml.py:97 | a whitespace-free word followed by whitespace is the first word, and the rest splits on its own |
| Strings.Lower | examples/fluid/run_sim_loop.py:356 | on ASCII letters: lower-casing keeps the length, lowers each letter `A`–`Z` and keeps every other character |
| Ordering.SortedNames | envs/fluid/scene_generator.py:296 | `sorted(set)` lists every member once, in ascending order |
| Ordering.StrictlySortedUnique | examples/fluid/generate_scene_from_xml.py:58 | two strictly sorted lists with the same members are equal, so `sorted(set(...))` has exactly one answer |
| Ordering.SortByKey | envs/fluid/scene_generator.py:594 | sorting by key gives a key-sorted permutation of the input |
| Ordering.SortByKeyStable | envs/fluid/scene_generator.py:594 | the sort is stable: elements with the same key keep their relative order |
| Axes.YUpToZUp | envs/fluid/scene_generator.py:395-411 | the inverse of the Z-up to Y-up map `[x, y, z] -> [x, z, -y]` |
| Axes.ZUpToYUpRoundTrip | envs/fluid/scene_generator.py:395-411 | converting to Y-up and back (or the other way round) gives the vector back |
| Axes.ZUpToYUpIsRotation | envs/fluid/scene_generator.py:694-702 | the map keeps dot products and cross products: it is the rotation by -90 degrees about X applied to the orientation |
| Axes.ZUpToYUpQuarterTurn | envs/fluid/scene_generator.py:701-702 | applied four times the map is the identity, twice it negates y and z: a quarter turn |
| Axes.SwapYZInvolution | examples/fluid/generate_scene_from_xml.py:147-148 | the XML generator's `[x, y, z] -> [x, z, y]` is its own inverse |
| Axes.SwapYZIsReflection | examples/fluid/generate_scene_from_xml.py:147-148 | the swap keeps dot products but reverses cross products: a reflection, not a rotation |
| Axes.SwapYZAgreesOnlyOnPlane | examples/fluid/generate_scene_from_xml.py:147-148 | the two generators place a point identically exactly when its y coordinate is zero |
| Topology.DesignatedBodiesAreSphBodies | envs/fluid/config_generator.py:53-61 | a body is collected exactly when it exists and some site mentioning `SPH_SITE` names it before its first `_SPH_SITE_` |
| Topology.IdentifySphBodies | envs/fluid/config_generator.py:37-70 | the result is strictly sorted, holds exactly the designated existing bodies, and is empty when the host query fails |
| Topology.WithPrefixMembers | envs/fluid/config_generator.py:92-99 | a site is selected for a body exactly when it is a listed site starting with the body's anchor (or proxy) prefix |
| Topology.ExtractSitesForBody | envs/fluid/config_generator.py:72-119 | anchors and proxies are the body's prefixed sites, each stably sorted by trailing index (999 without one); both empty when the host query fails |
| Topology.ExtractedSitesAreTheBodysSites | envs/fluid/config_generator.py:92-108 | the extracted lists hold exactly the body's anchor (proxy) sites, in ascending index order |
| Topology.IndexKeyOfAnchorName | envs/fluid/config_generator.py:102-105 | a site named with a three-digit index sorts by that index |
| Topology.PairedPointsElements | envs/fluid/config_generator.py:136-161 | pairing yields min(#anchors, #proxies) points; point k joins anchor k with the proxy body derived from proxy k |
| Topology.GenerateConnectionPoints | envs/fluid/config_generator.py:121-161 | the loop builds exactly the positional pairing: point id and site name are anchor i, the mocap name comes from proxy i |
| Topology.ProxyBodyOfConventionalSite | envs/fluid/config_generator.py:147-153 | a proxy site `<body>_SPH_MOCAP_SITE_<k>` drives proxy body `<body>_SPH_MOCAP_<k:03d>` wherever it sits in the list |
| Topology.AlignedIndicesPairByIndex | envs/fluid/config_generator.py:141-159 | when anchors and proxies are numbered 0, 1, 2, ... alike, each anchor is paired with the proxy body of its own index |
| Topology.PairingIsPositional | envs/fluid/config_generator.py:141-153 | pairing goes by position, not index: anchor 0 is joined with proxy k's body when proxy k is the only one |
| Topology.RigidBodyFor | envs/fluid/config_generator.py:180-210 | a body gets a record exactly when it has connection points, and the record is the generated one |
| Topology.RecordsShape | envs/fluid/config_generator.py:180-210 | every record is the generated record of one of the bodies, with a non-empty connection-point list |
| Topology.RecordsOrdered | envs/fluid/config_generator.py:173-214 | records keep the strict order of the bodies |
| Topology.RecordsComplete | envs/fluid/config_generator.py:180-210 | every body with connection points gets a record |
| Topology.GenerateRigidBodies | envs/fluid/config_generator.py:163-214 | one record per identified body with connection points, in ascending name order, each the generated record with the default spring parameters; none when the host query fails |
| Topology.RecordsSpec | envs/fluid/config_generator.py:163-214 | the records of the sorted designated bodies are generated records of designated bodies, strictly ordered, and complete |
| ForceLedger.SumAtAppend | envs/fluid/modules/force_application.py:63 | the host's accumulated wrench is additive over a trace of calls |
| ForceLedger.SumAtUntouched | envs/fluid/modules/force_application.py:63 | calls aimed at other sites leave a site's accumulated wrench at zero |
| ForceLedger.Lookup | envs/fluid/modules/force_application.py:32 | a lookup finds a value exactly for the recorded sites |
| ForceLedger.Put | envs/fluid/modules/force_application.py:108 | dictionary assignment: the key maps to the new wrench, other keys are unchanged, an existing key keeps its place, a new one goes last |
| ForceLedger.CancelCalls | envs/fluid/modules/force_application.py:86-91 | one cancelling call per recorded site |
| ForceLedger.ApplyCalls | envs/fluid/modules/force_application.py:98-107 | one host call per sample, with the sample's force and a zero torque, in batch order |
| ForceLedger.BodyCalls | envs/fluid/modules/force_application.py:117-132 | one body call per sample, with a missing torque taken as zero |
| ForceLedger.LastFor | envs/fluid/modules/force_application.py:98-108 | the last sample for a site is absent exactly when no sample names it, and otherwise is one of its samples |
| ForceLedger.RecordLastIsLastSample | envs/fluid/modules/force_application.py:95-108 | after a batch the ledger holds exactly the batch's ids, each with its last sample's force and a zero torque |
| ForceLedger.RecordSumIsBatchTotal | envs/fluid/modules/force_application.py:95-108 | the summing ledger records, per site, exactly what the batch applied there |
| ForceLedger.CancelRemovesLedger | envs/fluid/modules/force_application.py:86-91 | cancelling a ledger removes, at every site, exactly the wrench recorded for it |
| ForceLedger.AbsentSiteGetsNothing | envs/fluid/modules/force_application.py:86-108 | a site absent from the batch gets nothing from it, so after a tick its contribution is zero |
| ForceLedger.DistinctIdsLedgersAgree | envs/fluid/modules/force_application.py:98-108 | with distinct ids in a batch, recording the last sample and recording the sum give the same ledger |
| ForceLedger.TickReplacesContribution | envs/fluid/modules/force_application.py:59-63 | when the trace matches the ledger, cancel then apply leaves each site with exactly the new batch's contribution |
| ForceLedger.TickReplacesAll | envs/fluid/modules/force_application.py:59-63 | the same for every site at once, and the new ledger again matches the trace |
| ForceLedger.RecordSumIsBatchTotalAll | envs/fluid/modules/force_application.py:95-108 | the summing ledger has distinct sites and matches the batch's contribution at every site |
| ForceLedger.DuplicateIdsLeaveResidual | envs/fluid/modules/force_application.py:98-108 | as written, two samples for one site in one tick leave `f1 + f3` after the next tick instead of `f3` |
| ForceLedger.DuplicateIdsCorrected | envs/fluid/modules/force_application.py:98-108 | with the summing ledger the same two ticks leave exactly `f3` |
| ForceLedger.ForceModule.constructor | envs/fluid/modules/force_application.py:25-32 | a new module has an empty ledger, no host calls, and its ledger invariant holds |
| ForceLedger.ForceModule.CancelRecorded | envs/fluid/modules/force_application.py:86-91 | issues the negation of every recorded wrench, in ledger order, when the host offers the site primitive |
| ForceLedger.ForceModule.ApplySiteForcesAsWritten | envs/fluid/modules/force_application.py:56-115 | nothing happens without a client or with an empty reply; otherwise it cancels the old ledger, applies the batch and records the last sample per id; the ledger invariant survives only for distinct ids |
| ForceLedger.ForceModule.ApplySiteForces | envs/fluid/modules/force_application.py:56-115 | the corrected tick keeps the invariant that each site's host contribution is what its ledger records, and leaves each site with the batch's total there |
| ForceLedger.ForceModule.ApplyAndRecordLast | envs/fluid/modules/force_application.py:98-110 | the as-written loop applies each sample and records the last one per id, or does nothing without the site primitive |
| ForceLedger.ForceModule.ApplyAndRecordSums | envs/fluid/modules/force_application.py:98-110 | the corrected loop applies each sample and records the per-site sum |
| ForceLedger.ForceModule.ApplyBodyForces | envs/fluid/modules/force_application.py:37-54 | body forces go to the host one call per sample when there is a client, the host has the primitive and the reply is non-empty; the site ledger is untouched |
| PoseExchange.BodiesOf | envs/fluid/modules/position_publish.py:81-83 | a `rigid_bodies` list reads as one record per entry, in order; anything but a list reads as no bodies |
| PoseExchange.PointsOf | envs/fluid/modules/position_publish.py:149-153 | a `connection_points` list reads as one record per entry, in order |
| PoseExchange.PointRoundTrip | envs/fluid/modules/position_publish.py:151-153 | a point record written as its `site_name`, `point_id` and `object_id` keys reads back unchanged |
| PoseExchange.PointsRoundTrip | envs/fluid/modules/position_publish.py:149-153 | a list of point records written down reads back unchanged |
| PoseExchange.BodyRoundTrip | envs/fluid/modules/position_publish.py:82-83 | a body record written as its `mujoco_body`, `object_id` and `connection_points` keys reads back unchanged |
| PoseExchange.BodiesRoundTrip | envs/fluid/modules/position_publish.py:81-83 | a list of body records written down reads back unchanged, in order |
| PoseExchange.BodyEntries | envs/fluid/modules/position_publish.py:81-86 | only configured bodies with a non-empty name are queried, at most one entry per configuration item |
| PoseExchange.BodyEntriesAppend | envs/fluid/modules/position_publish.py:81-86 | bodies are collected in configuration order |
| PoseExchange.BodyEntriesAllNamed | envs/fluid/modules/position_publish.py:81-86 | when every item names a body, entry i is that body with its `object_id`, defaulting to the body name |
| PoseExchange.BodyPoses | envs/fluid/modules/position_publish.py:72-135 | a non-empty result means the host answered, with one pose per queried body |
| PoseExchange.BodyPosesFollowConfig | envs/fluid/modules/position_publish.py:107-127 | with distinct body names, pose i carries body i's wire id and the host's i-th placement unchanged |
| PoseExchange.WireId | envs/fluid/modules/position_publish.py:153 | a point's wire id is `point_id`, else `object_id`, else the site name |
| PoseExchange.PointEntries | envs/fluid/modules/position_publish.py:150-156 | only points with a non-empty site name are queried |
| PoseExchange.SiteEntries | envs/fluid/modules/position_publish.py:148-156 | the points of every configured body, bodies in order, each with a non-empty site name |
| PoseExchange.SitePoses | envs/fluid/modules/position_publish.py:137-199 | no query and no poses without sites or without an answer; otherwise one pose per answered site, with the site's own position and quaternion |
| PoseExchange.SitePoseId | envs/fluid/modules/position_publish.py:153-172 | a reported site's wire id is the one recorded last for that site, or the site name |
| PoseExchange.BodyNamesAndIds | envs/fluid/modules/position_publish.py:78-86 | the loop builds exactly the name list and the name-to-id dictionary of the body entries |
| PoseExchange.LabelPlacements | envs/fluid/modules/position_publish.py:107-127 | pose i is placement i under the wire id recorded for name i |
| PoseExchange.AddPointEntries | envs/fluid/modules/position_publish.py:150-156 | one body's points extend the site list and the dictionary as its entries say |
| PoseExchange.SiteNamesAndIds | envs/fluid/modules/position_publish.py:145-156 | the nested loop builds exactly the site list and the site-to-id dictionary of the site entries |
| PoseExchange.LabelAnswers | envs/fluid/modules/position_publish.py:171-191 | one pose per answer, in answer order, under the recorded wire id |
| PoseExchange.PoseModule.constructor | envs/fluid/modules/position_publish.py:26-29 | a new module has its configuration and no host queries or publications |
| PoseExchange.PoseModule.CollectBodyPositions | envs/fluid/modules/position_publish.py:72-135 | the host is refreshed and queried only when some body is named, and the poses are the specified ones |
| PoseExchange.PoseModule.CollectSitePositions | envs/fluid/modules/position_publish.py:137-199 | the host is refreshed and queried only when some site is named, and the poses are the specified ones |
| PoseExchange.PoseModule.PublishPositions | envs/fluid/modules/position_publish.py:33-45 | without a client nothing happens; otherwise the body poses are collected and published only when there are some |
| PoseExchange.PoseModule.PublishSitePositions | envs/fluid/modules/position_publish.py:47-70 | the same over sites |
| Coupling.GateResult | envs/fluid/coupling_modes/force_position_mode.py:51-54 | a tick pauses exactly when a client is present and asks for a pause, raises exactly when the query raises, and goes on without a client |
| Coupling.TickPhases | envs/fluid/coupling_modes/multi_point_force_mode.py:47-62 | a tick's phases come in the order inbound, flow check, outbound, each present exactly when it runs |
| Coupling.MocapSlot | envs/fluid/coupling_modes/spring_constraint_mode.py:99-109 | a name has a mocap slot exactly when it is a known body with a non-negative mocap id, and the slot is that id |
| Coupling.Target | envs/fluid/coupling_modes/spring_constraint_mode.py:96-126 | a sample writes a slot exactly when its body is a mocap body and its rotation has four components |
| Coupling.PosAfter | envs/fluid/coupling_modes/spring_constraint_mode.py:96-123 | writing samples keeps the number of mocap positions |
| Coupling.QuatAfter | envs/fluid/coupling_modes/spring_constraint_mode.py:96-123 | writing samples keeps the number of mocap quaternions |
| Coupling.LastTargeting | envs/fluid/coupling_modes/spring_constraint_mode.py:96-123 | the last sample aimed at a slot is absent exactly when no sample targets it, and otherwise is a sample that does |
| Coupling.PosAfterLastWins | envs/fluid/coupling_modes/spring_constraint_mode.py:96-123 | each mocap slot ends at the position of the last sample targeting it; an untargeted slot keeps its old position |
| Coupling.QuatAfterLastWins | envs/fluid/coupling_modes/spring_constraint_mode.py:117-123 | each mocap slot ends at the last targeting sample's rotation, unconverted; an untargeted slot keeps its own |
| Coupling.FallbackPositionsOnly | envs/fluid/coupling_modes/spring_constraint_mode.py:85-90 | without the quaternion setter, the fallback sets every sample's position, in order, and nothing else |
| Coupling.FallbackPairs | envs/fluid/coupling_modes/spring_constraint_mode.py:85-90 | with the quaternion setter and every rotation present, each sample's position call is followed by its rotation call |
| Coupling.HostEnv.constructor | envs/fluid/coupling_modes/spring_constraint_mode.py:83-85 | the host environment starts with the given capabilities, body table and mocap buffers, and no setter calls |
| Coupling.HostEnv.SetThroughSetters | envs/fluid/coupling_modes/spring_constraint_mode.py:85-90 | the fallback path issues exactly the specified setter calls |
| Coupling.WriteTargets | envs/fluid/coupling_modes/spring_constraint_mode.py:96-123 | the in-place loop leaves the mocap buffers as the specification functions say |
| Coupling.NewModules | envs/fluid/coupling_modes/multi_point_force_mode.py:35-38 | the force strategies get a fresh force module (none for the spring strategy) and every strategy a fresh pose module over the configured bodies |
| Coupling.CouplingMode.constructor | envs/fluid/coupling_modes/force_position_mode.py:19-24 | a new strategy has no environment, client, loop or modules, and an empty phase trace |
| Coupling.CouplingMode.Initialize | envs/fluid/coupling_modes/multi_point_force_mode.py:28-40 | a call binds only with the strategy's own argument count (4 for force-position, 3 for the others) and raises otherwise, and a section that is not an object raises; an accepted call stores env, client and loop (the client's loop for the 3-argument strategies), builds the modules over the section's `rigid_bodies` and returns `True` |
| Coupling.ModeBodies | envs/fluid/coupling_modes/force_position_mode.py:35 | a section's bodies are read exactly when it is an object, and a section without `rigid_bodies` has none |
| Coupling.ModeBodiesOfWritten | envs/fluid/coupling_modes/force_position_mode.py:35 | a section whose last `rigid_bodies` entry was written from records reads back as exactly those records |
| Coupling.CouplingMode.ReceiveTargets | envs/fluid/coupling_modes/spring_constraint_mode.py:64-134 | nothing changes without client, loop or targets; without engine data the setters are used if present; with engine data the mocap buffers are written as specified |
| Coupling.CouplingMode.RunInbound | envs/fluid/coupling_modes/multi_point_force_mode.py:49-51 | the inbound half applies site forces (the ledger becomes the corrected per-site totals of the batch, not the last sample per id), body forces (ledger untouched) or received targets, by strategy |
| Coupling.CouplingMode.RunOutbound | envs/fluid/coupling_modes/multi_point_force_mode.py:58-60 | the outbound half publishes site poses for the multi-point strategy and body poses for the others, only with a client and only when non-empty |
| Coupling.CouplingMode.Step | envs/fluid/coupling_modes/force_position_mode.py:45-60 | a tick runs inbound (with the corrected site-force ledger for the multi-point strategy), then the gate, then outbound; it returns the gate's answer, publishes nothing when paused or raised, and records the phases in that order |
| Coupling.CouplingMode.Shutdown | envs/fluid/coupling_modes/force_position_mode.py:62-65 | shutdown drops the modules and keeps environment, client and loop |
| Coupling.ShutdownThenStep | envs/fluid/coupling_modes/spring_constraint_mode.py:44-62 | after shutdown a tick publishes nothing and applies no forces; only the spring strategy still receives targets, and the gate still runs |
| Bridge.CreateMode | envs/fluid/orcalink_bridge.py:570-592 | the factory knows exactly the three strategy names, and a created strategy's name is the one asked for; anything else gives no strategy |
| Bridge.CreateModeOfName | envs/fluid/orcalink_bridge.py:579-589 | every strategy kind is created back from its own name |
| Bridge.DefaultServerAddress | envs/fluid/orcalink_bridge.py:111 | with no host and no port configured the address is `localhost:50351` |
| Bridge.ClientSection | envs/fluid/orcalink_bridge.py:108-113 | the client section fails exactly when `client` is not an object; otherwise `server_address` and `enabled` hold the forced values and every other key is the one from `client` |
| Bridge.ForcedMerge | envs/fluid/orcalink_bridge.py:108-122 | after the merge and the two forced assignments, the forced keys hold the forced values and every other key the merged section's value |
| Bridge.PrepareConfig | envs/fluid/orcalink_bridge.py:95-140 | the preparation succeeds exactly when `orcalink` is present, is an object and its client section can be unpacked; the result carries that client section, the `bridge` section (default empty), the generated records, and the fluid configuration's `simulation` and `debug` sections (each default empty) |
| Bridge.ParseRigidBodies | envs/fluid/orcalink_bridge.py:142-168 | the records are indexed by object id, a later record for the same id replacing an earlier one |
| Bridge.GeneratedBodiesKeepOrder | envs/fluid/orcalink_bridge.py:142-168 | records with strictly ascending ids, as the generator makes them, are all kept, in their order |
| Bridge.BuildMocapMap | envs/fluid/orcalink_bridge.py:175-194 | the (body, index) -> mocap map is the dictionary of every connection point whose site name ends in `SPH_SITE_` and digits, in record and point order, a later point overwriting an earlier one with the same key |
| Bridge.ParseAnchorName | envs/fluid/orcalink_bridge.py:409-415 | the receive-side pattern splits a conventional anchor name `<body>_SPH_SITE_<nnn>` back into its body and index |
| Bridge.MarkedAnchorName | envs/fluid/orcalink_bridge.py:188-190 | the map-building pattern reads the same index back from a conventional anchor name |
| Bridge.RoutedPairs | envs/fluid/orcalink_bridge.py:403-438 | at most one update per sample, each with the identity orientation |
| Bridge.RoutedPairsFromMap | envs/fluid/orcalink_bridge.py:409-427 | every routed update targets a mocap the map holds for the key parsed from some sample's id, with that sample's position |
| Bridge.RouteOfAnchorName | envs/fluid/orcalink_bridge.py:403-438 | a sample named by a conventional anchor name lands on the mocap the map holds for that body and index, with the identity orientation |
| Bridge.RoutedPairsLastWins | envs/fluid/orcalink_bridge.py:403-438 | among the routed pairs, a mocap body's entry is the position of the last sample routed to it |
| Bridge.RoutedPairsUnrouted | envs/fluid/orcalink_bridge.py:403-438 | a mocap body no sample routes to has no routed pair |
| Bridge.MocapUpdatesLastWins | envs/fluid/orcalink_bridge.py:403-442 | in the batch written to the host, every mocap body some sample routes to gets the position of the last such sample, with the identity orientation; a body no sample routes to is not written |
| Bridge.RouteUpdates | envs/fluid/orcalink_bridge.py:401-442 | the loop builds the mocap-keyed dictionary of the routed updates, which is empty exactly when no sample was routed |
| Bridge.SitePosesOfMembers | envs/fluid/orcalink_bridge.py:365-379 | a point's pose is sent exactly when the engine reports a position for its site, under the site's own name with the identity orientation |
| Bridge.CollectSentPoses | envs/fluid/orcalink_bridge.py:356-381 | the loop collects the site poses body by body, as the specification function does |
| Bridge.LegacyForceCalls | envs/fluid/orcalink_bridge.py:469-490 | one force application per received force |
| Bridge.LegacyForcesHaveNoTorque | envs/fluid/orcalink_bridge.py:486-490 | the legacy path never applies a torque |
| Bridge.LegacyForcesAccumulate | envs/fluid/orcalink_bridge.py:448-495 | the legacy path keeps no ledger: a force received on two ticks is applied twice and the engine accumulates both, converted from Y-up to Z-up |
| Bridge.LoopArg | envs/fluid/orcalink_bridge.py:319 | as written the event loop is always passed; corrected, it is passed exactly to the strategy whose `initialize` takes it |
| Bridge.AsWrittenBindsOnlyForcePosition | envs/fluid/orcalink_bridge.py:319 | as written the four-argument call binds only for the force/position strategy |
| Bridge.CorrectedBindsAll | envs/fluid/orcalink_bridge.py:319 | corrected, the call binds for every strategy |
| Bridge.IndexBodies | envs/fluid/orcalink_bridge.py:142-194 | the constructor's two indexes are the record dictionary and the mocap map of the configured records |
| Bridge.StartMode | envs/fluid/orcalink_bridge.py:309-332 | a fresh strategy of the named kind, whose initialization succeeds exactly when the call binds and its section is an object; it then holds the client and the section's rigid bodies |
| Bridge.ModeSection | envs/fluid/orcalink_bridge.py:315 | the strategy's section raises exactly when the bridge section is not an object; a missing key gives the empty object |
| Bridge.StrategyBodies | envs/fluid/orcalink_bridge.py:315 | the strategy's bodies are read exactly when the bridge section and the strategy's section are both objects |
| Bridge.StrategyReadsOwnSection | envs/fluid/orcalink_bridge.py:315 | a strategy's bodies are the `rigid_bodies` written in the section named after it, whatever other sections hold |
| Bridge.StrategyWithoutSection | envs/fluid/orcalink_bridge.py:315 | a strategy without a section of its own has no rigid bodies |
| Bridge.LegacyPhases | envs/fluid/orcalink_bridge.py:538-568 | the legacy tick's phases run in a fixed order, the pause check always runs, and positions are published exactly when the tick publishes |
| Bridge.OrcaLinkBridge.constructor | envs/fluid/orcalink_bridge.py:48-93 | a pending bridge with no client and no strategy, holding the prepared configuration and its two indexes |
| Bridge.OrcaLinkBridge.InitOrcaLink | envs/fluid/orcalink_bridge.py:244-346 | a disabled client stops with no strategy; a client that fails to start raises; a started client records its channels and creates the configured strategy, if any, which succeeds exactly when its section is read and its call binds, and then holds the bodies of its own section |
| Bridge.OrcaLinkBridge.Join | envs/fluid/orcalink_bridge.py:296-335 | after the client starts: the channels are recorded, an unknown strategy name leaves no strategy, and a known one is kept; the join succeeds exactly when the strategy's section is read (a bridge section that is not an object raises) and its `initialize` call on that section binds, and the strategy then holds the section's rigid bodies |
| Bridge.OrcaLinkBridge.Connect | envs/fluid/orcalink_bridge.py:196-233 | connecting from pending ends connected or failed, matching the result; from any other state nothing changes and only a connected bridge answers true; a disabled client still connects |
| Bridge.OrcaLinkBridge.ConnectAsWritten | envs/fluid/orcalink_bridge.py:196-233 | with the call as written, a joined client with a known strategy connects exactly when the strategy is force/position and its section is read |
| Bridge.OrcaLinkBridge.SubscribeAndApplyForces | envs/fluid/orcalink_bridge.py:448-495 | the received forces are applied in order at their sites with zero torque up to the first site the host rejects, which abandons the rest of the batch; a failed fetch or missing site API applies nothing; nothing else changes |
| Bridge.AcceptedPrefix | envs/fluid/orcalink_bridge.py:469-494 | the applied run is the longest leading run of samples whose sites the host accepts, ending at the first rejected one |
| Bridge.LegacyAppliesAllKnown | envs/fluid/orcalink_bridge.py:469-494 | a batch whose sites are all accepted is applied in full |
| Bridge.LegacyStopsAtUnknown | envs/fluid/orcalink_bridge.py:469-494 | a rejected site abandons every later sample of the batch, even samples on accepted sites |
| Bridge.OrcaLinkBridge.ReceiveAndApplySphTargets | envs/fluid/orcalink_bridge.py:388-446 | the engine receives one mocap batch, the routed updates, only when some sample was routed; nothing else changes |
| Bridge.OrcaLinkBridge.SendPositionsToSph | envs/fluid/orcalink_bridge.py:348-386 | one pose per configured site the engine reports, published only when there is one; nothing else changes |
| Bridge.OrcaLinkBridge.LegacyStep | envs/fluid/orcalink_bridge.py:538-568 | the legacy tick returns false when paused and true otherwise; its new state: the converted force batch, up to the first rejected site, applied when forces are subscribed and the host has the site primitive, the routed mocap batch when targets are subscribed and some sample routes, the reported site poses published only on an unpaused tick with the publishing channel, and the connection, channels, bodies and routing table unchanged |
| Bridge.OrcaLinkBridge.Step | envs/fluid/orcalink_bridge.py:497-536 | false unless connected; a missing client or a failing readiness query escapes; not ready gives false; otherwise the strategy's (or the legacy) result with exceptions turned into false; a tick that is not delegated changes nothing; a delegated tick has the strategy's effects (phase order, published poses, force ledger or body-force calls) or the legacy tick's (force calls, mocap batch, published poses), and never changes the client, channels, bodies or routing table |
| Bridge.FailedIsFinal | envs/fluid/orcalink_bridge.py:203-207 | a failed bridge stays failed and refuses to connect |
| Scene.ScaleOf | envs/fluid/scene_generator.py:268-275 | a mesh's scale is never empty: the configured one when non-empty, `[1, 1, 1]` otherwise |
| Scene.CacheEntriesFromMeshes | envs/fluid/scene_generator.py:232-282 | every cached body is a marked, named body whose mesh (`_SPH_MESH` or `_SPH_STATIC_MESH` by kind) is present and non-empty, with that mesh's file and a non-empty scale |
| Scene.SphBodiesNamed | envs/fluid/scene_generator.py:239-244 | a geom without a body name marks nothing |
| Scene.CandidatesMembers | envs/fluid/scene_generator.py:550-570 | an extracted entry is exactly a listed name with the prefix whose remainder parses as an index, paired with that index |
| Scene.SortedCandidatesMembers | envs/fluid/scene_generator.py:594 | sorting by index keeps exactly the candidates |
| Scene.ConventionalIndex | envs/fluid/scene_generator.py:547-568 | a name `<prefix><index:03d>` reads its index back when the prefix ends in a non-digit |
| Scene.ConventionalNameExtracted | envs/fluid/scene_generator.py:529-597 | every listed conventional site name is extracted with its index |
| Scene.ExtractIndexed | envs/fluid/scene_generator.py:550-594 | the extractors' loop: the names with the prefix whose remainder is an index, in listing order, then sorted stably by index |
| Scene.ConvertPoints | envs/fluid/scene_generator.py:816-837 | the loop converts each point's world position from Z-up to Y-up, under its point id |
| Scene.SpringForce | envs/fluid/scene_generator.py:843-854 | the spring section is a non-empty object, or the generation raises |
| Scene.Param | envs/fluid/scene_generator.py:856-857 | `get` answers nothing exactly for a missing key or `null` |
| Scene.AnchorSetOutcome | envs/fluid/scene_generator.py:802-878 | no anchor set exactly when the body has neither site nor mocap points; raises exactly when it has some and the spring section or one of its two parameters is missing |
| Scene.AnchorSetContents | envs/fluid/scene_generator.py:871-878 | an anchor set carries the body's id and name, the two spring parameters, and one point per site and per mocap body, in index order |
| Scene.SortedBodies | envs/fluid/scene_generator.py:215-296 | the marked bodies in name order, each once |
| Scene.Identified | envs/fluid/scene_generator.py:198-303 | the list returned is strictly sorted and holds exactly the host's marked bodies |
| Scene.RigidBodyFor | envs/fluid/scene_generator.py:742-800 | raises exactly for an uncached body or non-object defaults; otherwise the body's id, name, mesh, kind (a static body is never dynamic), Y-up translation, mass (default 1.0) and non-empty scale |
| Scene.MainBodies | envs/fluid/scene_generator.py:903-906 | the bodies numbered from 1 in list order; raises exactly when some body's configuration raises |
| Scene.SceneJsonRaises | envs/fluid/scene_generator.py:881-955 | the scene description raises exactly when there are marked bodies and one is uncached or the defaults or template are not objects |
| Scene.SceneJsonBodies | envs/fluid/scene_generator.py:903-939 | body `i` of the description is the `i`-th identified body with id `i + 1`, cached, and not dynamic when static |
| Scene.ResolveKeepsAbsolute | envs/fluid/scene_generator.py:86-91 | an empty or absolute path is kept; any other is resolved by the file system |
| Scene.RenumberNamed | envs/fluid/scene_generator.py:1024-1033 | with every name present, renumbering keeps the bodies and gives position `i` the id `first + i` |
| Scene.AnchorsFor | envs/fluid/scene_generator.py:1052-1068 | the anchor loop raises exactly when some body it asks raises |
| Scene.AnchorsSound | envs/fluid/scene_generator.py:1053-1068 | every anchor set produced is that of a body the loop asks |
| Scene.AnchorsComplete | envs/fluid/scene_generator.py:1053-1068 | every asked body with points contributes its anchor set |
| Scene.SceneJsonNamed | envs/fluid/scene_generator.py:904-906 | the description's bodies all carry non-empty names |
| Scene.CompleteSceneShape | envs/fluid/scene_generator.py:957-1106 | a produced complete scene is the wall, then the renumbered main bodies, and the anchor sets of the latter |
| Scene.WallShape | envs/fluid/scene_generator.py:996-1021 | the wall part holds at most the wall, with id 0 |
| Scene.IdsArePositions | envs/fluid/scene_generator.py:993-1033 | after the wall, renumbered named bodies have ids equal to their positions |
| Scene.CompleteSceneIds | envs/fluid/scene_generator.py:993-1048 | every rigid body's id in the complete scene is its position in the list |
| Scene.WallComesFirst | envs/fluid/scene_generator.py:996-1021 | a configured wall comes first, with id 0 |
| Scene.RenumberedAt | envs/fluid/scene_generator.py:1024-1033 | the named body at position `j` sits at `|wall| + j` with that id |
| Scene.InPlaceNamedAt | envs/fluid/scene_generator.py:1031 | renumbering in place gives body `j` the id `first + j` |
| Scene.AnchorOwner | envs/fluid/scene_generator.py:1053-1068 | every anchor set names a body of the list by its new id, and that body is not flagged static |
| Scene.AnchorsOnlyForDynamicBodies | envs/fluid/scene_generator.py:1052-1074 | a static body never gets an anchor set, and every anchor set names a scene body by its id there |
| Scene.ConventionalProxy | envs/fluid/scene_generator.py:336-383 | a proxy site `<body>_SPH_MOCAP_SITE_<k:03d>` yields the proxy body `<body>_SPH_MOCAP_<k:03d>` with index `k` |
| Scene.ProxyBodyFoundAgain | envs/fluid/scene_generator.py:487-519 | a proxy body listed under its conventional name is found among the body's mocap anchor points with the same index |
| Scene.NameProxies | envs/fluid/scene_generator.py:353-383 | the loop names one proxy body per extracted proxy site |
| Scene.IdentifySnoc | envs/fluid/scene_generator.py:233-282 | one more geom grows the marked set and the cache as one step says |
| Scene.SceneGenerator.constructor | envs/fluid/scene_generator.py:45-69 | a generator over the host, configuration and runtime configuration, with an empty cache |
| Scene.SceneGenerator.IdentifySphBodies | envs/fluid/scene_generator.py:198-303 | clears the cache, rebuilds it from the marked geoms, and returns the identified bodies |
| Scene.SceneGenerator.ExtractMocapBodiesForBody | envs/fluid/scene_generator.py:305-393 | the proxy bodies of the body's proxy sites, by index |
| Scene.SceneGenerator.GenerateAnchorPoints | envs/fluid/scene_generator.py:802-878 | the body's anchor set as the specification function says |
| Scene.SceneGenerator.ExtractRigidBodyConfig | envs/fluid/scene_generator.py:742-800 | one body's configuration from the cache and the defaults |
| Scene.SceneGenerator.GenerateSceneJson | envs/fluid/scene_generator.py:881-955 | the scene description, with the cache rebuilt |
| Scene.SceneGenerator.CollectAnchors | envs/fluid/scene_generator.py:1052-1068 | the anchor loop over the renumbered bodies |
| Scene.SceneGenerator.GenerateCompleteScene | envs/fluid/scene_generator.py:957-1106 | the complete scene as the specification function says, with the cache rebuilt |
| Scene.AppendRenumbered | envs/fluid/scene_generator.py:1024-1033 | the loop appends the renumbered named bodies after the wall and renumbers the list in place, leaving unnamed bodies with their ids |
| XmlScene.FirstWhere | examples/fluid/generate_scene_from_xml.py:64-68 | the first element satisfying the test, as the early-returning search loops find it, or none when no element does |
| XmlScene.ParseAll | examples/fluid/generate_scene_from_xml.py:67 | converting every token succeeds exactly when each token is a number, and gives their values in order |
| XmlScene.SiteBodiesSnoc | examples/fluid/generate_scene_from_xml.py:50-56 | one more site adds its body exactly when its name is marked |
| XmlScene.SortedSiteBodies | examples/fluid/generate_scene_from_xml.py:58 | the identified bodies are strictly sorted |
| XmlScene.SortedSiteBodiesMembers | examples/fluid/generate_scene_from_xml.py:45-60 | the sorted list holds exactly the bodies of the marked sites |
| XmlScene.IdentifiedBodyHeadsASite | examples/fluid/generate_scene_from_xml.py:52-55 | an identified body does not contain the separator, and heads some marked site's name |
| XmlScene.FirstSeparatorAfterBody | examples/fluid/generate_scene_from_xml.py:55 | splitting `<body>_SPH_SITE_<rest>` gives the body back when the body does not mention the mark |
| XmlScene.ConventionalSiteIdentified | examples/fluid/generate_scene_from_xml.py:45-60 | a conventionally named site identifies its body, whatever else the model holds |
| XmlScene.BodyPositionCases | examples/fluid/generate_scene_from_xml.py:62-69 | no body of that name gives the origin; otherwise the first such body's `pos` (default `0 0 0`) is read, failing exactly when a token is not a number |
| XmlScene.MeshScale | examples/fluid/generate_scene_from_xml.py:91-101 | the scale always has three components |
| XmlScene.MeshScaleFrom | examples/fluid/generate_scene_from_xml.py:91-101 | the scale is the unit scale or the three parsed components of the first mesh of that name; a mesh without the attribute gives the unit scale |
| XmlScene.BodyMassSkipsBodiesWithoutInertial | examples/fluid/generate_scene_from_xml.py:105-110 | bodies without an inertial element before the first one that has it do not matter |
| XmlScene.BodyMassDefault | examples/fluid/generate_scene_from_xml.py:103-111 | the mass falls back to 1.0 when no body of that name has an inertial element |
| XmlScene.WallOf | examples/fluid/generate_scene_from_xml.py:119-138 | the wall is present with id 0 exactly when the wall configuration is truthy; a truthy non-object raises |
| XmlScene.RigidBodyContents | examples/fluid/generate_scene_from_xml.py:141-168 | an entry raises exactly when its position fails or has fewer than three components or the defaults are not an object; otherwise it has the id, the name, is dynamic, a non-empty mesh file (the body's own when present), the default density, the translation `[x, z, y]` and a three-component scale |
| XmlScene.EntryMaker | examples/fluid/generate_scene_from_xml.py:141-168 | the entry function gives each name and id its rigid body |
| XmlScene.Numbered | examples/fluid/generate_scene_from_xml.py:141 | the names are numbered from 1 in order; the whole fails exactly when one entry fails |
| XmlScene.SceneForRaises | examples/fluid/generate_scene_from_xml.py:113-176 | the scene fails exactly when the wall, some entry or the template fails |
| XmlScene.SceneForShape | examples/fluid/generate_scene_from_xml.py:116-173 | the scene's rigid bodies are the wall part followed by the numbered entries |
| XmlScene.XmlSceneRaises | examples/fluid/generate_scene_from_xml.py:113-176 | generation fails exactly when the wall configuration is a truthy non-object, some identified body's entry fails, or the template is not an object |
| XmlScene.SceneForAt | examples/fluid/generate_scene_from_xml.py:116-168 | position `p` holds the wall or the entry for name `p - |wall|` |
| XmlScene.XmlSceneIds | examples/fluid/generate_scene_from_xml.py:121-151 | with a wall every id is its position; without one every id is its position plus one |
| XmlScene.XmlSceneBodies | examples/fluid/generate_scene_from_xml.py:141-168 | the `i`-th identified body, a marked site's body named only once, sits right after the wall with id `i + 1` |
| XmlScene.AppendEntries | examples/fluid/generate_scene_from_xml.py:141-168 | the loop appends each name's entry, numbered from 1, and fails exactly when the numbering does |
| XmlScene.XmlSceneGenerator.constructor | examples/fluid/generate_scene_from_xml.py:38-43 | a generator over the parsed document and the configuration |
| XmlScene.XmlSceneGenerator.IdentifySphBodies | examples/fluid/generate_scene_from_xml.py:45-60 | the sorted bodies of the marked sites, each once |
| XmlScene.XmlSceneGenerator.GenerateSceneJson | examples/fluid/generate_scene_from_xml.py:113-176 | the scene the specification function describes |
| Launch.OrcaSphConfig | envs/fluid/utils.py:73-104 | the solver configuration is built exactly when the sections it unpacks are objects; its client section has the forced address and `enabled` over the template's client keys, and the other three sections are the template's, empty by default |
| Launch.DefaultSolverClient | envs/fluid/utils.py:93-104 | with no `orcalink` section the solver dials `localhost:50351` and is enabled |
| Launch.ExtraArgs | envs/fluid/utils.py:216-219 | the kept configured arguments are no more than the configured ones |
| Launch.ExtraArgsMembers | envs/fluid/utils.py:216-219 | an argument is kept exactly when it is configured and is neither `--port` nor the port's text |
| Launch.ExtraArgsAppend | envs/fluid/utils.py:217-219 | arguments are filtered one by one, in order |
| Launch.RelayArgs | envs/fluid/utils.py:212-219 | the relay's arguments start with `--port` and the configured port (default 50051), followed by the configured arguments that repeat neither, in order |
| Launch.FilterArgs | envs/fluid/utils.py:216-219 | the loop keeps exactly the configured arguments that are neither `--port` nor the port's text, in order |
| Launch.Remove | envs/fluid/utils.py:65 | deleting a key leaves it absent and every other key's value unchanged |
| Launch.ProcessManager.constructor | envs/fluid/utils.py:20-22 | a manager with no processes and nothing signalled |
| Launch.ProcessManager.StartProcess | envs/fluid/utils.py:24-45 | the new process is recorded under its name, replacing an earlier one; nothing is signalled |
| Launch.ProcessManager.TerminateProcess | envs/fluid/utils.py:47-65 | an unknown name changes nothing; a known one is removed whether or not stopping it succeeded, and is signalled only when still running |
| Launch.ProcessManager.CleanupAll | envs/fluid/utils.py:67-70 | the table ends empty, and the running processes are signalled in table order |
| Launch.Running | envs/fluid/utils.py:53 | the names signalled are exactly those of the table that are still running |
| SimLoop.StrToBool | examples/fluid/run_sim_loop.py:351-361 | a boolean passes through; a text is true exactly for the true words and false exactly for the false words, in any case, and raises otherwise |
| SimLoop.StrToBoolIgnoresCase | examples/fluid/run_sim_loop.py:356-358 | a text and its lower-case form convert alike |
| SimLoop.HostHasNoColon | examples/fluid/run_sim_loop.py:43 | the address part of the id has the address's length and no colon |
| SimLoop.EnvIdIndex | examples/fluid/run_sim_loop.py:44 | the environment id ends with the three-digit index, which reads back |
| SimLoop.ConnectGate | examples/fluid/run_sim_loop.py:240-244 | coupling stays on exactly when it was on and either there is no bridge or the bridge connected |
| SimLoop.MainLoop.constructor | examples/fluid/run_sim_loop.py:240-246 | the loop starts with the connection gate's answer and no passes |
| SimLoop.MainLoop.Pass | examples/fluid/run_sim_loop.py:248-280 | one pass asks the bridge only when coupling is on, steps the environment unless the bridge answered false, always renders, and a raise turns coupling off |
| SimLoop.MainLoop.Run | examples/fluid/run_sim_loop.py:248-280 | a run of passes follows the trace and the coupling flag of the specification functions |
| SimLoop.RendersEveryPass | examples/fluid/run_sim_loop.py:262-273 | the display is refreshed on every pass |
| SimLoop.StepsUnlessHeld | examples/fluid/run_sim_loop.py:252-265 | the environment steps on every pass except those the bridge held |
| SimLoop.UncoupledRun | examples/fluid/run_sim_loop.py:252-253 | with coupling off or no bridge the loop steps every pass and the flag does not change |
| SimLoop.RaiseDisablesForGood | examples/fluid/run_sim_loop.py:256-259 | once the bridge has raised, coupling stays off for the rest of the run |
| Devices.OnnxProviders | envs/legged_gym/utils/device_utils.py:56-83 | CPU comes last and exactly once; a device other than `gpu`/`cuda` (any case, none as empty) gives CPU only; MIGraphX and CUDA appear exactly when wanted and reported by a query that succeeded, MIGraphX first; no provider repeats |
| Devices.TorchDeviceFor | envs/legged_gym/utils/device_utils.py:21-37 | no device exactly without torch; the CUDA device exactly when a GPU is preferred and available |
| Devices.GpuBackendName | envs/legged_gym/utils/device_utils.py:47-53 | `none` exactly without a usable GPU, `rocm` exactly for a usable HIP build, `cuda` exactly for any other usable build |
| LeggedSim.RegisteredAgentIsFirstRobot | examples/legged_gym/run_legged_sim.py:152-154 | the single registered agent `<agent>_000` is the robot the scene publisher names first |
| LeggedSim.SegmentObs | examples/legged_gym/run_legged_sim.py:464-475 | one robot gets the whole observation; otherwise each robot gets the renamed keys that start with its name |
| LeggedSim.SegmentLookup | examples/legged_gym/run_legged_sim.py:468-475 | looking a robot up in the split observation gives its own segment, and a non-robot finds nothing |
| LeggedSim.SegmentStripsName | examples/legged_gym/run_legged_sim.py:471-474 | a key `<robot>_<rest>` appears in the robot's segment under `rest` |
| LeggedSim.PrefixNamesOverlap | examples/legged_gym/run_legged_sim.py:472 | the split matches by name prefix only: robot `<p>_1000`'s keys also start with `<p>_100` |
| LeggedSim.TurnMirror | examples/legged_gym/run_legged_sim.py:87-96 | D alone turns exactly opposite to A alone, with the same linear velocity |
| LeggedSim.BackwardWins | examples/legged_gym/run_legged_sim.py:79-82 | holding S drives backwards whether or not W is held |
| LeggedSim.IndexOf | examples/legged_gym/run_legged_sim.py:112 | `index` gives the first position of the element |
| LeggedSim.NextTerrainAvailable | examples/legged_gym/run_legged_sim.py:101-125 | with several terrain types a switch lands on one of them; with one the terrain stays |
| LeggedSim.FlatRoughToggle | examples/legged_gym/run_legged_sim.py:106-119 | with flat and rough terrain both available, Space toggles between them |
| LeggedSim.SwitchFromMissingFlatRaises | examples/legged_gym/run_legged_sim.py:101-113 | without flat and rough terrain, leaving the initial flat terrain raises |
| LeggedSim.NextModel | examples/legged_gym/run_legged_sim.py:126-131 | an M release keeps the policy kind supported exactly when it was |
| LeggedSim.ModelCycle | examples/legged_gym/run_legged_sim.py:127-130 | four M releases come back to the same policy kind |
| LeggedSim.RebornOnce | examples/legged_gym/run_legged_sim.py:97-133 | holding R requests a rebirth on the first update only |
| LeggedSim.HeldKeysChangeNothing | examples/legged_gym/run_legged_sim.py:101-133 | holding Space and M changes neither terrain nor policy kind |
| LeggedSim.KeyboardControl.constructor | examples/legged_gym/run_legged_sim.py:49-60 | the controller starts on flat terrain, with no key down and the given policy kind |
| LeggedSim.KeyboardControl.UpdateKeys | examples/legged_gym/run_legged_sim.py:62-135 | the controller's state moves as the transition function says, and stays put when the update raises |
| SceneUtil.NormalizeCleanPath | examples/legged_gym/scripts/scene_util.py:87 | a path without `//` is left as it is |
| SceneUtil.NormalizeTripleSlash | examples/legged_gym/scripts/scene_util.py:87 | one replacement pass is not idempotent: `///` becomes `//`, which a second pass would change |
| SceneUtil.NormalizeShortens | examples/legged_gym/scripts/scene_util.py:87 | the replacement never lengthens a path |
| SceneUtil.CeilSqrt | examples/legged_gym/scripts/scene_util.py:121 | the grid width is the least width whose square holds all robots |
| SceneUtil.RowsFit | examples/legged_gym/scripts/scene_util.py:121-126 | every robot's row lies inside the grid |
| SceneUtil.CellsDistinct | examples/legged_gym/scripts/scene_util.py:125-126 | different robots get different grid cells |
| SceneUtil.RobotPositionsDistinct | examples/legged_gym/scripts/scene_util.py:122-130 | different robots stand at different positions |
| SceneUtil.RobotNamesDistinct | examples/legged_gym/scripts/scene_util.py:128 | different robots get different names |
| SceneUtil.RobotInSquare | examples/legged_gym/scripts/scene_util.py:121-130 | every robot stands within the square from minus half the width, 0.5 m per cell, on both axes |
| SceneUtil.PublishScene | examples/legged_gym/scripts/scene_util.py:107-173 | raises exactly when no scene address is given; otherwise the robots in index order, then the terrain pieces unless skipped |
| SceneUtil.PublishTerrain | examples/legged_gym/scripts/scene_util.py:79-105 | raises exactly when no scene address is given; otherwise one actor per terrain piece, in order |
| SceneUtil.AddTerrains | examples/legged_gym/scripts/scene_util.py:150-167 | the loop adds the terrain pieces' actors in order |
| SceneUtil.TerrainActors | examples/legged_gym/scripts/scene_util.py:150-159 | one actor per terrain piece, named by its normalised path, at the origin |
| RobotState.LowState.constructor | envs/g1/share_state.py:5-23 | 29 idle motor states, the identity orientation, zero angular velocity and tick 0 |
| RobotState.JointValues | envs/g1/share_state.py:44-46 | joint `i`'s position or velocity is motor `JOINT2MOTOR[i]`'s |
| RobotState.ReadLowState | envs/g1/share_state.py:38-48 | `q` and `dq` are filled in place as the specification functions say, and the row is `q` followed by `dq` |
| RobotState.ReadJoints | envs/g1/share_state.py:44-46 | the joint loop writes position `7 + i` and velocity `6 + i` from motor `JOINT2MOTOR[i]` and leaves the heads alone |
| RobotState.RowLayout | envs/g1/share_state.py:40-47 | the row has length `(7 + n) + (6 + n)`: zero base position, orientation, joint positions, the unwritten base velocity, angular velocity, joint velocities |
| RobotState.ReadIsRepeatable | envs/g1/share_state.py:40-46 | reading twice gives the same vectors: the unwritten part of `dq` carries over |
| RobotState.StateProcessor.constructor | envs/g1/share_state.py:26-36 | zeroed position and velocity buffers sized for the robot's joints |
| RobotState.StateProcessor.PrepareLowState | envs/g1/share_state.py:38-48 | the row of positions and velocities, the base velocity staying zero |
| RobotState.PolicyStateProcessor.constructor | envs/g1/utils/state_processor.py:8-20 | zeroed buffers and no state received yet |
| RobotState.PolicyStateProcessor.PrepareLowState | envs/g1/utils/state_processor.py:22-40 | nothing, and no change, while no state has been received; otherwise the same read |
| RobotState.LowCommand.constructor | envs/g1/share_state.py:50-61 | 29 idle motor commands |
| RobotState.Gains | envs/g1/share_state.py:70-76 | the gain table: configured gains scaled by the level, zero past them |
| RobotState.RoutedUntouched | envs/g1/share_state.py:96-106 | a motor slot that `JOINT2MOTOR` never names keeps its command |
| RobotState.RoutedHit | envs/g1/share_state.py:96-106 | with distinct targets, slot `JOINT2MOTOR[i]` holds entry `i`'s command |
| RobotState.StandingCommands | envs/g1/share_state.py:84-93 | entry `i` is the default angle of joint `MOTOR2JOINT[i]` with zero velocity and torque and slot `JOINT2MOTOR[i]`'s gains |
| RobotState.PolicyCommands | envs/g1/share_state.py:96-106 | entry `i` is the policy's target for joint `MOTOR2JOINT[i]` with slot `JOINT2MOTOR[i]`'s gains |
| RobotState.Route | envs/g1/share_state.py:84-106 | the write loop leaves the slots as the routing function says |
| RobotState.CommandSender.constructor | envs/g1/share_state.py:65-80 | gains with level 1.0, and the standing command routed into the slots |
| RobotState.CommandSender.InitLowCommand | envs/g1/share_state.py:82-93 | the standing pose with each slot's gains, routed through the robot tables |
| RobotState.CommandSender.UpdateCommand | envs/g1/share_state.py:95-106 | the policy's targets with each slot's gains, routed through the robot tables |
| RobotState.IdentityTablesAgree | envs/g1/share_state.py:44-106 | with identity tables, slot `m` receives joint `m`'s target and joint `m` is read from motor `m` |
| RobotState.SwappedTablesCross | envs/g1/share_state.py:44-106 | with swapped tables, joint 0 is read from motor 1 while motor 1 receives joint 1's target |
| RobotState.FillGains | envs/g1/share_state.py:73-76 | the loop fills the table with the scaled gains and leaves the rest zero |
| Requirements.Requirements | setup.py:18-22 | the requirements are the stripped lines that are neither blank nor `#` comments, in order |
| Requirements.RequirementsOfFile | setup.py:14-22 | a missing requirements file gives no requirements; otherwise the list built from its lines |
| Requirements.RequirementsMembers | setup.py:18-22 | a string is a requirement exactly when it is the stripped text of a kept line |
| Requirements.RequirementsAppend | setup.py:18-22 | the filter works line by line: the lines of two parts give the requirements of the first followed by those of the second |
| Requirements.RequirementsStripped | setup.py:19 | every requirement is already stripped |
| Requirements.RequirementsIdempotent | setup.py:18-22 | filtering the result again changes nothing |

## Left out

- The OrcaLink client and its asyncio event loop are foreign network transport. What they answer is a parameter of each operation (the join result, the readiness answer, the pause flag, the forces and targets received), and what is published is a ghost trace.
- The host engine's calls (`mj_forward`, the site and body pose queries, `mj_apply_force_at_site`, `apply_force_to_body`, `set_mocap_pos_and_quat`, `mj_name2id`) are a foreign engine. Applied forces are a ghost trace summed per name, the sites `mj_apply_force_at_site` accepts are a set on `HostEnv`, pose answers are parameters, and the spring strategy's mocap buffers are two arrays of a `HostEnv` object.
- Floating point: vectors and quaternions are `real` triples and quadruples, with no IEEE rounding.
- The scipy rotation in `convert_coordinate_z_to_y` (axis-angle, quaternion and Euler math) is floating-point numerics. Only its translation part, the Z-up to Y-up map, is modelled. A generated body's axis and angle are taken as given.
- `get_body_quaternion` in the XML generator (examples/fluid/generate_scene_from_xml.py:71) is not modelled: scene generation never calls it, and each generated rigid body gets the fixed rotation axis `[1, 0, 0]` and angle `0` instead (lines 157-158); `XmlScene.XmlRigidBody` leaves those fixed fields out.
- File and package work:
  - package-resource and file-system lookups in `_resolve_geometry_path` beyond the empty and absolute-path checks, where the package lookup is a parameter;
  - reading and writing the JSON configuration and scene files;
  - ElementTree parsing, where the XML generator receives an already parsed document;
  - reading requirements.txt and the README in setup.py, where the file's lines are the input.
- Python's `float()` on a token is a parameter of the XML generator. `int()` on an index suffix is modelled for ASCII decimal digits only. Signs, surrounding whitespace, underscores and non-ASCII digits, which `int()` also accepts, are left out.
- The regular expression `(.+)_SPH_SITE_(\d+)$` is modelled as a non-empty prefix, then `_SPH_SITE_`, then a non-empty ASCII digit run ending the name. How `.` and `$` treat newlines is left out.
- Generated scene records carry their ids, names, geometry, mass, translation, dynamics flag and anchor points. The fixed colour, velocity, collision, map, restitution and friction fields, and the wall's configured fields other than id and geometry, are left out as constants that no logic depends on.
- `OrcaLinkBridge.close` and `OrcaLinkBridge.generate_sph_scene` are not modelled. The first is client and event-loop teardown. The second delegates to the scene generator and writes a file.
- Process and timing plumbing:
  - starting programs, sending signals and waiting for them (`ProcessManager` keeps only its name table, with `poll()` answers as parameters);
  - executable lookup and the argument lists of the solver launch in `run_simulation_with_config`;
  - `atexit` handlers, `time.sleep` and the main loop's real-time pacing;
  - logging and debug printing.
- `ShareState`'s semaphores and the policy threads are concurrency. The humanoid's buffers are modelled as single-threaded arrays.
- The robot description behind the humanoid buffers (`JOINT2MOTOR`, `MOTOR2JOINT`, the counts, gains and default angles) is not part of this model. It is a `Robot` value with in-range requirements.
- `generate_height_map_file` and `clear_scene` in the scene utility, the model loaders, the CSV logging and the `main` functions of the example scripts are host I/O and argument glue.
- SceneUtil.CeilSqrt: `int(np.ceil(np.sqrt(n)))` is computed in floating point by the source. The model uses the exact integer ceiling of the square root, which differs only where the floating-point square root is inexact.
- The RL environments, controllers and other example scripts (character, xbot, g1 environment and policy, replicator, wheeled chassis, run_fluid_sim, the ONNX runner) are outside the coupling core.
- Coupling.CouplingMode.RunInbound: for the multi-point strategy the ledger is stated as the per-site totals of the batch, the corrected ledger of the second row under Findings. The source's `subscribe_and_apply_site_forces` records only the last sample per `object_id` (`envs/fluid/modules/force_application.py:98-108`), which `ForceLedger.ForceModule.ApplySiteForcesAsWritten` models. The two agree whenever a batch names each site once (`ForceLedger.DistinctIdsLedgersAgree`).
- Coupling.CouplingMode.Step: the same substitution of the corrected site-force ledger for the multi-point strategy's inbound phase.
- ForceLedger.ForceModule.ApplySiteForces: every host force call is taken to succeed. In the source, an exception from `mj_apply_force_at_site` part-way through a batch jumps to the handler after the old ledger has been cancelled and cleared, so only part of the new batch is applied and recorded.
- ForceLedger.ForceModule.ApplySiteForcesAsWritten: every host force call is taken to succeed, as for the corrected tick.
- ForceLedger.ForceModule.ApplyAndRecordLast: every host force call is taken to succeed. A failing call would end the loop with a partial ledger.
- ForceLedger.ForceModule.ApplyAndRecordSums: every host force call is taken to succeed, as for the as-written loop.
- ForceLedger.ForceModule.ApplyBodyForces: every `apply_force_to_body` call is taken to succeed. In the source, a failing call re-raises (`envs/fluid/modules/force_application.py:135-137`), and the subscribe-level handler swallows it, so the rest of that batch is not applied.
- Strings.Lower: only `A`–`Z` are lowered. Python's `str.lower` also lowers non-ASCII letters, and can lengthen a text (`'İ'.lower()` has two characters). `SimLoop.StrToBool`'s answer is unaffected, because its words are ASCII. The only non-ASCII characters whose lower case contains an ASCII letter are the Kelvin sign (to `k`) and `İ` (to `i` and a combining dot), and neither `k` nor `i` occurs in those words.
- Launch.RelayArgs: requires the configured `args` to be a list of strings. The source iterates whatever value `args` holds: a string yields its characters, an object its keys, and non-string items are appended unchanged.
- Bridge.Show: a list or object value renders as the empty text, whereas Python's `str()` gives its repr. Only scalar values are rendered faithfully.
- Core.Json: numbers are integers (`JNum(n: int)`), so float configuration values such as a spring stiffness of `5000.0` or a float port are not represented.
- Topology.GenerateRigidBodies: one host model answers every `get_site_dict()` call. A failure of that query for one body alone, which `extract_sites_for_body` turns into empty lists so the body is skipped (`envs/fluid/config_generator.py:117-119`), is not modelled. A failed query is modelled only for the whole generation, which then gives no records.
- Scene.ScaleOf: a truthy `Scale` is kept as it is. The source converts it with `list(...)` (`envs/fluid/scene_generator.py:275`), which raises for a number, so that body's geometry is not cached, and splits a text into its characters.
- Coupling.CouplingMode.Initialize: a section that is not an object raises before anything is stored. The source has already stored the host, client and loop and created the force module when `config.get` raises. Nothing observes the difference, because the join then fails and the bridge ends in the failed state.
- PoseExchange.BodiesOf: configuration values of the wrong type read as missing: a `rigid_bodies` or `connection_points` value that is not a list, an entry that is not an object, a name or id that is not text, and an explicit `null`. The source keeps such a value as it is and may raise on it later, when the poses are collected.

## Findings

| source | as written | input that shows it | evidently intended | confidence | as-written member | corrected member |
|---|---|---|---|---|---|---|
| envs/fluid/orcalink_bridge.py:319 | `_init_orcalink` calls `initialize(mode_config, env, client, loop)` with four arguments, but the multi-point and spring strategies declare only `(config, env, orcalink_client)` (envs/fluid/coupling_modes/multi_point_force_mode.py:28, envs/fluid/coupling_modes/spring_constraint_mode.py:26); the `TypeError` is re-raised and `connect()` ends in the failed state, with no retry | an enabled configuration whose `coupling_mode` is `multi_point_force` or `spring_constraint`, with a client that joins and a strategy section that is an object or missing | every strategy initialises with the arguments its own signature takes, and the bridge connects | high, not executed | Bridge.OrcaLinkBridge.ConnectAsWritten, Bridge.AsWrittenBindsOnlyForcePosition | Bridge.OrcaLinkBridge.Connect, Bridge.CorrectedBindsAll |
| envs/fluid/modules/force_application.py:98-108 | every sample of a batch is applied to the host, but the ledger keeps only the last sample per `object_id`, so when one id repeats in a batch the next tick cancels only that last sample | one tick with samples `f1` then `f2` for site `s`, then a tick with `f3` for `s`: the host keeps `f1 + f3` for `s` instead of `f3` | the ledger records the total applied per site, so the next batch replaces everything the previous one applied | medium, not executed | ForceLedger.ForceModule.ApplySiteForcesAsWritten, ForceLedger.DuplicateIdsLeaveResidual | ForceLedger.ForceModule.ApplySiteForces, ForceLedger.DuplicateIdsCorrected |
