// The launcher's bookkeeping around the two external programs: the
// configuration file written for the fluid solver, the relay's command
// line, and the table of started processes. Starting, signalling and
// waiting for operating-system processes are host effects: a process is an
// opaque handle, `poll()` is a parameter and the signals sent are a ghost
// trace.

module Launch {
  import opened Core
  import opened Bridge

  // ---------------------------------------------------------------------
  // The fluid solver's configuration

  /** `generate_orcasph_config`: the document written for the solver, or
      `Raised` where a section that is read with `.get` or unpacked with
      `**` is not an object. */
  function OrcaSphConfig(fluid: seq<(string, Json)>): (r: Outcome<seq<(string, Json)>>)
    ensures r.Returned? <==>
              Get(fluid, "orcasph", JObj([])).JObj? && Get(fluid, "orcalink", JObj([])).JObj? &&
              Get(Get(fluid, "orcasph", JObj([])).fields, "config", JObj([])).JObj? &&
              Get(Get(Get(fluid, "orcasph", JObj([])).fields, "config", JObj([])).fields, "orcalink_client", JObj([])).JObj?
    ensures r.Returned? ==>
              var template := Get(Get(fluid, "orcasph", JObj([])).fields, "config", JObj([])).fields;
              ConfigShape(r.value, Get(fluid, "orcalink", JObj([])).fields, template)
  {
    var sph := Get(fluid, "orcasph", JObj([]));
    var link := Get(fluid, "orcalink", JObj([]));
    if !sph.JObj? || !link.JObj? then Raised
    else
      var template := Get(sph.fields, "config", JObj([]));
      if !template.JObj? then Raised
      else
        var client := Get(template.fields, "orcalink_client", JObj([]));
        if !client.JObj? then Raised
        else
          var merged := ForcedMerge(Get(link.fields, "enabled", JBool(true)), JStr(ServerAddress(link.fields)), client.fields);
          Returned(SolverDocument(merged, template.fields))
  }

  /** The four sections of the document, in order; the last three are
      copied from the template, `{}` when it has none. */
  function SolverDocument(client: seq<(string, Json)>, template: seq<(string, Json)>): seq<(string, Json)>
  {
    [("orcalink_client", JObj(client)),
     ("orcalink_bridge", Get(template, "orcalink_bridge", JObj([]))),
     ("physics", Get(template, "physics", JObj([]))),
     ("debug", Get(template, "debug", JObj([])))]
  }

  /** What the written document promises: the client section connects to
      the relay named in the `orcalink` section and is enabled as that
      section says, whatever the template's client section held; every
      other client key is the template's; the other sections are the
      template's. */
  ghost predicate ConfigShape(doc: seq<(string, Json)>, link: seq<(string, Json)>, template: seq<(string, Json)>)
  {
    |doc| == 4 &&
    doc[0].0 == "orcalink_client" && doc[0].1.JObj? &&
    DictGet(doc[0].1.fields, "server_address") == Some(JStr(ServerAddress(link))) &&
    DictGet(doc[0].1.fields, "enabled") == Some(Get(link, "enabled", JBool(true))) &&
    Get(template, "orcalink_client", JObj([])).JObj? &&
    (forall k :: k != "server_address" && k != "enabled" ==>
       DictGet(doc[0].1.fields, k) == DictGet(Get(template, "orcalink_client", JObj([])).fields, k)) &&
    doc[1] == ("orcalink_bridge", Get(template, "orcalink_bridge", JObj([]))) &&
    doc[2] == ("physics", Get(template, "physics", JObj([]))) &&
    doc[3] == ("debug", Get(template, "debug", JObj([])))
  }

  /** With no `orcalink` section the solver dials the default relay and is
      enabled. */
  lemma DefaultSolverClient(fluid: seq<(string, Json)>)
    requires OrcaSphConfig(fluid).Returned?
    requires DictGet(fluid, "orcalink") == None
    ensures DictGet(OrcaSphConfig(fluid).value[0].1.fields, "server_address") == Some(JStr("localhost:50351"))
    ensures DictGet(OrcaSphConfig(fluid).value[0].1.fields, "enabled") == Some(JBool(true))
  {
    DefaultServerAddress();
  }

  // ---------------------------------------------------------------------
  // The relay's command line

  const DefaultRelayPort: int := 50051

  /** The configured arguments that survive: those equal neither to
      "--port" nor to the port's text, in their order. */
  function ExtraArgs(args: seq<string>, portText: string): (r: seq<string>)
    ensures |r| <= |args|
  {
    if args == [] then []
    else
      var rest := ExtraArgs(args[..|args| - 1], portText);
      var a := args[|args| - 1];
      if a != "--port" && a != portText then rest + [a] else rest
  }

  lemma {:induction false} ExtraArgsMembers(args: seq<string>, portText: string, x: string)
    ensures x in ExtraArgs(args, portText) <==> x in args && x != "--port" && x != portText
    decreases |args|
  {
    if args != [] {
      ExtraArgsMembers(args[..|args| - 1], portText, x);
      assert args == args[..|args| - 1] + [args[|args| - 1]];
    }
  }

  /** Filtering goes argument by argument: the kept arguments keep their
      order. */
  lemma {:induction false} ExtraArgsAppend(a: seq<string>, b: seq<string>, portText: string)
    ensures ExtraArgs(a + b, portText) == ExtraArgs(a, portText) + ExtraArgs(b, portText)
    decreases |b|
  {
    if b == [] {
      assert a + b == a;
    } else {
      assert (a + b)[..|a + b| - 1] == a + b[..|b| - 1];
      ExtraArgsAppend(a, b[..|b| - 1], portText);
    }
  }

  /** The relay's arguments: `--port` and the configured port (default
      50051) first, then the configured `args` that repeat neither. */
  method RelayArgs(section: seq<(string, Json)>) returns (args: seq<string>)
    requires ArgsAreTexts(section)
    ensures |args| >= 2 && args[0] == "--port" && args[1] == Show(Get(section, "port", JNum(DefaultRelayPort)))
    ensures forall i :: 2 <= i < |args| ==> args[i] != "--port" && args[i] != args[1]
    ensures args[2..] == ExtraArgs(Configured(section), args[1])
  {
    var portText := Show(Get(section, "port", JNum(DefaultRelayPort)));
    var kept := FilterArgs(Configured(section), portText);
    ExtraArgsExclude(Configured(section), portText);
    args := ["--port", portText] + kept;
    assert args[2..] == kept;
  }

  /** The filtering loop over the configured arguments. */
  method FilterArgs(configured: seq<string>, portText: string) returns (kept: seq<string>)
    ensures kept == ExtraArgs(configured, portText)
  {
    kept := [];
    for i := 0 to |configured|
      invariant kept == ExtraArgs(configured[..i], portText)
    {
      var a := configured[i];
      ExtraArgsSnoc(configured, i, portText);
      if a != "--port" && a != portText {
        kept := kept + [a];
      }
    }
    assert configured[..|configured|] == configured;
  }

  lemma ExtraArgsSnoc(args: seq<string>, i: nat, portText: string)
    requires i < |args|
    ensures ExtraArgs(args[..i + 1], portText) ==
            ExtraArgs(args[..i], portText) + (if args[i] != "--port" && args[i] != portText then [args[i]] else [])
  {
    assert args[..i + 1][..i] == args[..i];
  }

  lemma ExtraArgsExclude(args: seq<string>, portText: string)
    ensures forall i :: 0 <= i < |ExtraArgs(args, portText)| ==>
              ExtraArgs(args, portText)[i] != "--port" && ExtraArgs(args, portText)[i] != portText
  {
    var e := ExtraArgs(args, portText);
    forall i | 0 <= i < |e|
      ensures e[i] != "--port" && e[i] != portText
    {
      ExtraArgsMembers(args, portText, e[i]);
    }
  }

  /** The configured `args`, when present, is a list of strings. */
  predicate ArgsAreTexts(section: seq<(string, Json)>)
  {
    var l := Get(section, "args", JList([]));
    l.JList? && forall a :: a in l.items ==> a.JStr?
  }

  /** The texts of the configured `args` list (none when absent). */
  function Configured(section: seq<(string, Json)>): seq<string>
    requires ArgsAreTexts(section)
  {
    Texts(Get(section, "args", JList([])).items)
  }

  function Texts(items: seq<Json>): (r: seq<string>)
    requires forall a :: a in items ==> a.JStr?
    ensures |r| == |items| && forall i :: 0 <= i < |items| ==> r[i] == items[i].s
  {
    if items == [] then [] else [items[0].s] + Texts(items[1..])
  }

  // ---------------------------------------------------------------------
  // The process table

  /** An operating-system process started by the launcher. */
  datatype Process = Process(pid: int)

  /** Removing a key from a dictionary (`del d[k]`): the other pairs keep
      their order. */
  function Remove<V>(d: seq<(string, V)>, k: string): (r: seq<(string, V)>)
    ensures DictGet(r, k) == None
    ensures forall j :: j != k ==> DictGet(r, j) == DictGet(d, j)
  {
    if d == [] then []
    else
      var init, last := d[..|d| - 1], d[|d| - 1];
      var r := Remove(init, k);
      if last.0 == k then r
      else
        assert (r + [last])[..|r|] == r;
        r + [last]
  }

  lemma {:induction false} RemoveAbsent<V>(d: seq<(string, V)>, k: string)
    requires forall i :: 0 <= i < |d| ==> d[i].0 != k
    ensures Remove(d, k) == d
    decreases |d|
  {
    if d != [] {
      RemoveAbsent(d[..|d| - 1], k);
    }
  }

  /** Terminating the first remaining process of the table leaves the
      rest. */
  lemma DropFirst<V>(d: seq<(string, V)>, i: nat)
    requires i < |d| && DistinctKeys(d[i..])
    ensures DictGet(d[i..], d[i].0).Some?
    ensures Remove(d[i..], d[i].0) == d[i + 1..]
  {
    assert d[i..][0] == d[i];
    DictGetDistinct(d[i..], 0);
    RemoveFirst(d[i..]);
    assert d[i..][1..] == d[i + 1..];
  }

  lemma RemoveFirst<V>(d: seq<(string, V)>)
    requires DistinctKeys(d) && d != []
    ensures Remove(d, d[0].0) == d[1..]
  {
    RemoveFirstGen(d, d[0].0);
  }

  lemma {:induction false} RemoveFirstGen<V>(d: seq<(string, V)>, k: string)
    requires DistinctKeys(d) && d != [] && d[0].0 == k
    ensures Remove(d, k) == d[1..]
    decreases |d|
  {
    if |d| == 1 {
    } else {
      var init := d[..|d| - 1];
      assert DistinctKeys(init);
      RemoveFirstGen(init, k);
      assert init[1..] + [d[|d| - 1]] == d[1..];
    }
  }

  lemma PutKeepsDistinct<V>(d: seq<(string, V)>, k: string, v: V)
    requires DistinctKeys(d)
    ensures DistinctKeys(DictPut(d, k, v))
  {
    var r := DictPut(d, k, v);
    if k in DictKeys(d) {
      assert forall i :: 0 <= i < |r| ==> r[i].0 == DictKeys(r)[i] == DictKeys(d)[i] == d[i].0;
    } else {
      assert forall i :: 0 <= i < |r| ==> r[i].0 == DictKeys(r)[i];
      assert forall i :: 0 <= i < |d| ==> DictKeys(d)[i] == d[i].0;
    }
  }

  lemma {:induction false} RemoveKeepsDistinct<V>(d: seq<(string, V)>, k: string)
    requires DistinctKeys(d)
    ensures DistinctKeys(Remove(d, k))
    ensures forall j :: j in DictKeys(Remove(d, k)) ==> j in DictKeys(d)
    decreases |d|
  {
    if d != [] {
      var init := d[..|d| - 1];
      assert DistinctKeys(init);
      RemoveKeepsDistinct(init, k);
      var r := Remove(init, k);
      assert forall j :: j in DictKeys(d) <==> j in DictKeys(init) || j == d[|d| - 1].0;
      if d[|d| - 1].0 != k {
        assert d[|d| - 1].0 !in DictKeys(init);
        assert d[|d| - 1].0 !in DictKeys(r);
        assert forall i :: 0 <= i < |r| ==> r[i].0 == DictKeys(r)[i];
        assert DictKeys(r + [d[|d| - 1]]) == DictKeys(r) + [d[|d| - 1].0];
      }
    }
  }

  /** `ProcessManager`: the started processes by name, in start order. */
  class ProcessManager {
    var processes: seq<(string, Process)>
    /** Names whose process was sent SIGTERM, in order. */
    ghost var signalled: seq<string>

    ghost predicate Valid()
      reads this
    {
      DistinctKeys(processes)
    }

    constructor ()
      ensures Valid() && processes == [] && signalled == []
    {
      processes := [];
      signalled := [];
    }

    /** `start_process`: the new process is recorded under its name,
        replacing any earlier one. */
    method StartProcess(name: string, process: Process)
      requires Valid()
      modifies this
      ensures Valid()
      ensures processes == DictPut(old(processes), name, process)
      ensures signalled == old(signalled)
    {
      PutKeepsDistinct(processes, name, process);
      processes := DictPut(processes, name, process);
    }

    /** `terminate_process`: an unknown name is ignored; a process still
        running (`running`, the answer of `poll()`) is signalled; the
        entry is removed either way. */
    method TerminateProcess(name: string, running: bool)
      requires Valid()
      modifies this
      ensures Valid()
      ensures DictGet(old(processes), name).None? ==> processes == old(processes) && signalled == old(signalled)
      ensures DictGet(old(processes), name).Some? ==>
                processes == Remove(old(processes), name) &&
                signalled == old(signalled) + (if running then [name] else [])
    {
      if DictGet(processes, name).None? {
        return;
      }
      if running {
        signalled := signalled + [name];
      }
      RemoveKeepsDistinct(processes, name);
      processes := Remove(processes, name);
    }

    /** `cleanup_all`: every recorded process is terminated in start
        order; `alive` is the set of names whose `poll()` reports them
        running. The table ends empty. */
    method CleanupAll(alive: set<string>)
      requires Valid()
      modifies this
      ensures Valid() && processes == []
      ensures signalled == old(signalled) + Running(DictKeys(old(processes)), alive)
    {
      var names := DictKeys(processes);
      ghost var start := processes;
      ghost var sent := signalled;
      for i := 0 to |names|
        invariant Valid()
        invariant processes == start[i..]
        invariant signalled == sent + Running(names[..i], alive)
      {
        var name := names[i];
        DropFirst(start, i);
        TerminateProcess(name, name in alive);
        RunningSnoc(names, i, alive);
      }
      assert names[..|names|] == names;
    }
  }

  /** The names, in order, that are in `alive`. */
  function Running(names: seq<string>, alive: set<string>): (r: seq<string>)
    ensures forall x :: x in r <==> x in names && x in alive
  {
    if names == [] then []
    else (if names[0] in alive then [names[0]] else []) + Running(names[1..], alive)
  }

  lemma RunningSnoc(names: seq<string>, i: nat, alive: set<string>)
    requires i < |names|
    ensures Running(names[..i + 1], alive) ==
            Running(names[..i], alive) + (if names[i] in alive then [names[i]] else [])
  {
    assert names[..i + 1] == names[..i] + [names[i]];
    RunningAppend(names[..i], [names[i]], alive);
  }

  lemma {:induction false} RunningAppend(a: seq<string>, b: seq<string>, alive: set<string>)
    ensures Running(a + b, alive) == Running(a, alive) + Running(b, alive)
    decreases |a|
  {
    if a == [] {
      assert a + b == b;
    } else {
      assert (a + b)[1..] == a[1..] + b;
      RunningAppend(a[1..], b, alive);
    }
  }
}
