// The fluid examples' driver: command-line booleans, the gym environment
// id, and the main loop that lets the fluid bridge hold the rigid-body
// simulation back. The environment, the renderer and the bridge are host
// calls: what the bridge's `step()` did on each pass is a parameter, and
// the environment's steps and renders are a ghost trace.

module SimLoop {
  import opened Core
  import opened Strings

  // ---------------------------------------------------------------------
  // `str_to_bool`

  /** An argparse value: already a boolean, or the text typed. */
  datatype Arg = BoolArg(b: bool) | TextArg(s: string)

  predicate TrueWord(w: string)
  {
    w == "yes" || w == "true" || w == "t" || w == "y" || w == "1"
  }

  predicate FalseWord(w: string)
  {
    w == "no" || w == "false" || w == "f" || w == "n" || w == "0"
  }

  /** `str_to_bool`: `Raised` (ArgumentTypeError) for any other text. */
  function StrToBool(v: Arg): (r: Outcome<bool>)
    ensures v.BoolArg? ==> r == Returned(v.b)
    ensures v.TextArg? ==> (r == Returned(true) <==> TrueWord(Lower(v.s)))
    ensures v.TextArg? ==> (r == Returned(false) <==> FalseWord(Lower(v.s)))
  {
    match v
    case BoolArg(b) => Returned(b)
    case TextArg(s) =>
      var w := Lower(s);
      if TrueWord(w) then Returned(true)
      else if FalseWord(w) then Returned(false)
      else Raised
  }

  lemma LowerIdempotent(s: string)
    ensures Lower(Lower(s)) == Lower(s)
  {
  }

  /** The spelling's case does not matter: a text and its lower-case form
      convert alike. */
  lemma StrToBoolIgnoresCase(s: string)
    ensures StrToBool(TextArg(s)) == StrToBool(TextArg(Lower(s)))
  {
    LowerIdempotent(s);
  }

  // ---------------------------------------------------------------------
  // `register_env`

  /** The gym id: `<env>-OrcaGym-<address with ':' as '-'>-<index:03d>`. */
  function EnvId(address: string, envName: string, index: int): string
  {
    envName + "-OrcaGym-" + ReplaceAll(address, ":", "-") + "-" + Format03(index)
  }

  /** Replacing one character by another changes exactly those characters. */
  lemma {:induction false} ReplaceChar(s: string, c: char, d: char)
    ensures |ReplaceAll(s, [c], [d])| == |s|
    ensures forall i :: 0 <= i < |s| ==> ReplaceAll(s, [c], [d])[i] == if s[i] == c then d else s[i]
    decreases |s|
  {
    if |s| > 0 {
      ReplaceChar(s[1..], c, d);
      assert s[..1] == [c] <==> s[0] == c;
    }
  }

  /** The address part of the id has no colon left. */
  lemma HostHasNoColon(address: string)
    ensures |ReplaceAll(address, ":", "-")| == |address|
    ensures ':' !in ReplaceAll(address, ":", "-")
  {
    ReplaceChar(address, ':', '-');
  }

  /** The id ends with the environment index, which reads back. */
  lemma EnvIdIndex(address: string, envName: string, index: nat)
    ensures TrailingNumber(EnvId(address, envName, index)) == Some(index)
  {
    var pre := envName + "-OrcaGym-" + ReplaceAll(address, ":", "-") + "-";
    assert pre[|pre| - 1] == '-';
    assert EnvId(address, envName, index) == pre + Format03(index);
    NumberAfterSeparator(pre, index);
  }

  lemma NumberAfterSeparator(pre: string, n: nat)
    requires |pre| > 0 && !IsDigit(pre[|pre| - 1])
    ensures TrailingNumber(pre + Format03(n)) == Some(n)
  {
    var s := pre + Format03(n);
    Format03RoundTrip(n);
    TrailingDigitsOfJoin(pre, Format03(n));
    assert s[|s| - |Format03(n)|..] == Format03(n);
  }

  // ---------------------------------------------------------------------
  // The main loop

  /** What one pass of the loop does to the rigid-body environment. */
  datatype Event = EnvStep | Render

  /** `should_step`: the bridge's answer when it was asked and answered,
      otherwise true (not asked, or it raised). */
  function ShouldStep(enabled: bool, hasWrapper: bool, sync: Outcome<bool>): bool
  {
    if enabled && hasWrapper && sync.Returned? then sync.value else true
  }

  /** Whether fluid coupling stays enabled after a pass: a raise from the
      bridge disables it for good. */
  function StillEnabled(enabled: bool, hasWrapper: bool, sync: Outcome<bool>): bool
  {
    enabled && !(hasWrapper && sync.Raised?)
  }

  function PassEvents(step: bool): seq<Event>
  {
    if step then [EnvStep, Render] else [Render]
  }

  /** The events of a run of passes, given the bridge's answers. */
  function Trace(enabled: bool, hasWrapper: bool, syncs: seq<Outcome<bool>>): seq<Event>
  {
    if syncs == [] then []
    else
      var init := syncs[..|syncs| - 1];
      Trace(enabled, hasWrapper, init) +
      PassEvents(ShouldStep(FinalEnabled(enabled, hasWrapper, init), hasWrapper, syncs[|syncs| - 1]))
  }

  /** The coupling flag after a run of passes. */
  function FinalEnabled(enabled: bool, hasWrapper: bool, syncs: seq<Outcome<bool>>): bool
  {
    if syncs == [] then enabled
    else StillEnabled(FinalEnabled(enabled, hasWrapper, syncs[..|syncs| - 1]), hasWrapper, syncs[|syncs| - 1])
  }

  /** The connection attempted before the loop: a failed `connect()`
      disables fluid coupling. */
  function ConnectGate(enabled: bool, hasWrapper: bool, connected: bool): (r: bool)
    ensures r <==> enabled && (!hasWrapper || connected)
  {
    if enabled && hasWrapper && !connected then false else enabled
  }

  /** The driver's loop state: whether fluid coupling is on, whether a
      bridge exists, and the pass count. */
  class MainLoop {
    var enableSph: bool
    const hasWrapper: bool
    var stepCount: nat
    ghost var events: seq<Event>

    constructor (enabled: bool, hasWrapper: bool, connected: bool)
      ensures enableSph == ConnectGate(enabled, hasWrapper, connected)
      ensures this.hasWrapper == hasWrapper && stepCount == 0 && events == []
    {
      enableSph := ConnectGate(enabled, hasWrapper, connected);
      this.hasWrapper := hasWrapper;
      stepCount := 0;
      events := [];
    }

    /** One pass: ask the bridge when coupling is on, then step the
        environment unless the bridge said to wait, and render. */
    method Pass(sync: Outcome<bool>)
      modifies this
      ensures events == old(events) + PassEvents(ShouldStep(old(enableSph), hasWrapper, sync))
      ensures enableSph == StillEnabled(old(enableSph), hasWrapper, sync)
      ensures stepCount == old(stepCount) + 1
    {
      var shouldStep := true;
      if enableSph && hasWrapper {
        match sync
        case Returned(b) => shouldStep := b;
        case Raised => enableSph := false;
      }
      if shouldStep {
        events := events + [EnvStep, Render];
      } else {
        events := events + [Render];
      }
      stepCount := stepCount + 1;
    }

    /** A run of passes with the bridge's answers in order. */
    method Run(syncs: seq<Outcome<bool>>)
      modifies this
      ensures events == old(events) + Trace(old(enableSph), hasWrapper, syncs)
      ensures enableSph == FinalEnabled(old(enableSph), hasWrapper, syncs)
      ensures stepCount == old(stepCount) + |syncs|
    {
      ghost var e0 := enableSph;
      ghost var start := events;
      for i := 0 to |syncs|
        invariant events == start + Trace(e0, hasWrapper, syncs[..i])
        invariant enableSph == FinalEnabled(e0, hasWrapper, syncs[..i])
        invariant stepCount == old(stepCount) + i
      {
        assert syncs[..i + 1][..i] == syncs[..i];
        Pass(syncs[i]);
      }
      assert syncs[..|syncs|] == syncs;
    }
  }

  function Count(events: seq<Event>, x: Event): nat
  {
    if events == [] then 0 else Count(events[..|events| - 1], x) + (if events[|events| - 1] == x then 1 else 0)
  }

  lemma {:induction false} CountAppend(a: seq<Event>, b: seq<Event>, x: Event)
    ensures Count(a + b, x) == Count(a, x) + Count(b, x)
    decreases |b|
  {
    if b == [] {
      assert a + b == a;
    } else {
      assert (a + b)[..|a + b| - 1] == a + b[..|b| - 1];
      CountAppend(a, b[..|b| - 1], x);
    }
  }

  lemma PassCounts(step: bool)
    ensures Count(PassEvents(step), Render) == 1
    ensures Count(PassEvents(step), EnvStep) == if step then 1 else 0
  {
    assert [EnvStep, Render][..1] == [EnvStep];
    assert [EnvStep][..0] == [];
    assert [Render][..0] == [];
  }

  /** The display is refreshed on every pass, whether or not the
      environment stepped. */
  lemma {:induction false} RendersEveryPass(e: bool, w: bool, syncs: seq<Outcome<bool>>)
    ensures Count(Trace(e, w, syncs), Render) == |syncs|
    decreases |syncs|
  {
    if syncs != [] {
      var init := syncs[..|syncs| - 1];
      RendersEveryPass(e, w, init);
      var p := PassEvents(ShouldStep(FinalEnabled(e, w, init), w, syncs[|syncs| - 1]));
      CountAppend(Trace(e, w, init), p, Render);
      PassCounts(ShouldStep(FinalEnabled(e, w, init), w, syncs[|syncs| - 1]));
    }
  }

  /** The passes on which the bridge, asked while coupling was on,
      answered false. */
  function Holds(e: bool, w: bool, syncs: seq<Outcome<bool>>): nat
  {
    if syncs == [] then 0
    else
      var init := syncs[..|syncs| - 1];
      Holds(e, w, init) + (if FinalEnabled(e, w, init) && w && syncs[|syncs| - 1] == Returned(false) then 1 else 0)
  }

  /** The environment steps on every pass except those the bridge held. */
  lemma {:induction false} StepsUnlessHeld(e: bool, w: bool, syncs: seq<Outcome<bool>>)
    ensures Count(Trace(e, w, syncs), EnvStep) + Holds(e, w, syncs) == |syncs|
    decreases |syncs|
  {
    if syncs != [] {
      var init := syncs[..|syncs| - 1];
      StepsUnlessHeld(e, w, init);
      var p := PassEvents(ShouldStep(FinalEnabled(e, w, init), w, syncs[|syncs| - 1]));
      CountAppend(Trace(e, w, init), p, EnvStep);
      PassCounts(ShouldStep(FinalEnabled(e, w, init), w, syncs[|syncs| - 1]));
    }
  }

  /** With coupling off (or no bridge) the loop is a plain simulation: it
      steps on every pass and coupling stays as it was. */
  lemma {:induction false} UncoupledRun(e: bool, w: bool, syncs: seq<Outcome<bool>>)
    requires !e || !w
    ensures Holds(e, w, syncs) == 0
    ensures FinalEnabled(e, w, syncs) == e
    decreases |syncs|
  {
    if syncs != [] {
      UncoupledRun(e, w, syncs[..|syncs| - 1]);
    }
  }

  /** Once the bridge has raised, coupling is off for the rest of the run. */
  lemma {:induction false} RaiseDisablesForGood(e: bool, syncs: seq<Outcome<bool>>, i: nat)
    requires i < |syncs| && syncs[i].Raised?
    ensures !FinalEnabled(e, true, syncs)
    decreases |syncs|
  {
    if i < |syncs| - 1 {
      RaiseDisablesForGood(e, syncs[..|syncs| - 1], i);
    }
  }
}
