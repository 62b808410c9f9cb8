// The force-application module of the fluid coupling layer.  The host
// engine's force primitive is additive: every call adds a wrench to the
// site's (or body's) accumulator for the coming step.  To make the remote
// solver's latest forces *replace* the previous ones, the module keeps a
// ledger of what it applied last and cancels it (applies the negation)
// before applying a new batch.
//
// The host accumulators are ghost traces of the calls made; the wrench
// accumulated at a name is `SumAt(trace, name)`.

module ForceLedger {
  import opened Core

  /** One force sample from the remote: target id, force and, on the
      body-level path, an optional torque. */
  datatype ForceSample = ForceSample(objectId: string, force: Vec3, torque: Option<Vec3>)

  /** One additive host call: the wrench added at a site or body. */
  datatype Applied = Applied(target: string, w: Wrench)

  // ---------------------------------------------------------------------
  // Host accumulators

  function Contribution(c: Applied, name: string): Wrench
  {
    if c.target == name then c.w else ZeroWrench
  }

  /** The wrench the calls in `trace` have accumulated at `name`. */
  function SumAt(trace: seq<Applied>, name: string): Wrench
  {
    if trace == [] then ZeroWrench
    else AddW(SumAt(trace[..|trace| - 1], name), Contribution(trace[|trace| - 1], name))
  }

  lemma {:induction false} SumAtAppend(a: seq<Applied>, b: seq<Applied>, name: string)
    ensures SumAt(a + b, name) == AddW(SumAt(a, name), SumAt(b, name))
    decreases |b|
  {
    if b == [] {
      assert a + b == a;
    } else {
      var init := b[..|b| - 1];
      assert (a + b)[..|a + b| - 1] == a + init;
      SumAtAppend(a, init, name);
    }
  }

  /** Calls aimed at other names do not touch `name`'s accumulator. */
  lemma {:induction false} SumAtUntouched(trace: seq<Applied>, name: string)
    requires forall i :: 0 <= i < |trace| ==> trace[i].target != name
    ensures SumAt(trace, name) == ZeroWrench
    decreases |trace|
  {
    if trace != [] {
      SumAtUntouched(trace[..|trace| - 1], name);
    }
  }

  // ---------------------------------------------------------------------
  // The ledger: an insertion-ordered dictionary site -> last wrench

  datatype LedgerEntry = LedgerEntry(site: string, w: Wrench)

  function Sites(l: seq<LedgerEntry>): set<string>
  {
    if l == [] then {} else Sites(l[..|l| - 1]) + {l[|l| - 1].site}
  }

  /** No site is recorded twice, as in a dictionary. */
  predicate DistinctSites(l: seq<LedgerEntry>)
  {
    l == [] || (DistinctSites(l[..|l| - 1]) && l[|l| - 1].site !in Sites(l[..|l| - 1]))
  }

  /** Dictionary lookup. */
  function Lookup(l: seq<LedgerEntry>, s: string): (r: Option<Wrench>)
    ensures r.Some? <==> s in Sites(l)
  {
    if l == [] then None
    else if l[|l| - 1].site == s then Some(l[|l| - 1].w)
    else Lookup(l[..|l| - 1], s)
  }

  /** The wrench recorded for `s`, zero when none is. */
  function LedgerAt(l: seq<LedgerEntry>, s: string): Wrench
  {
    Lookup(l, s).GetOr(ZeroWrench)
  }

  /** Dictionary assignment `l[s] = w`: an existing key keeps its position,
      a new key goes last. */
  function Put(l: seq<LedgerEntry>, s: string, w: Wrench): (r: seq<LedgerEntry>)
    ensures Lookup(r, s) == Some(w)
    ensures forall t :: t != s ==> Lookup(r, t) == Lookup(l, t)
    ensures Sites(r) == Sites(l) + {s}
    ensures DistinctSites(l) ==> DistinctSites(r)
    ensures |r| == if s in Sites(l) then |l| else |l| + 1
  {
    if s !in Sites(l) then
      assert (l + [LedgerEntry(s, w)])[..|l|] == l;
      l + [LedgerEntry(s, w)]
    else
      var init, last := l[..|l| - 1], l[|l| - 1];
      if last.site == s then
        assert (init + [LedgerEntry(s, w)])[..|l| - 1] == init;
        init + [LedgerEntry(s, w)]
      else
        var r' := Put(init, s, w);
        assert (r' + [last])[..|r'|] == r';
        r' + [last]
  }

  // ---------------------------------------------------------------------
  // What a tick does, as specification functions

  /** The cancelling calls: each recorded wrench negated, in ledger order. */
  function CancelCalls(l: seq<LedgerEntry>): (r: seq<Applied>)
    ensures |r| == |l|
  {
    if l == [] then []
    else CancelCalls(l[..|l| - 1]) + [Applied(l[|l| - 1].site, NegW(l[|l| - 1].w))]
  }

  /** The site-level samples as host calls: the sample's force, zero torque. */
  function SiteWrench(f: ForceSample): Wrench
  {
    Wrench(f.force, Zero3)
  }

  function ApplyCalls(batch: seq<ForceSample>): (r: seq<Applied>)
    ensures |r| == |batch|
    ensures forall i :: 0 <= i < |batch| ==> r[i] == Applied(batch[i].objectId, SiteWrench(batch[i]))
  {
    if batch == [] then []
    else ApplyCalls(batch[..|batch| - 1]) + [Applied(batch[|batch| - 1].objectId, SiteWrench(batch[|batch| - 1]))]
  }

  /** The body-level samples as host calls: a missing torque is zero. */
  function BodyCalls(batch: seq<ForceSample>): (r: seq<Applied>)
    ensures |r| == |batch|
    ensures forall i :: 0 <= i < |batch| ==>
              r[i] == Applied(batch[i].objectId, Wrench(batch[i].force, batch[i].torque.GetOr(Zero3)))
  {
    if batch == [] then []
    else
      var f := batch[|batch| - 1];
      BodyCalls(batch[..|batch| - 1]) + [Applied(f.objectId, Wrench(f.force, f.torque.GetOr(Zero3)))]
  }

  /** The ledger the code builds: the last sample recorded per id. */
  function RecordLast(batch: seq<ForceSample>): seq<LedgerEntry>
  {
    if batch == [] then []
    else Put(RecordLast(batch[..|batch| - 1]), batch[|batch| - 1].objectId, SiteWrench(batch[|batch| - 1]))
  }

  /** The ledger the cancellation needs: the sum of the samples per id. */
  function RecordSum(batch: seq<ForceSample>): seq<LedgerEntry>
  {
    if batch == [] then []
    else
      var prev := RecordSum(batch[..|batch| - 1]);
      var f := batch[|batch| - 1];
      Put(prev, f.objectId, AddW(LedgerAt(prev, f.objectId), SiteWrench(f)))
  }

  /** The last sample in `batch` aimed at `t`, as the wrench applied. */
  function LastFor(batch: seq<ForceSample>, t: string): (r: Option<Wrench>)
    ensures r.None? <==> forall i :: 0 <= i < |batch| ==> batch[i].objectId != t
    ensures r.Some? ==> exists i :: 0 <= i < |batch| && batch[i].objectId == t && r.value == SiteWrench(batch[i])
  {
    if batch == [] then None
    else if batch[|batch| - 1].objectId == t then Some(SiteWrench(batch[|batch| - 1]))
    else LastFor(batch[..|batch| - 1], t)
  }

  predicate DistinctIds(batch: seq<ForceSample>)
  {
    forall i, j :: 0 <= i < j < |batch| ==> batch[i].objectId != batch[j].objectId
  }

  // ---------------------------------------------------------------------
  // Properties of the specification functions

  /** After a batch the code's ledger holds exactly the batch's ids, each
      with the force of its last sample and a zero torque. */
  lemma {:induction false} RecordLastIsLastSample(batch: seq<ForceSample>, t: string)
    ensures Lookup(RecordLast(batch), t) == LastFor(batch, t)
    ensures DistinctSites(RecordLast(batch))
    decreases |batch|
  {
    if batch != [] {
      RecordLastIsLastSample(batch[..|batch| - 1], t);
    }
  }

  /** The summing ledger records, per site, what the batch applied there. */
  lemma {:induction false} RecordSumIsBatchTotal(batch: seq<ForceSample>, t: string)
    ensures LedgerAt(RecordSum(batch), t) == SumAt(ApplyCalls(batch), t)
    ensures DistinctSites(RecordSum(batch))
    decreases |batch|
  {
    if batch != [] {
      var init, f := batch[..|batch| - 1], batch[|batch| - 1];
      RecordSumIsBatchTotal(init, t);
      var calls := ApplyCalls(batch);
      assert calls[..|batch| - 1] == ApplyCalls(init);
      assert calls[|batch| - 1] == Applied(f.objectId, SiteWrench(f));
      var prev := RecordSum(init);
      var total := SumAt(calls, t);
      assert total == AddW(SumAt(ApplyCalls(init), t), Contribution(Applied(f.objectId, SiteWrench(f)), t));
      if f.objectId == t {
        assert LedgerAt(RecordSum(batch), t) == AddW(LedgerAt(prev, t), SiteWrench(f));
      } else {
        assert LedgerAt(RecordSum(batch), t) == LedgerAt(prev, t);
        AddZero(LedgerAt(prev, t));
      }
    }
  }


  lemma CancelSnoc(l: seq<LedgerEntry>)
    requires l != []
    ensures CancelCalls(l) == CancelCalls(l[..|l| - 1]) + [Applied(l[|l| - 1].site, NegW(l[|l| - 1].w))]
  {
  }

  lemma SumSnoc(t: seq<Applied>, c: Applied, s: string)
    ensures SumAt(t + [c], s) == AddW(SumAt(t, s), Contribution(c, s))
  {
    assert (t + [c])[..|t|] == t;
  }

  lemma LedgerSnoc(init: seq<LedgerEntry>, e: LedgerEntry, s: string)
    requires DistinctSites(init + [e])
    ensures DistinctSites(init)
    ensures LedgerAt(init + [e], s) == if e.site == s then e.w else LedgerAt(init, s)
    ensures e.site == s ==> LedgerAt(init, s) == ZeroWrench
  {
    assert (init + [e])[..|init|] == init;
  }
  /** Cancelling a ledger with distinct sites removes exactly what it records. */
  lemma {:induction false} CancelRemovesLedger(l: seq<LedgerEntry>, s: string)
    requires DistinctSites(l)
    ensures SumAt(CancelCalls(l), s) == NegW(LedgerAt(l, s))
    decreases |l|
  {
    if l != [] {
      var init, e := l[..|l| - 1], l[|l| - 1];
      assert l == init + [e];
      LedgerSnoc(init, e, s);
      CancelRemovesLedger(init, s);
      CancelSnoc(l);
      SumSnoc(CancelCalls(init), Applied(e.site, NegW(e.w)), s);
      if e.site == s {
        NegZeroAdd(NegW(e.w));
      } else {
        AddZero(NegW(LedgerAt(init, s)));
      }
    }
  }

  /** A site absent from the batch gets nothing from it. */
  lemma AbsentSiteGetsNothing(batch: seq<ForceSample>, s: string)
    requires forall i :: 0 <= i < |batch| ==> batch[i].objectId != s
    ensures SumAt(ApplyCalls(batch), s) == ZeroWrench
  {
    SumAtUntouched(ApplyCalls(batch), s);
  }

  /** With distinct ids, the code's ledger and the summing ledger agree. */
  lemma {:induction false} DistinctIdsLedgersAgree(batch: seq<ForceSample>)
    requires DistinctIds(batch)
    ensures RecordLast(batch) == RecordSum(batch)
    decreases |batch|
  {
    if batch != [] {
      var init, f := batch[..|batch| - 1], batch[|batch| - 1];
      assert DistinctIds(init);
      DistinctIdsLedgersAgree(init);
      RecordLastIsLastSample(init, f.objectId);
      assert LastFor(init, f.objectId).None?;
      assert AddW(ZeroWrench, SiteWrench(f)) == SiteWrench(f);
    }
  }

  /** The net effect of one replacing tick.  If before the tick the
      module's contribution at every site equals its ledger, then after
      cancelling that ledger and applying `batch` the contribution at every
      site is exactly the batch's total there, which is also what the
      summing ledger records: the invariant is re-established, and a site
      absent from the batch is left with nothing. */
  lemma TickReplacesContribution(trace: seq<Applied>, l: seq<LedgerEntry>, batch: seq<ForceSample>, s: string)
    requires DistinctSites(l)
    requires forall t :: SumAt(trace, t) == LedgerAt(l, t)
    ensures SumAt(trace + CancelCalls(l) + ApplyCalls(batch), s) == SumAt(ApplyCalls(batch), s)
    ensures SumAt(trace + CancelCalls(l) + ApplyCalls(batch), s) == LedgerAt(RecordSum(batch), s)
  {
    SumAtAppend(trace + CancelCalls(l), ApplyCalls(batch), s);
    SumAtAppend(trace, CancelCalls(l), s);
    CancelRemovesLedger(l, s);
    RecordSumIsBatchTotal(batch, s);
    AddNegCancels(LedgerAt(l, s), SumAt(ApplyCalls(batch), s));
  }

  /** The duplicate-id discrepancy.  As written, two samples for one site
      in a tick are both applied but only the second is recorded, so the
      next tick cancels too little: after a second tick carrying `f3`, the
      site holds `f1 + f3` instead of `f3`, and `f1` stays on for good. */
  lemma DuplicateIdsLeaveResidual(id: string, f1: Vec3, f2: Vec3, f3: Vec3)
    ensures var b1 := [ForceSample(id, f1, None), ForceSample(id, f2, None)];
            var b2 := [ForceSample(id, f3, None)];
            SumAt(ApplyCalls(b1) + CancelCalls(RecordLast(b1)) + ApplyCalls(b2), id).force == Add3(f1, f3)
  {
    var b1 := [ForceSample(id, f1, None), ForceSample(id, f2, None)];
    var b2 := [ForceSample(id, f3, None)];
    var a1, a2, a3 := Applied(id, SiteWrench(b1[0])), Applied(id, SiteWrench(b1[1])), Applied(id, SiteWrench(b2[0]));
    assert b1[..1] == [b1[0]];
    assert ApplyCalls(b1) == [a1, a2];
    assert RecordLast(b1[..1]) == [LedgerEntry(id, SiteWrench(b1[0]))];
    assert RecordLast(b1) == Put([LedgerEntry(id, SiteWrench(b1[0]))], id, SiteWrench(b1[1]));
    assert [LedgerEntry(id, SiteWrench(b1[0]))][..0] == [];
    assert RecordLast(b1) == [LedgerEntry(id, SiteWrench(b1[1]))];
    var c := Applied(id, NegW(SiteWrench(b1[1])));
    assert CancelCalls(RecordLast(b1)) == [c];
    assert ApplyCalls(b2) == [a3];
    var trace := [a1, a2, c, a3];
    assert ApplyCalls(b1) + CancelCalls(RecordLast(b1)) + ApplyCalls(b2) == trace;
    SumSnoc([], a1, id);
    SumSnoc([a1], a2, id);
    SumSnoc([a1, a2], c, id);
    SumSnoc([a1, a2, c], a3, id);
    assert [a1] == [] + [a1] && [a1, a2] == [a1] + [a2] && [a1, a2, c] == [a1, a2] + [c] && trace == [a1, a2, c] + [a3];
  }

  /** With the summing ledger the same two ticks leave exactly `f3`. */
  lemma DuplicateIdsCorrected(id: string, f1: Vec3, f2: Vec3, f3: Vec3)
    ensures var b1 := [ForceSample(id, f1, None), ForceSample(id, f2, None)];
            var b2 := [ForceSample(id, f3, None)];
            SumAt(ApplyCalls(b1) + CancelCalls(RecordSum(b1)) + ApplyCalls(b2), id).force == f3
  {
    var b1 := [ForceSample(id, f1, None), ForceSample(id, f2, None)];
    var b2 := [ForceSample(id, f3, None)];
    RecordSumIsBatchTotalAll(b1);
    TickReplacesContribution(ApplyCalls(b1), RecordSum(b1), b2, id);
    var a3 := Applied(id, SiteWrench(b2[0]));
    assert ApplyCalls(b2) == [a3];
    assert SumAt([a3], id) == AddW(ZeroWrench, SiteWrench(b2[0]));
  }

  /** One iteration of the recording loops. */
  lemma ApplyStep(batch: seq<ForceSample>, i: nat)
    requires i < |batch|
    ensures ApplyCalls(batch[..i + 1]) == ApplyCalls(batch[..i]) + [Applied(batch[i].objectId, SiteWrench(batch[i]))]
  {
    assert batch[..i + 1][..i] == batch[..i];
  }

  lemma RecordLastStep(batch: seq<ForceSample>, i: nat)
    requires i < |batch|
    ensures RecordLast(batch[..i + 1]) == Put(RecordLast(batch[..i]), batch[i].objectId, SiteWrench(batch[i]))
  {
    assert batch[..i + 1][..i] == batch[..i];
  }

  lemma RecordSumStep(batch: seq<ForceSample>, i: nat)
    requires i < |batch|
    ensures RecordSum(batch[..i + 1])
         == Put(RecordSum(batch[..i]), batch[i].objectId,
                AddW(LedgerAt(RecordSum(batch[..i]), batch[i].objectId), SiteWrench(batch[i])))
  {
    assert batch[..i + 1][..i] == batch[..i];
  }

  // ---------------------------------------------------------------------
  // The module

  class ForceModule {
    /** The module was given both a remote client and an event loop. */
    const hasClient: bool
    /** The host environment offers the per-site force primitive. */
    const hasSiteApi: bool
    /** The host environment offers the per-body force primitive. */
    const hasBodyApi: bool

    /** What the module applied last, per site, in insertion order. */
    var ledger: seq<LedgerEntry>
    /** Host site-force calls made so far. */
    ghost var siteCalls: seq<Applied>
    /** Host body-force calls made so far. */
    ghost var bodyCalls: seq<Applied>

    /** The module's contribution at every site is what its ledger records. */
    ghost predicate Valid()
      reads this
    {
      DistinctSites(ledger)
      && (forall s :: SumAt(siteCalls, s) == LedgerAt(ledger, s))
      && (!hasSiteApi ==> ledger == [] && siteCalls == [])
    }

    constructor (hasClient: bool, hasSiteApi: bool, hasBodyApi: bool)
      ensures this.hasClient == hasClient && this.hasSiteApi == hasSiteApi && this.hasBodyApi == hasBodyApi
      ensures ledger == [] && siteCalls == [] && bodyCalls == []
      ensures Valid()
    {
      this.hasClient := hasClient;
      this.hasSiteApi := hasSiteApi;
      this.hasBodyApi := hasBodyApi;
      ledger := [];
      siteCalls := [];
      bodyCalls := [];
    }

    /** Whether a subscription result starts a replacing tick: a client is
        present and a non-empty batch arrived (`None` stands for both a
        `None` reply and a failed subscription). */
    predicate Fires(fetched: Option<seq<ForceSample>>)
    {
      hasClient && fetched.Some? && fetched.value != []
    }

    /** Applies the negation of every recorded wrench, in ledger order,
        when the host offers the site primitive. */
    method CancelRecorded()
      modifies this
      ensures siteCalls == old(siteCalls) + (if hasSiteApi then CancelCalls(ledger) else [])
      ensures ledger == old(ledger) && bodyCalls == old(bodyCalls)
    {
      var previous := ledger;
      for i := 0 to |previous|
        invariant siteCalls == old(siteCalls) + (if hasSiteApi then CancelCalls(previous[..i]) else [])
        invariant ledger == previous && bodyCalls == old(bodyCalls)
      {
        if hasSiteApi {
          assert previous[..i + 1][..i] == previous[..i];
          siteCalls := siteCalls + [Applied(previous[i].site, NegW(previous[i].w))];
        }
      }
      assert previous[..|previous|] == previous;
    }

    /** The site-level step as the code is written: cancel every recorded
        wrench, clear the ledger, then apply each sample and record it,
        a later sample for the same id overwriting the record. */
    method ApplySiteForcesAsWritten(fetched: Option<seq<ForceSample>>)
      modifies this
      ensures bodyCalls == old(bodyCalls)
      ensures !Fires(fetched) ==> ledger == old(ledger) && siteCalls == old(siteCalls)
      ensures Fires(fetched) && hasSiteApi ==>
                siteCalls == old(siteCalls) + CancelCalls(old(ledger)) + ApplyCalls(fetched.value)
                && ledger == RecordLast(fetched.value)
      ensures Fires(fetched) && !hasSiteApi ==> siteCalls == old(siteCalls) && ledger == []
      ensures old(Valid()) && (Fires(fetched) ==> DistinctIds(fetched.value)) ==> Valid()
    {
      if !hasClient || fetched.None? || fetched.value == [] {
        return;
      }
      var batch := fetched.value;
      var previous := ledger;
      ghost var before := siteCalls;
      ghost var wasValid := Valid();
      CancelRecorded();
      ledger := [];
      ApplyAndRecordLast(batch);
      if wasValid && DistinctIds(batch) && hasSiteApi {
        DistinctIdsLedgersAgree(batch);
        TickReplacesAll(before, previous, batch);
      }
    }

    /** The site-level step with the ledger recording the per-site total of
        the batch, so that the next tick cancels exactly what this one
        applied.  Keeps `Valid()`: after any tick that fires, the module's
        contribution at each site is the batch's total there. */
    method ApplySiteForces(fetched: Option<seq<ForceSample>>)
      requires Valid()
      modifies this
      ensures Valid()
      ensures bodyCalls == old(bodyCalls)
      ensures !Fires(fetched) ==> ledger == old(ledger) && siteCalls == old(siteCalls)
      ensures Fires(fetched) && hasSiteApi ==>
                siteCalls == old(siteCalls) + CancelCalls(old(ledger)) + ApplyCalls(fetched.value)
                && ledger == RecordSum(fetched.value)
                && (forall s :: SumAt(siteCalls, s) == SumAt(ApplyCalls(fetched.value), s))
      ensures Fires(fetched) && !hasSiteApi ==> siteCalls == old(siteCalls) && ledger == []
    {
      if !hasClient || fetched.None? || fetched.value == [] {
        return;
      }
      var batch := fetched.value;
      var previous := ledger;
      ghost var before := siteCalls;
      CancelRecorded();
      ledger := [];
      ApplyAndRecordSums(batch);
      if hasSiteApi {
        TickReplacesAll(before, previous, batch);
      }
    }

    /** Applies each sample and records it, a later sample for the same
        id overwriting the record, starting from an empty ledger. */
    method ApplyAndRecordLast(batch: seq<ForceSample>)
      requires ledger == []
      modifies this
      ensures siteCalls == old(siteCalls) + (if hasSiteApi then ApplyCalls(batch) else [])
      ensures ledger == (if hasSiteApi then RecordLast(batch) else [])
      ensures bodyCalls == old(bodyCalls)
    {
      if !hasSiteApi {
        return;
      }
      var led := [];
      ghost var applied := [];
      for i := 0 to |batch|
        invariant applied == ApplyCalls(batch[..i])
        invariant led == RecordLast(batch[..i])
        invariant unchanged(this)
      {
        var f := batch[i];
        ApplyStep(batch, i);
        RecordLastStep(batch, i);
        applied := applied + [Applied(f.objectId, SiteWrench(f))];
        led := Put(led, f.objectId, SiteWrench(f));
      }
      assert batch[..|batch|] == batch;
      ledger := led;
      siteCalls := siteCalls + applied;
    }

    /** Applies each sample and adds it to the site's recorded total,
        starting from an empty ledger. */
    method ApplyAndRecordSums(batch: seq<ForceSample>)
      requires ledger == []
      modifies this
      ensures siteCalls == old(siteCalls) + (if hasSiteApi then ApplyCalls(batch) else [])
      ensures ledger == (if hasSiteApi then RecordSum(batch) else [])
      ensures bodyCalls == old(bodyCalls)
    {
      if !hasSiteApi {
        return;
      }
      var led := [];
      ghost var applied := [];
      for i := 0 to |batch|
        invariant applied == ApplyCalls(batch[..i])
        invariant led == RecordSum(batch[..i])
        invariant unchanged(this)
      {
        var f := batch[i];
        ApplyStep(batch, i);
        RecordSumStep(batch, i);
        applied := applied + [Applied(f.objectId, SiteWrench(f))];
        led := Put(led, f.objectId, AddW(LedgerAt(led, f.objectId), SiteWrench(f)));
      }
      assert batch[..|batch|] == batch;
      ledger := led;
      siteCalls := siteCalls + applied;
    }

    /** The body-level step: one host call per sample, the torque defaulting
        to zero, no ledger.  Without the body primitive the first sample
        raises, the error is swallowed and nothing is applied. */
    method ApplyBodyForces(fetched: Option<seq<ForceSample>>)
      modifies this
      ensures ledger == old(ledger) && siteCalls == old(siteCalls)
      ensures bodyCalls == old(bodyCalls)
                + (if hasClient && hasBodyApi && fetched.Some? then BodyCalls(fetched.value) else [])
    {
      if !hasClient || fetched.None? || fetched.value == [] || !hasBodyApi {
        return;
      }
      var batch := fetched.value;
      ghost var before := bodyCalls;
      for i := 0 to |batch|
        invariant bodyCalls == before + BodyCalls(batch[..i])
        invariant ledger == old(ledger) && siteCalls == old(siteCalls)
      {
        var f := batch[i];
        assert batch[..i + 1][..i] == batch[..i];
        bodyCalls := bodyCalls + [Applied(f.objectId, Wrench(f.force, f.torque.GetOr(Zero3)))];
      }
      assert batch[..|batch|] == batch;
    }
  }

  lemma RecordSumIsBatchTotalAll(batch: seq<ForceSample>)
    ensures DistinctSites(RecordSum(batch))
    ensures forall t :: LedgerAt(RecordSum(batch), t) == SumAt(ApplyCalls(batch), t)
  {
    forall t ensures LedgerAt(RecordSum(batch), t) == SumAt(ApplyCalls(batch), t) {
      RecordSumIsBatchTotal(batch, t);
    }
    RecordSumIsBatchTotal(batch, "");
  }

  lemma TickReplacesAll(trace: seq<Applied>, l: seq<LedgerEntry>, batch: seq<ForceSample>)
    requires DistinctSites(l)
    requires forall t :: SumAt(trace, t) == LedgerAt(l, t)
    ensures DistinctSites(RecordSum(batch))
    ensures forall s :: SumAt(trace + CancelCalls(l) + ApplyCalls(batch), s) == LedgerAt(RecordSum(batch), s)
    ensures forall s :: SumAt(trace + CancelCalls(l) + ApplyCalls(batch), s) == SumAt(ApplyCalls(batch), s)
  {
    RecordSumIsBatchTotal(batch, "");
    forall s
      ensures SumAt(trace + CancelCalls(l) + ApplyCalls(batch), s) == LedgerAt(RecordSum(batch), s)
      ensures SumAt(trace + CancelCalls(l) + ApplyCalls(batch), s) == SumAt(ApplyCalls(batch), s)
    {
      TickReplacesContribution(trace, l, batch, s);
    }
  }
}
