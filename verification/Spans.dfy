/**
  The time spans of the records of one flow: over a whole run, each record starts where the one before
  it ended, and the first at the event that opened the flow.
 */
module Spans {
  import opened Types
  import opened Trace
  import opened TimeSet
  import opened Invariants
  import opened Pruning
  import opened ProcessState
  import opened ReadOnlyFiles
  import opened FlowState
  import opened Effects
  import opened ControlFlows
  import opened Stream
  import opened Chronicle

  // ------------------------------------------------------------------ one turn

  /** The turn comes to its scans. */
  predicate Scans(last: int, i: Input) { !i.Filtered? && last != 0 && i.now - last >= 1 }

  /** The scan of the turn writes the flow, if it has something to report, and starts it afresh. */
  ghost predicate Renews(m: Moment, i: Input, id: FlowId) {
    && Scans(m.last, i) && id in m.w.flows
    && i.now - m.w.flows[id].exportTime >= 30 && i.now - m.w.flows[id].lastUpdate < 60
  }

  /** The flow is live before and after the turn. */
  ghost predicate Lives(m: Moment, i: Input, t: Turn, id: FlowId) {
    id in m.w.flows && id in t.after.flows && (!i.Filtered? ==> id in t.rotated.flows)
  }

  /** The flow as the handler of the turn finds it, and as the turn leaves it. */
  lemma StartKept(m: Moment, i: Input, t: Turn, id: FlowId)
    requires Turned(m, i, t) && Lives(m, i, t, id)
    ensures var ts := if Renews(m, i, id) then i.nowNs else m.w.flows[id].rec.ts;
            t.after.flows[id].rec.ts == ts && (!i.Filtered? ==> t.rotated.flows[id].rec.ts == ts)
  {
    hide ScanTurn, CountTurn, DrainTurn, RotateTurn, HandleTurn, Reindexed;
    if !i.Filtered? {
      ScanFields(m, i, t);
      LaterStages(m, i, t);
      HandlerKeeps(m.cfg, i, t.rotated, t.after, t.ended, id);
    }
  }

  /** What the scan of a turn does to the flows, and what it writes. */
  lemma ScanFields(m: Moment, i: Input, t: Turn)
    requires !i.Filtered? && ScanTurn(m.cfg, m.w, m.index, t.scanned, t.swept, m.last, i.now, i.nowNs)
    ensures if Scans(m.last, i)
            then && Swept(m.w.flows, t.scanned.flows, i.now, i.nowNs)
                 && SweepWrote(m.cfg.readMode, m.index, m.w.flows, m.w.log, t.scanned.log, i.now, i.nowNs)
            else t.scanned.flows == m.w.flows
  {
    hide Behaviors, Then, Exported, Indexed, Homed, Declared, Segments, Staying, Renewals, FullScan, Kept, Swept,
         SweepWrote;
    if Scans(m.last, i) {
      ScanSweeps(m.w.flows, i.now, i.nowNs);
      ScanWrites(m.cfg.readMode, m.index, m.w, t.scanned, i.now, i.nowNs);
    }
  }

  lemma LaterStages(m: Moment, i: Input, t: Turn)
    requires !i.Filtered? && Ticked(m, i, t)
    ensures t.rotated.flows == t.scanned.flows
  {
    hide ScanTurn, Behaviors, SameTables, BornOf, PfIndexed, ProcOffers, DrainedTo, Passes, Thinned, Kin, Pruned,
         PrunedTo, Ranked, Declared, Segments, PfRenewals, DueOrder, Told;
  }

  lemma HandlerKeeps(cfg: Config, i: Input, x: World, y: World, ended: seq<FlowId>, id: FlowId)
    requires !i.Filtered? && HandleTurn(cfg, i, x, y, ended) && id in x.flows && id in y.flows
    ensures y.flows[id].rec.ts == x.flows[id].rec.ts
  {
    hide Did, ProcDid, DeedOf, Sought, Kept, BornOf, Behaviors, Declared, Segments, PfIndexAfter;
    if Handled(cfg, i) {
      match i.ev.call
      case DataCall(op, _, _, _, _, _) =>
        DidKeeps(DeedOf(cfg, i.ev, i.now), x, y, i.ev, op, cfg.readMode, i.now, ended, id);
      case ProcCall(_, _) =>
        ProcDidActs(cfg, x, y, i.ev, i.now, i.nowNs, ended);
        ProcKeeps(cfg, x, y, i.ev, i.now, i.nowNs, ended, id);
      case OtherCall =>
    }
  }

  lemma DidKeeps(deed: Deed, x: World, y: World, ev: Event, op: Op, mode: ReadMode, now: int, vec: seq<FlowId>,
                 id: FlowId)
    requires Did(deed, x, y, ev, op, mode, now, vec) && id in x.flows && id in y.flows
    ensures y.flows[id].rec.ts == x.flows[id].rec.ts
  {
    hide Behaviors, KeyOf, RelatedEntry, OpenersFirst, CutAll, Then, DataCharge;
  }

  lemma ProcKeeps(cfg: Config, x: World, y: World, ev: Event, now: int, nowNs: int, gone: seq<FlowId>, id: FlowId)
    requires ev.call.ProcCall? && ProcActed(cfg, x, y, ev, now, nowNs, gone) && id in x.flows && id in y.flows
    ensures y.flows[id].rec.ts == x.flows[id].rec.ts
  {
    hide Behaviors, ProcFlowsStay, Only, RecordsAt, EndsWithThread, Reporting, Busy, TableOf;
  }

  /** A flow that the event opens starts at the time of the event. */
  lemma StartsAtEvent(m: Moment, i: Input, t: Turn, id: FlowId)
    requires Turned(m, i, t) && !i.Filtered? && id !in t.rotated.flows && id in t.after.flows
    ensures Handled(m.cfg, i) && t.after.flows[id].rec.ts == i.ev.ts
  {
    hide Ticked, Did, ProcDid, DeedOf, Sought, Kept, BornOf, Behaviors, Declared, Segments, PfIndexAfter, Reindexed;
    match i.ev.call
    case DataCall(op, _, _, _, _, _) => OpenedThen(m.cfg, t.rotated, t.after, i.ev, i.now, t.ended, id);
    case ProcCall(_, _) =>
      ProcDidActs(m.cfg, t.rotated, t.after, i.ev, i.now, i.nowNs, t.ended);
      ProcOpensNone(m.cfg, t.rotated, t.after, i.ev, i.now, i.nowNs, t.ended, id);
    case OtherCall =>
  }

  lemma OpenedThen(cfg: Config, x: World, y: World, ev: Event, now: int, vec: seq<FlowId>, id: FlowId)
    requires ev.call.DataCall? && Did(DeedOf(cfg, ev, now), x, y, ev, ev.call.op, cfg.readMode, now, vec)
    requires id !in x.flows && id in y.flows
    ensures y.flows[id].rec.ts == ev.ts
  {
    hide Behaviors, KeyOf, RelatedEntry, OpenersFirst, CutAll, Then, DataCharge, DeedOf, Begun;
    OperatesIff(cfg, ev, now);
    var fd, d :| Through(cfg, ev, fd, d);
    ThroughOperates(cfg, ev, fd, d, now);
    BegunThen(ev, fd, d, now);
  }

  lemma BegunThen(ev: Event, fd: int, d: FdInfo, now: int)
    requires ev.call.DataCall? && (d.Ipv4? || d.Resource?)
    ensures Begun(ev, fd, d, now).rec.ts == ev.ts
  {
  }

  lemma ProcOpensNone(cfg: Config, x: World, y: World, ev: Event, now: int, nowNs: int, gone: seq<FlowId>, id: FlowId)
    requires ev.call.ProcCall? && ProcActed(cfg, x, y, ev, now, nowNs, gone)
    ensures id in y.flows ==> id in x.flows
  {
    hide Behaviors, ProcFlowsStay, Only, RecordsAt, EndsWithThread, Reporting, Busy, TableOf;
  }

  // ---------------------------------------------------------------- whole runs

  /** The collector before turn `k`. */
  ghost function At(m: Moment, inputs: seq<Input>, turns: seq<Turn>, k: nat): Moment
    requires k <= |inputs| == |turns|
  {
    Reached(m, inputs[..k], turns[..k])
  }

  /** Every turn of a run starts where the one before it ended. */
  lemma {:induction false} TurnAt(m: Moment, inputs: seq<Input>, turns: seq<Turn>, k: nat)
    requires Chronicled(m, inputs, turns) && k < |inputs|
    ensures Turned(At(m, inputs, turns, k), inputs[k], turns[k])
    ensures At(m, inputs, turns, k + 1) == After(At(m, inputs, turns, k), inputs[k], turns[k])
    decreases |inputs|
  {
    hide Turned, After;
    var n := |inputs| - 1;
    if k < n {
      TurnAt(m, inputs[..n], turns[..n], k);
      assert inputs[..n][..k] == inputs[..k] && turns[..n][..k] == turns[..k];
      assert inputs[..n][..k + 1] == inputs[..k + 1] && turns[..n][..k + 1] == turns[..k + 1];
    } else {
      assert inputs[..k + 1] == inputs && turns[..k + 1] == turns;
    }
  }

  lemma AfterFlows(m: Moment, i: Input, t: Turn)
    requires Turned(m, i, t)
    ensures After(m, i, t).w == t.after
  {
    hide Ticked, HandleTurn, Reindexed;
  }

  /** The records of a flow adjoin: once a scan has ended its record at turn `i`, the flow starts at the
      time of that scan until the next scan that ends its record. */
  lemma {:induction false} RecordsAdjoin(m: Moment, inputs: seq<Input>, turns: seq<Turn>, i: nat, j: nat, id: FlowId)
    requires |turns| == |inputs| && Chronicled(m, inputs, turns) && i < j <= |inputs| && !inputs[i].Filtered?
    requires forall k :: i <= k < j ==> Lives(At(m, inputs, turns, k), inputs[k], turns[k], id)
    requires forall k :: i <= k < j ==> (Renews(At(m, inputs, turns, k), inputs[k], id) <==> k == i)
    ensures id in At(m, inputs, turns, j).w.flows
    ensures At(m, inputs, turns, j).w.flows[id].rec.ts == inputs[i].nowNs
    decreases j
  {
    hide Turned, After, Lives, Renews, Reached, Chronicled;
    if i < j - 1 { RecordsAdjoin(m, inputs, turns, i, j - 1, id); }
    var k := j - 1;
    TurnAt(m, inputs, turns, k);
    AfterFlows(At(m, inputs, turns, k), inputs[k], turns[k]);
    LivesMeans(At(m, inputs, turns, k), inputs[k], turns[k], id);
    StartKept(At(m, inputs, turns, k), inputs[k], turns[k], id);
  }

  lemma LivesMeans(m: Moment, i: Input, t: Turn, id: FlowId)
    requires Lives(m, i, t, id)
    ensures id in m.w.flows && id in t.after.flows
  {
  }

  /** Until its first record ends, a flow starts at the event that opened it, at turn `i`. */
  lemma {:induction false} FirstRecordStarts(m: Moment, inputs: seq<Input>, turns: seq<Turn>, i: nat, j: nat,
                                             id: FlowId)
    requires |turns| == |inputs| && Chronicled(m, inputs, turns) && i < j <= |inputs|
    requires !inputs[i].Filtered? && id !in turns[i].rotated.flows && id in turns[i].after.flows
    requires forall k :: i < k < j ==>
      Lives(At(m, inputs, turns, k), inputs[k], turns[k], id) && !Renews(At(m, inputs, turns, k), inputs[k], id)
    ensures Handled(m.cfg, inputs[i]) && id in At(m, inputs, turns, j).w.flows
    ensures At(m, inputs, turns, j).w.flows[id].rec.ts == inputs[i].ev.ts
    decreases j
  {
    hide Turned, After, Lives, Renews, Reached, Chronicled;
    var k := j - 1;
    TurnAt(m, inputs, turns, k);
    AfterFlows(At(m, inputs, turns, k), inputs[k], turns[k]);
    if i < k {
      FirstRecordStarts(m, inputs, turns, i, k, id);
      LivesMeans(At(m, inputs, turns, k), inputs[k], turns[k], id);
      StartKept(At(m, inputs, turns, k), inputs[k], turns[k], id);
    } else {
      ReachedSame(m, inputs[..k], turns[..k]);
      StartsAtEvent(At(m, inputs, turns, k), inputs[k], turns[k], id);
    }
  }

  // --------------------------------------------------------- the process flows

  /** The process has a process flow. */
  ghost predicate Has(w: World, o: OID) { o in w.procs && w.procs[o].pfo.Some? }

  ghost predicate RenewsProc(m: Moment, i: Input, o: OID) {
    && Scans(m.last, i) && Has(m.w, o)
    && i.now - m.w.procs[o].pfo.value.exportTime >= 30 && i.now - m.w.procs[o].pfo.value.lastUpdate < 60
  }

  ghost predicate LivesProc(m: Moment, i: Input, t: Turn, o: OID)
    ensures LivesProc(m, i, t, o) ==> Has(m.w, o) && Has(t.after, o)
  {
    Has(m.w, o) && Has(t.after, o) && (!i.Filtered? ==> Has(t.rotated, o))
  }

  /** The process flow as the handler of the turn finds it, and as the turn leaves it. */
  lemma StartKeptProc(m: Moment, i: Input, t: Turn, o: OID)
    requires Turned(m, i, t) && LivesProc(m, i, t, o)
    ensures var ts := if RenewsProc(m, i, o) then i.nowNs else m.w.procs[o].pfo.value.ts;
            && t.after.procs[o].pfo.value.ts == ts
            && (!i.Filtered? ==> Has(t.rotated, o) && t.rotated.procs[o].pfo.value.ts == ts)
  {
    hide ScanTurn, CountTurn, DrainTurn, RotateTurn, HandleTurn, Reindexed;
    if !i.Filtered? {
      ProcStages(m, i, t, o);
      ProcHandlerKeeps(m.cfg, i, t.rotated, t.after, t.ended, o);
    }
  }

  /** What the scan of a turn does to the process flows, and what it writes. */
  lemma ProcScanFields(m: Moment, i: Input, t: Turn)
    requires !i.Filtered? && CountTurn(t.scanned, t.order, t.counted, m.last, i.now, i.nowNs)
    ensures if Scans(m.last, i)
            then && ProcSwept(t.scanned.procs, t.counted.procs, i.now, i.nowNs)
                 && ProcSweepWrote(t.scanned.procs, t.order, t.scanned.log, t.counted.log, i.now, i.nowNs)
            else t.counted.procs == t.scanned.procs
  {
    hide Behaviors, SameTables, BornOf, PfIndexed, ProcOffers, Declared, Segments, PfRenewals, DueOrder, ProcSwept,
         ProcSweepWrote, ProcScan;
    if Scans(m.last, i) {
      ProcScanMeans(t.scanned.procs, t.counted.procs, t.order, t.scanned.log, t.counted.log, i.now, i.nowNs);
    }
  }

  lemma ProcStages(m: Moment, i: Input, t: Turn, o: OID)
    requires !i.Filtered? && Ticked(m, i, t) && Has(m.w, o) && Has(t.rotated, o)
    ensures t.rotated.procs[o].pfo.value.ts == if RenewsProc(m, i, o) then i.nowNs else m.w.procs[o].pfo.value.ts
  {
    hide CountTurn, DrainTurn, RotateTurn, Behaviors, BornOf, Declared, Segments, Homed, Indexed, FullScan, Exported,
         Then, Staying, Renewals;
    ProcScanFields(m, i, t);
    DrainKeeps(t.counted, t.drained, t.taken, m.delTime, i.now, o);
    if Rotates(m.cfg, i.reset, m.start, i.now) { RotateKeeps(t.drained, t.rotated, m.rank, m.tidy, o); }
  }

  lemma DrainKeeps(x: World, y: World, taken: seq<OIDObj>, delTime: int, now: int, o: OID)
    requires DrainTurn(x, y, taken, delTime, now)
    ensures o in y.procs ==> o in x.procs && y.procs[o].pfo == x.procs[o].pfo
  {
  }

  lemma RotateKeeps(x: World, y: World, rank: OID -> nat, tidy: bool, o: OID)
    requires RotateTurn(x, y, rank, tidy)
    ensures o in y.procs ==> o in x.procs && y.procs[o].pfo == x.procs[o].pfo
  {
    hide Pruned, Kin;
  }

  lemma ProcHandlerKeeps(cfg: Config, i: Input, x: World, y: World, ended: seq<FlowId>, o: OID)
    requires !i.Filtered? && HandleTurn(cfg, i, x, y, ended) && Has(x, o) && Has(y, o)
    ensures y.procs[o].pfo.value.ts == x.procs[o].pfo.value.ts
  {
    hide Did, ProcDid, DeedOf, Sought, BornOf, Behaviors, Declared, Segments, PfIndexAfter;
    if Handled(cfg, i) {
      match i.ev.call
      case ProcCall(_, _) =>
        ProcDidActs(cfg, x, y, i.ev, i.now, i.nowNs, ended);
        CountKeeps(cfg, x, y, i.ev, i.now, i.nowNs, ended, o);
      case _ =>
    }
  }

  lemma CountKeeps(cfg: Config, x: World, y: World, ev: Event, now: int, nowNs: int, gone: seq<FlowId>, o: OID)
    requires ev.call.ProcCall? && ProcActed(cfg, x, y, ev, now, nowNs, gone) && Has(x, o) && Has(y, o)
    ensures y.procs[o].pfo.value.ts == x.procs[o].pfo.value.ts
  {
    hide Behaviors, FlowsStay, Only, RecordsAt, EndsWithThread, Reporting, Busy;
  }

  /** The records of a process flow adjoin in the same way. */
  lemma {:induction false} ProcRecordsAdjoin(m: Moment, inputs: seq<Input>, turns: seq<Turn>, i: nat, j: nat, o: OID)
    requires |turns| == |inputs| && Chronicled(m, inputs, turns) && i < j <= |inputs| && !inputs[i].Filtered?
    requires forall k :: i <= k < j ==> LivesProc(At(m, inputs, turns, k), inputs[k], turns[k], o)
    requires forall k :: i <= k < j ==> (RenewsProc(At(m, inputs, turns, k), inputs[k], o) <==> k == i)
    ensures Has(At(m, inputs, turns, j).w, o)
    ensures At(m, inputs, turns, j).w.procs[o].pfo.value.ts == inputs[i].nowNs
    decreases j
  {
    hide Turned, After, LivesProc, RenewsProc, Reached, Chronicled;
    if i < j - 1 { ProcRecordsAdjoin(m, inputs, turns, i, j - 1, o); }
    var k := j - 1;
    TurnAt(m, inputs, turns, k);
    AfterFlows(At(m, inputs, turns, k), inputs[k], turns[k]);
    StartKeptProc(At(m, inputs, turns, k), inputs[k], turns[k], o);
  }
}
