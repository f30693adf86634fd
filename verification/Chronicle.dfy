/**
  The turns of the main loop as relations between snapshots of the tables, and whole runs as
  sequences of turns.
 */
module Chronicle {
  import opened Types
  import opened Trace
  import opened TimeSet
  import opened Invariants
  import opened Pruning
  import opened ProcessState
  import opened ReadOnlyFiles
  import opened FlowState
  import opened ControlFlows
  import opened Stream

  /** The snapshots of one turn after each of its stages, with the index of the data flows after the
      scan and in the end, the processes whose flow was due, the entries taken from the deletion
      queue, and the data flows ended by the event. */
  datatype Turn = Turn(swept: seq<Entry<FlowId>>, scanned: World, order: seq<OID>, counted: World,
                       taken: seq<OIDObj>, drained: World, rotated: World, after: World, index: seq<Entry<FlowId>>,
                       ended: seq<FlowId>)

  /** The collector between two turns: its tables, the index of its data flows, the times of the last
      scan, of the start of the trace file and of the last round of deletions, and the last time
      stamp. */
  datatype Moment = Moment(cfg: Config, rank: OID -> nat, tidy: bool, w: World, index: seq<Entry<FlowId>>, last: int,
                           start: int, delTime: int, stamp: int)

  /** The scan of the data flows. */
  ghost predicate ScanTurn(cfg: Config, x: World, index: seq<Entry<FlowId>>, y: World, swept: seq<Entry<FlowId>>,
                           last: int, now: int, nowNs: int)
  {
    && Kept(x.procs, y.procs, {}) && y.queue == x.queue && y.pfSet == x.pfSet && Continues(x.log, y.log)
    && Told(x.procs, x.log, y.procs, y.log)
    && if last != 0 && now - last >= 1
       then && Indexed(index, x.flows) && (forall e :: e in index ==> e.id in x.flows)
            && y.flows == FullScan(x.flows, now, nowNs) && Homed(y.procs, y.flows, {})
            && TrailOf(y) == Then(TrailBy(x, y), cfg.readMode, Exported(index, x.flows, now, nowNs))
            && swept == Staying(index, x.flows, now) + Renewals(index, x.flows, now)
       else y == x && swept == index
  }

  /** The scan of the process flows. */
  ghost predicate CountTurn(x: World, order: seq<OID>, y: World, last: int, now: int, nowNs: int) {
    && y.flows == x.flows && y.queue == x.queue && y.hushed == x.hushed && Continues(x.log, y.log)
    && SameTables(x.procs, y.procs) && BornOf(x.procs, y.procs, {}) && Told(x.procs, x.log, y.procs, y.log)
    && NoDup(order) && (forall o :: o in order ==> o in x.procs && x.procs[o].pfo.Some?)
    && Behaviors(y.log) == Behaviors(x.log) + ProcOffers(x.procs, order, now, nowNs)
    && if last == 0 || now - last < 1 then order == [] && y.procs == x.procs && y.pfSet == x.pfSet
       else && PfIndexed(x.pfSet, x.procs) && order == DueOrder(x.pfSet, now) && |order| <= |x.pfSet|
            && y.pfSet == x.pfSet[|order|..] + PfRenewals(x.procs, order, now)
            && y.procs.Keys == x.procs.Keys && (forall o :: o in order <==> o in PfDue(x.procs, now))
            && (forall o :: o in y.procs ==> y.procs[o].pfo == ProcScan(x.procs[o].pfo, now, nowNs))
  }

  /** Deferred deletion, when the last round is more than a second old: the entries `taken` leave the
      queue and their processes the table. */
  ghost predicate DrainTurn(x: World, y: World, taken: seq<OIDObj>, delTime: int, now: int) {
    && y.flows == x.flows && y.log == x.log && y.hushed == x.hushed
    && DrainedTo(x.queue, x.procs, y.queue, y.procs, now)
    && y.procs.Keys == x.procs.Keys - Oids(taken) && (taken == [] ==> y.procs == x.procs)
    && y.pfSet == Without(x.pfSet, Oids(taken))
    && if now - delTime > 1 then Passes(x.queue, y.queue, taken, now) else y.queue == x.queue && taken == []
  }

  predicate Rotates(cfg: Config, reset: bool, start: int, now: int) {
    (start > 0 && now - start >= cfg.rotateInterval) || reset
  }

  /** Rotation: a header, and what is left of the processes. */
  ghost predicate RotateTurn(x: World, y: World, rank: OID -> nat, tidy: bool) {
    && y.log == x.log + [HeaderRec] && y.flows == x.flows && y.queue == x.queue && y.hushed == x.hushed
    && y.pfSet == x.pfSet && Thinned(x.procs, y.procs, {}) && CachesCleared(x, y)
    && (Kin(x.procs) || tidy ==>
          Ranked(x.procs, rank) && y.procs == Pruned(x.procs, rank) && PrunedTo(x.procs, y.procs))
  }

  /** What a handler does: a data event its deed, a process event what its operation asks for; no
      process goes, new ones are those looked up, and no process flow changes but the one counted. */
  ghost predicate HandledBy(cfg: Config, ev: Event, x: World, y: World, now: int, nowNs: int, ended: seq<FlowId>) {
    Continues(x.log, y.log) &&
    match ev.call
    case DataCall(op, _, _, _, _, _) =>
      && y.queue == x.queue && y.pfSet == x.pfSet
      && Kept(x.procs, y.procs, if LooksUp(cfg, ev) then Born(x.procs, ev.task) else {})
      && Sought(LooksUp(cfg, ev), ev, Reup, x, y, false)
      && Did(DeedOf(cfg, ev, now), x, y, ev, op, cfg.readMode, now, ended)
    case ProcCall(op, _) =>
      && BornOf(x.procs, y.procs, if Supported(op) then Born(x.procs, ev.task) else {})
      && Sought(Supported(op), ev, StateFor(cfg, ev), x, y, Retold(x.procs, ev))
      && ProcDid(cfg, x, y, ev, now, nowNs, ended) && y.pfSet == PfIndexAfter(cfg, ev, x.pfSet, x.procs, now)
    case OtherCall => y == x
  }

  /** The handler, for an event that is handled. */
  ghost predicate HandleTurn(cfg: Config, input: Input, x: World, y: World, ended: seq<FlowId>)
    requires !input.Filtered?
  {
    if Handled(cfg, input) then HandledBy(cfg, input.ev, x, y, input.now, input.nowNs, ended) else y == x
  }

  /** Everything before the handler. */
  ghost predicate Ticked(m: Moment, input: Input, t: Turn)
    requires !input.Filtered?
  {
    && ScanTurn(m.cfg, m.w, m.index, t.scanned, t.swept, m.last, input.now, input.nowNs)
    && CountTurn(t.scanned, t.order, t.counted, m.last, input.now, input.nowNs)
    && DrainTurn(t.counted, t.drained, t.taken, m.delTime, input.now)
    && (if Rotates(m.cfg, input.reset, m.start, input.now) then RotateTurn(t.drained, t.rotated, m.rank, m.tidy)
        else t.rotated == t.drained)
  }

  /** One turn of the main loop. */
  ghost predicate Turned(m: Moment, input: Input, t: Turn) {
    if input.Filtered? then t.after == m.w
    else && Ticked(m, input, t) && HandleTurn(m.cfg, input, t.rotated, t.after, t.ended)
         && Reindexed(t.rotated.flows, t.swept, t.after.flows, t.index)
  }

  /** The collector after a turn. */
  ghost function After(m: Moment, input: Input, t: Turn): Moment {
    if input.Filtered? then m
    else m.(w := t.after, index := t.index, last := input.now, stamp := input.nowNs,
            start := if Rotates(m.cfg, input.reset, m.start, input.now) then input.now else m.start,
            delTime := if input.now - m.delTime > 1 then input.now else m.delTime)
  }

  /** The collector after a whole run. */
  ghost function Reached(m: Moment, inputs: seq<Input>, turns: seq<Turn>): Moment
    requires |inputs| == |turns|
  {
    if inputs == [] then m
    else
      var n := |inputs| - 1;
      After(Reached(m, inputs[..n], turns[..n]), inputs[n], turns[n])
  }

  /** The turns of a whole run, each from where the one before it ended. */
  ghost predicate Chronicled(m: Moment, inputs: seq<Input>, turns: seq<Turn>) {
    && |turns| == |inputs|
    && (inputs != [] ==>
          var n := |inputs| - 1;
          && Chronicled(m, inputs[..n], turns[..n])
          && Turned(Reached(m, inputs[..n], turns[..n]), inputs[n], turns[n]))
  }

  lemma ChronicleNext(m: Moment, inputs: seq<Input>, turns: seq<Turn>, i: Input, t: Turn)
    requires Chronicled(m, inputs, turns) && Turned(Reached(m, inputs, turns), i, t)
    ensures Chronicled(m, inputs + [i], turns + [t])
    ensures Reached(m, inputs + [i], turns + [t]) == After(Reached(m, inputs, turns), i, t)
  {
    hide Turned, After;
    assert (inputs + [i])[..|inputs|] == inputs && (turns + [t])[..|turns|] == turns;
  }

  /** The handler does not matter to what comes before it. */
  lemma TickedStill(m: Moment, input: Input, t: Turn, after: World, index: seq<Entry<FlowId>>, ended: seq<FlowId>)
    requires !input.Filtered? && Ticked(m, input, t)
    ensures Ticked(m, input, t.(after := after, index := index, ended := ended))
  {
    hide ScanTurn, CountTurn, DrainTurn, RotateTurn;
  }

  lemma ChronicleStart(m: Moment)
    ensures Chronicled(m, [], []) && Reached(m, [], []) == m
  {
  }

  /** A run changes neither the configuration nor the hypotheses. */
  lemma {:induction false} ReachedSame(m: Moment, inputs: seq<Input>, turns: seq<Turn>)
    requires |inputs| == |turns|
    ensures var r := Reached(m, inputs, turns); r.cfg == m.cfg && r.rank == m.rank && r.tidy == m.tidy
  {
    if inputs != [] { ReachedSame(m, inputs[..|inputs| - 1], turns[..|turns| - 1]); }
  }

  /** Nothing before the handler caches, queues or opens anything new. */
  lemma TickedIsNothingNew(m: Moment, input: Input, t: Turn)
    requires !input.Filtered? && Ticked(m, input, t)
    ensures NothingNew(m.w, t.rotated)
  {
    hide NothingNew;
    var now, nowNs := input.now, input.nowNs;
    ScanNew(m.cfg, m.w, m.index, t.scanned, t.swept, m.last, now, nowNs);
    CountNew(t.scanned, t.order, t.counted, m.last, now, nowNs);
    DrainNew(t.counted, t.drained, t.taken, m.delTime, now);
    NothingNewTrans(m.w, t.scanned, t.counted);
    NothingNewTrans(m.w, t.counted, t.drained);
    if Rotates(m.cfg, input.reset, m.start, now) {
      RotateNew(t.drained, t.rotated, m.rank, m.tidy);
      NothingNewTrans(m.w, t.drained, t.rotated);
    }
  }

  /** A lawful event finds the tables prepared for it. */
  lemma TickedIsReady(m: Moment, before: seq<Input>, delTime: int, input: Input, t: Turn)
    requires !input.Filtered? && Ticked(m, input, t)
    requires Recalled(m.cfg, before, delTime, m.w) && m.delTime == DelTime(before, delTime)
    ensures Ready(m.cfg, before, delTime, input.now, t.rotated)
  {
    TickedIsNothingNew(m, input, t);
    QueueDrains(m, input, t);
    ReadyAfter(m.cfg, before, delTime, input.now, m.w, t.rotated);
  }

  lemma QueueDrains(m: Moment, input: Input, t: Turn)
    requires !input.Filtered? && Ticked(m, input, t)
    ensures Drains(m.w.queue, t.rotated.queue, m.delTime, input.now)
  {
    hide Homed, Indexed, Behaviors, Then, Kept, BornOf, SameTables, PfIndexed, Passes, Thinned, Kin, Pruned, Ranked,
         DrainedTo, Declared, Segments, ProcOffers, FullScan, Exported, Staying, Renewals;
  }

  lemma ScanNew(cfg: Config, x: World, index: seq<Entry<FlowId>>, y: World, swept: seq<Entry<FlowId>>, last: int,
                now: int, nowNs: int)
    requires ScanTurn(cfg, x, index, y, swept, last, now, nowNs)
    ensures NothingNew(x, y)
  {
    hide Behaviors, Then, Exported, Indexed, Homed, Declared, Segments, Staying, Renewals;
  }

  lemma CountNew(x: World, order: seq<OID>, y: World, last: int, now: int, nowNs: int)
    requires CountTurn(x, order, y, last, now, nowNs)
    ensures NothingNew(x, y)
  {
    hide Behaviors, ProcOffers, SameTables, Declared, Segments, PfRenewals, DueOrder, PfIndexed;
  }

  lemma DrainNew(x: World, y: World, taken: seq<OIDObj>, delTime: int, now: int)
    requires DrainTurn(x, y, taken, delTime, now)
    ensures NothingNew(x, y)
  {
  }

  lemma RotateNew(x: World, y: World, rank: OID -> nat, tidy: bool)
    requires RotateTurn(x, y, rank, tidy)
    ensures NothingNew(x, y)
  {
    hide Pruned, Kin;
  }

  // ---------------------------------------------------- what is kept out of runs

  /** Data flows count no threads, and what is kept out is what the read mode suppresses. */
  ghost predicate Separate(mode: ReadMode, w: World) {
    && (forall id :: id in w.flows ==> SameThreads(w.flows[id].rec.cnt, ZERO))
    && (forall f :: f in w.hushed ==> SameThreads(f.rec.cnt, ZERO) && Suppressed(mode, f))
  }

  lemma {:induction false} WithheldsAre(mode: ReadMode, fs: seq<DataFlow>)
    ensures forall f :: f in Withhelds(mode, fs) ==> f in fs && Suppressed(mode, f)
  {
    if fs != [] { WithheldsAre(mode, fs[..|fs| - 1]); }
  }

  /** Offering flows without threads. */
  lemma SeparateThen(mode: ReadMode, x: World, y: World, fs: seq<DataFlow>)
    requires Separate(mode, x) && y.hushed == x.hushed + Withhelds(mode, fs)
    requires forall f :: f in fs ==> SameThreads(f.rec.cnt, ZERO)
    requires forall id :: id in y.flows ==> SameThreads(y.flows[id].rec.cnt, ZERO)
    ensures Separate(mode, y)
  {
    hide Suppressed;
    WithheldsAre(mode, fs);
  }

  lemma {:induction false} ExportedThreads(index: seq<Entry<FlowId>>, flows: FlowHeap, now: int, nowNs: int)
    requires forall e :: e in index ==> e.id in flows
    requires forall id :: id in flows ==> SameThreads(flows[id].rec.cnt, ZERO)
    ensures forall f :: f in Exported(index, flows, now, nowNs) ==> SameThreads(f.rec.cnt, ZERO)
  {
    if index != [] { ExportedThreads(index[..|index| - 1], flows, now, nowNs); }
  }

  lemma SeparateScan(cfg: Config, x: World, index: seq<Entry<FlowId>>, y: World, swept: seq<Entry<FlowId>>, last: int,
                     now: int, nowNs: int)
    requires Separate(cfg.readMode, x) && ScanTurn(cfg, x, index, y, swept, last, now, nowNs)
    ensures Separate(cfg.readMode, y)
  {
    hide Indexed, Behaviors, Exported, Withhelds, Offers, Separate, Homed, Declared, Segments, Staying, Renewals;
    if last != 0 && now - last >= 1 {
      SeparateMeans(cfg.readMode, x);
      ExportedThreads(index, x.flows, now, nowNs);
      SeparateThen(cfg.readMode, x, y, Exported(index, x.flows, now, nowNs));
    }
  }

  lemma SeparateMeans(mode: ReadMode, w: World)
    requires Separate(mode, w)
    ensures forall id :: id in w.flows ==> SameThreads(w.flows[id].rec.cnt, ZERO)
  {
  }

  lemma SeparateWork(mode: ReadMode, x: World, y: World, t: map<FlowKey, FlowId>, t': map<FlowKey, FlowId>,
                     f0: DataFlow, op: Op, ret: int, openFlags: int, ts: int, now: int, vec: seq<FlowId>)
    requires Separate(mode, x) && SameThreads(f0.rec.cnt, ZERO)
    requires Worked(t, x.flows, TrailBy(x, y), t', y.flows, TrailOf(y), f0, op, ret, openFlags, mode, ts, now, vec)
    ensures Separate(mode, y)
  {
    hide Behaviors, Withhelds, Offers, Separate, KeyOf;
    SeparateMeans(mode, x);
    var k := KeyOf(f0);
    var f := Updated(if k in t then x.flows[t[k]] else f0, op, ret, openFlags, now);
    if op.Close? {
      SeparateThen(mode, x, y, CutAll(x.flows, vec, ts) + [Ended(f, ts)]);
    } else {
      SeparateSame(mode, x, y);
    }
  }

  lemma SeparateSame(mode: ReadMode, x: World, y: World)
    requires Separate(mode, x) && y.hushed == x.hushed
    requires forall id :: id in y.flows ==> SameThreads(y.flows[id].rec.cnt, ZERO)
    ensures Separate(mode, y)
  {
  }

  lemma NewFlowThreads(cfg: Config, ev: Event, now: int)
    requires ev.call.DataCall?
    ensures var d := DeedOf(cfg, ev, now);
            && (d.Operate? ==> SameThreads(d.f0.rec.cnt, ZERO)) && (d.Emit? ==> SameThreads(d.f.rec.cnt, ZERO))
  {
  }

  lemma SeparateData(cfg: Config, ev: Event, x: World, y: World, now: int, ended: seq<FlowId>)
    requires Separate(cfg.readMode, x) && ev.call.DataCall?
    requires Did(DeedOf(cfg, ev, now), x, y, ev, ev.call.op, cfg.readMode, now, ended)
    ensures Separate(cfg.readMode, y)
  {
    hide Behaviors, Withhelds, Offers, Separate, Worked, OtherTables, DeedOf;
    SeparateMeans(cfg.readMode, x);
    NewFlowThreads(cfg, ev, now);
    match DeedOf(cfg, ev, now)
    case Emit(f) => SeparateThen(cfg.readMode, x, y, [f]);
    case Operate(f0, openFlags) =>
      var o := OidOf(ev.task);
      SeparateWork(cfg.readMode, x, y, TableOf(x.procs, o), TableOf(y.procs, o), f0, ev.call.op, ev.ret, openFlags,
                   ev.ts, now, ended);
    case _ => SeparateSame(cfg.readMode, x, y);
  }

  lemma SeparateProc(cfg: Config, ev: Event, x: World, y: World, now: int, nowNs: int, ended: seq<FlowId>)
    requires Separate(cfg.readMode, x) && ev.call.ProcCall? && ProcDid(cfg, x, y, ev, now, nowNs, ended)
    ensures Separate(cfg.readMode, y)
  {
    hide Behaviors, Withhelds, Offers, Separate, OtherTables, ExitDone, LastProcFlow, PfKeptBut, ThreadCounted,
         PfKept, SameTables, Related, Homed;
    SeparateMeans(cfg.readMode, x);
    if ev.call.op.Exit? && ProcRecord(cfg, ev).Some? {
      SeparateThen(cfg.readMode, x, y, CutAll(x.flows, ended, nowNs));
    } else {
      SeparateSame(cfg.readMode, x, y);
    }
  }

  lemma SeparateTurn(m: Moment, input: Input, t: Turn)
    requires Separate(m.cfg.readMode, m.w) && Turned(m, input, t)
    ensures Separate(m.cfg.readMode, t.after)
  {
    hide Separate, ScanTurn, Did, ProcDid, DeedOf, Behaviors, Kept, BornOf, Pruned, ProcOffers, SameTables, DrainedTo,
         PfIndexed, Passes, Kin, Declared, Segments, Reindexed;
    if !input.Filtered? {
      var mode := m.cfg.readMode;
      SeparateScan(m.cfg, m.w, m.index, t.scanned, t.swept, m.last, input.now, input.nowNs);
      SeparateMeans(mode, t.scanned);
      SeparateSame(mode, t.scanned, t.rotated);
      if Handled(m.cfg, input) {
        match input.ev.call
        case DataCall(_, _, _, _, _, _) => SeparateData(m.cfg, input.ev, t.rotated, t.after, input.now, t.ended);
        case ProcCall(_, _) => SeparateProc(m.cfg, input.ev, t.rotated, t.after, input.now, input.nowNs, t.ended);
        case OtherCall =>
      }
    }
  }

  /** Over whole runs, only what the read mode suppresses is kept out, and no thread count with it. */
  lemma {:induction false} HushedInRun(m: Moment, inputs: seq<Input>, turns: seq<Turn>)
    requires Chronicled(m, inputs, turns) && Separate(m.cfg.readMode, m.w)
    ensures Separate(m.cfg.readMode, Reached(m, inputs, turns).w)
  {
    hide Separate, Turned;
    if inputs != [] {
      var n := |inputs| - 1;
      HushedInRun(m, inputs[..n], turns[..n]);
      ReachedSame(m, inputs[..n], turns[..n]);
      SeparateTurn(Reached(m, inputs[..n], turns[..n]), inputs[n], turns[n]);
    }
  }

  lemma {:induction false} MutedThreads(fs: seq<DataFlow>)
    requires forall f :: f in fs ==> SameThreads(f.rec.cnt, ZERO)
    ensures SameThreads(Muted(fs), ZERO)
  {
    if fs != [] { MutedThreads(fs[..|fs| - 1]); }
  }

  /** With what is kept out accounted for, thread counts are exact in every read mode, and all
      counts are when reads are enabled. */
  lemma HushedColumns(mode: ReadMode, written: Tally, hushed: seq<DataFlow>, charges: Tally)
    requires forall f :: f in hushed ==> SameThreads(f.rec.cnt, ZERO) && Suppressed(mode, f)
    ensures Plus(written, Muted(hushed)) == charges ==>
      SameThreads(written, charges) && (mode.ReadsEnabled? ==> written == charges)
  {
    MutedThreads(hushed);
    assert hushed != [] ==> Suppressed(mode, hushed[0]);
  }
}
