/**
  The collector: what one turn of the main loop does, the rotation of the trace, whole runs,
  and the life of a collector from its first header to its shutdown.
 */
module SysFlow {
  import opened Types
  import opened Trace
  import opened TimeSet
  import opened Ledger
  import opened Invariants
  import opened Caches
  import opened Pruning
  import opened ProcessState
  import opened Processes
  import opened Shutdown
  import opened ReadOnlyFiles
  import opened FlowState
  import opened Effects
  import opened DataFlows
  import opened ControlFlows
  import opened Stream
  import opened Chronicle
  import opened Sums

  // ---------------------------------------------------------------- the steps

  /** Time passes. */
  lemma Later(x: Flux, rank: OID -> nat, now: int, now': int)
    requires Coherent(x, rank, {}, now) && PfTimely(x.w.procs, now) && now <= now'
    ensures Coherent(x, rank, {}, now') && PfTimely(x.w.procs, now')
  {
    hide Consistent, Indexed;
  }

  /** Deferred deletion changes no counter and no live flow. */
  lemma AfterDeletion(ps: ProcessTable, qs: ProcessTable, lastCheck: int, now: int)
    requires Shrinks(ps, qs)
    ensures PfTimely(ps, now) ==> PfTimely(qs, now)
    ensures PfFresh(ps, lastCheck) ==> PfFresh(qs, lastCheck)
  {
  }

  /** When nothing queued has a process flow, no process flow is discarded by a deletion. */
  lemma NothingDiscarded(q: seq<OIDObj>, q': seq<OIDObj>, ps: ProcessTable, qs: ProcessTable, d: Tally, d': Tally)
    requires PfDoomed(q, ps) && Shrinks(ps, qs) && Plus(LiveProc(qs), d') == Plus(LiveProc(ps), d)
    requires forall o :: o in ps && o !in qs ==> exists e :: e in q && e.oid == o
    requires forall e :: e in q' ==> e in q
    ensures d' == d && PfDoomed(q', qs)
  {
    hide LiveProc;
    LiveProcSame(ps, qs);
  }

  lemma GrandMove(x: Flux, y: Flux, d: Tally, d': Tally, l: Tally)
    requires Total(y) == Total(x) && Plus(LiveProc(y.w.procs), d') == Plus(LiveProc(x.w.procs), d)
    ensures GrandTotal(y, d', l) == GrandTotal(x, d, l)
  {
    hide LiveProc, Total;
  }

  /** A new segment has begun and the tables have been cleared: nothing is marked written, and
      everything still in use is still cached. */
  lemma Rotated(x: Flux, y: Flux, rank: OID -> nat, now: int)
    requires Coherent(x, rank, {}, now) && Standing(y.w, rank, {})
    requires y.index == x.index && y.w.flows == x.w.flows
    requires forall o :: o in y.w.procs ==> !y.w.procs[o].written
    requires forall k :: k in y.w.files ==> !y.w.files[k].written
    ensures Coherent(y, rank, {}, now)
  {
  }

  lemma StandingOf(x: Flux, rank: OID -> nat, now: int)
    requires Coherent(x, rank, {}, now)
    ensures (x.w.tidy ==> Kin(x.w.procs)) && Closed(x.w.log)
    ensures Closed(x.w.log + [HeaderRec]) ==> Standing(x.w.(log := x.w.log + [HeaderRec]), rank, {})
  {
  }

  lemma NoProcFlows(x: Flux, rank: OID -> nat, now: int)
    requires Coherent(x, rank, {}, now)
    ensures x.w.pfSet == [] <==> forall o :: o in x.w.procs ==> x.w.procs[o].pfo.None?
  {
    PfIndexOf(x, rank, now);
    if x.w.pfSet != [] { InIds(x.w.pfSet, 0); }
  }

  lemma IndexOf(x: Flux, rank: OID -> nat, now: int)
    requires Coherent(x, rank, {}, now)
    ensures Indexed(x.index, x.w.flows)
  {
  }

  /** A scan gives no process a process flow. */
  lemma DoomedScan(queue: seq<OIDObj>, ps: ProcessTable, qs: ProcessTable, now: int, nowNs: int)
    requires PfDoomed(queue, ps)
    requires qs == ps || (qs.Keys == ps.Keys && forall o :: o in qs ==> qs[o].pfo == ProcScan(ps[o].pfo, now, nowNs))
    ensures PfDoomed(queue, qs)
  {
  }

  lemma AfterRotation(ps: ProcessTable, qs: ProcessTable, queue: seq<OIDObj>, lastCheck: int, now: int)
    requires Thinned(ps, qs, {})
    ensures PfTimely(ps, now) ==> PfTimely(qs, now)
    ensures PfFresh(ps, lastCheck) ==> PfFresh(qs, lastCheck)
    ensures PfDoomed(queue, ps) ==> PfDoomed(queue, qs)
  {
  }

  /** Containers and files nobody counts on are gone, the others are kept. */
  lemma ClearedKeeps(w: World, w': World, rank: OID -> nat)
    requires Standing(w, rank, {})
    requires w' == w.(containers := w'.containers, files := w'.files)
    requires forall c :: RefsOf(w'.containers, c) == RefsOf(w.containers, c)
    requires forall k :: k in w.files && w.files[k].refs > 0 ==> k in w'.files
    requires forall k :: k in w'.files ==> k in w.files && w'.files[k].refs == w.files[k].refs
    ensures Standing(w', rank, {})
  {
    hide Homed, PfIndexed, Closed, Honest;
    ContainerRefsSame(w.procs, w.procs, w.containers, w'.containers);
    FileRefsClear(w.files, w.flows, w'.files);
  }

  lemma RunStart(cfg: Config, inputs: seq<Input>, grand: Tally)
    ensures inputs[0..] == inputs && inputs[..0] == [] && forall d :: DelTime(inputs[..0], d) == d
    ensures Plus(grand, Charges(cfg, inputs[..0])) == grand
  {
    assert inputs[..0] == [];
  }

  /** One turn of a run: the charges. */
  lemma RunCharges(cfg: Config, inputs: seq<Input>, i: nat, grand: Tally)
    requires i < |inputs|
    ensures Plus(grand, Charges(cfg, inputs[..i + 1]))
            == Plus(Plus(grand, Charges(cfg, inputs[..i])), Charge(cfg, inputs[i]))
    ensures inputs[..i + 1] == inputs[..i] + [inputs[i]]
  {
    hide Plus, Charge;
    var s := inputs[..i + 1];
    assert s[..|s| - 1] == inputs[..i] && s[|s| - 1] == inputs[i];
    PlusLaws(grand, Charges(cfg, inputs[..i]), Charge(cfg, inputs[i]));
  }

  /** One turn of a run: the clock and the pace. */
  lemma RunNext(inputs: seq<Input>, i: nat, now: int, last: int)
    requires i < |inputs| && Clocked(inputs[i..], now)
    ensures if inputs[i].Filtered?
            then Clocked(inputs[i + 1..], now) && (Punctual(inputs[i..], last) ==> Punctual(inputs[i + 1..], last))
            else && now <= inputs[i].now && 0 < inputs[i].now && Clocked(inputs[i + 1..], inputs[i].now)
                 && (Punctual(inputs[i..], last) ==> && (last == 0 || inputs[i].now - last <= EXPORT_INTERVAL)
                                                     && Punctual(inputs[i + 1..], inputs[i].now))
  {
    var s := inputs[i..];
    assert s[0] == inputs[i] && s[1..] == inputs[i + 1..];
  }

  lemma HandledMeans(cfg: Config, past: seq<Input>, del0: int, input: Input, x: World, y: World, ended: seq<FlowId>)
    requires Handled(cfg, input) && Ready(cfg, past, del0, input.now, x)
    requires HandledBy(cfg, input.ev, x, y, input.now, input.nowNs, ended)
    ensures HandleTurn(cfg, input, x, y, ended) && Recalled(cfg, past + [input], del0, y)
  {
    hide Did, ProcDid, DeedOf, Recalled, Ready, BornOf, Born, LookedUp;
    match input.ev.call
    case DataCall(_, _, _, _, _, _) => DidRecalls(cfg, past, del0, input, x, y, ended);
    case ProcCall(_, _) => ProcDidRecalls(cfg, past, del0, input, x, y, ended);
    case OtherCall => RecalledIdle(cfg, past, del0, input, x);
  }

  lemma ProcessesInOrder(x: Flux, rank: OID -> nat, now: int)
    requires Coherent(x, rank, {}, now)
    ensures Consistent(x.w, rank, {})
  {
  }

  /** Nothing has been lost or discarded: what is not written is live, or kept out by the read mode. */
  lemma BookIsGrand(x: Flux)
    requires x.lost == ZERO
    ensures GrandTotal(x, ZERO, ZERO) == Plus(Book(x.w), Muted(x.w.hushed))
  {
    hide Plus, Live, LiveProc, Written, Behaviors, Muted;
    var a, b, c, m := Written(Behaviors(x.w.log)), Live(x.w.flows), LiveProc(x.w.procs), Muted(x.w.hushed);
    PlusLaws(ZERO, m, ZERO);
    PlusLaws(m, ZERO, ZERO);
    PlusLaws(ZERO, ZERO, ZERO);
    PlusLaws(c, ZERO, ZERO);
    PlusLaws(Plus(a, b), m, c);
    PlusLaws(Plus(a, b), c, m);
    PlusLaws(m, c, ZERO);
  }

  class SysFlowProcessor {
    const ctrlPrcr: ControlFlowProcessor
    const dfPrcr: DataFlowProcessor := ctrlPrcr.dfPrcr
    const processCxt: ProcessContext := ctrlPrcr.processCxt
    const fileCxt: FileContext := ctrlPrcr.fileCxt
    const containerCxt: ContainerContext := ctrlPrcr.containerCxt
    const writer: Writer := ctrlPrcr.writer
    const cxt: SysFlowContext := ctrlPrcr.cxt
    ghost const rank: OID -> nat := ctrlPrcr.rank

    constructor (ctrlPrcr: ControlFlowProcessor)
      ensures this.ctrlPrcr == ctrlPrcr
    {
      this.ctrlPrcr := ctrlPrcr;
    }

    /** The invariant of the main loop. */
    ghost predicate Valid()
      reads ctrlPrcr, dfPrcr, processCxt, fileCxt, containerCxt, writer, cxt
    {
      && ctrlPrcr.Valid() && ctrlPrcr.lastCheck == dfPrcr.lastCheck
      && PfDoomed(processCxt.delProcQue, processCxt.procs)
    }

    method SetClock(now: int, nowNs: int)
      requires Valid() && cxt.now <= now
      modifies cxt
      ensures Valid() && cxt.now == now && cxt.nowNs == nowNs
    {
      hide Coherent, PfTimely, PfFresh, Fresh, PfDoomed;
      Later(dfPrcr.State(), rank, cxt.now, now);
      cxt.now, cxt.nowNs := now, nowNs;
    }

    /** Both scans. */
    method CheckForExpiredRecords() returns (n: nat, ghost scanned: World, ghost order: seq<OID>)
      requires Valid() && cxt.now > 0
      modifies processCxt`procs, processCxt`flows, processCxt`pfSet, dfPrcr`dfSet, dfPrcr`lost, writer`hushed,
               dfPrcr`lastCheck,
               ctrlPrcr`pfLost, ctrlPrcr`lastCheck, containerCxt`containers, fileCxt`files, writer`log
      ensures Valid() && dfPrcr.lastCheck == cxt.now && Continues(old(writer.log), writer.log)
      ensures ScanTurn(cxt.cfg, old(processCxt.Snapshot()), old(dfPrcr.dfSet), scanned, dfPrcr.dfSet,
                       old(dfPrcr.lastCheck), cxt.now, cxt.nowNs)
      ensures CountTurn(scanned, order, processCxt.Snapshot(), old(dfPrcr.lastCheck), cxt.now, cxt.nowNs)
      ensures ctrlPrcr.Grand() == old(ctrlPrcr.Grand())
      ensures old(dfPrcr.lastCheck) == 0 || cxt.now - old(dfPrcr.lastCheck) <= EXPORT_INTERVAL ==>
        dfPrcr.lost == old(dfPrcr.lost) && ctrlPrcr.pfLost == old(ctrlPrcr.pfLost)
    {
      hide Coherent, PfTimely, PfFresh, Fresh, PfKept, Total, LiveProc, GrandTotal, Declared, Behaviors, PfDoomed,
           BornOf, SameTables, ScanTurn, CountTurn, Plus;
      ghost var last := dfPrcr.lastCheck;
      n := ScanDataFlows();
      scanned := processCxt.Snapshot();
      var m;
      m, order := ScanProcessFlows(last);
      n := n + m;
    }

    method ScanDataFlows() returns (n: nat)
      requires Valid() && cxt.now > 0
      modifies processCxt`procs, processCxt`flows, dfPrcr`dfSet, dfPrcr`lost, writer`hushed, dfPrcr`lastCheck,
               containerCxt`containers, fileCxt`files, writer`log
      ensures ctrlPrcr.Valid() && dfPrcr.lastCheck == cxt.now && Continues(old(writer.log), writer.log)
      ensures PfDoomed(processCxt.delProcQue, processCxt.procs)
      ensures ScanTurn(cxt.cfg, old(processCxt.Snapshot()), old(dfPrcr.dfSet), processCxt.Snapshot(), dfPrcr.dfSet,
                       old(dfPrcr.lastCheck), cxt.now, cxt.nowNs)
      ensures ctrlPrcr.Grand() == old(ctrlPrcr.Grand())
      ensures old(dfPrcr.lastCheck) == 0 || cxt.now - old(dfPrcr.lastCheck) <= EXPORT_INTERVAL ==>
        dfPrcr.lost == old(dfPrcr.lost)
    {
      hide Coherent, PfTimely, PfFresh, Fresh, PfKept, Total, LiveProc, GrandTotal, Declared, Behaviors, BornOf,
           PfDoomed, Indexed, FullScan, Exported, Offers, DueSet, Homed, Segments, Staying, Renewals, Told;
      ghost var x := dfPrcr.State();
      IndexOf(x, rank, cxt.now);
      n := dfPrcr.CheckForExpiredRecords();
      HomedOf(dfPrcr.State(), rank, cxt.now);
      PfKeptTimes(x.w.procs, processCxt.procs, ctrlPrcr.lastCheck, cxt.now);
      GrandUnchanged(x, dfPrcr.State(), processCxt.discarded, ctrlPrcr.pfLost);
      PfDoomedKept(processCxt.delProcQue, x.w.procs, processCxt.procs);
    }

    method ScanProcessFlows(ghost last: int) returns (n: nat, ghost order: seq<OID>)
      requires ctrlPrcr.Valid() && dfPrcr.lastCheck == cxt.now > 0 && PfDoomed(processCxt.delProcQue, processCxt.procs)
      requires last == ctrlPrcr.lastCheck
      modifies processCxt`procs, processCxt`pfSet, ctrlPrcr`pfLost, ctrlPrcr`lastCheck, containerCxt`containers,
               writer`log
      ensures Valid() && Continues(old(writer.log), writer.log)
      ensures CountTurn(old(processCxt.Snapshot()), order, processCxt.Snapshot(), last, cxt.now, cxt.nowNs)
      ensures ctrlPrcr.Grand() == old(ctrlPrcr.Grand())
      ensures last == 0 || cxt.now - last <= EXPORT_INTERVAL ==> ctrlPrcr.pfLost == old(ctrlPrcr.pfLost)
    {
      hide Coherent, PfTimely, PfFresh, Fresh, Declared, Behaviors, BornOf, SameTables, PfDoomed, GrandTotal,
           ProcOffers, PfDue, PfRenewals, DueOrder, PfIndexed, LiveProc, Segments, Told;
      ghost var ps := processCxt.procs;
      n, order := ctrlPrcr.CheckForExpiredRecords();
      DoomedScan(processCxt.delProcQue, ps, processCxt.procs, cxt.now, cxt.nowNs);
    }

    /** Deferred deletion of exited processes. */
    method CheckForDeletion() returns (ghost taken: seq<OIDObj>)
      requires Valid()
      modifies processCxt`procs, processCxt`pfSet, processCxt`discarded, processCxt`delProcQue, processCxt`delProcTime,
               containerCxt`containers
      ensures Valid() && ctrlPrcr.Grand() == old(ctrlPrcr.Grand()) && processCxt.discarded == old(processCxt.discarded)
      ensures DrainTurn(old(processCxt.Snapshot()), processCxt.Snapshot(), taken, old(processCxt.delProcTime), cxt.now)
      ensures processCxt.delProcTime
              == if cxt.now - old(processCxt.delProcTime) > 1 then cxt.now else old(processCxt.delProcTime)
    {
      hide Standing, FilesWritten, ProcsWritten, PfTimely, PfFresh, Fresh, Total, LiveProc, GrandTotal, Indexed,
           Timely, Plus;
      ghost var x := dfPrcr.State();
      ghost var d := processCxt.discarded;
      NoProcFlows(x, rank, cxt.now);
      taken := processCxt.CheckForDeletion();
      ghost var y := dfPrcr.State();
      NoProcFlows(y, rank, cxt.now);
      AfterDeletion(x.w.procs, y.w.procs, ctrlPrcr.lastCheck, cxt.now);
      TotalTables(x, y);
      GrandMove(x, y, d, processCxt.discarded, ctrlPrcr.pfLost);
      NothingDiscarded(x.w.queue, y.w.queue, x.w.procs, y.w.procs, d, processCxt.discarded);
    }

    /** Rotation.  The new segment starts with a header; nothing is lost from the tables but
        processes, files and containers nothing refers to. */
    method CheckAndRotateFile(reset: bool) returns (rotated: bool)
      requires Valid()
      modifies processCxt`procs, containerCxt`containers, fileCxt`files, writer`log, writer`start
      ensures Valid() && ctrlPrcr.Grand() == old(ctrlPrcr.Grand())
      ensures rotated == Rotates(cxt.cfg, reset, old(writer.start), cxt.now)
      ensures if rotated
              then RotateTurn(old(processCxt.Snapshot()), processCxt.Snapshot(), rank, processCxt.tidy)
              else processCxt.Snapshot() == old(processCxt.Snapshot()) && writer.start == old(writer.start)
      ensures if rotated
              then && writer.log == old(writer.log) + [HeaderRec] && writer.start == cxt.now
                   && Thinned(old(processCxt.procs), processCxt.procs, {})
                   && (Kin(old(processCxt.procs)) || processCxt.tidy ==>
                         && Ranked(old(processCxt.procs), rank)
                         && processCxt.procs == Pruned(old(processCxt.procs), rank)
                         && PrunedTo(old(processCxt.procs), processCxt.procs))
                   && CachesCleared(old(processCxt.Snapshot()), processCxt.Snapshot())
              else writer.log == old(writer.log) && processCxt.procs == old(processCxt.procs)
    {
      hide Coherent, PfTimely, PfFresh, Fresh, GrandTotal, PfDoomed, Thinned, Kin, Pruned, PrunedTo, Ranked,
           CachesCleared;
      rotated := writer.IsExpired(cxt.now) || reset;
      if rotated {
        Rotate();
      }
    }

    method Rotate()
      requires Valid()
      modifies processCxt`procs, containerCxt`containers, fileCxt`files, writer`log, writer`start
      ensures Valid() && ctrlPrcr.Grand() == old(ctrlPrcr.Grand())
      ensures writer.log == old(writer.log) + [HeaderRec] && writer.start == cxt.now
      ensures Thinned(old(processCxt.procs), processCxt.procs, {}) && Ranked(old(processCxt.procs), rank)
      ensures Kin(old(processCxt.procs)) || processCxt.tidy ==>
        processCxt.procs == Pruned(old(processCxt.procs), rank) && PrunedTo(old(processCxt.procs), processCxt.procs)
      ensures CachesCleared(old(processCxt.Snapshot()), processCxt.Snapshot())
    {
      hide Coherent, Standing, PfTimely, PfFresh, Fresh, Total, LiveProc, GrandTotal, Plus, PfDoomed, Thinned, Kin,
           Pruned, PrunedTo, Behaviors, Declared, Closed, Ranked, CachesCleared, FilesWritten, ProcsWritten;
      ghost var x := dfPrcr.State();
      StandingOf(x, rank, cxt.now);
      writer.Reset(cxt.now);
      ghost var m := processCxt.Snapshot();
      ClearTables();
      CachesClearedFrom(x.w, m, processCxt.Snapshot());
      ghost var y := dfPrcr.State();
      Rotated(x, y, rank, cxt.now);
      AfterRotation(x.w.procs, y.w.procs, x.w.queue, ctrlPrcr.lastCheck, cxt.now);
      TotalLog(x, y);
      GrandMove(x, y, processCxt.discarded, processCxt.discarded, ctrlPrcr.pfLost);
    }

    /** Drops what nothing refers to and marks the rest unwritten. */
    method ClearTables()
      requires Standing(processCxt.Snapshot(), rank, {})
      modifies processCxt`procs, containerCxt`containers, fileCxt`files
      ensures Standing(processCxt.Snapshot(), rank, {})
      ensures forall o :: o in processCxt.procs ==> !processCxt.procs[o].written
      ensures forall k :: k in fileCxt.files ==> !fileCxt.files[k].written
      ensures CachesCleared(old(processCxt.Snapshot()), processCxt.Snapshot())
      ensures Thinned(old(processCxt.procs), processCxt.procs, {})
      ensures LiveProc(processCxt.procs) == LiveProc(old(processCxt.procs))
      ensures Ranked(old(processCxt.procs), rank)
      ensures Kin(old(processCxt.procs)) ==>
        processCxt.procs == Pruned(old(processCxt.procs), rank) && PrunedTo(old(processCxt.procs), processCxt.procs)
    {
      hide LiveProc, Pruned, PrunedTo, Kin, Thinned, CachesCleared, Recounted;
      ghost var x := processCxt.Snapshot();
      processCxt.ClearProcesses();
      ghost var w := processCxt.Snapshot();
      containerCxt.ClearContainers();
      fileCxt.ClearFiles();
      ClearedKeeps(w, processCxt.Snapshot(), rank);
      CachesClear(x, w, processCxt.Snapshot());
    }

    /** The handler of one event. */
    method Handle(ev: Event) returns (ghost ended: seq<FlowId>)
      requires Valid() && dfPrcr.lastCheck > 0 && Hypotheses(cxt.cfg, processCxt.Snapshot(), ev, rank)
      modifies processCxt`procs, processCxt`flows, processCxt`nextId, processCxt`pfSet, processCxt`delProcQue,
               dfPrcr`dfSet, writer`hushed, fileCxt`files, containerCxt`containers, writer`log
      ensures Valid() && Continues(old(writer.log), writer.log)
      ensures HandledBy(cxt.cfg, ev, old(processCxt.Snapshot()), processCxt.Snapshot(), cxt.now, cxt.nowNs, ended)
      ensures Reindexed(old(processCxt.flows), old(dfPrcr.dfSet), processCxt.flows, dfPrcr.dfSet)
      ensures ctrlPrcr.Grand() == Plus(old(ctrlPrcr.Grand()), HandlerCharge(cxt.cfg, ev))
    {
      hide Coherent, PfTimely, PfFresh, Fresh, PfKept, BornOf, Born, Total, LiveProc, GrandTotal, Declared, Behaviors,
           Plus, PfDoomed, Did, ProcDid, DeedOf, ClosedFully, Climbable, EventCharge, ProcCharge, Reindexed, LookedUp,
           Acted, ProcActed, Marked, PfIndexAfter, StateFor, Recorded, Segments;
      ghost var x := dfPrcr.State();
      ReindexedSame(x.w.flows, x.w.flows, dfPrcr.dfSet);
      ended := [];
      match ev.call {
        case DataCall(_, _, _, _, _, _) =>
          var res;
          res, ended := dfPrcr.HandleDataEvent(ev);
          PfKeptTimes(x.w.procs, processCxt.procs, ctrlPrcr.lastCheck, cxt.now);
          GrandSame(x, dfPrcr.State(), EventCharge(cxt.cfg, ev), processCxt.discarded, ctrlPrcr.pfLost);
          PfDoomedKept(processCxt.delProcQue, x.w.procs, processCxt.procs);
        case ProcCall(_, _) =>
          ended := ctrlPrcr.HandleProcEvent(ev);
        case OtherCall =>
          PlusLaws(ctrlPrcr.Grand(), ZERO, ZERO);
      }
    }

    /** No counter expired unwritten or was discarded. */
    ghost predicate NothingMissing()
      reads dfPrcr, ctrlPrcr, processCxt
    {
      dfPrcr.lost == ZERO && ctrlPrcr.pfLost == ZERO && processCxt.discarded == ZERO
    }

    /** Shutdown: the live flows are flushed, and with them the last counters reach the trace. */
    method Stop() returns (ghost order: seq<Item>)
      requires Valid()
      modifies processCxt, fileCxt, containerCxt, writer
      ensures FlushedTo(old(processCxt.Snapshot()), writer.log, order, cxt.nowNs)
      ensures processCxt.procs == map[] && processCxt.flows == map[]
      ensures old(writer.log) <= writer.log && SelfContained(writer.log)
      ensures old(NothingMissing()) ==>
        Plus(Written(Behaviors(writer.log)), Muted(old(writer.hushed))) == old(ctrlPrcr.Grand())
    {
      hide Coherent, GrandTotal, Declared, Behaviors, Written, Plus, Book, Closed, FlushedTo;
      ghost var x := dfPrcr.State();
      if NothingMissing() { BookIsGrand(x); }
      ProcessesInOrder(x, rank, cxt.now);
      order := processCxt.ClearAllProcesses();
      ClosedIffSelfContained(writer.log);
    }

    /** What every turn of the loop does before it looks at the event. */
    method Tick(input: Input) returns (ghost t: Turn)
      requires Valid() && !input.Filtered? && cxt.now <= input.now && 0 < input.now
      modifies cxt, processCxt, dfPrcr, ctrlPrcr, containerCxt, fileCxt, writer
      ensures Valid() && cxt.now == input.now && old(writer.log) <= writer.log
      ensures Ticked(old(Now()), input, t) && t.rotated == processCxt.Snapshot()
      ensures t.swept == dfPrcr.dfSet && Now() == After(old(Now()), input, t.(after := t.rotated, index := t.swept))
      ensures ctrlPrcr.Grand() == old(ctrlPrcr.Grand()) && processCxt.discarded == old(processCxt.discarded)
      ensures old(dfPrcr.lastCheck) == 0 || input.now - old(dfPrcr.lastCheck) <= EXPORT_INTERVAL ==>
        dfPrcr.lost == old(dfPrcr.lost) && ctrlPrcr.pfLost == old(ctrlPrcr.pfLost)
    {
      hide Coherent, PfTimely, PfFresh, Fresh, GrandTotal, PfDoomed, Thinned, Kin, Pruned, PrunedTo, Ranked, Declared,
           ScanTurn, CountTurn, DrainTurn, RotateTurn, Rotates, Segments;
      ghost var scanned, order := ScanAt(input.now, input.nowNs);
      ghost var counted := processCxt.Snapshot();
      ghost var taken, drained := CleanUp(input.reset);
      ghost var w := processCxt.Snapshot();
      t := Turn(dfPrcr.dfSet, scanned, order, counted, taken, drained, w, w, dfPrcr.dfSet, []);
    }

    /** Both scans, at a new time. */
    method ScanAt(now: int, nowNs: int) returns (ghost scanned: World, ghost order: seq<OID>)
      requires Valid() && cxt.now <= now && 0 < now
      modifies cxt, processCxt`procs, processCxt`flows, processCxt`pfSet, dfPrcr`dfSet, dfPrcr`lost, dfPrcr`lastCheck,
               ctrlPrcr`pfLost, ctrlPrcr`lastCheck, containerCxt`containers, fileCxt`files, writer`hushed, writer`log
      ensures Valid() && cxt.now == now && cxt.nowNs == nowNs && dfPrcr.lastCheck == now
      ensures old(writer.log) <= writer.log
      ensures ScanTurn(cxt.cfg, old(processCxt.Snapshot()), old(dfPrcr.dfSet), scanned, dfPrcr.dfSet,
                       old(dfPrcr.lastCheck), now, nowNs)
      ensures CountTurn(scanned, order, processCxt.Snapshot(), old(dfPrcr.lastCheck), now, nowNs)
      ensures ctrlPrcr.Grand() == old(ctrlPrcr.Grand())
      ensures old(dfPrcr.lastCheck) == 0 || now - old(dfPrcr.lastCheck) <= EXPORT_INTERVAL ==>
        dfPrcr.lost == old(dfPrcr.lost) && ctrlPrcr.pfLost == old(ctrlPrcr.pfLost)
    {
      hide Coherent, PfTimely, PfFresh, Fresh, GrandTotal, PfDoomed, Declared, ScanTurn, CountTurn, Segments;
      SetClock(now, nowNs);
      var n;
      n, scanned, order := CheckForExpiredRecords();
    }

    /** Deferred deletion, then rotation if it is due. */
    method CleanUp(reset: bool) returns (ghost taken: seq<OIDObj>, ghost drained: World)
      requires Valid()
      modifies processCxt`procs, processCxt`pfSet, processCxt`discarded, processCxt`delProcQue, processCxt`delProcTime,
               containerCxt`containers, fileCxt`files, writer`log, writer`start
      ensures Valid() && old(writer.log) <= writer.log
      ensures DrainTurn(old(processCxt.Snapshot()), drained, taken, old(processCxt.delProcTime), cxt.now)
      ensures processCxt.delProcTime
              == if cxt.now - old(processCxt.delProcTime) > 1 then cxt.now else old(processCxt.delProcTime)
      ensures if Rotates(cxt.cfg, reset, old(writer.start), cxt.now)
              then RotateTurn(drained, processCxt.Snapshot(), rank, processCxt.tidy) && writer.start == cxt.now
              else processCxt.Snapshot() == drained && writer.start == old(writer.start)
      ensures ctrlPrcr.Grand() == old(ctrlPrcr.Grand()) && processCxt.discarded == old(processCxt.discarded)
    {
      hide Coherent, PfTimely, PfFresh, Fresh, GrandTotal, PfDoomed, Thinned, Kin, Pruned, PrunedTo, Ranked, Declared,
           DrainTurn, RotateTurn, Rotates;
      taken := CheckForDeletion();
      drained := processCxt.Snapshot();
      var rotated := CheckAndRotateFile(reset);
    }

    /** What one turn has done to the books since they stood at `grand`, with the last scan at `last`. */
    ghost predicate Booked(input: Input, last: int, grand: Tally, discarded: Tally, lost: Tally, pfLost: Tally)
      reads dfPrcr, ctrlPrcr, processCxt, fileCxt, containerCxt, writer
    {
      && ctrlPrcr.Grand() == Plus(grand, Charge(cxt.cfg, input)) && processCxt.discarded == discarded
      && (input.Filtered? || last == 0 || input.now - last <= EXPORT_INTERVAL ==>
            dfPrcr.lost == lost && ctrlPrcr.pfLost == pfLost)
    }

    /** One turn of the loop. */
    method Step(input: Input, ghost past: seq<Input>, ghost del0: int) returns (ghost t: Turn)
      requires Valid() && Recalled(cxt.cfg, past, del0, processCxt.Snapshot())
      requires processCxt.delProcTime == DelTime(past, del0)
      requires !input.Filtered? ==> cxt.now <= input.now && 0 < input.now
      requires Handled(cxt.cfg, input) ==> Proper(cxt.cfg, past, del0, input, rank, processCxt.tidy)
      modifies cxt, processCxt, dfPrcr, ctrlPrcr, containerCxt, fileCxt, writer
      ensures Valid() && Recalled(cxt.cfg, past + [input], del0, processCxt.Snapshot()) && old(writer.log) <= writer.log
      ensures cxt.now == if input.Filtered? then old(cxt.now) else input.now
      ensures Turned(old(Now()), input, t) && Now() == After(old(Now()), input, t)
      ensures Booked(input, old(dfPrcr.lastCheck), old(ctrlPrcr.Grand()), old(processCxt.discarded),
                     old(dfPrcr.lost), old(ctrlPrcr.pfLost))
    {
      hide Coherent, PfTimely, PfFresh, Fresh, GrandTotal, PfDoomed, Declared, Plus, Recalled, Ready, Proper,
           HandlerCharge, Ticked, HandleTurn, Rotates, Reindexed;
      if input.Filtered? {
        ghost var x := processCxt.Snapshot();
        PlusLaws(ctrlPrcr.Grand(), ZERO, ZERO);
        RecalledFiltered(cxt.cfg, past, del0, x);
        t := Turn(dfPrcr.dfSet, x, [], x, [], x, x, x, dfPrcr.dfSet, []);
      } else {
        t := TickOn(input, past, del0);
        ghost var ended := HandleInput(input, past, del0);
        TickedStill(old(Now()), input, t, processCxt.Snapshot(), dfPrcr.dfSet, ended);
        t := t.(after := processCxt.Snapshot(), index := dfPrcr.dfSet, ended := ended);
      }
    }

    /** The part of a turn before its event brings nothing new to the tables. */
    method TickOn(input: Input, ghost past: seq<Input>, ghost del0: int) returns (ghost t: Turn)
      requires Valid() && !input.Filtered? && cxt.now <= input.now && 0 < input.now
      requires Recalled(cxt.cfg, past, del0, processCxt.Snapshot()) && processCxt.delProcTime == DelTime(past, del0)
      modifies cxt, processCxt, dfPrcr, ctrlPrcr, containerCxt, fileCxt, writer
      ensures Valid() && cxt.now == input.now && old(writer.log) <= writer.log
      ensures Ticked(old(Now()), input, t)
      ensures Now() == After(old(Now()), input, t.(after := t.rotated, index := t.swept))
      ensures Ready(cxt.cfg, past, del0, input.now, processCxt.Snapshot())
      ensures ctrlPrcr.Grand() == old(ctrlPrcr.Grand()) && processCxt.discarded == old(processCxt.discarded)
      ensures old(dfPrcr.lastCheck) == 0 || input.now - old(dfPrcr.lastCheck) <= EXPORT_INTERVAL ==>
        dfPrcr.lost == old(dfPrcr.lost) && ctrlPrcr.pfLost == old(ctrlPrcr.pfLost)
    {
      hide Coherent, PfTimely, PfFresh, Fresh, GrandTotal, PfDoomed, Declared, Plus, Recalled, Ready, Ticked, Rotates;
      t := Tick(input);
      TickedIsReady(old(Now()), past, del0, input, t);
    }

    /** The handler, unless the turn brings no event or one to be skipped. */
    method HandleInput(input: Input, ghost past: seq<Input>, ghost del0: int) returns (ghost ended: seq<FlowId>)
      requires Valid() && dfPrcr.lastCheck > 0 && !input.Filtered? && cxt.now == input.now && cxt.nowNs == input.nowNs
      requires Ready(cxt.cfg, past, del0, input.now, processCxt.Snapshot())
      requires Handled(cxt.cfg, input) ==> Proper(cxt.cfg, past, del0, input, rank, processCxt.tidy)
      modifies processCxt`procs, processCxt`flows, processCxt`nextId, processCxt`pfSet, processCxt`delProcQue,
               dfPrcr`dfSet, writer`hushed, fileCxt`files, containerCxt`containers, writer`log
      ensures Valid() && Recalled(cxt.cfg, past + [input], del0, processCxt.Snapshot()) && old(writer.log) <= writer.log
      ensures HandleTurn(cxt.cfg, input, old(processCxt.Snapshot()), processCxt.Snapshot(), ended)
      ensures Reindexed(old(processCxt.flows), old(dfPrcr.dfSet), processCxt.flows, dfPrcr.dfSet)
      ensures ctrlPrcr.Grand() == Plus(old(ctrlPrcr.Grand()), Charge(cxt.cfg, input))
    {
      hide Coherent, PfTimely, PfFresh, Fresh, GrandTotal, PfDoomed, Declared, Plus, Recalled, Ready, Proper,
           HandlerCharge, HandledBy, Hypotheses, Did, ProcDid, DeedOf, Reindexed;
      ghost var x := processCxt.Snapshot();
      ReindexedSame(x.flows, x.flows, dfPrcr.dfSet);
      ended := [];
      if input.Observed? && !Skipped(cxt.cfg, input.ev) {
        ProperIsEnough(cxt.cfg, past, del0, dfPrcr.State(), input, rank);
        ended := Handle(input.ev);
        HandledMeans(cxt.cfg, past, del0, input, x, processCxt.Snapshot(), ended);
      } else {
        PlusLaws(ctrlPrcr.Grand(), ZERO, ZERO);
        RecalledIdle(cxt.cfg, past, del0, input, x);
      }
    }

    /** The main loop, on a lawful stream.  Every turn is one of the specified ones; at every turn
        the tables, the index and the counts agree, every segment of the trace is self-contained,
        and the counters of the handled events are all accounted for. */
    method Run(inputs: seq<Input>) returns (ghost turns: seq<Turn>)
      requires Valid() && Clocked(inputs, cxt.now)
      requires Lawful(cxt.cfg, inputs, processCxt.delProcTime, rank, processCxt.tidy)
      requires Recalled(cxt.cfg, [], processCxt.delProcTime, processCxt.Snapshot())
      modifies cxt, processCxt, dfPrcr, ctrlPrcr, containerCxt, fileCxt, writer
      ensures Valid() && old(writer.log) <= writer.log && SelfContained(writer.log)
      ensures Chronicled(old(Now()), inputs, turns) && |turns| == |inputs|
      ensures Now() == Reached(old(Now()), inputs, turns)
      ensures ctrlPrcr.Grand() == Plus(old(ctrlPrcr.Grand()), Charges(cxt.cfg, inputs))
      ensures processCxt.discarded == old(processCxt.discarded)
      ensures Punctual(inputs, old(dfPrcr.lastCheck)) ==>
        dfPrcr.lost == old(dfPrcr.lost) && ctrlPrcr.pfLost == old(ctrlPrcr.pfLost)
    {
      hide Coherent, PfTimely, PfFresh, Fresh, GrandTotal, PfDoomed, Declared, Plus, Charges, Clocked, Punctual,
           Recalled, Proper, Turned, Chronicled, Reached, Rotates, Charge, DelTime;
      turns := [];
      ghost var grand, from := ctrlPrcr.Grand(), Now();
      RunStart(cxt.cfg, inputs, grand);
      ChronicleStart(from);
      var i := 0;
      while i < |inputs|
        invariant i <= |inputs| && Valid() && old(writer.log) <= writer.log
        invariant Clocked(inputs[i..], cxt.now) && Recalled(cxt.cfg, inputs[..i], from.delTime, processCxt.Snapshot())
        invariant processCxt.delProcTime == DelTime(inputs[..i], from.delTime)
        invariant Chronicled(from, inputs[..i], turns) && |turns| == i && Now() == Reached(from, inputs[..i], turns)
        invariant ctrlPrcr.Grand() == Plus(grand, Charges(cxt.cfg, inputs[..i]))
        invariant processCxt.discarded == old(processCxt.discarded)
        invariant Punctual(inputs, old(dfPrcr.lastCheck)) ==>
          && Punctual(inputs[i..], dfPrcr.lastCheck)
          && dfPrcr.lost == old(dfPrcr.lost) && ctrlPrcr.pfLost == old(ctrlPrcr.pfLost)
      {
        RunNext(inputs, i, cxt.now, dfPrcr.lastCheck);
        RunCharges(cxt.cfg, inputs, i, grand);
        DelTimeNext(inputs[..i], from.delTime, inputs[i]);
        ghost var t := Step(inputs[i], inputs[..i], from.delTime);
        ChronicleNext(from, inputs[..i], turns, inputs[i], t);
        turns := turns + [t];
        i := i + 1;
      }
      assert inputs[..i] == inputs;
      ClosedLog(dfPrcr.State(), {}, rank, cxt.now);
      ClosedIffSelfContained(writer.log);
    }

    /** The present state, as a moment of a run. */
    ghost function Now(): Moment
      reads dfPrcr, processCxt, fileCxt, containerCxt, writer, cxt
    {
      Moment(cxt.cfg, rank, processCxt.tidy, processCxt.Snapshot(), dfPrcr.dfSet, dfPrcr.lastCheck, writer.start,
             processCxt.delProcTime, cxt.nowNs)
    }
  }

  lemma FirstHeader()
    ensures Closed([]) && Closed([HeaderRec]) && Behaviors([HeaderRec]) == [] && Declared([HeaderRec]) == {}
  {
    Append([], HeaderRec);
    assert [] + [HeaderRec] == [HeaderRec];
  }

  lemma EmptyTables()
    ensures ContainerRefs(map[], map[]) && FileRefs(map[], map[]) && Homed(map[], map[], {}) && PfIndexed([], map[])
    ensures Indexed([], map[]) && Honest(map[], map[]) && LiveProc(map[]) == ZERO && Live(map[]) == ZERO
  {
    hide Sum;
    var e: seq<Entry<OID>>, d: seq<Entry<FlowId>> := [], [];
    assert Ids(e) == {} && Ids(d) == {};
    forall c ensures Named(map[], c) == {} {}
    SumEmpty();
  }

  lemma SumEmpty()
    ensures LiveProc(map[]) == ZERO && Live(map[]) == ZERO
  {
    assert ProcCounters(map[]) == map[] && Counters(map[]) == map[];
  }

  lemma EmptyTimes(rank: OID -> nat, now: int, log: seq<Record>)
    ensures PfTimely(map[], now) && PfFresh(map[], 0) && Fresh(map[], 0) && PfDoomed([], map[]) && Timely(map[], now)
    ensures Ranked(map[], rank) && Doomed([], map[]) && FilesWritten(map[], log) && ProcsWritten(map[], log)
  {
  }

  lemma OwesNothing(x: Flux)
    requires Behaviors(x.w.log) == [] && Live(x.w.flows) == ZERO && LiveProc(x.w.procs) == ZERO
    requires x.lost == ZERO && x.w.hushed == []
    ensures GrandTotal(x, ZERO, ZERO) == ZERO
  {
    hide Behaviors, Live, LiveProc, Plus;
    assert Written([]) == ZERO && Muted([]) == ZERO;
    PlusLaws(ZERO, ZERO, ZERO);
  }

  /** An empty collector is in order, and owes nothing. */
  lemma AtStart(x: Flux, rank: OID -> nat, now: int)
    requires x == Flux(World([HeaderRec], map[], map[], map[], map[], 0, [], [], [], x.w.tidy), [], ZERO)
    ensures Coherent(x, rank, {}, now) && GrandTotal(x, ZERO, ZERO) == ZERO
    ensures PfTimely(x.w.procs, now) && PfFresh(x.w.procs, 0) && Fresh(x.w.flows, 0) && PfDoomed(x.w.queue, x.w.procs)
  {
    hide ContainerRefs, FileRefs, Homed, PfIndexed, Indexed, Honest, LiveProc, Live, Declared, Closed, Behaviors,
         PfTimely, PfFresh, Fresh, PfDoomed, Timely, Ranked, Doomed, FilesWritten, ProcsWritten, GrandTotal;
    FirstHeader();
    EmptyTables();
    OwesNothing(x);
    EmptyTimes(rank, now, x.w.log);
  }

  /** The tables of a new collector. */
  ghost function Blank(tidy: bool): World { World([HeaderRec], map[], map[], map[], map[], 0, [], [], [], tidy) }

  /** The whole life of a collector on a lawful stream: turn by turn as specified, then the flush of
      everything live, once each.  The trace starts with a header and every segment of it is
      self-contained.  When turns are at most thirty seconds apart, the counters written to the
      trace and those of the flows the read mode suppressed are exactly those of the handled
      events; thread counts are all written, in every read mode. */
  method Collect(cfg: Config, ghost rank: OID -> nat, ghost tidy: bool, now: nat, nowNs: int, start: int,
                 inputs: seq<Input>)
    returns (log: seq<Record>, ghost turns: seq<Turn>, ghost order: seq<Item>)
    requires Clocked(inputs, now) && Lawful(cfg, inputs, now, rank, tidy)
    ensures [HeaderRec] <= log && SelfContained(log)
    ensures Chronicled(Dawn(cfg, rank, tidy, now, nowNs, start), inputs, turns)
    ensures var m := Reached(Dawn(cfg, rank, tidy, now, nowNs, start), inputs, turns);
            && m.w.log <= log && FlushedTo(m.w, log, order, m.stamp)
            && (forall f :: f in m.w.hushed ==> KeptOut(cfg.readMode, f))
            && (Punctual(inputs, 0) ==> Conserved(cfg, inputs, Behaviors(log), m.w.hushed))
  {
    hide Coherent, PfTimely, PfFresh, Fresh, GrandTotal, PfDoomed, Declared, Plus, Charges, Clocked, Punctual,
         Behaviors, Written, Lawful, Chronicled, Reached, FlushedTo, Muted, Suppressed, KeptOut, Conserved,
         SameThreads;
    var collector := Start(cfg, rank, tidy, now, nowNs, start);
    BlankRecalled(cfg, now, tidy);
    PlusLaws(ZERO, Charges(cfg, inputs), ZERO);
    ghost var dawn := Dawn(cfg, rank, tidy, now, nowNs, start);
    turns := collector.Run(inputs);
    PlusLaws(Charges(cfg, inputs), ZERO, ZERO);
    order := collector.Stop();
    log := collector.writer.log;
    HushedInRun(dawn, inputs, turns);
    ghost var hushed := Reached(dawn, inputs, turns).w.hushed;
    forall f ensures Suppressed(cfg.readMode, f) <==> KeptOut(cfg.readMode, f) { KeptOutIff(cfg.readMode, f); }
    if Punctual(inputs, 0) { ConservedIf(cfg, inputs, Behaviors(log), hushed); }
  }

  /** A new collector. */
  ghost function Dawn(cfg: Config, rank: OID -> nat, tidy: bool, now: int, nowNs: int, start: int): Moment {
    Moment(cfg, rank, tidy, Blank(tidy), [], 0, start, now, nowNs)
  }

  lemma BlankRecalled(cfg: Config, delTime: int, tidy: bool)
    ensures Recalled(cfg, [], delTime, Blank(tidy))
  {
  }

  /** A new collector, its trace opened.  The last round of deletions counts from now. */
  method Start(cfg: Config, ghost rank: OID -> nat, ghost tidy: bool, now: nat, nowNs: int, start: int)
    returns (c: SysFlowProcessor)
    ensures fresh(c) && fresh(c.cxt) && fresh(c.processCxt) && fresh(c.dfPrcr) && fresh(c.ctrlPrcr)
    ensures fresh(c.containerCxt) && fresh(c.fileCxt) && fresh(c.writer)
    ensures c.Valid() && c.Now() == Dawn(cfg, rank, tidy, now, nowNs, start) && c.cxt.now == now
    ensures c.ctrlPrcr.Grand() == ZERO && c.NothingMissing()
  {
    hide Coherent, GrandTotal, Declared, Plus, Behaviors, Closed, PfTimely, PfFresh, Fresh, PfDoomed;
    var cxt := new SysFlowContext(cfg, now, nowNs);
    var writer := new Writer(cxt, start);
    var containerCxt := new ContainerContext(writer);
    var fileCxt := new FileContext(containerCxt);
    var processCxt := new ProcessContext(fileCxt, rank, tidy);
    var dfPrcr := new DataFlowProcessor(processCxt);
    var ctrlPrcr := new ControlFlowProcessor(dfPrcr);
    c := new SysFlowProcessor(ctrlPrcr);
    writer.Write(HeaderRec);
    AtStart(dfPrcr.State(), rank, cxt.now);
  }

  // -------------------------------------------------------------- a losing run

  const QUIET := Config(ReadsEnabled, false, false, false, false, false, 0)

  /** A process sends one byte on a socket. */
  function OneByte(): Event {
    var none := ContainerRef("", None);
    Event(0, 1, true, 1, none, Task(1, 1, 1, -1, none, None),
          DataCall(WriteSend, 3, Some(Ipv4(0, 0, 0, 0, 6)), None, "", ""))
  }

  /** The flow of the byte, opened at second 100. */
  ghost predicate Sent(x: Flux, id: FlowId) {
    && Behaviors(x.w.log) == [] && x.w.hushed == [] && x.lost == ZERO
    && x.w.flows.Keys == {id} && x.w.flows[id].rec.cnt == DataCharge(WriteSend, 1)
    && x.w.flows[id].exportTime == 100 && x.w.flows[id].lastUpdate == 100
  }

  /** A run that loses: a byte sent at second 100, a scan at second 129, which finds nothing due, and
      the next scan 31 seconds later, which discards the flow.  No record of the byte is left. */
  method LosingRun(ghost rank: OID -> nat) returns (df: DataFlowProcessor)
    ensures fresh(df) && df.lastCheck == df.cxt.now == 160
    ensures df.lost == DataCharge(WriteSend, 1) != ZERO && Behaviors(df.writer.log) == []
    ensures df.processCxt.flows == map[]
  {
    hide Coherent, Fresh, Total, Behaviors, Declared, FullScan, FlowsOfScan, DueSet, PfKept, BornOf, Swept,
         SweepWrote, Told, Segments;
    ghost var id;
    df, id := SendOneByte(rank);
    ghost var x := df.State();
    LaterFlows(x, rank, 100, 129);
    df.cxt.now := 129;
    var n := df.CheckForExpiredRecords();
    NotDueYet(x, df.State(), id, 129, df.cxt.nowNs);
    ghost var y := df.State();
    LaterFlows(y, rank, 129, 160);
    df.cxt.now := 160;
    n := df.CheckForExpiredRecords();
    TooLate(y, df.State(), id, 160, df.cxt.nowNs);
    assert I32(1) == 1;
  }

  method SendOneByte(ghost rank: OID -> nat) returns (df: DataFlowProcessor, ghost id: FlowId)
    ensures fresh(df) && fresh(df.cxt) && fresh(df.processCxt) && fresh(df.fileCxt) && fresh(df.containerCxt)
    ensures fresh(df.writer)
    ensures df.cxt.cfg == QUIET && df.rank == rank && df.Valid() && df.lastCheck == df.cxt.now == 100
    ensures Sent(df.State(), id)
  {
    hide Coherent, Fresh, Total, Declared, Behaviors, FullScan, FlowsOfScan, DueSet, PfKept, BornOf, Did, DeedOf,
         DataHypotheses, EventCharge, ClosedFully, Sent;
    df := Quiet(rank);
    var n := df.CheckForExpiredRecords();
    ghost var x := df.State();
    Prepared(x.w, rank);
    FirstHeader();
    var res;
    ghost var vec;
    res, vec := df.HandleDataEvent(OneByte());
    id := SentByte(x, df.State(), vec);
  }

  /** A new collector at second 100. */
  method Quiet(ghost rank: OID -> nat) returns (df: DataFlowProcessor)
    ensures fresh(df) && fresh(df.cxt) && fresh(df.processCxt) && fresh(df.fileCxt) && fresh(df.containerCxt)
    ensures fresh(df.writer)
    ensures df.cxt.cfg == QUIET && df.rank == rank && df.Valid() && df.lastCheck == 0 && df.cxt.now == 100
    ensures df.State() == Flux(Blank(false), [], ZERO)
  {
    hide Coherent, Fresh, Declared, Behaviors, Closed, PfTimely, PfFresh, PfDoomed, GrandTotal;
    var cxt := new SysFlowContext(QUIET, 100, 0);
    var writer := new Writer(cxt, 0);
    var containerCxt := new ContainerContext(writer);
    var fileCxt := new FileContext(containerCxt);
    var processCxt := new ProcessContext(fileCxt, rank, false);
    df := new DataFlowProcessor(processCxt);
    writer.Write(HeaderRec);
    AtStart(df.State(), rank, 100);
  }

  lemma Prepared(w: World, rank: OID -> nat)
    requires w.procs == map[] && w.queue == [] && !w.tidy
    ensures DataHypotheses(QUIET, w, OneByte(), rank)
  {
    hide KeyNamesFile;
  }

  function ByteFlow(): DataFlow { NewNetFlow(OID(1, 1), Ipv4(0, 0, 0, 0, 6), 1, 3, WriteSend, 0, 100) }

  lemma NetDeed(cfg: Config, ev: Event, now: int)
    requires ev.call.DataCall? && ev.call.fdinfo.Some? && ev.call.fdinfo.value.Ipv4?
    ensures DeedOf(cfg, ev, now)
            == Operate(NewNetFlow(OidOf(ev.task), ev.call.fdinfo.value, ev.tid, ev.call.fd, ev.call.op, ev.ts, now), 0)
  {
  }

  lemma ByteDeed()
    ensures DeedOf(QUIET, OneByte(), 100) == Operate(ByteFlow(), 0) && OidOf(OneByte().task) == OID(1, 1)
    ensures OneByte().ret == 1 && OneByte().ts == 0
    ensures var f := Updated(ByteFlow(), WriteSend, 1, 0, 100);
            f.exportTime == 100 && f.lastUpdate == 100 && f.rec.cnt == DataCharge(WriteSend, 1)
  {
    hide NewNetFlow, Updated, DataCharge, Idle, SameIdentity, Needs, DeedOf;
    NetDeed(QUIET, OneByte(), 100);
    NetFlowFacts(OID(1, 1), Ipv4(0, 0, 0, 0, 6), 1, 3, WriteSend, 0, 100);
    UpdatedFacts(ByteFlow(), WriteSend, 1, 0, 100);
    PlusLaws(DataCharge(WriteSend, 1), ZERO, ZERO);
  }

  lemma SentByte(x: Flux, y: Flux, vec: seq<FlowId>) returns (id: FlowId)
    requires x.w.procs == map[] && x.w.flows == map[] && Behaviors(x.w.log) == [] && x.w.hushed == []
    requires y.lost == ZERO
    requires Did(DeedOf(QUIET, OneByte(), 100), x.w, y.w, OneByte(), WriteSend, ReadsEnabled, 100, vec)
    ensures Sent(y, id)
  {
    hide Behaviors, KeyOf, OtherTables, DeedOf, ByteFlow, OneByte, Updated, DataCharge, Worked, OidOf;
    ByteDeed();
    id := Opened(TableOf(x.w.procs, OID(1, 1)), x.w.flows, TrailBy(x.w, y.w), TableOf(y.w.procs, OID(1, 1)), y.w.flows,
                 TrailOf(y.w), ByteFlow(), WriteSend, 1, 0, ReadsEnabled, 0, 100, vec);
  }

  /** The first operation under a key opens a flow. */
  lemma Opened(t: map<FlowKey, FlowId>, flows: FlowHeap, tr: Trail, t': map<FlowKey, FlowId>, flows': FlowHeap,
               tr': Trail, f0: DataFlow, op: Op, ret: int, openFlags: int, mode: ReadMode, ts: int, now: int,
               vec: seq<FlowId>)
    returns (id: FlowId)
    requires Worked(t, flows, tr, t', flows', tr', f0, op, ret, openFlags, mode, ts, now, vec)
    requires KeyOf(f0) !in t && !op.Close?
    ensures id !in flows && flows' == flows[id := Updated(f0, op, ret, openFlags, now)] && tr' == tr
  {
    hide KeyOf, Updated;
    id := t'[KeyOf(f0)];
  }

  lemma LaterFlows(x: Flux, rank: OID -> nat, now: int, now': int)
    requires Coherent(x, rank, {}, now) && now <= now'
    ensures Coherent(x, rank, {}, now')
  {
    hide Consistent, Indexed;
  }

  lemma {:induction false} NoneExported(index: seq<Entry<FlowId>>, flows: FlowHeap, now: int, nowNs: int)
    requires forall e :: e in index ==> e.id in flows && FateOf(flows[e.id], now) != Export
    ensures Exported(index, flows, now, nowNs) == []
  {
    if index != [] { NoneExported(index[..|index| - 1], flows, now, nowNs); }
  }

  lemma NotDueYet(x: Flux, y: Flux, id: FlowId, now: int, nowNs: int)
    requires Sent(x, id) && now == 129 && (forall e :: e in x.index ==> e.id in x.w.flows)
    requires y.w.flows == FullScan(x.w.flows, now, nowNs) && FlowsOfScan(x, y, ReadsEnabled, now, nowNs)
    requires y.lost == x.lost
    ensures Sent(y, id)
  {
    hide Behaviors;
    NoneExported(x.index, x.w.flows, now, nowNs);
    ThenNone(TrailBy(x.w, y.w), ReadsEnabled);
  }

  lemma TooLate(x: Flux, y: Flux, id: FlowId, now: int, nowNs: int)
    requires Sent(x, id) && now == 160 && (forall e :: e in x.index ==> e.id in x.w.flows)
    requires y.w.flows == FullScan(x.w.flows, now, nowNs) && FlowsOfScan(x, y, ReadsEnabled, now, nowNs)
    requires Total(y) == Total(x)
    ensures y.w.flows == map[] && Behaviors(y.w.log) == [] && y.lost == DataCharge(WriteSend, 1)
  {
    hide Behaviors, Live, Total, DataCharge, FullScan, Exported, Plus;
    NoneExported(x.index, x.w.flows, now, nowNs);
    ThenNone(TrailBy(x.w, y.w), ReadsEnabled);
    OneExpires(x.w.flows, id, now, nowNs);
    SumEmpty();
    var f := x.w.flows[id];
    LiveOne(x.w.flows, id);
    PlusLaws(f.rec.cnt, ZERO, ZERO);
    PlusLaws(y.lost, ZERO, ZERO);
    Columns(x, f.rec.cnt);
    Columns(y, ZERO);
  }

  lemma OneExpires(flows: FlowHeap, id: FlowId, now: int, nowNs: int)
    requires flows.Keys == {id} && FateOf(flows[id], now) == Expire
    ensures FullScan(flows, now, nowNs) == map[]
  {
    assert FullScan(flows, now, nowNs).Keys == {};
  }

  lemma LiveOne(flows: FlowHeap, id: FlowId)
    requires flows.Keys == {id}
    ensures Live(flows) == flows[id].rec.cnt
  {
    hide Live;
    LiveSet(flows, id, flows[id]);
    assert (flows - {id}).Keys == {};
    assert flows - {id} == map[];
    SumEmpty();
    PlusLaws(flows[id].rec.cnt, ZERO, ZERO);
  }

  lemma Columns(x: Flux, live: Tally)
    requires Behaviors(x.w.log) == [] && Live(x.w.flows) == live && x.w.hushed == []
    ensures Total(x) == Plus(live, x.lost)
  {
    hide Behaviors, Live;
    assert Written([]) == ZERO;
  }
}
