/**
  The control flow processor: process flows with their index, and the process events.
 */
module ControlFlows {
  import opened Types
  import opened Trace
  import opened TimeSet
  import opened Ledger
  import opened Invariants
  import opened Caches
  import opened Pruning
  import opened ProcessState
  import opened Processes
  import opened Shutdown
  import opened FlowState
  import opened Effects
  import opened DataFlows

  // ------------------------------------------------------------- process flows

  function UpdatedProc(f: ProcFlow, op: Op, ret: int, now: int): ProcFlow {
    f.(opFlags := f.opFlags + {op}, lastUpdate := now, cnt := Plus(f.cnt, ThreadCharge(op, ret)))
  }

  /** The process flow a thread operation is counted in: the live one, or a new one. */
  function FlowFor(procs: ProcessTable, ev: Event, op: Op, now: int): ProcFlow {
    var o := OidOf(ev.task);
    if o in procs && procs[o].pfo.Some? then procs[o].pfo.value else ProcFlow(now, now, ev.ts, 0, {op}, ZERO)
  }

  /** The thread operation has been counted, and nothing else has been written or changed. */
  ghost predicate ThreadCounted(ps: ProcessTable, bs: seq<Record>, qs: ProcessTable, bs': seq<Record>,
                                ev: Event, op: Op, now: int)
  {
    var o := OidOf(ev.task);
    && o in qs && qs[o].pfo == Some(UpdatedProc(FlowFor(ps, ev, op, now), op, ev.ret, now))
    && PfKeptBut(ps, qs, o) && bs' == bs
  }

  lemma CountedMeans(ps: ProcessTable, bs: seq<Record>, qs: ProcessTable, bs': seq<Record>, ev: Event, op: Op, now: int)
    requires ThreadCounted(ps, bs, qs, bs', ev, op, now)
    ensures PfKeptBut(ps, qs, OidOf(ev.task))
  {
  }

  lemma UpdatedProcFacts(f: ProcFlow, op: Op, ret: int, now: int)
    ensures var g := UpdatedProc(f, op, ret, now);
            && g.exportTime == f.exportTime && g.lastUpdate == now && op in g.opFlags
            && g.cnt == Plus(f.cnt, ThreadCharge(op, ret))
  {
  }

  /** The index with the process flow of `o` in it. */
  function PfCounted(index: seq<Entry<OID>>, procs: ProcessTable, o: OID, time: int): seq<Entry<OID>> {
    if o in procs && procs[o].pfo.Some? then index else Insert(index, Entry(time, o))
  }

  /** What a process event makes of the index of the process flows. */
  function PfIndexAfter(cfg: Config, ev: Event, index: seq<Entry<OID>>, procs: ProcessTable, now: int)
    : seq<Entry<OID>>
  {
    if CountsThread(cfg, ev) then PfCounted(index, procs, OidOf(ev.task), now)
    else if ev.call.ProcCall? && ev.call.op.Exit? then Without(index, {OidOf(ev.task)}) else index
  }

  /** A process was looked up, and then its process flow set to `f`. */
  lemma OneCounted(ps: ProcessTable, ms: ProcessTable, o: OID, f: ProcFlow, births: set<(OID, Option<OID>)>)
    requires Kept(ps, ms, births) && SameTables(ps, ms) && o in ms
    ensures var qs := WithPf(ms, o, Some(f));
            PfKeptBut(ps, qs, o) && SameTables(ps, qs) && BornOf(ps, qs, births) && Marked(ms, qs)
    ensures ms[o].pfo == if o in ps then ps[o].pfo else None
  {
    hide SameTables, BornOf;
    PfTables(ms, o, Some(f));
    SameTablesTrans(ps, ms, WithPf(ms, o, Some(f)));
    BornTrans(ps, ms, WithPf(ms, o, Some(f)), births);
  }

  function RenewedProc(f: ProcFlow, now: int, nowNs: int): ProcFlow {
    f.(exportTime := now, ts := nowNs, endTs := 0, opFlags := {}, cnt := ZERO)
  }

  predicate ProcDue(f: ProcFlow, now: int) { now - f.exportTime >= EXPORT_INTERVAL }

  /** What a scan makes of a process flow. */
  function ProcScan(pf: Option<ProcFlow>, now: int, nowNs: int): Option<ProcFlow> {
    if pf.None? || !ProcDue(pf.value, now) then pf
    else if now - pf.value.lastUpdate >= EXPIRE_INTERVAL then None
    else Some(RenewedProc(pf.value, now, nowNs))
  }

  ghost predicate PfTimely(procs: ProcessTable, now: int) {
    forall o :: o in procs && procs[o].pfo.Some? ==>
      var f := procs[o].pfo.value;
      f.exportTime <= now && f.lastUpdate <= now && (!Idle(f.opFlags) ==> f.exportTime <= f.lastUpdate)
  }

  ghost predicate PfFresh(procs: ProcessTable, lastCheck: int) {
    forall o :: o in procs && procs[o].pfo.Some? ==>
      lastCheck > 0 && lastCheck - procs[o].pfo.value.exportTime < EXPORT_INTERVAL
  }

  /** Process flows are untouched. */
  lemma PfKeptTimes(ps: ProcessTable, qs: ProcessTable, lastCheck: int, now: int)
    requires PfKept(ps, qs)
    ensures PfTimely(ps, now) ==> PfTimely(qs, now)
    ensures PfFresh(ps, lastCheck) ==> PfFresh(qs, lastCheck)
    ensures LiveProc(ps) == LiveProc(qs)
  {
    LiveProcSame(ps, qs);
  }

  function WithPf(procs: ProcessTable, o: OID, pf: Option<ProcFlow>): ProcessTable
    requires o in procs
  {
    procs[o := procs[o].(pfo := pf)]
  }

  /** A process flow is not what these agreements are about. */
  lemma PfPieces(w: World, o: OID, pf: Option<ProcFlow>, rank: OID -> nat)
    requires o in w.procs && Ranked(w.procs, rank) && Doomed(w.queue, w.procs) && ProcsWritten(w.procs, w.log)
    requires Honest(w.flows, w.procs) && (pf.Some? && Idle(pf.value.opFlags) ==> pf.value.cnt == ZERO)
    ensures var qs := WithPf(w.procs, o, pf);
            && Ranked(qs, rank) && Doomed(w.queue, qs) && ProcsWritten(qs, w.log) && Honest(w.flows, qs)
            && (Kin(w.procs) ==> Kin(qs))
  {
    hide Declared;
  }

  /** A process flow has changed, and the index with it. */
  lemma CoherentPf(x: Flux, y: Flux, o: OID, pf: Option<ProcFlow>, rank: OID -> nat, now: int)
    requires Coherent(x, rank, {}, now) && o in x.w.procs
    requires y == x.(w := x.w.(procs := WithPf(x.w.procs, o, pf), pfSet := y.w.pfSet))
    requires PfIndexed(y.w.pfSet, y.w.procs)
    requires pf.Some? && Idle(pf.value.opFlags) ==> pf.value.cnt == ZERO
    ensures Coherent(y, rank, {}, now) && Total(y) == Total(x)
  {
    hide Homed, FileRefs, Closed, Declared, Indexed, ContainerRefs, PfIndexed, Timely, Total, Plus, Kin, Ranked,
         Doomed, Honest, ProcsWritten, FilesWritten;
    PfPieces(x.w, o, pf, rank);
    WithSameTables(x.w.procs, y.w.procs, x.w.flows);
    ContainerRefsSame(x.w.procs, y.w.procs, x.w.containers, x.w.containers);
    TotalTables(x, y);
  }

  /** The index after a change of export time: erased, changed, inserted again. */
  lemma PfReindexed(index: seq<Entry<OID>>, procs: ProcessTable, i: nat, f: ProcFlow)
    requires PfIndexed(index, procs) && i < |index|
    ensures index[i].id in procs
    ensures PfIndexed(Insert(EraseAt(index, i), Entry(f.exportTime, index[i].id)),
                      WithPf(procs, index[i].id, Some(f)))
  {
    hide PfIndexed, Insert, EraseAt;
    PfIndexedErase(index, procs, i);
    var o := index[i].id;
    var mid := WithPf(procs, o, None);
    PfIndexedInsert(EraseAt(index, i), mid, o, f);
    assert mid[o := mid[o].(pfo := Some(f))] == WithPf(procs, o, Some(f));
  }

  lemma PfInPlace(index: seq<Entry<OID>>, procs: ProcessTable, o: OID, f: ProcFlow)
    requires PfIndexed(index, procs) && o in procs && procs[o].pfo.Some?
    requires f.exportTime == procs[o].pfo.value.exportTime
    ensures PfIndexed(index, WithPf(procs, o, Some(f)))
  {
  }

  /** What a process event adds to the counters of the collector. */
  function ProcCharge(cfg: Config, ev: Event): Tally {
    if !ev.call.ProcCall? || !cfg.processFlow then ZERO
    else match ev.call.op
      case Exit => if ev.isMain then ZERO else ThreadCharge(Exit, ev.ret)
      case Clone => if IsProcessClone(ev) then ZERO else ThreadCharge(Clone, ev.ret)
      case _ => ZERO
  }

  predicate Supported(op: Op) { op.Exit? || op.Exec? || op.SetUid? || op.Clone? }

  /** The event record a process event leaves; a counted thread event leaves none. */
  function ProcRecord(cfg: Config, ev: Event): Option<Record> {
    if !ev.call.ProcCall? then None
    else
      var r := Some(ProcEventRec(ev.call.op, OidOf(ev.task), ev.tid, ev.ret, ev.ts));
      match ev.call.op
      case Exit => if ev.isMain || !cfg.processFlow then r else None
      case Clone => if IsProcessClone(ev) || !cfg.processFlow then r else None
      case Exec => r
      case SetUid => r
      case _ => None
  }

  /** The clone event of a new process, in the child or in the parent. */
  predicate IsProcessClone(ev: Event)
    requires ev.call.ProcCall?
  {
    (ev.isMain && I32(ev.ret) == 0) || (I32(ev.ret) > 0 && !ev.call.cloneThread)
  }

  /** All counters ever taken in. */
  ghost function GrandTotal(x: Flux, discarded: Tally, pfLost: Tally): Tally {
    Plus(Total(x), Plus(LiveProc(x.w.procs), Plus(discarded, pfLost)))
  }

  /** Only the live process flow of `o` changes, by `c`. */
  lemma GrandCharge(x: Flux, y: Flux, o: OID, p: ProcessObj, c: Tally, d: Tally, l: Tally)
    requires Total(y) == Total(x) && o in x.w.procs && y.w.procs == x.w.procs[o := p]
    requires PfCount(p.pfo) == Plus(PfCount(x.w.procs[o].pfo), c)
    ensures GrandTotal(y, d, l) == Plus(GrandTotal(x, d, l), c)
  {
    hide LiveProc, Total;
    LiveProcSet(x.w.procs, o, p);
  }

  /** A process flow expires unwritten. */
  lemma GrandExpire(x: Flux, y: Flux, o: OID, d: Tally, l: Tally)
    requires Total(y) == Total(x) && o in x.w.procs && y.w.procs == WithPf(x.w.procs, o, None)
    ensures GrandTotal(y, d, Plus(l, PfCount(x.w.procs[o].pfo))) == GrandTotal(x, d, l)
  {
    hide LiveProc, Total;
    LiveProcSet(x.w.procs, o, y.w.procs[o]);
  }

  /** A process flow is offered to the writer and starts afresh or goes. */
  lemma GrandOffer(x: Flux, y: Flux, o: OID, f: ProcFlow, p: ProcessObj, d: Tally, l: Tally)
    requires o in x.w.procs && x.w.procs[o].pfo.Some? && f.cnt == x.w.procs[o].pfo.value.cnt
    requires (Idle(f.opFlags) ==> f.cnt == ZERO) && PfCount(p.pfo) == ZERO && y.w.procs == x.w.procs[o := p]
    requires Behaviors(y.w.log) == Behaviors(x.w.log) + OfferedProc(o, f)
    requires y.w.flows == x.w.flows && y.lost == x.lost && y.w.hushed == x.w.hushed
    ensures GrandTotal(y, d, l) == GrandTotal(x, d, l)
  {
    hide LiveProc, Live, Behaviors, Written;
    OfferProcBalances(Behaviors(x.w.log), o, f, x.w.procs, p);
  }

  /** Exec and setuid record a process that was cached once more. */
  predicate Retold(procs: ProcessTable, ev: Event)
    requires ev.call.ProcCall?
  {
    (ev.call.op.Exec? || ev.call.op.SetUid?) && OidOf(ev.task) in procs
  }

  /** The state of a process that an event makes known: created by clone and exec, when they are reported,
      and found again by all others. */
  ghost function StateFor(cfg: Config, ev: Event): ObjectState
    requires ev.call.ProcCall?
  {
    if ev.call.op.Exec? || (ev.call.op.Clone? && ProcRecord(cfg, ev).Some?) then Created else Reup
  }

  lemma StateCases(cfg: Config, ev: Event)
    requires ev.call.ProcCall?
    ensures var clone := ev.call.op.Clone? && (!cfg.processFlow || IsProcessClone(ev));
            StateFor(cfg, ev) == if ev.call.op.Exec? || clone then Created else Reup
  {
  }

  /** The process flow an exit ends, as it is offered. */
  ghost function LastProcFlow(cfg: Config, procs: ProcessTable, ev: Event): seq<Record> {
    var o := OidOf(ev.task);
    if cfg.processFlow && o in procs && procs[o].pfo.Some?
    then OfferedProc(o, procs[o].pfo.value.(endTs := ev.ts)) else []
  }

  /** The data flows of an exit: exactly those of the exiting thread and those related to them, or all
      of the process, are offered, once each and cut off, and go; then the event is written. */
  ghost predicate LeftBy(cfg: Config, x: World, y: World, ev: Event, nowNs: int, gone: seq<FlowId>) {
    var o, tid := OidOf(ev.task), if ev.isMain then -1 else ev.tid;
    && NoDup(gone) && (forall id :: id in gone <==> Leaves(x.flows, o, tid, id))
    && y.flows == x.flows - Elems(gone)
    && Behaviors(y.log) == Behaviors(x.log) + Offers(cfg.readMode, CutAll(x.flows, gone, nowNs))
                           + [ProcEventRec(Exit, o, ev.tid, ev.ret, ev.ts)]
    && y.hushed == x.hushed + Withhelds(cfg.readMode, CutAll(x.flows, gone, nowNs))
    && ExitDone(y, o, true, tid, {}) && ExitDone(y, o, false, tid, {})
  }

  /** What an exit that is reported does: the process flow is written for the last time, then
      exactly the data flows of the exiting thread and those related to them, or all of the process,
      are offered, cut off, and go, then the event is written. */
  ghost predicate ExitedBy(cfg: Config, x: World, y: World, ev: Event, nowNs: int, gone: seq<FlowId>) {
    var o, tid := OidOf(ev.task), if ev.isMain then -1 else ev.tid;
    && NoDup(gone) && (forall id :: id in gone <==> Leaves(x.flows, o, tid, id))
    && y.flows == x.flows - Elems(gone) && Homed(y.procs, y.flows, {})
    && Behaviors(y.log) == Behaviors(x.log) + LastProcFlow(cfg, x.procs, ev)
                           + Offers(cfg.readMode, CutAll(x.flows, gone, nowNs))
                           + [ProcEventRec(Exit, o, ev.tid, ev.ret, ev.ts)]
    && y.hushed == x.hushed + Withhelds(cfg.readMode, CutAll(x.flows, gone, nowNs))
    && ExitDone(y, o, true, tid, {}) && ExitDone(y, o, false, tid, {})
    && o in y.procs && y.procs[o].pfo.None? && (ev.isMain ==> y.procs[o].table == map[])
    && PfKeptBut(x.procs, y.procs, o)
  }

  /** What a process event does to the flows, the behaviour records and the queue. */
  ghost predicate ProcDid(cfg: Config, x: World, y: World, ev: Event, now: int, nowNs: int, gone: seq<FlowId>)
    requires ev.call.ProcCall?
  {
    var o, op, r := OidOf(ev.task), ev.call.op, ProcRecord(cfg, ev);
    var bs, bs' := Behaviors(x.log), Behaviors(y.log);
    && y.queue == x.queue + (if op.Exit? && ev.isMain then [OIDObj(o, now)] else [])
    && if op.Exit? && r.Some? then ExitedBy(cfg, x, y, ev, nowNs, gone) && OtherTables(x.procs, y.procs, o)
       else && y.flows == x.flows && y.hushed == x.hushed && SameTables(x.procs, y.procs)
            && if op.Exit? || (op.Clone? && r.None?) then ThreadCounted(x.procs, bs, y.procs, bs', ev, op, now)
               else PfKept(x.procs, y.procs) && bs' == bs + if r.Some? then [r.value] else []
  }

  /** The process flow of an exiting process has ended; its data flows come next. */
  ghost predicate BeforeExit(cfg: Config, x: World, m: World, ev: Event) {
    var o := OidOf(ev.task);
    && SameTables(x.procs, m.procs) && m.flows == x.flows && m.queue == x.queue && m.hushed == x.hushed
    && PfKeptBut(x.procs, m.procs, o) && (o in m.procs ==> m.procs[o].pfo.None?)
    && Behaviors(m.log) == Behaviors(x.log) + LastProcFlow(cfg, x.procs, ev)
    && BornOf(x.procs, m.procs, Born(x.procs, ev.task)) && (m.procs == x.procs || Born(m.procs, ev.task) == {})
  }

  /** The flows `gone` departed after the look-up, and the event came last. */
  lemma LeftThen(cfg: Config, w: World, x: World, y: World, z: World, ev: Event, nowNs: int, gone: seq<FlowId>)
    requires x.flows == w.flows && x.hushed == w.hushed && Behaviors(x.log) == Behaviors(w.log)
    requires Departed(x, y, gone, cfg.readMode, nowNs) && z.flows == y.flows && z.hushed == y.hushed
    requires Behaviors(z.log) == Behaviors(y.log) + [ProcEventRec(Exit, OidOf(ev.task), ev.tid, ev.ret, ev.ts)]
    requires var o, tid := OidOf(ev.task), if ev.isMain then -1 else ev.tid;
             && (forall id :: id in gone <==> Leaves(x.flows, o, tid, id))
             && ExitDone(z, o, true, tid, {}) && ExitDone(z, o, false, tid, {})
    ensures LeftBy(cfg, w, z, ev, nowNs, gone)
  {
    hide Behaviors, Leaves, ExitDone, Offers, Withhelds, CutAll, Recorded;
    DepartedMeans(x, y, gone, cfg.readMode, nowNs);
  }

  lemma AfterExit(cfg: Config, x: World, m: World, y: World, ev: Event, nowNs: int, gone: seq<FlowId>)
    requires BeforeExit(cfg, x, m, ev) && Kept(m.procs, y.procs, Born(m.procs, ev.task))
    requires OtherTables(m.procs, y.procs, OidOf(ev.task)) && OidOf(ev.task) in y.procs
    requires LeftBy(cfg, m, y, ev, nowNs, gone) && Homed(y.procs, y.flows, {})
    ensures ExitedBy(cfg, x, y, ev, nowNs, gone) && OtherTables(x.procs, y.procs, OidOf(ev.task))
    ensures BornOf(x.procs, y.procs, Born(x.procs, ev.task))
  {
    hide ExitDone, Behaviors, Offers, Withhelds, LastProcFlow, BornOf, Born, SameTables, OtherTables, Homed, Leaves;
    var o := OidOf(ev.task);
    SameThenOther(x.procs, m.procs, y.procs, o);
    if m.procs != x.procs { BornTrans(x.procs, m.procs, y.procs, Born(x.procs, ev.task)); }
    ExitAll(y, o, if ev.isMain then -1 else ev.tid);
    assert PfKeptBut(x.procs, y.procs, o);
  }

  lemma BeforeExitMeans(cfg: Config, x: World, m: World, ev: Event)
    requires BeforeExit(cfg, x, m, ev)
    ensures PfKeptBut(x.procs, m.procs, OidOf(ev.task)) && m.queue == x.queue
    ensures OidOf(ev.task) in m.procs ==> m.procs[OidOf(ev.task)].pfo.None?
  {
  }

  lemma WrittenClimbs(ps: ProcessTable, t: Task, rank: OID -> nat, tidy: bool)
    requires OidOf(t) in ps && ps[OidOf(t)].written
    ensures Climbable(ps, t, rank, tidy) && Born(ps, t) == {}
  {
  }

  lemma NoProcFlowAtAll(cfg: Config, x: World, ev: Event)
    requires !cfg.processFlow && forall o :: o in x.procs ==> x.procs[o].pfo.None?
    ensures BeforeExit(cfg, x, x, ev)
  {
    hide Behaviors, Born;
  }

  lemma NothingHappened(ps: ProcessTable, births: set<(OID, Option<OID>)>)
    ensures SameTables(ps, ps) && Kept(ps, ps, births)
  {
  }

  lemma ChargeCases(cfg: Config, ev: Event)
    requires ev.call.ProcCall?
    ensures ProcCharge(cfg, ev) == if CountsThread(cfg, ev) then ThreadCharge(ev.call.op, ev.ret) else ZERO
  {
  }

  lemma DidCount(cfg: Config, x: World, y: World, ev: Event, now: int, nowNs: int, gone: seq<FlowId>)
    requires CountsThread(cfg, ev) && y.queue == x.queue && y.flows == x.flows && SameTables(x.procs, y.procs)
    requires y.hushed == x.hushed
    requires ThreadCounted(x.procs, Behaviors(x.log), y.procs, Behaviors(y.log), ev, ev.call.op, now)
    ensures ProcDid(cfg, x, y, ev, now, nowNs, gone)
  {
    hide SameTables, OtherTables, Behaviors, ThreadCounted, ExitedBy;
  }

  lemma DidExit(cfg: Config, x: World, y: World, ev: Event, now: int, nowNs: int, gone: seq<FlowId>)
    requires ev.call.ProcCall? && ev.call.op.Exit? && !CountsThread(cfg, ev)
    requires OtherTables(x.procs, y.procs, OidOf(ev.task))
    requires ExitedBy(cfg, x, y, ev, nowNs, gone)
    requires y.queue == x.queue + if ev.isMain then [OIDObj(OidOf(ev.task), now)] else []
    ensures ProcDid(cfg, x, y, ev, now, nowNs, gone)
  {
    hide SameTables, OtherTables, Behaviors, ThreadCounted, ExitedBy;
  }

  lemma DidReport(cfg: Config, x: World, y: World, ev: Event, now: int, nowNs: int, gone: seq<FlowId>)
    requires ev.call.ProcCall? && !ev.call.op.Exit? && !CountsThread(cfg, ev)
    requires y.queue == x.queue && y.flows == x.flows && SameTables(x.procs, y.procs) && PfKept(x.procs, y.procs)
    requires y.hushed == x.hushed
    requires Behaviors(y.log) == Behaviors(x.log)
               + if Supported(ev.call.op) then [ProcEventRec(ev.call.op, OidOf(ev.task), ev.tid, ev.ret, ev.ts)] else []
    ensures ProcDid(cfg, x, y, ev, now, nowNs, gone)
  {
    hide SameTables, OtherTables, Behaviors, ThreadCounted, ExitedBy, PfKept;
  }

  lemma PfTables(ps: ProcessTable, o: OID, pf: Option<ProcFlow>)
    requires o in ps
    ensures SameTables(ps, WithPf(ps, o, pf)) && BornOf(ps, WithPf(ps, o, pf), {})
  {
  }

  lemma RewrittenTables(ps: ProcessTable, o: OID, p: ProcessObj)
    requires o in ps && p.table == ps[o].table && p.poid == ps[o].poid && p.pfo == ps[o].pfo
    ensures SameTables(ps, ps[o := p]) && Kept(ps, ps[o := p], {})
  {
  }

  lemma GrandUnchanged(x: Flux, y: Flux, d: Tally, l: Tally)
    requires Total(y) == Total(x) && PfKept(x.w.procs, y.w.procs)
    ensures GrandTotal(y, d, l) == GrandTotal(x, d, l)
  {
    hide LiveProc, Total;
    PfKeptTimes(x.w.procs, y.w.procs, 0, 0);
  }

  /** A process has been written again with other attributes. */
  lemma Rewritten(w: World, w': World, o: OID, p: ProcessObj, rank: OID -> nat)
    requires Consistent(w, rank, {}) && o in w.procs && p == w.procs[o].(state := p.state, ts := p.ts)
    requires w' == w.(log := w'.log, procs := w.procs[o := p.(written := true)])
    requires AddsEntities(w.log, w'.log) && ProcsWritten(w'.procs, w'.log)
    ensures Consistent(w', rank, {})
  {
    hide Homed, FileRefs, Closed, Declared, ContainerRefs, PfIndexed;
    ContainerRefsSame(w.procs, w'.procs, w.containers, w.containers);
    SettledKeeps(w, w', rank);
  }

  lemma GrandSame(x: Flux, y: Flux, c: Tally, d: Tally, l: Tally)
    requires Total(y) == Plus(Total(x), c) && PfKept(x.w.procs, y.w.procs)
    ensures GrandTotal(y, d, l) == Plus(GrandTotal(x, d, l), c)
  {
    hide LiveProc, Total;
    PfKeptTimes(x.w.procs, y.w.procs, 0, 0);
  }

  /** The processes waiting for deletion have no process flow. */
  ghost predicate PfDoomed(queue: seq<OIDObj>, procs: ProcessTable) {
    forall e :: e in queue && e.oid in procs ==> procs[e.oid].pfo.None?
  }

  /** The event is counted in a process flow instead of being reported. */
  predicate CountsThread(cfg: Config, ev: Event) {
    && cfg.processFlow && ev.call.ProcCall?
    && ((ev.call.op.Exit? && !ev.isMain) || (ev.call.op.Clone? && !IsProcessClone(ev)))
  }

  /** A thread event that comes after the exit of its process was noted. */
  predicate Late(cfg: Config, ev: Event, queue: seq<OIDObj>) {
    CountsThread(cfg, ev) && exists e :: e in queue && e.oid == OidOf(ev.task)
  }

  /** No process goes, and process flows are untouched, that of `o` excepted. */
  ghost predicate PfKeptBut(ps: ProcessTable, qs: ProcessTable, o: OID) {
    && ps.Keys <= qs.Keys
    && forall q :: q in qs && q != o ==> if q in ps then qs[q].pfo == ps[q].pfo else qs[q].pfo.None?
  }

  lemma PfDoomedKept(queue: seq<OIDObj>, ps: ProcessTable, qs: ProcessTable)
    requires PfKept(ps, qs)
    ensures PfDoomed(queue, ps) ==> PfDoomed(queue, qs)
  {
  }

  lemma PfDoomedBut(queue: seq<OIDObj>, ps: ProcessTable, qs: ProcessTable, o: OID)
    requires PfKeptBut(ps, qs, o)
    ensures PfDoomed(queue, ps) && ((o in qs ==> qs[o].pfo.None?) || !exists e :: e in queue && e.oid == o) ==>
      PfDoomed(queue, qs)
  {
  }

  lemma PfDoomedExit(queue: seq<OIDObj>, queue': seq<OIDObj>, ps: ProcessTable, qs: ProcessTable, o: OID, now: int)
    requires PfKept(ps, qs) && (o in ps ==> ps[o].pfo.None?)
    requires queue' == queue || queue' == queue + [OIDObj(o, now)]
    ensures PfDoomed(queue, ps) ==> PfDoomed(queue', qs)
    ensures o in qs ==> qs[o].pfo.None?
  {
  }

  /** The processes whose flow is due. */
  ghost function PfDue(procs: ProcessTable, now: int): set<OID> {
    set o | o in procs && procs[o].pfo.Some? && ProcDue(procs[o].pfo.value, now)
  }

  /** The processes at the head of the index whose time is due, in the order of the index. */
  function DueOrder(index: seq<Entry<OID>>, now: int): seq<OID> {
    if index == [] || now - index[0].time < EXPORT_INTERVAL then [] else [index[0].id] + DueOrder(index[1..], now)
  }

  /** An entry that is not due, put last, changes nothing. */
  lemma {:induction false} DueOrderAppend(index: seq<Entry<OID>>, e: Entry<OID>, now: int)
    requires now - e.time < EXPORT_INTERVAL
    ensures DueOrder(index + [e], now) == DueOrder(index, now)
  {
    if index == [] {
      assert index + [e] == [e];
    } else {
      assert (index + [e])[0] == index[0] && (index + [e])[1..] == index[1..] + [e];
      DueOrderAppend(index[1..], e, now);
    }
  }

  /** Handling the head of the index. */
  lemma DueOrderNext(index: seq<Entry<OID>>, index': seq<Entry<OID>>, order: seq<OID>, procs: ProcessTable, now: int)
    requires PfIndexed(index, procs) && PfTimely(procs, now)
    requires index != [] && now - index[0].time >= EXPORT_INTERVAL
    requires index' == index[1..] || index' == Insert(index[1..], Entry(now, index[0].id))
    ensures order + DueOrder(index, now) == order + [index[0].id] + DueOrder(index', now)
    ensures index' == index[1..] || index' == index[1..] + [Entry(now, index[0].id)]
    ensures Insert(index[1..], Entry(now, index[0].id)) == index[1..] + [Entry(now, index[0].id)]
    ensures index[1..] + [] == index[1..]
  {
    hide Insert, PfIndexed, PfTimely;
    PfIndexPast(index, procs, now);
    RenewedGoesLast(index, index[0].id, now);
    DueOrderAppend(index[1..], Entry(now, index[0].id), now);
    assert order + ([index[0].id] + DueOrder(index[1..], now)) == order + [index[0].id] + DueOrder(index[1..], now);
  }

  /** No entry of the index is later than now. */
  lemma PfIndexPast(index: seq<Entry<OID>>, procs: ProcessTable, now: int)
    requires PfIndexed(index, procs) && PfTimely(procs, now)
    ensures forall i :: 0 <= i < |index| ==> index[i].time <= now
  {
    forall i | 0 <= i < |index| ensures index[i].time <= now {
      assert index[i] in index && index[i].id in Ids(index);
    }
  }

  /** The records that scanning the due processes `order` leaves. */
  function ProcOffers(procs: ProcessTable, order: seq<OID>, now: int, nowNs: int): seq<Record>
    requires forall o :: o in order ==> o in procs && procs[o].pfo.Some?
  {
    if order == [] then []
    else
      var o := order[|order| - 1];
      var f := procs[o].pfo.value;
      ProcOffers(procs, order[..|order| - 1], now, nowNs)
      + (if now - f.lastUpdate >= EXPIRE_INTERVAL then [] else OfferedProc(o, f.(endTs := nowNs)))
  }

  /** The entries a scan of the processes `order` puts back. */
  function PfRenewals(procs: ProcessTable, order: seq<OID>, now: int): seq<Entry<OID>>
    requires forall o :: o in order ==> o in procs && procs[o].pfo.Some?
  {
    if order == [] then []
    else
      var o := order[|order| - 1];
      PfRenewals(procs, order[..|order| - 1], now)
      + if now - procs[o].pfo.value.lastUpdate >= EXPIRE_INTERVAL then [] else [Entry(now, o)]
  }

  lemma {:induction false} PfRenewalTimes(procs: ProcessTable, order: seq<OID>, now: int)
    requires forall o :: o in order ==> o in procs && procs[o].pfo.Some?
    ensures forall e :: e in PfRenewals(procs, order, now) ==> e.time == now
  {
    if order != [] { PfRenewalTimes(procs, order[..|order| - 1], now); }
  }

  lemma PfRenewalsAppend(procs: ProcessTable, order: seq<OID>, o: OID, now: int)
    requires forall q :: q in order ==> q in procs && procs[q].pfo.Some?
    requires o in procs && procs[o].pfo.Some?
    ensures forall q :: q in order + [o] ==> q in procs && procs[q].pfo.Some?
    ensures PfRenewals(procs, order + [o], now)
            == PfRenewals(procs, order, now)
               + if now - procs[o].pfo.value.lastUpdate >= EXPIRE_INTERVAL then [] else [Entry(now, o)]
  {
    assert (order + [o])[..|order|] == order && (order + [o])[|order|] == o;
  }

  /** The head of the index is the next of the old entries. */
  lemma PfSweepNext(pf0: seq<Entry<OID>>, index: seq<Entry<OID>>, index': seq<Entry<OID>>, procs: ProcessTable,
                    order: seq<OID>, now: int)
    requires forall o :: o in order ==> o in procs && procs[o].pfo.Some?
    requires |order| <= |pf0| && index == pf0[|order|..] + PfRenewals(procs, order, now)
    requires index != [] && now - index[0].time >= EXPORT_INTERVAL
    requires index[0].id in procs && procs[index[0].id].pfo.Some?
    requires index' == index[1..]
                       + if now - procs[index[0].id].pfo.value.lastUpdate >= EXPIRE_INTERVAL then []
                         else [Entry(now, index[0].id)]
    ensures var more := order + [index[0].id];
            && (forall o :: o in more ==> o in procs && procs[o].pfo.Some?)
            && |more| <= |pf0| && index' == pf0[|more|..] + PfRenewals(procs, more, now)
  {
    var n, rest := |order|, PfRenewals(procs, order, now);
    PfRenewalTimes(procs, order, now);
    PfRenewalsAppend(procs, order, index[0].id, now);
    hide PfRenewals;
    assert pf0[n..] == [] ==> index == rest;
    assert index[0] !in rest;
    var more := order + [index[0].id];
    assert index[1..] == pf0[n + 1..] + rest;
  }

  /** A scan over `ps` has handled the processes `order`. */
  ghost predicate PfProgress(ps: ProcessTable, qs: ProcessTable, order: seq<OID>, now: int, nowNs: int) {
    && ps.Keys == qs.Keys && NoDup(order)
    && (forall o :: o in order ==> o in PfDue(ps, now))
    && SameTables(ps, qs) && BornOf(ps, qs, {})
    && (forall o :: o in ps ==>
          qs[o].pfo == if o in order then ProcScan(ps[o].pfo, now, nowNs) else ps[o].pfo)
  }

  /** A due process has not been handled yet; handling it is the next step. */
  lemma PfNext(ps: ProcessTable, qs: ProcessTable, rs: ProcessTable, order: seq<OID>, o: OID, now: int, nowNs: int)
    requires PfProgress(ps, qs, order, now, nowNs) && o in PfDue(qs, now)
    requires qs.Keys == rs.Keys && rs[o].pfo == ProcScan(qs[o].pfo, now, nowNs)
    requires forall q :: q in qs && q != o ==> rs[q].pfo == qs[q].pfo
    requires SameTables(qs, rs) && BornOf(qs, rs, {})
    ensures qs[o].pfo == ps[o].pfo && o !in order
    ensures forall q :: q in order + [o] ==> q in ps && ps[q].pfo.Some?
    ensures PfProgress(ps, rs, order + [o], now, nowNs)
    ensures PfDue(rs, now) == PfDue(qs, now) - {o}
    ensures ProcOffers(ps, order + [o], now, nowNs)
            == ProcOffers(ps, order, now, nowNs)
               + (if now - qs[o].pfo.value.lastUpdate >= EXPIRE_INTERVAL then []
                  else OfferedProc(o, qs[o].pfo.value.(endTs := nowNs)))
  {
    hide OfferedProc, SameTables, BornOf, ProcOffers;
    SameTablesTrans(ps, qs, rs);
    BornTrans(ps, qs, rs, {});
    assert o !in order;
    DueOff(qs, rs, o, now, nowNs);
    OffersNext(ps, order, o, now, nowNs);
  }

  lemma DueOff(qs: ProcessTable, rs: ProcessTable, o: OID, now: int, nowNs: int)
    requires o in PfDue(qs, now) && qs.Keys == rs.Keys && rs[o].pfo == ProcScan(qs[o].pfo, now, nowNs)
    requires forall q :: q in qs && q != o ==> rs[q].pfo == qs[q].pfo
    ensures PfDue(rs, now) == PfDue(qs, now) - {o}
  {
  }

  lemma OffersNext(ps: ProcessTable, order: seq<OID>, o: OID, now: int, nowNs: int)
    requires forall q :: q in order + [o] ==> q in ps && ps[q].pfo.Some?
    ensures o in order + [o] && (forall q :: q in order ==> q in order + [o])
    ensures ProcOffers(ps, order + [o], now, nowNs)
            == ProcOffers(ps, order, now, nowNs)
               + (if now - ps[o].pfo.value.lastUpdate >= EXPIRE_INTERVAL then []
                  else OfferedProc(o, ps[o].pfo.value.(endTs := nowNs)))
  {
    hide OfferedProc;
    assert (order + [o])[..|order|] == order && (order + [o])[|order|] == o;
  }

  /** The head of the index, when it is due. */
  lemma PfHead(x: Flux, o: OID, rank: OID -> nat, now: int)
    requires Coherent(x, rank, {}, now) && x.w.pfSet != [] && x.w.pfSet[0].id == o
    ensures o in x.w.procs && x.w.procs[o].pfo.Some?
    ensures now - x.w.pfSet[0].time >= EXPORT_INTERVAL ==>
      o in PfDue(x.w.procs, now) && ProcDue(x.w.procs[o].pfo.value, now)
  {
    hide Homed, FileRefs, Closed, Declared, Indexed, ContainerRefs, Timely;
    PfIndexedErase(x.w.pfSet, x.w.procs, 0);
  }

  /** What a scan has not handled yet is as old as it was; if it expires with scans at most
      thirty seconds apart, it has seen no operation since its last export. */
  lemma PfUntouched(ps: ProcessTable, qs: ProcessTable, order: seq<OID>, o: OID, check: int, now: int, nowNs: int)
    requires PfProgress(ps, qs, order, now, nowNs) && PfFresh(ps, check) && PfTimely(qs, now)
    requires o in PfDue(qs, now) && now - qs[o].pfo.value.lastUpdate >= EXPIRE_INTERVAL
    ensures now - check <= EXPORT_INTERVAL ==> Idle(qs[o].pfo.value.opFlags)
  {
    assert o !in order && ps[o].pfo == qs[o].pfo;
  }

  lemma ScanTables(ps: ProcessTable, o: OID, p: ProcessObj)
    requires o in ps && p.table == ps[o].table && p.poid == ps[o].poid
    ensures SameTables(ps, ps[o := p]) && BornOf(ps, ps[o := p], {})
  {
  }

  lemma ToldPf(ps: ProcessTable, o: OID, pf: Option<ProcFlow>, log: seq<Record>)
    requires o in ps
    ensures Told(ps, log, WithPf(ps, o, pf), log)
  {
    hide Told, Recorded;
    ToldNone(ps, log, WithPf(ps, o, pf), log);
  }

  lemma PfDueLess(qs: ProcessTable, rs: ProcessTable, o: OID, now: int)
    requires o in PfDue(qs, now) && PfDue(rs, now) == PfDue(qs, now) - {o}
    ensures |PfDue(rs, now)| < |PfDue(qs, now)|
  {
  }

  lemma PfScanStarts(ps: ProcessTable, index: seq<Entry<OID>>, bs: seq<Record>, now: int, nowNs: int)
    ensures index[0..] + PfRenewals(ps, [], now) == index
    ensures PfProgress(ps, ps, [], now, nowNs) && bs + ProcOffers(ps, [], now, nowNs) == bs
    ensures SameTables(ps, ps) && BornOf(ps, ps, {})
  {
  }

  /** When the head is not due, nothing is: stopping early is a full scan. */
  lemma PfScanEnds(ps: ProcessTable, qs: ProcessTable, index: seq<Entry<OID>>, order: seq<OID>, now: int, nowNs: int)
    requires PfProgress(ps, qs, order, now, nowNs) && PfIndexed(index, qs)
    requires index == [] || now - index[0].time < EXPORT_INTERVAL
    ensures forall o :: o in ps ==> o in qs && qs[o].pfo == ProcScan(ps[o].pfo, now, nowNs)
    ensures ps.Keys == qs.Keys && NoDup(order)
    ensures forall o :: o in order <==> o in PfDue(ps, now)
    ensures forall o :: o in order ==> o in ps && ps[o].pfo.Some?
    ensures SameTables(ps, qs) && BornOf(ps, qs, {})
    ensures now > 0 ==> PfFresh(qs, now)
  {
    forall o | o in qs && qs[o].pfo.Some? ensures !ProcDue(qs[o].pfo.value, now) {
      assert o in Ids(index);
      var i :| 0 <= i < |index| && index[i].id == o;
      assert index[i] in index && index[0].time <= index[i].time;
    }
  }

  // ------------------------------------------------------ process events, field by field

  /** No data flow has changed. */
  ghost predicate FlowsStay(x: World, y: World) {
    && y.flows == x.flows && y.hushed == x.hushed && forall q :: TableOf(y.procs, q) == TableOf(x.procs, q)
  }

  /** No process flow has changed, that of `o` excepted. */
  ghost predicate ProcFlowsStay(x: World, y: World, o: Option<OID>) {
    forall q :: Some(q) != o && q in y.procs ==> y.procs[q].pfo == if q in x.procs then x.procs[q].pfo else None
  }

  /** The process flow of the process has taken in threads cloned, exited and failed to be cloned, as
      a new one if need be; nothing is written. */
  ghost predicate Counted(x: World, y: World, ev: Event, op: Op, cloned: int, exited: int, errors: int, now: int) {
    var o := ProcessOf(ev);
    && FlowsStay(x, y) && Behaviors(y.log) == Behaviors(x.log) && ProcFlowsStay(x, y, Some(o))
    && o in y.procs
    && y.procs[o].pfo == Some(
         if o in x.procs && x.procs[o].pfo.Some?
         then var (f, c) := (x.procs[o].pfo.value, x.procs[o].pfo.value.cnt);
              ProcFlow(f.exportTime, now, f.ts, f.endTs, f.opFlags + {op},
                       Tally(c.rOps, c.wOps, c.rBytes, c.wBytes, c.cloned + cloned, c.exited + exited,
                             c.errors + errors))
         else ProcFlow(now, now, ev.ts, 0, {op}, Tally(0, 0, 0, 0, cloned, exited, errors)))
  }

  /** The event is reported, and nothing else happens. */
  ghost predicate Reported(x: World, y: World, ev: Event, op: Op) {
    && FlowsStay(x, y) && ProcFlowsStay(x, y, None)
    && Behaviors(y.log) == Behaviors(x.log) + [ProcEventRec(op, ProcessOf(ev), ev.tid, ev.ret, ev.ts)]
  }

  /** The flow ends with the thread: it belongs to it, or is akin to one that does. */
  ghost predicate EndsWithThread(flows: FlowHeap, o: OID, tid: int, id: FlowId)
    requires id in flows
  {
    flows[id].rec.tid == tid
    || exists j :: j in flows && flows[j].rec.procOID == o && flows[j].rec.tid == tid && Akin(flows[id], flows[j])
  }

  /** The process flow ends at the time of the event; then the data flows `gone`, exactly those of the
      thread, or of the process when its main thread exits, are cut off; then the event is reported. */
  ghost predicate Left(cfg: Config, x: World, y: World, ev: Event, nowNs: int, gone: seq<FlowId>) {
    var o := ProcessOf(ev);
    var counts := o in x.procs && x.procs[o].pfo.Some? && cfg.processFlow && Busy(x.procs[o].pfo.value.opFlags);
    && NoDup(gone)
    && (forall id :: id in gone <==>
          && id in x.flows && x.flows[id].rec.procOID == o
          && (ev.isMain || ev.tid == -1 || EndsWithThread(x.flows, o, ev.tid, id)))
    && (forall id :: id in y.flows <==> id in x.flows && id !in gone)
    && (forall id :: id in y.flows ==> y.flows[id] == x.flows[id])
    && ProcFlowsStay(x, y, Some(o)) && o in y.procs && y.procs[o].pfo == None
    && (ev.isMain ==> y.procs[o].table == map[])
    && var writing := Only(gone, Reporting(cfg.readMode, x.flows));
    && (forall id :: id in writing ==> id in x.flows)
    && Behaviors(y.log)
       == Behaviors(x.log)
          + (if counts
             then var f := x.procs[o].pfo.value; [ProcFlowRec(o, f.ts, ev.ts, f.opFlags, f.cnt)] else [])
          + RecordsAt(x.flows, writing, nowNs, {Truncate})
          + [ProcEventRec(Exit, o, ev.tid, ev.ret, ev.ts)]
  }

  /** What a process event does: new processes, new images, new users and exits are reported; with
      process flows, new threads, failures and exits of threads are counted instead. */
  ghost predicate ProcActed(cfg: Config, x: World, y: World, ev: Event, now: int, nowNs: int, gone: seq<FlowId>)
    requires ev.call.ProcCall?
  {
    var op, ret := ev.call.op, I32(ev.ret);
    && y.queue == x.queue + (if op == Exit && ev.isMain then [OIDObj(ProcessOf(ev), now)] else [])
    && match op
       case Clone =>
         if !cfg.processFlow || (ev.isMain && ret == 0) || (ret > 0 && !ev.call.cloneThread)
         then Reported(x, y, ev, Clone)
         else Counted(x, y, ev, Clone, if ret == 0 then 1 else 0, 0, if ret == -1 then 1 else 0, now)
       case Exit =>
         if cfg.processFlow && !ev.isMain then Counted(x, y, ev, Exit, 0, 1, 0, now)
         else Left(cfg, x, y, ev, nowNs, gone)
       case Exec => Reported(x, y, ev, Exec)
       case SetUid => Reported(x, y, ev, SetUid)
       case _ => FlowsStay(x, y) && ProcFlowsStay(x, y, None) && Behaviors(y.log) == Behaviors(x.log)
  }

  /** The process flow `f` after one more operation. */
  lemma CountsOne(f: ProcFlow, op: Op, ret: int, now: int)
    ensures var c := f.cnt;
            op == Exit || op == Clone ==>
              UpdatedProc(f, op, ret, now)
              == ProcFlow(f.exportTime, now, f.ts, f.endTs, f.opFlags + {op},
                          Tally(c.rOps, c.wOps, c.rBytes, c.wBytes,
                                c.cloned + if op == Clone && I32(ret) == 0 then 1 else 0,
                                c.exited + if op == Exit then 1 else 0,
                                c.errors + if op == Clone && I32(ret) == -1 then 1 else 0))
  {
  }

  lemma CountsThreads(x: World, y: World, ev: Event, op: Op, now: int)
    requires ThreadCounted(x.procs, Behaviors(x.log), y.procs, Behaviors(y.log), ev, op, now) && FlowsStay(x, y)
    requires op == Clone || op == Exit
    ensures Counted(x, y, ev, op, if op == Clone && I32(ev.ret) == 0 then 1 else 0, if op == Exit then 1 else 0,
                    if op == Clone && I32(ev.ret) == -1 then 1 else 0, now)
  {
    hide Behaviors, UpdatedProc, FlowsStay;
    var o := ProcessOf(ev);
    CountsOne(FlowFor(x.procs, ev, op, now), op, ev.ret, now);
    assert {op} + {op} == {op};
    assert ProcFlowsStay(x, y, Some(o));
  }

  lemma LeavesMeans(flows: FlowHeap, o: OID, tid: int, id: FlowId)
    ensures Leaves(flows, o, tid, id)
       <==> id in flows && flows[id].rec.procOID == o && (tid == -1 || EndsWithThread(flows, o, tid, id))
  {
    hide Related, Akin;
    forall j | id in flows && j in flows
      ensures KinOf(flows, o, tid, id, j)
         <==> && flows[id].rec.procOID == o && flows[j].rec.procOID == o && flows[j].rec.tid == tid
              && Akin(flows[id], flows[j])
    {
      RelatedIsAkin(flows[id], flows[j]);
    }
  }

  lemma ExitLeaves(cfg: Config, x: World, y: World, ev: Event, nowNs: int, gone: seq<FlowId>)
    requires ExitedBy(cfg, x, y, ev, nowNs, gone)
    ensures Left(cfg, x, y, ev, nowNs, gone)
  {
    hide Behaviors, Leaves, EndsWithThread, ExitDone, Homed, Only, Reporting, RecordsAt, CutAll, Offers, Withhelds,
         Idle, Busy;
    var o, tid := ProcessOf(ev), if ev.isMain then -1 else ev.tid;
    forall id ensures Leaves(x.flows, o, tid, id)
                 <==> && id in x.flows && x.flows[id].rec.procOID == o
                      && (ev.isMain || ev.tid == -1 || EndsWithThread(x.flows, o, ev.tid, id))
    {
      LeavesMeans(x.flows, o, tid, id);
    }
    LeaversLive(x.flows, o, tid);
    CutRecords(cfg.readMode, x.flows, gone, nowNs);
    OnlyIs(gone, Reporting(cfg.readMode, x.flows));
    if o in x.procs && x.procs[o].pfo.Some? { BusyOrIdle(x.procs[o].pfo.value.opFlags); }
  }

  lemma LeaversLive(flows: FlowHeap, o: OID, tid: int)
    ensures forall id :: Leaves(flows, o, tid, id) ==> id in flows
  {
  }

  /** The specified effect of a process event is what its fields say. */
  lemma ProcDidActs(cfg: Config, x: World, y: World, ev: Event, now: int, nowNs: int, gone: seq<FlowId>)
    requires ev.call.ProcCall? && ProcDid(cfg, x, y, ev, now, nowNs, gone)
    ensures ProcActed(cfg, x, y, ev, now, nowNs, gone)
  {
    hide Behaviors, ExitedBy, ThreadCounted, Left, Counted, TableOf;
    if ev.call.op == Exit && (ev.isMain || !cfg.processFlow) {
      ExitLeaves(cfg, x, y, ev, nowNs, gone);
    } else if CountsThread(cfg, ev) {
      CountsThreads(x, y, ev, ev.call.op, now);
    }
  }

  /** What a scan makes of the process flows: those due without an operation for sixty seconds are gone,
      the others due start afresh, and the rest are as they were. */
  ghost predicate ProcSwept(ps: ProcessTable, qs: ProcessTable, now: int, nowNs: int) {
    forall o :: o in ps && o in qs ==>
      qs[o].pfo == if ps[o].pfo.None? || now - ps[o].pfo.value.exportTime < 30 then ps[o].pfo
                   else if now - ps[o].pfo.value.lastUpdate >= 60 then None
                   else Some(ProcFlow(now, ps[o].pfo.value.lastUpdate, nowNs, 0, {}, Tally(0, 0, 0, 0, 0, 0, 0)))
  }

  lemma ScanSweepsProcs(ps: ProcessTable, qs: ProcessTable, now: int, nowNs: int)
    requires forall o :: o in qs ==> o in ps && qs[o].pfo == ProcScan(ps[o].pfo, now, nowNs)
    ensures ProcSwept(ps, qs, now, nowNs)
  {
  }

  /** The processes whose flow a scan writes. */
  ghost function Counting(procs: ProcessTable, now: int): set<OID> {
    set o | && o in procs && procs[o].pfo.Some? && Busy(procs[o].pfo.value.opFlags)
            && now - procs[o].pfo.value.exportTime >= 30 && now - procs[o].pfo.value.lastUpdate < 60
  }

  ghost function ProcRecordsAt(procs: ProcessTable, os: seq<OID>, endTs: int): seq<Record>
    requires forall o :: o in os ==> o in procs && procs[o].pfo.Some?
  {
    seq(|os|, i requires 0 <= i < |os| =>
      var f := procs[os[i]].pfo.value;
      ProcFlowRec(os[i], f.ts, endTs, f.opFlags, f.cnt))
  }

  /** The records of a scan: one for each process flow it writes. */
  lemma {:induction false} ProcScanRecords(procs: ProcessTable, order: seq<OID>, now: int, nowNs: int)
    requires forall o :: o in order ==> o in procs && procs[o].pfo.Some? && now - procs[o].pfo.value.exportTime >= 30
    ensures forall o :: o in Only(order, Counting(procs, now)) ==> o in procs && procs[o].pfo.Some?
    ensures ProcOffers(procs, order, now, nowNs)
            == ProcRecordsAt(procs, Only(order, Counting(procs, now)), nowNs)
  {
    hide Idle, Busy, ProcRecordsAt;
    var all := Counting(procs, now);
    OnlyIs(order, all);
    NoProcRecords(procs, nowNs);
    if order != [] {
      var n := |order| - 1;
      var front, o := order[..n], order[n];
      ProcScanRecords(procs, front, now, nowNs);
      OnlyIs(front, all);
      BusyOrIdle(procs[o].pfo.value.opFlags);
      ProcRecordsMore(procs, Only(front, all), o, nowNs);
      assert Only(order, all) == if o in all then Only(front, all) + [o] else Only(front, all);
    }
  }

  lemma NoProcRecords(procs: ProcessTable, endTs: int)
    ensures ProcRecordsAt(procs, [], endTs) == []
  {
  }

  lemma ProcRecordsMore(procs: ProcessTable, os: seq<OID>, o: OID, endTs: int)
    requires o in procs && procs[o].pfo.Some? && forall q :: q in os ==> q in procs && procs[q].pfo.Some?
    ensures var f := procs[o].pfo.value;
            ProcRecordsAt(procs, os + [o], endTs)
            == ProcRecordsAt(procs, os, endTs) + [ProcFlowRec(o, f.ts, endTs, f.opFlags, f.cnt)]
  {
  }

  /** The trace `to` continues `from` with the records of a scan of the process flows. */
  ghost predicate ProcSweepWrote(procs: ProcessTable, order: seq<OID>, from: seq<Record>, to: seq<Record>, now: int,
                                 nowNs: int)
  {
    && (forall o :: o in Only(order, Counting(procs, now)) ==> o in procs && procs[o].pfo.Some?)
    && Behaviors(to) == Behaviors(from) + ProcRecordsAt(procs, Only(order, Counting(procs, now)), nowNs)
  }

  /** Each process flow is as a full scan leaves it; the due ones were handled in the order of the index. */
  ghost predicate ProcsScanned(x: World, y: World, order: seq<OID>, now: int, nowNs: int)
    requires forall o :: o in order ==> o in x.procs && x.procs[o].pfo.Some?
  {
    && y.procs.Keys == x.procs.Keys && order == DueOrder(x.pfSet, now) && |order| <= |x.pfSet|
    && y.pfSet == x.pfSet[|order|..] + PfRenewals(x.procs, order, now)
    && PfIndexed(x.pfSet, x.procs) && (forall o :: o in order <==> o in PfDue(x.procs, now))
    && (forall o :: o in y.procs ==> y.procs[o].pfo == ProcScan(x.procs[o].pfo, now, nowNs))
    && ProcSwept(x.procs, y.procs, now, nowNs) && ProcSweepWrote(x.procs, order, x.log, y.log, now, nowNs)
  }

  lemma ProcScanMeans(ps: ProcessTable, qs: ProcessTable, order: seq<OID>, from: seq<Record>, to: seq<Record>, now: int,
                      nowNs: int)
    requires forall o :: o in order ==> o in PfDue(ps, now) && o in ps && ps[o].pfo.Some?
    requires forall o :: o in qs ==> o in ps && qs[o].pfo == ProcScan(ps[o].pfo, now, nowNs)
    requires Behaviors(to) == Behaviors(from) + ProcOffers(ps, order, now, nowNs)
    ensures ProcSwept(ps, qs, now, nowNs) && ProcSweepWrote(ps, order, from, to, now, nowNs)
  {
    hide Behaviors, ProcOffers, Only, Counting, ProcRecordsAt;
    ScanSweepsProcs(ps, qs, now, nowNs);
    ProcScanRecords(ps, order, now, nowNs);
  }

  /** When the head of the index is not due, the scan is complete. */
  lemma ScanCompletes(x: World, y: World, order: seq<OID>, now: int, nowNs: int)
    requires PfProgress(x.procs, y.procs, order, now, nowNs)
    requires forall o :: o in order ==> o in x.procs && x.procs[o].pfo.Some?
    requires PfIndexed(x.pfSet, x.procs) && PfIndexed(y.pfSet, y.procs)
    requires y.pfSet == [] || now - y.pfSet[0].time < EXPORT_INTERVAL
    requires order + DueOrder(y.pfSet, now) == DueOrder(x.pfSet, now)
    requires Behaviors(y.log) == Behaviors(x.log) + ProcOffers(x.procs, order, now, nowNs)
    requires |order| <= |x.pfSet| && y.pfSet == x.pfSet[|order|..] + PfRenewals(x.procs, order, now)
    ensures ProcsScanned(x, y, order, now, nowNs) && NoDup(order)
    ensures SameTables(x.procs, y.procs) && BornOf(x.procs, y.procs, {}) && (now > 0 ==> PfFresh(y.procs, now))
  {
    hide PfProgress, PfIndexed, Behaviors, ProcOffers, PfRenewals, SameTables, BornOf, PfDue, ProcScan, ProcSwept,
         ProcSweepWrote, PfFresh;
    assert order + [] == order;
    PfScanEnds(x.procs, y.procs, y.pfSet, order, now, nowNs);
    ProcScanMeans(x.procs, y.procs, order, x.log, y.log, now, nowNs);
  }

  class ControlFlowProcessor {
    const dfPrcr: DataFlowProcessor
    const processCxt: ProcessContext := dfPrcr.processCxt
    const fileCxt: FileContext := dfPrcr.fileCxt
    const containerCxt: ContainerContext := dfPrcr.containerCxt
    const writer: Writer := dfPrcr.writer
    const cxt: SysFlowContext := dfPrcr.cxt
    ghost const rank: OID -> nat := dfPrcr.rank

    var lastCheck: int
    ghost var pfLost: Tally    // counters of process flows that expired unwritten

    constructor (dfPrcr: DataFlowProcessor)
      ensures this.dfPrcr == dfPrcr && lastCheck == 0 && pfLost == ZERO
    {
      this.dfPrcr := dfPrcr;
      lastCheck, pfLost := 0, ZERO;
    }

    ghost predicate Valid()
      reads this, dfPrcr, processCxt, fileCxt, containerCxt, writer, cxt
    {
      Sound() && PfFresh(processCxt.procs, lastCheck) && lastCheck <= cxt.now
    }

    /** The agreements, whatever is due. */
    ghost predicate Sound()
      reads this, dfPrcr, processCxt, fileCxt, containerCxt, writer, cxt
    {
      && dfPrcr.Valid() && PfTimely(processCxt.procs, cxt.now)
      && (cxt.cfg.processFlow || processCxt.pfSet == [])
    }

    ghost function Grand(): Tally
      reads this, dfPrcr, processCxt, fileCxt, containerCxt, writer
    {
      GrandTotal(dfPrcr.State(), processCxt.discarded, pfLost)
    }

    /** `getProcess` for a process event. */
    method BeginEvent(ev: Event, state: ObjectState) returns (o: OID, created: bool)
      requires Valid() && Climbable(processCxt.procs, ev.task, rank, processCxt.tidy)
      modifies processCxt`procs, containerCxt`containers, writer`log
      ensures Valid() && o == OidOf(ev.task) && o in processCxt.procs && Proc(o) in Declared(writer.log)
      ensures processCxt.procs[o].written
      ensures created == (o !in old(processCxt.procs)) && Continues(old(writer.log), writer.log)
      ensures Grand() == old(Grand())
      ensures Kept(old(processCxt.procs), processCxt.procs, Born(old(processCxt.procs), ev.task))
      ensures SameTables(old(processCxt.procs), processCxt.procs)
      ensures LookedUp(ev, state, old(processCxt.Snapshot()), processCxt.Snapshot(), false)
      ensures Behaviors(writer.log) == Behaviors(old(writer.log))
    {
      hide Coherent, Fresh, Total, LiveProc, PfTimely, PfFresh, PfKept, KeepsFlows, Declared, Behaviors, Closed,
           GrandTotal, Plus, BornOf, Born, SameTables, OtherTables, LookedUp;
      ghost var x := dfPrcr.State();
      o, created := dfPrcr.BeginEvent(ev, state);
      KeepsTables(x.w.procs, processCxt.procs, o);
      PfKeptTimes(x.w.procs, processCxt.procs, lastCheck, cxt.now);
      PlusLaws(Total(x), ZERO, ZERO);
      GrandSame(x, dfPrcr.State(), ZERO, processCxt.discarded, pfLost);
      PlusLaws(GrandTotal(x, processCxt.discarded, pfLost), ZERO, ZERO);
    }

    /** Changes or creates the process flow of a cached process. */
    method SetProcFlow(o: OID, f: ProcFlow, ghost c: Tally)
      requires Valid() && lastCheck > 0 && o in processCxt.procs && cxt.cfg.processFlow
      requires f.lastUpdate == cxt.now && !Idle(f.opFlags)
      requires f.exportTime
               == (if processCxt.procs[o].pfo.Some? then processCxt.procs[o].pfo.value.exportTime else cxt.now)
      requires f.cnt == Plus(PfCount(processCxt.procs[o].pfo), c)
      modifies processCxt`procs, processCxt`pfSet
      ensures Valid() && processCxt.procs == WithPf(old(processCxt.procs), o, Some(f))
      ensures processCxt.pfSet == PfCounted(old(processCxt.pfSet), old(processCxt.procs), o, f.exportTime)
      ensures Grand() == Plus(old(Grand()), c)
    {
      hide Coherent, Fresh, Total, LiveProc, GrandTotal, Plus, PfIndexed;
      ghost var x := dfPrcr.State();
      PfIndexOf(x, rank, cxt.now);
      if processCxt.procs[o].pfo.None? {
        PfIndexedInsert(processCxt.pfSet, processCxt.procs, o, f);
        processCxt.pfSet := Insert(processCxt.pfSet, Entry(f.exportTime, o));
      } else {
        PfInPlace(processCxt.pfSet, processCxt.procs, o, f);
      }
      processCxt.procs := processCxt.procs[o := processCxt.procs[o].(pfo := Some(f))];
      CoherentPf(x, dfPrcr.State(), o, Some(f), rank, cxt.now);
      GrandCharge(x, dfPrcr.State(), o, processCxt.procs[o], c, processCxt.discarded, pfLost);
    }

    /** A thread was cloned or exited: its process flow counts it. */
    method CountThread(ev: Event, op: Op)
      requires Valid() && lastCheck > 0 && Climbable(processCxt.procs, ev.task, rank, processCxt.tidy) && !op.Truncate?
      requires cxt.cfg.processFlow
      modifies processCxt`procs, processCxt`pfSet, containerCxt`containers, writer`log
      ensures Valid() && Continues(old(writer.log), writer.log)
      ensures ThreadCounted(old(processCxt.procs), Behaviors(old(writer.log)), processCxt.procs, Behaviors(writer.log),
                            ev, op, cxt.now)
      ensures SameTables(old(processCxt.procs), processCxt.procs)
      ensures BornOf(old(processCxt.procs), processCxt.procs, Born(old(processCxt.procs), ev.task))
      ensures LookedUp(ev, Reup, old(processCxt.Snapshot()), processCxt.Snapshot(), false)
      ensures processCxt.pfSet == PfCounted(old(processCxt.pfSet), old(processCxt.procs), OidOf(ev.task), cxt.now)
      ensures Grand() == Plus(old(Grand()), ThreadCharge(op, ev.ret))
    {
      hide Coherent, Fresh, Total, LiveProc, GrandTotal, PfTimely, PfFresh, Declared, Plus, ThreadCharge, Climbable,
           BornOf, Born, SameTables, Behaviors, PfKept, PfKeptBut, UpdatedProc, LookedUp, Recorded, Marked;
      var o, _ := BeginEvent(ev, Reup);
      ghost var ps, m := processCxt.procs, processCxt.Snapshot();
      var f := AddThread(ev, o, op);
      OneCounted(old(processCxt.procs), ps, o, f, Born(old(processCxt.procs), ev.task));
      LookedStill(ev, Reup, old(processCxt.Snapshot()), m, processCxt.Snapshot());
    }

    /** Counts the thread in the process flow of a cached process. */
    method AddThread(ev: Event, o: OID, op: Op) returns (f: ProcFlow)
      requires Valid() && lastCheck > 0 && cxt.cfg.processFlow && o in processCxt.procs && o == OidOf(ev.task)
      requires !op.Truncate?
      modifies processCxt`procs, processCxt`pfSet
      ensures Valid() && processCxt.procs == WithPf(old(processCxt.procs), o, Some(f))
      ensures processCxt.pfSet == PfCounted(old(processCxt.pfSet), old(processCxt.procs), o, cxt.now)
      ensures f == UpdatedProc(FlowFor(old(processCxt.procs), ev, op, cxt.now), op, ev.ret, cxt.now)
      ensures Grand() == Plus(old(Grand()), ThreadCharge(op, ev.ret))
    {
      hide Coherent, Fresh, Total, LiveProc, GrandTotal, PfTimely, PfFresh, Plus, ThreadCharge, UpdatedProc;
      var f0 := if processCxt.procs[o].pfo.Some? then processCxt.procs[o].pfo.value
                else ProcFlow(cxt.now, cxt.now, ev.ts, 0, {op}, ZERO);
      f := UpdatedProc(f0, op, ev.ret, cxt.now);
      UpdatedProcFacts(f0, op, ev.ret, cxt.now);
      SetProcFlow(o, f, ThreadCharge(op, ev.ret));
    }

    /** Writes the process flow of an exiting process for the last time and removes it. */
    method RemoveAndWriteProcessFlow(o: OID, endTs: int)
      requires Valid() && o in processCxt.procs && processCxt.procs[o].pfo.Some? && Proc(o) in Declared(writer.log)
      modifies processCxt`procs, processCxt`pfSet, writer`log
      ensures Valid() && processCxt.procs == WithPf(old(processCxt.procs), o, None)
      ensures processCxt.pfSet == Without(old(processCxt.pfSet), {o})
      ensures Continues(old(writer.log), writer.log) && Grand() == old(Grand())
      ensures Behaviors(writer.log) == Behaviors(old(writer.log))
                + OfferedProc(o, old(processCxt.procs)[o].pfo.value.(endTs := endTs))
      ensures Recorded(writer.log) == Recorded(old(writer.log))
    {
      hide Coherent, Fresh, Total, LiveProc, GrandTotal, Plus, Declared, Behaviors, Idle, OfferedProc;
      ghost var x := dfPrcr.State();
      PfIndexOf(x, rank, cxt.now);
      HonestPf(x, o, rank, cxt.now);
      var f := processCxt.procs[o].pfo.value.(endTs := endTs);
      WriteDeclared(o, f);
      DropProcessFlow(o);
      GrandOffer(x, dfPrcr.State(), o, f, processCxt.procs[o], processCxt.discarded, pfLost);
    }

    method WriteDeclared(o: OID, f: ProcFlow)
      requires Coherent(dfPrcr.State(), rank, {}, cxt.now) && Proc(o) in Declared(writer.log)
      modifies writer`log
      ensures Coherent(dfPrcr.State(), rank, {}, cxt.now) && Continues(old(writer.log), writer.log)
      ensures Behaviors(writer.log) == Behaviors(old(writer.log)) + OfferedProc(o, f)
      ensures Recorded(writer.log) == Recorded(old(writer.log))
    {
      hide Coherent, Declared, Behaviors, Closed, OfferedProc;
      ghost var x := dfPrcr.State();
      ClosedLog(x, {}, rank, cxt.now);
      writer.WriteProcessFlow(o, f);
      CoherentLog(x, dfPrcr.State(), {}, rank, cxt.now);
    }

    method DropProcessFlow(o: OID)
      requires Coherent(dfPrcr.State(), rank, {}, cxt.now) && o in processCxt.procs && processCxt.procs[o].pfo.Some?
      modifies processCxt`procs, processCxt`pfSet
      ensures Coherent(dfPrcr.State(), rank, {}, cxt.now)
      ensures processCxt.procs == WithPf(old(processCxt.procs), o, None)
      ensures processCxt.pfSet == Without(old(processCxt.pfSet), {o})
    {
      hide Coherent, PfIndexed;
      ghost var x := dfPrcr.State();
      PfIndexOf(x, rank, cxt.now);
      var removed := processCxt.RemoveProcessFromSet(o);
      CoherentPf(x, dfPrcr.State(), o, None, rank, cxt.now);
    }

    // -------------------------------------------------------- process events

    /** Writes the record of a process event; its process is declared. */
    method WriteEvent(r: Record)
      requires Valid() && r.ProcEventRec? && Proc(r.procOID) in Declared(writer.log)
      modifies writer`log
      ensures Valid() && writer.log == old(writer.log) + [r]
      ensures Behaviors(writer.log) == Behaviors(old(writer.log)) + [r]
      ensures Recorded(writer.log) == Recorded(old(writer.log))
      ensures Continues(old(writer.log), writer.log) && Grand() == old(Grand())
    {
      hide Coherent, Fresh, Total, LiveProc, PfTimely, PfFresh, Declared, Behaviors, Closed, GrandTotal, Plus;
      dfPrcr.WriteEvent(r);
      GrandUnchanged(old(dfPrcr.State()), dfPrcr.State(), processCxt.discarded, pfLost);
    }

    /** A process replaced its image or its user: its record is written again. */
    method UpdateProcess(o: OID, ts: int)
      requires Valid() && o in processCxt.procs
      modifies processCxt`procs, writer`log
      ensures Valid() && Proc(o) in Declared(writer.log) && AddsEntities(old(writer.log), writer.log)
      ensures processCxt.procs
              == old(processCxt.procs)[o := old(processCxt.procs)[o].(state := Modified, ts := ts, written := true)]
      ensures EndsWith(writer.log,
                       ProcessRec(o, processCxt.procs[o].poid, processCxt.procs[o].containerId, Modified, ts))
      ensures Grand() == old(Grand()) && Kept(old(processCxt.procs), processCxt.procs, {})
      ensures SameTables(old(processCxt.procs), processCxt.procs)
      ensures Recorded(writer.log) == Recorded(old(writer.log)) + [RecordOf(o, processCxt.procs[o])]
      ensures Follows(old(processCxt.procs), processCxt.procs, o, true, ts)
    {
      hide PfKept, BornOf, SameTables;
      hide Standing, FilesWritten, Fresh, Total, LiveProc, Declared, Behaviors, Closed, GrandTotal, Plus, Indexed,
           Timely;
      ghost var x := dfPrcr.State();
      var p := processCxt.procs[o].(state := Modified, ts := ts);
      processCxt.WriteProcess(o, p);
      RewrittenTables(x.w.procs, o, p.(written := true));
      Rewritten(x.w, processCxt.Snapshot(), o, p, rank);
      TotalLog(x, dfPrcr.State());
      GrandUnchanged(x, dfPrcr.State(), processCxt.discarded, pfLost);
    }

    /** Clone: the record of the event, after that of its process. */
    method WriteCloneEvent(ev: Event)
      requires Valid() && Climbable(processCxt.procs, ev.task, rank, processCxt.tidy)
      modifies processCxt`procs, containerCxt`containers, writer`log
      ensures Valid() && Continues(old(writer.log), writer.log) && Grand() == old(Grand())
      ensures Kept(old(processCxt.procs), processCxt.procs, Born(old(processCxt.procs), ev.task))
      ensures SameTables(old(processCxt.procs), processCxt.procs)
      ensures EndsWith(writer.log, ProcEventRec(Clone, OidOf(ev.task), ev.tid, ev.ret, ev.ts))
      ensures Behaviors(writer.log)
              == Behaviors(old(writer.log)) + [ProcEventRec(Clone, OidOf(ev.task), ev.tid, ev.ret, ev.ts)]
      ensures LookedUp(ev, Created, old(processCxt.Snapshot()), processCxt.Snapshot(), false)
    {
      hide Coherent, Fresh, Total, LiveProc, PfTimely, PfFresh, PfKept, BornOf, Born, SameTables, Declared, Behaviors,
           Closed, GrandTotal, Plus, LookedUp, Recorded;
      var o, _ := BeginEvent(ev, Created);
      ghost var m := processCxt.Snapshot();
      WriteEvent(ProcEventRec(Clone, o, ev.tid, ev.ret, ev.ts));
      LookedStill(ev, Created, old(processCxt.Snapshot()), m, processCxt.Snapshot());
    }

    /** Exec and setuid: a process that was cached before is written again, as modified, and
        then the event. */
    method WriteUpdateEvent(ev: Event, op: Op, state: ObjectState)
      requires Valid() && Climbable(processCxt.procs, ev.task, rank, processCxt.tidy)
      modifies processCxt`procs, containerCxt`containers, writer`log
      ensures Valid() && Continues(old(writer.log), writer.log) && Grand() == old(Grand())
      ensures Kept(old(processCxt.procs), processCxt.procs, Born(old(processCxt.procs), ev.task))
      ensures SameTables(old(processCxt.procs), processCxt.procs)
      ensures EndsWith(writer.log, ProcEventRec(op, OidOf(ev.task), ev.tid, ev.ret, ev.ts))
      ensures Behaviors(writer.log)
              == Behaviors(old(writer.log)) + [ProcEventRec(op, OidOf(ev.task), ev.tid, ev.ret, ev.ts)]
      ensures OidOf(ev.task) in old(processCxt.procs) ==>
        && OidOf(ev.task) in processCxt.procs && |writer.log| >= 2
        && var p := processCxt.procs[OidOf(ev.task)];
           && p.state == Modified && p.ts == ev.ts
           && writer.log[|writer.log| - 2] == ProcessRec(OidOf(ev.task), p.poid, p.containerId, Modified, ev.ts)
      ensures LookedUp(ev, state, old(processCxt.Snapshot()), processCxt.Snapshot(),
                       OidOf(ev.task) in old(processCxt.procs))
    {
      hide Coherent, Fresh, Total, LiveProc, PfTimely, PfFresh, PfKept, BornOf, Born, SameTables, Declared, Behaviors,
           Closed, GrandTotal, Plus, Climbable, LookedUp, Recorded, Marked, Segments, Follows;
      var o, created := BeginEvent(ev, state);
      ghost var m := processCxt.Snapshot();
      if !created {
        ghost var ps := processCxt.procs;
        UpdateProcess(o, ev.ts);
        KeptTrans(old(processCxt.procs), ps, processCxt.procs, Born(old(processCxt.procs), ev.task));
        SameTablesTrans(old(processCxt.procs), ps, processCxt.procs);
      }
      WriteEvent(ProcEventRec(op, o, ev.tid, ev.ret, ev.ts));
      MarkedSame(m.procs);
      if created {
        LookedStill(ev, state, old(processCxt.Snapshot()), m, processCxt.Snapshot());
      } else {
        LookedThen(ev, state, old(processCxt.Snapshot()), m, processCxt.Snapshot(), true);
      }
    }

    /** Exit: the flows of the thread, or of the whole process, are written and removed, then
        the event is written; a process whose main thread exits waits for its deletion. */
    method WriteExitEvent(ev: Event) returns (ghost gone: seq<FlowId>)
      requires Valid() && Climbable(processCxt.procs, ev.task, rank, processCxt.tidy)
      modifies processCxt`procs, processCxt`flows, processCxt`delProcQue, dfPrcr`dfSet, writer`hushed,
               fileCxt`files, containerCxt`containers, writer`log
      ensures Valid() && Continues(old(writer.log), writer.log) && Grand() == old(Grand())
      ensures Kept(old(processCxt.procs), processCxt.procs, Born(old(processCxt.procs), ev.task))
      ensures OtherTables(old(processCxt.procs), processCxt.procs, OidOf(ev.task)) && OidOf(ev.task) in processCxt.procs
      ensures EndsWith(writer.log, ProcEventRec(Exit, OidOf(ev.task), ev.tid, ev.ret, ev.ts))
      ensures processCxt.delProcQue
              == old(processCxt.delProcQue) + if ev.isMain then [OIDObj(OidOf(ev.task), cxt.now)] else []
      ensures LeftBy(cxt.cfg, old(processCxt.Snapshot()), processCxt.Snapshot(), ev, cxt.nowNs, gone)
      ensures Reindexed(old(processCxt.flows), old(dfPrcr.dfSet), processCxt.flows, dfPrcr.dfSet)
      ensures LookedUp(ev, Reup, old(processCxt.Snapshot()), processCxt.Snapshot(), false)
    {
      hide Coherent, Fresh, Total, LiveProc, PfTimely, PfFresh, PfKept, BornOf, Born, SameTables, OtherTables,
           Declared, Behaviors, Closed, GrandTotal, Plus, Climbable, Offers, Withhelds, ExitDone, Departed, Leaves,
           LookedUp, Recorded, Marked, Without, Reindexed, Segments, LeftBy, CutAll, Then;
      var o, _ := BeginEvent(ev, Reup);
      ghost var ps, x := processCxt.procs, processCxt.Snapshot();
      gone := RetireFlows(o, if ev.isMain then -1 else ev.tid);
      KeptTrans(old(processCxt.procs), ps, processCxt.procs, Born(old(processCxt.procs), ev.task));
      SameThenOther(old(processCxt.procs), ps, processCxt.procs, o);
      ghost var y := processCxt.Snapshot();
      DepartedMeans(x, y, gone, cxt.cfg.readMode, cxt.nowNs);
      ReindexedBy(x.flows, old(dfPrcr.dfSet), y.flows, dfPrcr.dfSet, Elems(gone));
      WriteEvent(ProcEventRec(Exit, o, ev.tid, ev.ret, ev.ts));
      Retire(o, ev.isMain);
      ExitDoneSame(y, processCxt.Snapshot(), o, if ev.isMain then -1 else ev.tid);
      LookedStill(ev, Reup, old(processCxt.Snapshot()), x, processCxt.Snapshot());
      LeftThen(cxt.cfg, old(processCxt.Snapshot()), x, y, processCxt.Snapshot(), ev, cxt.nowNs, gone);
    }

    /** Writes and removes the data flows of an exiting thread or process. */
    method RetireFlows(o: OID, tid: int) returns (ghost gone: seq<FlowId>)
      requires Valid() && o in processCxt.procs && Proc(o) in Declared(writer.log)
      modifies processCxt`procs, processCxt`flows, dfPrcr`dfSet, writer`hushed, fileCxt`files, writer`log
      ensures Valid() && Continues(old(writer.log), writer.log) && Grand() == old(Grand())
      ensures Kept(old(processCxt.procs), processCxt.procs, {}) && o in processCxt.procs
      ensures OtherTables(old(processCxt.procs), processCxt.procs, o)
      ensures ExitDone(processCxt.Snapshot(), o, true, tid, {}) && ExitDone(processCxt.Snapshot(), o, false, tid, {})
      ensures tid == -1 ==> processCxt.procs[o].table == map[]
      ensures Departed(old(processCxt.Snapshot()), processCxt.Snapshot(), gone, cxt.cfg.readMode, cxt.nowNs)
      ensures forall id :: id in gone <==> Leaves(old(processCxt.flows), o, tid, id)
      ensures Marked(old(processCxt.procs), processCxt.procs)
      ensures dfPrcr.dfSet == Without(old(dfPrcr.dfSet), Elems(gone))
    {
      hide Coherent, Fresh, Total, LiveProc, PfTimely, PfFresh, PfKept, BornOf, OtherTables, Declared, Behaviors,
           Closed, GrandTotal, Plus, ExitDone, Fewer, Departed, Leaves, Marked, Without;
      ghost var x := dfPrcr.State();
      gone := dfPrcr.RemoveAndWriteDFFromProc(o, tid);
      FewerKeepsPf(x.w, processCxt.Snapshot(), o);
      FewerOwner(x.w, processCxt.Snapshot(), o);
      OneTable(x.w.procs, processCxt.procs, o);
      MarkedTable(x.w.procs, o, processCxt.procs[o].table);
      PfKeptTimes(x.w.procs, processCxt.procs, lastCheck, cxt.now);
      GrandUnchanged(x, dfPrcr.State(), processCxt.discarded, pfLost);
    }

    /** Queues a process without data flows for deletion when its main thread exits. */
    method Retire(o: OID, main: bool)
      requires Valid() && (main ==> o in processCxt.procs && processCxt.procs[o].table == map[])
      modifies processCxt`delProcQue
      ensures Valid() && processCxt.delProcQue == old(processCxt.delProcQue) + if main then [OIDObj(o, cxt.now)] else []
      ensures Grand() == old(Grand())
    {
      hide Standing, FilesWritten, Fresh, Total, LiveProc, PfTimely, PfFresh, Declared, Behaviors, Closed, GrandTotal,
           Plus, Indexed, Timely;
      if main {
        ghost var x := dfPrcr.State();
        processCxt.MarkForDeletion(o);
        TotalTables(x, dfPrcr.State());
        KeptRefl(processCxt.procs, {});
        GrandUnchanged(x, dfPrcr.State(), processCxt.discarded, pfLost);
      }
    }

    /** The exit of a main thread first ends the process flow of its process. */
    method EndProcessFlow(ev: Event)
      requires Valid() && Climbable(processCxt.procs, ev.task, rank, processCxt.tidy)
      modifies processCxt`procs, processCxt`pfSet, containerCxt`containers, writer`log
      ensures Valid() && Continues(old(writer.log), writer.log) && Grand() == old(Grand())
      ensures PfKeptBut(old(processCxt.procs), processCxt.procs, OidOf(ev.task))
      ensures OidOf(ev.task) in processCxt.procs && processCxt.procs[OidOf(ev.task)].pfo.None?
      ensures processCxt.procs[OidOf(ev.task)].written && old(processCxt.procs).Keys <= processCxt.procs.Keys
      ensures SameTables(old(processCxt.procs), processCxt.procs)
      ensures BornOf(old(processCxt.procs), processCxt.procs, Born(old(processCxt.procs), ev.task))
      ensures cxt.cfg.processFlow ==>
        Behaviors(writer.log) == Behaviors(old(writer.log)) + LastProcFlow(cxt.cfg, old(processCxt.procs), ev)
      ensures LookedUp(ev, Reup, old(processCxt.Snapshot()), processCxt.Snapshot(), false)
      ensures processCxt.pfSet == Without(old(processCxt.pfSet), {OidOf(ev.task)})
    {
      hide Coherent, Fresh, Total, LiveProc, PfTimely, PfFresh, Declared, Behaviors, Closed, GrandTotal, Plus, BornOf,
           Born, SameTables, OfferedProc, LookedUp, Recorded, Without, Segments, PfIndexed, Insert;
      var o, _ := BeginEvent(ev, Reup);
      PfIndexOf(dfPrcr.State(), rank, cxt.now);
      NotInPfSet(processCxt.pfSet, processCxt.procs, o);
      ghost var ps, m := processCxt.procs, processCxt.Snapshot();
      if processCxt.procs[o].pfo.Some? {
        RemoveAndWriteProcessFlow(o, ev.ts);
        LookedStill(ev, Reup, old(processCxt.Snapshot()), m, processCxt.Snapshot());
        PfTables(ps, o, None);
        SameTablesTrans(old(processCxt.procs), ps, processCxt.procs);
        BornTrans(old(processCxt.procs), ps, processCxt.procs, Born(old(processCxt.procs), ev.task));
      }
    }

    /** A process event does exactly what its operation asks for, adds `ProcCharge` to the
        counters, and unless it comes late, queued processes stay without a process flow.  `gone`
        lists the data flows an exit ends. */
    method HandleProcEvent(ev: Event) returns (ghost gone: seq<FlowId>)
      requires Valid() && lastCheck > 0 && ev.call.ProcCall?
      requires Supported(ev.call.op) ==> Climbable(processCxt.procs, ev.task, rank, processCxt.tidy)
      modifies processCxt`procs, processCxt`flows, processCxt`pfSet, processCxt`delProcQue, dfPrcr`dfSet, writer`hushed,
               fileCxt`files, containerCxt`containers, writer`log
      ensures Valid() && Continues(old(writer.log), writer.log)
      ensures Grand() == Plus(old(Grand()), ProcCharge(cxt.cfg, ev))
      ensures ProcDid(cxt.cfg, old(processCxt.Snapshot()), processCxt.Snapshot(), ev, cxt.now, cxt.nowNs, gone)
      ensures ProcActed(cxt.cfg, old(processCxt.Snapshot()), processCxt.Snapshot(), ev, cxt.now, cxt.nowNs, gone)
      ensures BornOf(old(processCxt.procs), processCxt.procs,
                     if Supported(ev.call.op) then Born(old(processCxt.procs), ev.task) else {})
      ensures PfDoomed(old(processCxt.delProcQue), old(processCxt.procs)) ==>
        Late(cxt.cfg, ev, old(processCxt.delProcQue)) || PfDoomed(processCxt.delProcQue, processCxt.procs)
      ensures processCxt.pfSet
              == PfIndexAfter(cxt.cfg, ev, old(processCxt.pfSet), old(processCxt.procs), cxt.now)
      ensures Reindexed(old(processCxt.flows), old(dfPrcr.dfSet), processCxt.flows, dfPrcr.dfSet)
      ensures Sought(Supported(ev.call.op), ev, StateFor(cxt.cfg, ev), old(processCxt.Snapshot()),
                     processCxt.Snapshot(), Retold(old(processCxt.procs), ev))
    {
      hide Coherent, Fresh, Total, LiveProc, PfTimely, PfFresh, PfKept, Declared, Behaviors, Closed, GrandTotal, Plus,
           Climbable, ThreadCharge, ExitedBy, PfDoomed, PfKeptBut, ThreadCounted, BornOf, Born, SameTables,
           OtherTables, ProcDid, ProcRecord, IsProcessClone, ProcCharge, LookedUp, Recorded, Reindexed, Without,
           PfCounted, Segments, ProcActed;
      ghost var x := processCxt.Snapshot();
      ReindexedSame(x.flows, x.flows, dfPrcr.dfSet);
      ChargeCases(cxt.cfg, ev);
      StateCases(cxt.cfg, ev);
      PlusLaws(Grand(), ZERO, ZERO);
      ghost var q, ps := processCxt.delProcQue, processCxt.procs;
      gone := [];
      match ev.call.op {
        case Exit =>
          if cxt.cfg.processFlow && !ev.isMain {
            CountThread(ev, Exit);
            CountedMeans(ps, Behaviors(x.log), processCxt.procs, Behaviors(writer.log), ev, Exit, cxt.now);
            DidCount(cxt.cfg, x, processCxt.Snapshot(), ev, cxt.now, cxt.nowNs, gone);
            PfDoomedBut(q, ps, processCxt.procs, OidOf(ev.task));
          }
          if ev.isMain || !cxt.cfg.processFlow {
            gone := HandleExit(ev);
            DidExit(cxt.cfg, x, processCxt.Snapshot(), ev, cxt.now, cxt.nowNs, gone);
          }
        case Exec =>
          WriteUpdateEvent(ev, Exec, Created);
          DidReport(cxt.cfg, x, processCxt.Snapshot(), ev, cxt.now, cxt.nowNs, gone);
          PfDoomedKept(q, ps, processCxt.procs);
        case SetUid =>
          WriteUpdateEvent(ev, SetUid, Reup);
          DidReport(cxt.cfg, x, processCxt.Snapshot(), ev, cxt.now, cxt.nowNs, gone);
          PfDoomedKept(q, ps, processCxt.procs);
        case Clone =>
          if !cxt.cfg.processFlow || IsProcessClone(ev) {
            WriteCloneEvent(ev);
            DidReport(cxt.cfg, x, processCxt.Snapshot(), ev, cxt.now, cxt.nowNs, gone);
            PfDoomedKept(q, ps, processCxt.procs);
          } else {
            CountThread(ev, Clone);
            CountedMeans(ps, Behaviors(x.log), processCxt.procs, Behaviors(writer.log), ev, Clone, cxt.now);
            DidCount(cxt.cfg, x, processCxt.Snapshot(), ev, cxt.now, cxt.nowNs, gone);
            PfDoomedBut(q, ps, processCxt.procs, OidOf(ev.task));
          }
        case _ =>
          NothingHappened(ps, {});
          DidReport(cxt.cfg, x, processCxt.Snapshot(), ev, cxt.now, cxt.nowNs, gone);
      }
      ProcDidActs(cxt.cfg, x, processCxt.Snapshot(), ev, cxt.now, cxt.nowNs, gone);
    }

    /** The exit of a main thread, or of any thread when there are no process flows. */
    method HandleExit(ev: Event) returns (ghost gone: seq<FlowId>)
      requires Valid() && (ev.isMain || !cxt.cfg.processFlow)
      requires Climbable(processCxt.procs, ev.task, rank, processCxt.tidy)
      modifies processCxt`procs, processCxt`flows, processCxt`pfSet, processCxt`delProcQue, dfPrcr`dfSet, writer`hushed,
               fileCxt`files, containerCxt`containers, writer`log
      ensures Valid() && Continues(old(writer.log), writer.log) && Grand() == old(Grand())
      ensures ExitedBy(cxt.cfg, old(processCxt.Snapshot()), processCxt.Snapshot(), ev, cxt.nowNs, gone)
      ensures OtherTables(old(processCxt.procs), processCxt.procs, OidOf(ev.task))
      ensures BornOf(old(processCxt.procs), processCxt.procs, Born(old(processCxt.procs), ev.task))
      ensures processCxt.delProcQue
              == old(processCxt.delProcQue) + if ev.isMain then [OIDObj(OidOf(ev.task), cxt.now)] else []
      ensures PfDoomed(old(processCxt.delProcQue), old(processCxt.procs)) ==>
        PfDoomed(processCxt.delProcQue, processCxt.procs)
      ensures processCxt.pfSet == Without(old(processCxt.pfSet), {OidOf(ev.task)})
      ensures Reindexed(old(processCxt.flows), old(dfPrcr.dfSet), processCxt.flows, dfPrcr.dfSet)
      ensures LookedUp(ev, Reup, old(processCxt.Snapshot()), processCxt.Snapshot(), false)
    {
      hide Coherent, Fresh, Total, LiveProc, PfTimely, PfFresh, PfKept, Declared, Behaviors, Closed, GrandTotal, Plus,
           Climbable, ExitDone, PfDoomed, BornOf, Born, OtherTables, Offers, Withhelds, BeforeExit, ExitedBy, LeftBy,
           Leaves, Homed, NoDup, LookedUp, Reindexed, Without;
      ghost var q, x := processCxt.delProcQue, processCxt.Snapshot();
      PrepareExit(ev);
      ghost var m := processCxt.Snapshot();
      gone := WriteExitEvent(ev);
      if m != x { LookedTwice(ev, Reup, x, m, processCxt.Snapshot()); }
      HomedOf(dfPrcr.State(), rank, cxt.now);
      AfterExit(cxt.cfg, x, m, processCxt.Snapshot(), ev, cxt.nowNs, gone);
      BeforeExitMeans(cxt.cfg, x, m, ev);
      PfDoomedBut(q, x.procs, m.procs, OidOf(ev.task));
      PfDoomedExit(q, processCxt.delProcQue, m.procs, processCxt.procs, OidOf(ev.task), cxt.now);
    }

    /** The process flow of an exiting process ends before its data flows. */
    method PrepareExit(ev: Event)
      requires Valid() && Climbable(processCxt.procs, ev.task, rank, processCxt.tidy)
      modifies processCxt`procs, processCxt`pfSet, containerCxt`containers, writer`log
      ensures Valid() && Continues(old(writer.log), writer.log) && Grand() == old(Grand())
      ensures Climbable(processCxt.procs, ev.task, rank, processCxt.tidy)
      ensures BeforeExit(cxt.cfg, old(processCxt.Snapshot()), processCxt.Snapshot(), ev)
      ensures processCxt.Snapshot() == old(processCxt.Snapshot())
              || LookedUp(ev, Reup, old(processCxt.Snapshot()), processCxt.Snapshot(), false)
      ensures processCxt.pfSet == Without(old(processCxt.pfSet), {OidOf(ev.task)})
    {
      hide Coherent, Fresh, Total, LiveProc, PfTimely, PfFresh, Declared, Behaviors, Closed, GrandTotal, Plus,
           Climbable, BornOf, Born, SameTables, LastProcFlow, PfKeptBut, LookedUp, Without;
      if cxt.cfg.processFlow {
        EndProcessFlow(ev);
        WrittenClimbs(processCxt.procs, ev.task, rank, processCxt.tidy);
      } else {
        PfIndexOf(dfPrcr.State(), rank, cxt.now);
        NotInPfSet(processCxt.pfSet, processCxt.procs, OidOf(ev.task));
        NoProcFlowAtAll(cxt.cfg, processCxt.Snapshot(), ev);
      }
    }

    /** Discards the process flow at the head of the index, unwritten. */
    method ExpireProcessFlow(o: OID)
      requires Sound() && processCxt.pfSet != [] && processCxt.pfSet[0].id == o && o in processCxt.procs
      modifies processCxt`procs, processCxt`pfSet, `pfLost
      ensures Sound() && processCxt.procs == WithPf(old(processCxt.procs), o, None)
      ensures processCxt.pfSet == old(processCxt.pfSet)[1..]
      ensures Grand() == old(Grand()) && pfLost == Plus(old(pfLost), PfCount(old(processCxt.procs)[o].pfo))
    {
      hide Coherent, Fresh, Total, LiveProc, GrandTotal, Plus, PfIndexed;
      ghost var x := dfPrcr.State();
      PfIndexOf(x, rank, cxt.now);
      PfIndexedErase(processCxt.pfSet, processCxt.procs, 0);
      processCxt.pfSet := EraseAt(processCxt.pfSet, 0);
      pfLost := Plus(pfLost, PfCount(processCxt.procs[o].pfo));
      processCxt.procs := processCxt.procs[o := processCxt.procs[o].(pfo := None)];
      CoherentPf(x, dfPrcr.State(), o, None, rank, cxt.now);
      GrandExpire(x, dfPrcr.State(), o, processCxt.discarded, old(pfLost));
    }

    /** Writes the process flow at the head of the index and starts it afresh. */
    method ExportProcessFlow(o: OID)
      requires Sound() && processCxt.pfSet != [] && processCxt.pfSet[0].id == o
      requires o in processCxt.procs && processCxt.procs[o].pfo.Some?
      modifies processCxt`procs, processCxt`pfSet, containerCxt`containers, writer`log
      ensures Sound() && Continues(old(writer.log), writer.log) && Grand() == old(Grand())
      ensures processCxt.pfSet == Insert(old(processCxt.pfSet)[1..], Entry(cxt.now, o))
      ensures var f := old(processCxt.procs)[o].pfo.value;
              && processCxt.procs == WithPf(old(processCxt.procs)[o := old(processCxt.procs)[o].(written := true)], o,
                                            Some(RenewedProc(f, cxt.now, cxt.nowNs)))
              && Behaviors(writer.log) == Behaviors(old(writer.log)) + OfferedProc(o, f.(endTs := cxt.nowNs))
      ensures Told(old(processCxt.procs), old(writer.log), processCxt.procs, writer.log)
    {
      hide Coherent, Fresh, Total, LiveProc, GrandTotal, Plus, PfIndexed, Declared, Behaviors, Told, Recorded;
      ghost var x := dfPrcr.State();
      PfIndexOf(x, rank, cxt.now);
      HonestPf(x, o, rank, cxt.now);
      var f := processCxt.procs[o].pfo.value;
      OfferProcessFlow(o, f.(endTs := cxt.nowNs));
      ghost var m, log := processCxt.procs, writer.log;
      Reinsert(o, RenewedProc(f, cxt.now, cxt.nowNs));
      ToldPf(m, o, Some(RenewedProc(f, cxt.now, cxt.nowNs)), log);
      ToldTrans(x.w.procs, x.w.log, m, log, processCxt.procs, writer.log);
      GrandOffer(x, dfPrcr.State(), o, f.(endTs := cxt.nowNs), processCxt.procs[o], processCxt.discarded, pfLost);
    }

    /** Declares a process and offers its process flow to the writer. */
    method OfferProcessFlow(o: OID, f: ProcFlow)
      requires Coherent(dfPrcr.State(), rank, {}, cxt.now) && o in processCxt.procs
      modifies processCxt`procs, containerCxt`containers, writer`log
      ensures Coherent(dfPrcr.State(), rank, {}, cxt.now) && Continues(old(writer.log), writer.log)
      ensures processCxt.procs == old(processCxt.procs)[o := old(processCxt.procs)[o].(written := true)]
      ensures Behaviors(writer.log) == Behaviors(old(writer.log)) + OfferedProc(o, f)
      ensures Told(old(processCxt.procs), old(writer.log), processCxt.procs, writer.log)
    {
      hide Consistent, PfIndexed, Declared, Behaviors, Closed, Idle, Indexed, Timely, Recorded, Told;
      ghost var ps, log := processCxt.procs, writer.log;
      var found := processCxt.ExportProcess(o);
      WriteDeclared(o, f);
      ToldOne(ps, log, o, writer.log);
    }

    /** Gives the process flow at the head of the index a new export time. */
    method Reinsert(o: OID, f: ProcFlow)
      requires Coherent(dfPrcr.State(), rank, {}, cxt.now) && f.cnt == ZERO
      requires processCxt.pfSet != [] && processCxt.pfSet[0].id == o && o in processCxt.procs
      modifies processCxt`procs, processCxt`pfSet
      ensures Coherent(dfPrcr.State(), rank, {}, cxt.now)
      ensures processCxt.procs == WithPf(old(processCxt.procs), o, Some(f))
      ensures processCxt.pfSet == Insert(old(processCxt.pfSet)[1..], Entry(f.exportTime, o))
    {
      hide Coherent, PfIndexed, Insert;
      assert EraseAt(processCxt.pfSet, 0) == processCxt.pfSet[1..];
      ghost var x := dfPrcr.State();
      PfIndexOf(x, rank, cxt.now);
      PfReindexed(processCxt.pfSet, processCxt.procs, 0, f);
      processCxt.pfSet := Insert(EraseAt(processCxt.pfSet, 0), Entry(f.exportTime, o));
      processCxt.procs := processCxt.procs[o := processCxt.procs[o].(pfo := Some(f))];
      CoherentPf(x, dfPrcr.State(), o, Some(f), rank, cxt.now);
    }

    /** The state of a scan over the table `ps` after the due processes `order`. */
    ghost predicate Scanning(ps: ProcessTable, pf0: seq<Entry<OID>>, log0: seq<Record>, order: seq<OID>)
      reads this, dfPrcr, processCxt, fileCxt, containerCxt, writer, cxt
    {
      && Sound() && PfProgress(ps, processCxt.procs, order, cxt.now, cxt.nowNs) && Continues(log0, writer.log)
      && (forall o :: o in order ==> o in ps && ps[o].pfo.Some?)
      && Behaviors(writer.log) == Behaviors(log0) + ProcOffers(ps, order, cxt.now, cxt.nowNs)
      && |order| <= |pf0| && processCxt.pfSet == pf0[|order|..] + PfRenewals(ps, order, cxt.now)
      && Told(ps, log0, processCxt.procs, writer.log)
    }

    method ScanNext(ghost ps: ProcessTable, ghost pf0: seq<Entry<OID>>, ghost log0: seq<Record>,
                    ghost order: seq<OID>, ghost check: int)
      returns (ghost order': seq<OID>)
      requires Scanning(ps, pf0, log0, order) && PfFresh(ps, check)
      requires processCxt.pfSet != [] && cxt.now - processCxt.pfSet[0].time >= EXPORT_INTERVAL
      modifies processCxt`procs, processCxt`pfSet, containerCxt`containers, writer`log, `pfLost
      ensures Scanning(ps, pf0, log0, order') && |order'| == |order| + 1 && Grand() == old(Grand())
      ensures cxt.now - check <= EXPORT_INTERVAL ==> pfLost == old(pfLost)
      ensures order' + DueOrder(processCxt.pfSet, cxt.now) == order + DueOrder(old(processCxt.pfSet), cxt.now)
      ensures |PfDue(processCxt.procs, cxt.now)| < |PfDue(old(processCxt.procs), cxt.now)|
    {
      hide Coherent, Fresh, Total, LiveProc, GrandTotal, Plus, PfIndexed, Declared, Behaviors, PfProgress, PfDue,
           ProcOffers, SameTables, BornOf, DueOrder, Insert, PfRenewals, Segments, Recorded, Told;
      PfIndexOf(dfPrcr.State(), rank, cxt.now);
      ghost var x := dfPrcr.State();
      ghost var qs := processCxt.procs;
      var o := processCxt.pfSet[0].id;
      PfHead(x, o, rank, cxt.now);
      var f := processCxt.procs[o].pfo.value;
      if cxt.now - f.lastUpdate >= EXPIRE_INTERVAL {
        ExpireProcessFlow(o);
        ToldPf(qs, o, None, writer.log);
        PfUntouched(ps, qs, order, o, check, cxt.now, cxt.nowNs);
        HonestPf(x, o, rank, cxt.now);
        PlusLaws(old(pfLost), ZERO, ZERO);
      } else {
        ExportProcessFlow(o);
      }
      ToldTrans(ps, log0, qs, x.w.log, processCxt.procs, writer.log);
      assert processCxt.procs == qs[o := processCxt.procs[o]];
      ScanTables(qs, o, processCxt.procs[o]);
      PfNext(ps, qs, processCxt.procs, order, o, cxt.now, cxt.nowNs);
      RecAssoc(Behaviors(log0), ProcOffers(ps, order, cxt.now, cxt.nowNs), OfferedProc(o, f.(endTs := cxt.nowNs)));
      order' := order + [o];
      DueOrderNext(x.w.pfSet, processCxt.pfSet, order, qs, cxt.now);
      PfSweepNext(pf0, x.w.pfSet, processCxt.pfSet, ps, order, cxt.now);
      PfDueLess(qs, processCxt.procs, o, cxt.now);
    }

    /** The periodic scan of the process flows: it stops at the first that is not due, yet does
        to each process what `ProcScan` says, and with scans at most thirty seconds apart
        nothing is lost.  `order` lists the processes handled. */
    method CheckForExpiredRecords() returns (n: nat, ghost order: seq<OID>)
      requires Valid() && cxt.now > 0
      modifies processCxt`procs, processCxt`pfSet, containerCxt`containers, writer`log, `pfLost, `lastCheck
      ensures Valid() && lastCheck == cxt.now && Continues(old(writer.log), writer.log) && Grand() == old(Grand())
      ensures NoDup(order) && n == |order|
      ensures forall o :: o in order ==> o in old(processCxt.procs) && old(processCxt.procs)[o].pfo.Some?
      ensures Behaviors(writer.log) == Behaviors(old(writer.log))
                + ProcOffers(old(processCxt.procs), order, cxt.now, cxt.nowNs)
      ensures SameTables(old(processCxt.procs), processCxt.procs) && BornOf(old(processCxt.procs), processCxt.procs, {})
      ensures Told(old(processCxt.procs), old(writer.log), processCxt.procs, writer.log)
      ensures if old(lastCheck) == 0 || cxt.now - old(lastCheck) < 1
              then && order == [] && processCxt.procs == old(processCxt.procs) && pfLost == old(pfLost)
                   && processCxt.pfSet == old(processCxt.pfSet)
              else ProcsScanned(old(processCxt.Snapshot()), processCxt.Snapshot(), order, cxt.now, cxt.nowNs)
      ensures cxt.now - old(lastCheck) <= EXPORT_INTERVAL ==> pfLost == old(pfLost)
    {
      hide Coherent, Fresh, Total, LiveProc, GrandTotal, Plus, Declared, Behaviors, SameTables, BornOf, ProcOffers,
           Told, Recorded, ProcsScanned, PfProgress, Segments, PfRenewals, PfTimely;
      n, order := 0, [];
      ToldRefl(processCxt.procs, writer.log);
      PfScanStarts(processCxt.procs, processCxt.pfSet, Behaviors(writer.log), cxt.now, cxt.nowNs);
      if lastCheck == 0 {
        lastCheck := cxt.now;
      } else if cxt.now - lastCheck >= 1 {
        n, order := ScanAll(lastCheck);
        lastCheck := cxt.now;
      }
    }

    method ScanAll(ghost check: int) returns (n: nat, ghost order: seq<OID>)
      requires Sound() && PfFresh(processCxt.procs, check) && cxt.now > 0
      modifies processCxt`procs, processCxt`pfSet, containerCxt`containers, writer`log, `pfLost
      ensures Sound() && PfFresh(processCxt.procs, cxt.now)
      ensures Continues(old(writer.log), writer.log) && Grand() == old(Grand())
      ensures NoDup(order) && n == |order|
      ensures forall o :: o in order ==> o in old(processCxt.procs) && old(processCxt.procs)[o].pfo.Some?
      ensures Behaviors(writer.log) == Behaviors(old(writer.log))
                + ProcOffers(old(processCxt.procs), order, cxt.now, cxt.nowNs)
      ensures SameTables(old(processCxt.procs), processCxt.procs) && BornOf(old(processCxt.procs), processCxt.procs, {})
      ensures Told(old(processCxt.procs), old(writer.log), processCxt.procs, writer.log)
      ensures ProcsScanned(old(processCxt.Snapshot()), processCxt.Snapshot(), order, cxt.now, cxt.nowNs)
      ensures cxt.now - check <= EXPORT_INTERVAL ==> pfLost == old(pfLost)
    {
      hide Coherent, Fresh, Total, LiveProc, GrandTotal, Plus, PfIndexed, Declared, Behaviors, PfProgress, SameTables,
           BornOf, PfDue, ProcOffers, PfRenewals, ProcSwept, ProcSweepWrote, Told, Recorded, PfTimely, DueOrder,
           ProcScan, Segments, ProcsScanned, PfFresh;
      n, order := 0, [];
      ToldRefl(processCxt.procs, writer.log);
      PfScanStarts(processCxt.procs, processCxt.pfSet, Behaviors(writer.log), cxt.now, cxt.nowNs);
      ghost var ps, x := processCxt.procs, processCxt.Snapshot();
      PfIndexOf(dfPrcr.State(), rank, cxt.now);
      while processCxt.pfSet != [] && cxt.now - processCxt.pfSet[0].time >= EXPORT_INTERVAL
        invariant Scanning(ps, old(processCxt.pfSet), old(writer.log), order) && n == |order|
        invariant Grand() == old(Grand()) && (cxt.now - check <= EXPORT_INTERVAL ==> pfLost == old(pfLost))
        invariant order + DueOrder(processCxt.pfSet, cxt.now) == DueOrder(old(processCxt.pfSet), cxt.now)
        decreases |PfDue(processCxt.procs, cxt.now)|
      {
        order := ScanNext(ps, old(processCxt.pfSet), old(writer.log), order, check);
        n := n + 1;
      }
      PfIndexOf(dfPrcr.State(), rank, cxt.now);
      ScanCompletes(x, processCxt.Snapshot(), order, cxt.now, cxt.nowNs);
    }
  }

  lemma PfIndexOf(x: Flux, rank: OID -> nat, now: int)
    requires Coherent(x, rank, {}, now)
    ensures PfIndexed(x.w.pfSet, x.w.procs)
    ensures x.w.pfSet == [] ==> forall o :: o in x.w.procs ==> x.w.procs[o].pfo.None?
  {
    assert x.w.pfSet == [] ==> Ids(x.w.pfSet) == {};
  }

  lemma HonestPf(x: Flux, o: OID, rank: OID -> nat, now: int)
    requires Coherent(x, rank, {}, now) && o in x.w.procs && x.w.procs[o].pfo.Some?
    ensures Idle(x.w.procs[o].pfo.value.opFlags) ==> x.w.procs[o].pfo.value.cnt == ZERO
  {
  }
}
