/**
  The flush at shutdown: every live flow is offered to the writer, cut off.
 */
module Shutdown {
  import opened Types
  import opened Trace
  import opened Ledger
  import opened Invariants
  import opened ProcessState

  /** What the flush offers to the writer: a data flow or the process flow of a process. */
  datatype Item = OfFlow(id: FlowId) | OfProc(oid: OID)

  function CutProc(f: ProcFlow, endTs: int): ProcFlow {
    f.(endTs := endTs, opFlags := f.opFlags + {Truncate})
  }

  ghost predicate HasProcFlow(procs: ProcessTable, o: OID)
    ensures HasProcFlow(procs, o) ==> o in procs && procs[o].pfo.Some?
  {
    o in procs && procs[o].pfo.Some?
  }

  lemma TableKeepsProcFlows(ps: ProcessTable, o: OID, t: map<FlowKey, FlowId>)
    requires o in ps
    ensures forall q :: HasProcFlow(WithTable(ps, o, t), q) <==> HasProcFlow(ps, q)
    ensures forall q :: HasProcFlow(ps, q) ==> WithTable(ps, o, t)[q].pfo == ps[q].pfo
  {
  }

  /** The records that cutting off one item of `w` leaves: one if it has recorded operations. */
  ghost function RecordsOf(w: World, x: Item, endTs: int): seq<Record> {
    match x
    case OfFlow(id) => if id in w.flows then Offered(Truncated(w.flows[id], endTs).rec) else []
    case OfProc(o) => if HasProcFlow(w.procs, o) then OfferedProc(o, CutProc(w.procs[o].pfo.value, endTs)) else []
  }

  /** The records of the items `order`, in that order. */
  ghost function Flushed(w: World, order: seq<Item>, endTs: int): seq<Record> {
    if order == [] then [] else Flushed(w, order[..|order| - 1], endTs) + RecordsOf(w, order[|order| - 1], endTs)
  }

  lemma FlushedAppend(w: World, order: seq<Item>, x: Item, endTs: int, bs: seq<Record>)
    ensures bs + Flushed(w, order, endTs) + RecordsOf(w, x, endTs) == bs + Flushed(w, order + [x], endTs)
  {
    assert (order + [x])[..|order|] == order;
  }

  /** The counters of the trace and of everything live. */
  ghost function Book(w: World): Tally {
    Plus(Plus(Written(Behaviors(w.log)), Live(w.flows)), LiveProc(w.procs))
  }

  /** The agreements the flush still needs. */
  ghost predicate Afloat(w: World, rank: OID -> nat) {
    && Closed(w.log) && FilesWritten(w.files, w.log) && ProcsWritten(w.procs, w.log)
    && ContainerRefs(w.procs, w.containers) && Ranked(w.procs, rank)
    && FileRefs(w.files, w.flows) && Homed(w.procs, w.flows, {}) && Honest(w.flows, w.procs)
  }

  /** The items `order` of `w0` have been offered and are gone; nothing else has been written but
      entities, and nothing else has been lost. */
  ghost predicate Offloaded(w0: World, w: World, order: seq<Item>, endTs: int) {
    && Continues(w0.log, w.log) && NoDup(order)
    && (forall id :: id in w.flows ==> id in w0.flows && w.flows[id] == w0.flows[id])
    && (forall id :: OfFlow(id) in order <==> id in w0.flows && id !in w.flows)
    && (forall o :: HasProcFlow(w.procs, o) ==> HasProcFlow(w0.procs, o) && w.procs[o].pfo == w0.procs[o].pfo)
    && (forall o :: OfProc(o) in order <==> HasProcFlow(w0.procs, o) && !HasProcFlow(w.procs, o))
    && Behaviors(w.log) == Behaviors(w0.log) + Flushed(w0, order, endTs)
    && Book(w) == Book(w0)
  }

  /** Only entity records have been added. */
  lemma OffloadedEntities(w0: World, w: World, w': World, order: seq<Item>, endTs: int)
    requires Offloaded(w0, w, order, endTs)
    requires AddsEntities(w.log, w'.log) && w'.flows == w.flows
    requires forall o :: o in w.procs && w.procs[o].pfo.Some? ==> o in w'.procs && w'.procs[o].pfo == w.procs[o].pfo
    requires forall o :: o in w'.procs && w'.procs[o].pfo.Some? ==> o in w.procs && w.procs[o].pfo.Some?
    ensures Offloaded(w0, w', order, endTs)
  {
    hide LiveProc, Live;
    LiveProcSame(w.procs, w'.procs);
  }

  /** One flow has been offered and deleted with its table entry. */
  lemma OffloadFlow(w0: World, w: World, w': World, order: seq<Item>, o: OID, k: FlowKey, endTs: int)
    requires Offloaded(w0, w, order, endTs) && Homed(w.procs, w.flows, {}) && Honest(w.flows, w.procs)
    requires o in w.procs && k in w.procs[o].table
    requires w'.procs == WithTable(w.procs, o, w.procs[o].table - {k})
    requires w'.flows == w.flows - {w.procs[o].table[k]}
    requires Continues(w.log, w'.log)
    requires Behaviors(w'.log) == Behaviors(w.log) + Offered(Truncated(w.flows[w.procs[o].table[k]], endTs).rec)
    ensures Offloaded(w0, w', order + [OfFlow(w.procs[o].table[k])], endTs)
  {
    hide LiveProc, Live, Homed, Flushed, Book, Honest, NoDup, HasProcFlow, WithTable, Behaviors, Declared;
    TableKeepsProcFlows(w.procs, o, w.procs[o].table - {k});
    var id := w.procs[o].table[k];
    HomedEntry(w.procs, w.flows, o, k);
    TakenOff(order, OfFlow(id));
    FlushedAppend(w0, order, OfFlow(id), endTs, Behaviors(w0.log));
    OffloadBook(w, w', o, k, endTs);
  }

  lemma TakenOff(order: seq<Item>, x: Item)
    requires NoDup(order) && x !in order
    ensures NoDup(order + [x]) && forall y :: y in order + [x] <==> y in order || y == x
  {
  }

  /** The counters of an offered flow move from the live flows to the trace. */
  lemma OffloadBook(w: World, w': World, o: OID, k: FlowKey, endTs: int)
    requires o in w.procs && k in w.procs[o].table && w.procs[o].table[k] in w.flows && Honest(w.flows, w.procs)
    requires w'.procs == WithTable(w.procs, o, w.procs[o].table - {k})
    requires w'.flows == w.flows - {w.procs[o].table[k]}
    requires Behaviors(w'.log) == Behaviors(w.log) + Offered(Truncated(w.flows[w.procs[o].table[k]], endTs).rec)
    ensures Book(w') == Book(w)
  {
    hide LiveProc, Live, Written, Behaviors, Idle;
    var id := w.procs[o].table[k];
    var f := Truncated(w.flows[id], endTs);
    TruncatedIdle(w.flows[id], endTs);
    OfferBalances(Behaviors(w.log), f.rec, w.flows, id);
    LiveProcSame(w.procs, w'.procs);
  }

  lemma HomedEntry(procs: ProcessTable, flows: FlowHeap, o: OID, k: FlowKey)
    requires Homed(procs, flows, {}) && o in procs && k in procs[o].table
    ensures procs[o].table[k] in flows
    ensures flows[procs[o].table[k]].rec.procOID == o && KeyOf(flows[procs[o].table[k]]) == k
  {
  }

  /** One process flow has been offered and deleted. */
  lemma OffloadProcFlow(w0: World, w: World, w': World, order: seq<Item>, o: OID, endTs: int)
    requires Offloaded(w0, w, order, endTs) && Honest(w.flows, w.procs)
    requires o in w.procs && w.procs[o].pfo.Some?
    requires w'.procs == w.procs[o := w.procs[o].(pfo := None)] && w'.flows == w.flows
    requires Continues(w.log, w'.log)
    requires Behaviors(w'.log) == Behaviors(w.log) + OfferedProc(o, CutProc(w.procs[o].pfo.value, endTs))
    ensures Offloaded(w0, w', order + [OfProc(o)], endTs)
  {
    hide LiveProc, Live, Flushed, Honest, Written, Idle, Book, NoDup, Behaviors, Declared, OfferedProc, HasProcFlow;
    ProcFlowGone(w.procs, o);
    TakenOff(order, OfProc(o));
    FlushedAppend(w0, order, OfProc(o), endTs, Behaviors(w0.log));
    OffloadProcBook(w, w', o, endTs);
  }

  lemma ProcFlowGone(ps: ProcessTable, o: OID)
    requires o in ps && ps[o].pfo.Some?
    ensures HasProcFlow(ps, o)
    ensures var qs := ps[o := ps[o].(pfo := None)];
            forall q :: && (HasProcFlow(qs, q) <==> HasProcFlow(ps, q) && q != o)
                        && (HasProcFlow(qs, q) ==> q in ps && q in qs && qs[q].pfo == ps[q].pfo)
  {
  }

  lemma OffloadProcBook(w: World, w': World, o: OID, endTs: int)
    requires Honest(w.flows, w.procs) && o in w.procs && w.procs[o].pfo.Some?
    requires w'.procs == w.procs[o := w.procs[o].(pfo := None)] && w'.flows == w.flows
    requires Behaviors(w'.log) == Behaviors(w.log) + OfferedProc(o, CutProc(w.procs[o].pfo.value, endTs))
    ensures Book(w') == Book(w)
  {
    hide LiveProc, Live, Honest, Written, Idle, Behaviors;
    HonestProcFlow(w.flows, w.procs, o);
    OfferProcBalances(Behaviors(w.log), o, CutProc(w.procs[o].pfo.value, endTs), w.procs, w'.procs[o]);
  }

  lemma HonestProcFlow(flows: FlowHeap, procs: ProcessTable, o: OID)
    requires Honest(flows, procs) && o in procs && procs[o].pfo.Some?
    ensures Idle(procs[o].pfo.value.opFlags + {Truncate}) ==> procs[o].pfo.value.cnt == ZERO
  {
  }

  /** The tables stay in step when a flow goes together with its table entry. */
  lemma AfloatFlow(w: World, w': World, o: OID, k: FlowKey, rank: OID -> nat)
    requires Afloat(w, rank) && o in w.procs && k in w.procs[o].table
    requires w'.procs == WithTable(w.procs, o, w.procs[o].table - {k})
    requires w'.flows == w.flows - {w.procs[o].table[k]}
    requires w'.containers == w.containers && KeepsRefs(w.files, w'.files)
    requires FilesWritten(w'.files, w'.log) && Closed(w'.log) && Continues(w.log, w'.log)
    ensures Afloat(w', rank)
  {
    hide Homed, FileRefs, ContainerRefs, Closed, Declared;
    var id := w.procs[o].table[k];
    HomedEntry(w.procs, w.flows, o, k);
    HomedRemove(w.procs, w.flows, o, k);
    FileRefsDelete(w.files, w.flows, id);
    FileRefsKeeps(w.files, w'.files, w'.flows);
    ContainerRefsSame(w.procs, w'.procs, w.containers, w.containers);
  }

  /** A file flow of an afloat world names a cached file, by its own id. */
  lemma AfloatFile(w: World, o: OID, k: FlowKey, rank: OID -> nat)
    requires Afloat(w, rank) && o in w.procs && k in w.procs[o].table
    ensures w.procs[o].table[k] in w.flows
    ensures var f := w.flows[w.procs[o].table[k]];
            f.rec.procOID == o
            && (f.rec.subject.File? ==> f.filekey in w.files && f.rec.subject.fileOID == Sha1(f.filekey))
  {
  }

  /** Writing ancestors before the flush of a process. */
  lemma AfloatSettled(w: World, w': World, rank: OID -> nat)
    requires Afloat(w, rank) && Settled(w.procs, w'.procs, rank)
    requires w' == w.(procs := w'.procs, containers := w'.containers, log := w'.log)
    requires AddsEntities(w.log, w'.log) && ProcsWritten(w'.procs, w'.log)
    requires ContainerRefs(w'.procs, w'.containers)
    ensures Afloat(w', rank)
  {
    HomedKeeps(w.procs, w'.procs, w.flows, {});
  }

  lemma AfloatProcFlow(w: World, w': World, o: OID, rank: OID -> nat)
    requires Afloat(w, rank) && o in w.procs
    requires w' == w.(procs := w.procs[o := w.procs[o].(pfo := None)], log := w'.log)
    requires Closed(w'.log) && Declared(w.log) <= Declared(w'.log)
    ensures Afloat(w', rank)
  {
    hide Homed, FileRefs, ContainerRefs, Closed, Declared;
    WithSameTables(w.procs, w'.procs, w.flows);
    ContainerRefsSame(w.procs, w'.procs, w.containers, w.containers);
  }

  lemma WithSameTables(ps: ProcessTable, qs: ProcessTable, flows: FlowHeap)
    requires Homed(ps, flows, {}) && ps.Keys == qs.Keys
    requires forall o :: o in ps ==> qs[o].table == ps[o].table
    ensures Homed(qs, flows, {})
  {
    forall id | id in flows ensures InTable(qs, flows[id], id) {
      assert InTable(ps, flows[id], id);
    }
  }

  /** When every table is empty and no process flow is left, nothing is live any more. */
  lemma NothingLive(w: World)
    requires Homed(w.procs, w.flows, {})
    requires forall o :: o in w.procs ==> w.procs[o].table == map[] && w.procs[o].pfo.None?
    ensures w.flows == map[] && Live(w.flows) == ZERO && LiveProc(w.procs) == ZERO
  {
    assert forall id :: id in w.flows ==> InTable(w.procs, w.flows[id], id);
    assert w.flows.Keys == {};
    assert Counters(w.flows) == map[];
    assert ProcCounters(w.procs) == map[];
  }

  /** The flush starts from consistent tables. */
  lemma OffloadStart(w: World, rank: OID -> nat, endTs: int)
    requires Consistent(w, rank, {})
    ensures Afloat(w, rank) && Offloaded(w, w, [], endTs)
  {
    hide Homed, FileRefs, ContainerRefs, Closed, Declared, Live, LiveProc;
    assert Flushed(w, [], endTs) == [];
  }

  /** When every process has been flushed, the trace holds all the counters. */
  lemma OffloadEnd(w0: World, w: World, order: seq<Item>, endTs: int, rank: OID -> nat)
    requires Afloat(w, rank) && Offloaded(w0, w, order, endTs)
    requires forall o :: o in w.procs ==> w.procs[o].table == map[] && w.procs[o].pfo.None?
    ensures Closed(w.log) && Continues(w0.log, w.log) && NoDup(order) && w.flows == map[]
    ensures forall id :: OfFlow(id) in order <==> id in w0.flows
    ensures forall o :: OfProc(o) in order <==> HasProcFlow(w0.procs, o)
    ensures Behaviors(w.log) == Behaviors(w0.log) + Flushed(w0, order, endTs)
    ensures Written(Behaviors(w.log)) == Book(w0)
  {
    hide FileRefs, ContainerRefs, Closed, Declared, Live, LiveProc, Written;
    NothingLive(w);
    PlusLaws(Written(Behaviors(w.log)), ZERO, ZERO);
  }
}
