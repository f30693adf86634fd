/**
  The data flow processor: network and file flows, their index, their periodic export and
  expiry, and the file events.
 */
module DataFlows {
  import opened Types
  import opened Trace
  import opened TimeSet
  import opened Ledger
  import opened Invariants
  import opened Caches
  import opened ProcessState
  import opened Processes
  import opened ReadOnlyFiles
  import opened FlowState
  import opened Effects

  class DataFlowProcessor {
    const processCxt: ProcessContext
    const fileCxt: FileContext := processCxt.fileCxt
    const containerCxt: ContainerContext := processCxt.containerCxt
    const writer: Writer := processCxt.writer
    const cxt: SysFlowContext := processCxt.cxt
    ghost const rank: OID -> nat := processCxt.rank

    var dfSet: seq<Entry<FlowId>>
    var lastCheck: int
    ghost var lost: Tally     // counters of flows that expired unwritten

    constructor (processCxt: ProcessContext)
      ensures this.processCxt == processCxt
      ensures dfSet == [] && lastCheck == 0 && lost == ZERO
    {
      this.processCxt := processCxt;
      dfSet, lastCheck, lost := [], 0, ZERO;
    }

    ghost function Traced(): Trail
      reads writer
    {
      Trail(Behaviors(writer.log), writer.hushed, Recorded(writer.log))
    }

    ghost function State(): Flux
      reads this, processCxt, fileCxt, containerCxt, writer
    {
      Flux(processCxt.Snapshot(), dfSet, lost)
    }

    /** The agreements, with some flows out of their tables. */
    ghost predicate ValidBut(pending: set<FlowId>)
      reads this, processCxt, fileCxt, containerCxt, writer, cxt
    {
      && Coherent(State(), rank, pending, cxt.now)
      && Fresh(processCxt.flows, lastCheck) && lastCheck <= cxt.now
    }

    ghost predicate Valid()
      reads this, processCxt, fileCxt, containerCxt, writer, cxt
    {
      ValidBut({})
    }

    /** The flow statistics: the two counts add up to the size of the index. */
    method GetSizes() returns (netflows: nat, fileflows: nat)
      requires Valid()
      ensures netflows + fileflows == |dfSet|
      ensures netflows == |OfKind(processCxt.flows, true)| && fileflows == |OfKind(processCxt.flows, false)|
    {
      netflows := processCxt.CountFlows(true);
      fileflows := processCxt.CountFlows(false);
      KindsAreAll(dfSet, processCxt.flows);
    }

    /** The value scan in the index finds and erases the very object it is given. */
    method RemoveFlowFromSet(id: FlowId) returns (removed: nat, ghost at: nat)
      requires Unique(processCxt.flows) && Indexed(dfSet, processCxt.flows) && id in processCxt.flows
      modifies `dfSet
      ensures removed == 1
      ensures at < |old(dfSet)| && old(dfSet)[at].id == id && dfSet == EraseAt(old(dfSet), at)
      ensures dfSet == Without(old(dfSet), {id})
    {
      hide Indexed, Unique, KeyOf;
      var flows := processCxt.flows;
      IndexedAll(dfSet, flows);
      ghost var k :| 0 <= k < |dfSet| && dfSet[k].id == id;
      var i := LowerBound(dfSet, flows[id].exportTime);
      while i < |dfSet| && !SameFlow(flows[dfSet[i].id], flows[id])
        invariant 0 <= i <= k
      {
        i := i + 1;
      }
      SameFlowSameObject(flows, dfSet[i].id, id);
      at := i;
      removed := 0;
      IndexDistinct(dfSet, flows);
      EraseIsWithout(dfSet, i);
      if i < |dfSet| {
        dfSet := EraseAt(dfSet, i);
        removed := 1;
      }
    }

    /** Offers a flow to the writer unless the read mode keeps it out. */
    method WriteFlow(f: DataFlow)
      requires Closed(writer.log) && Needs(FlowRec(f.rec)) <= Declared(writer.log)
      modifies writer`log, writer`hushed
      ensures Continues(old(writer.log), writer.log) && Declared(writer.log) == Declared(old(writer.log))
      ensures Closed(writer.log)
      ensures Behaviors(writer.log) == Behaviors(old(writer.log)) + Offer(cxt.cfg.readMode, f)
      ensures writer.hushed == old(writer.hushed) + Withheld(cxt.cfg.readMode, f)
      ensures Recorded(writer.log) == Recorded(old(writer.log))
    {
      var hidden := IsSuppressed(cxt.cfg.readMode, f);
      if hidden {
        writer.hushed := writer.hushed + [f];
      } else {
        writer.WriteFlow(f.rec);
      }
    }

    /** Takes one entry out of the table when it is related to `f`. */
    method PickOne(o: OID, k: FlowKey, f: DataFlow, vec: seq<FlowId>) returns (vec': seq<FlowId>)
      requires ValidBut(Elems(vec)) && o in processCxt.procs && k in processCxt.procs[o].table
      requires processCxt.procs[o].table[k] in processCxt.flows
      modifies processCxt`procs
      ensures ValidBut(Elems(vec'))
      ensures var id := old(processCxt.procs)[o].table[k];
              if Related(processCxt.flows[id], f)
              then vec' == (if Opener(processCxt.flows[id]) then [id] + vec else vec + [id])
                   && processCxt.procs == WithTable(old(processCxt.procs), o, old(processCxt.procs)[o].table - {k})
              else vec' == vec && processCxt.procs == old(processCxt.procs)
    {
      hide KeyOf, Related, Opener, Coherent;
      vec' := vec;
      var id := processCxt.procs[o].table[k];
      if Related(processCxt.flows[id], f) {
        ghost var x := State();
        vec' := if Opener(processCxt.flows[id]) then [id] + vec else vec + [id];
        assert Elems(vec') == Elems(vec) + {id};
        processCxt.procs := WithTable(processCxt.procs, o, processCxt.procs[o].table - {k});
        DetachFlow(x, State(), Elems(vec), o, k, rank, cxt.now);
      }
    }

    /** Takes the flows related to `f` out of the table of a process, openers first. */
    method CollectRelated(o: OID, f: DataFlow) returns (vec: seq<FlowId>)
      requires Valid() && o in processCxt.procs
      modifies processCxt`procs
      ensures ValidBut(Elems(vec)) && o in processCxt.procs
      ensures processCxt.procs == WithTable(old(processCxt.procs), o, processCxt.procs[o].table)
      ensures Picked(old(processCxt.procs)[o].table, processCxt.procs[o].table, {}, vec, processCxt.flows, f)
    {
      hide KeyOf, Related, Opener, Coherent, Fresh, Picked;
      vec := [];
      ghost var table0 := processCxt.procs[o].table;
      var todo := processCxt.procs[o].table.Keys;
      CollectStart(State(), o, f, rank, cxt.now);
      while todo != {}
        invariant ValidBut(Elems(vec)) && o in processCxt.procs && todo <= table0.Keys
        invariant processCxt.procs == WithTable(old(processCxt.procs), o, processCxt.procs[o].table)
        invariant Picked(table0, processCxt.procs[o].table, todo, vec, processCxt.flows, f)
        decreases |todo|
      {
        var k :| k in todo;
        PickNext(table0, processCxt.procs[o].table, todo, vec, processCxt.flows, f, k);
        vec := PickOne(o, k, f, vec);
        todo := todo - {k};
      }
    }

    /** Declares the file of a flow in this segment; the file of a live flow is always cached. */
    method DeclareFile(f: DataFlow)
      requires Closed(writer.log) && fileCxt.Valid()
      requires f.rec.subject.File? ==> f.filekey in fileCxt.files && f.rec.subject.fileOID == Sha1(f.filekey)
      modifies fileCxt`files, writer`log
      ensures Closed(writer.log) && fileCxt.Valid()
      ensures f.rec.subject.File? ==> Fil(f.rec.subject.fileOID) in Declared(writer.log)
      ensures fileCxt.files
              == if f.rec.subject.File? then Fetched(old(fileCxt.files), f.filekey, Reup, "") else old(fileCxt.files)
      ensures AddsEntities(old(writer.log), writer.log) && Recorded(writer.log) == Recorded(old(writer.log))
    {
      if f.rec.subject.File? {
        var found := fileCxt.ExportFile(f.filekey);
        assert found;
      }
    }

    /** Declares the file of a flow of a declared process and offers the flow to the writer. */
    method OfferLast(f: DataFlow)
      requires Closed(writer.log) && fileCxt.Valid() && Proc(f.rec.procOID) in Declared(writer.log)
      requires f.rec.subject.File? ==> f.filekey in fileCxt.files && f.rec.subject.fileOID == Sha1(f.filekey)
      modifies fileCxt`files, writer`log, writer`hushed
      ensures Closed(writer.log) && fileCxt.Valid() && Continues(old(writer.log), writer.log)
      ensures KeepsRefs(old(fileCxt.files), fileCxt.files)
      ensures fileCxt.files
              == if f.rec.subject.File? then Fetched(old(fileCxt.files), f.filekey, Reup, "") else old(fileCxt.files)
      ensures Behaviors(writer.log) == Behaviors(old(writer.log)) + Offer(cxt.cfg.readMode, f)
      ensures writer.hushed == old(writer.hushed) + Withheld(cxt.cfg.readMode, f)
      ensures Recorded(writer.log) == Recorded(old(writer.log))
    {
      hide Closed, Declared, Offer, Withheld, Behaviors, Plus;
      DeclareFile(f);
      WriteFlow(f);
    }

    /** Offers a detached flow, cut off at `endTs`, and frees it. */
    method CutOff(id: FlowId, endTs: int, ghost pending: set<FlowId>)
      requires ValidBut(pending) && id in pending && id in processCxt.flows
      requires Proc(processCxt.flows[id].rec.procOID) in Declared(writer.log)
      modifies processCxt`flows, `dfSet, writer`hushed, fileCxt`files, writer`log
      ensures ValidBut(pending - {id})
      ensures processCxt.flows == old(processCxt.flows) - {id} && dfSet == Without(old(dfSet), {id})
      ensures Continues(old(writer.log), writer.log)
      ensures Behaviors(writer.log) == Behaviors(old(writer.log))
                + Offer(cxt.cfg.readMode, Truncated(old(processCxt.flows)[id], endTs))
      ensures writer.hushed == old(writer.hushed)
                + Withheld(cxt.cfg.readMode, Truncated(old(processCxt.flows)[id], endTs))
      ensures Recorded(writer.log) == Recorded(old(writer.log))
      ensures Total(State()) == Total(old(State()))
    {
      hide Coherent, Fresh, Closed, Declared, Indexed, Total, Offer, Withheld, Behaviors, Unique, KeyOf, Idle, Plus,
           Without;
      ghost var flows := processCxt.flows;
      MarkPending(id, endTs, pending);
      ghost var x := State();
      FlowFacts(x, pending, id, rank, cxt.now);
      ClosedLog(x, pending, rank, cxt.now);
      var f := processCxt.flows[id];
      OfferLast(f);
      var removed;
      ghost var at;
      removed, at := RemoveFlowFromSet(id);
      processCxt.flows := processCxt.flows - {id};
      assert processCxt.flows == flows - {id};
      FreshLess(x.w.flows, id, lastCheck);
      CutKeeps(x, State(), pending, id, at, f, cxt.cfg.readMode, rank, cxt.now);
    }

    method MarkPending(id: FlowId, endTs: int, ghost pending: set<FlowId>)
      requires ValidBut(pending) && id in processCxt.flows
      modifies processCxt`flows
      ensures ValidBut(pending) && Total(State()) == Total(old(State()))
      ensures processCxt.flows == old(processCxt.flows)[id := Truncated(old(processCxt.flows)[id], endTs)]
    {
      hide Coherent, Fresh, Total, KeyOf, Idle;
      ghost var x := State();
      var f := Truncated(processCxt.flows[id], endTs);
      SameKey(processCxt.flows[id], endTs);
      TruncatedIdle(processCxt.flows[id], endTs);
      processCxt.flows := processCxt.flows[id := f];
      TouchFlow(x, State(), pending, id, f, rank, cxt.now);
      FreshTouch(x.w.flows, id, f, lastCheck);
    }

    /** The state while the picked flows `vec` of process `o` are cut off one by one. */
    ghost predicate Cutting(x: Flux, o: OID, vec: seq<FlowId>, i: nat, endTs: int, gone: seq<DataFlow>)
      requires i <= |vec|
      reads this, processCxt, fileCxt, containerCxt, writer, cxt
    {
      && ValidBut(Elems(vec[i..]))
      && processCxt.flows == x.w.flows - Elems(vec[..i]) && dfSet == Without(x.index, Elems(vec[..i]))
      && OpenersFirst(x.w.flows, vec) && (forall id :: id in vec ==> x.w.flows[id].rec.procOID == o)
      && |gone| == i && (forall j :: 0 <= j < i ==> gone[j] == Truncated(x.w.flows[vec[j]], endTs))
      && Continues(x.w.log, writer.log) && Proc(o) in Declared(x.w.log)
      && Traced() == Then(TrailOf(x.w), cxt.cfg.readMode, gone)
      && Total(State()) == Total(x)
    }

    method CutNext(ghost x: Flux, o: OID, vec: seq<FlowId>, i: nat, endTs: int, ghost gone: seq<DataFlow>)
      returns (ghost gone': seq<DataFlow>)
      requires i < |vec| && Cutting(x, o, vec, i, endTs, gone)
      modifies processCxt`flows, `dfSet, writer`hushed, fileCxt`files, writer`log
      ensures Cutting(x, o, vec, i + 1, endTs, gone')
    {
      hide Coherent, Total, Behaviors, Declared, Offer, Withheld, Fresh, Then, Without;
      NextPending(x.w.flows, vec, i);
      WithoutTwice(x.index, Elems(vec[..i]), {vec[i]});
      var id := vec[i];
      ghost var f := Truncated(x.w.flows[id], endTs);
      ThenAppend(TrailOf(x.w), cxt.cfg.readMode, gone, f);
      CutOff(id, endTs, Elems(vec[i..]));
      gone' := gone + [f];
    }

    /** A close or a thread exit ends the flows of the other threads on the same descriptor:
        they leave the table and the index, and are offered to the writer cut off, those that
        saw the descriptor opened first. */
    method RemoveAndWriteRelatedFlows(o: OID, f: DataFlow, endTs: int)
      returns (vec: seq<FlowId>, ghost gone: seq<DataFlow>)
      requires Valid() && o in processCxt.procs && Proc(o) in Declared(writer.log)
      modifies processCxt`procs, processCxt`flows, `dfSet, writer`hushed, fileCxt`files, writer`log
      ensures Valid() && o in processCxt.procs
      ensures processCxt.procs == WithTable(old(processCxt.procs), o, processCxt.procs[o].table)
      ensures Picked(old(processCxt.procs)[o].table, processCxt.procs[o].table, {}, vec, old(processCxt.flows), f)
      ensures processCxt.flows == old(processCxt.flows) - Elems(vec) && dfSet == Without(old(dfSet), Elems(vec))
      ensures |gone| == |vec| && forall i :: 0 <= i < |vec| ==>
        gone[i] == Truncated(old(processCxt.flows)[vec[i]], endTs)
      ensures Continues(old(writer.log), writer.log)
      ensures Traced() == Then(old(Traced()), cxt.cfg.readMode, gone)
      ensures Total(State()) == Total(old(State()))
    {
      hide Coherent, Total, Behaviors, Declared, Then, Picked, Without;
      ghost var x := State();
      WithoutNone(dfSet, {});
      ThenNone(Traced(), cxt.cfg.readMode);
      vec := CollectRelated(o, f);
      PickedOwned(x, o, processCxt.procs[o].table, vec, f, rank, cxt.now);
      PickedOrder(x, o, processCxt.procs[o].table, vec, f);
      assert Total(State()) == Total(x) by { TotalTables(x, State()); }
      gone := [];
      CutBounds(x.w.flows, vec);
      ghost var y := State();
      var i := 0;
      while i < |vec|
        invariant 0 <= i <= |vec| && Cutting(y, o, vec, i, endTs, gone) && processCxt.procs == y.w.procs
      {
        gone := CutNext(y, o, vec, i, endTs, gone);
        i := i + 1;
      }
    }

    /** Erases a flow from the index, its table and the heap, and gives back its file reference. */
    method EraseFlow(o: OID, k: FlowKey, file: string, ghost x: Flux)
      requires Coherent(x, rank, {}, cxt.now) && o in x.w.procs && k in x.w.procs[o].table
      requires OnFile(x.w, o, k, file)
      requires State()
               == x.(w := x.w.(log := writer.log, files := fileCxt.files, hushed := writer.hushed), lost := lost)
      requires KeepsRefs(x.w.files, fileCxt.files) && FilesWritten(fileCxt.files, writer.log)
      requires Closed(writer.log) && Continues(x.w.log, writer.log)
      modifies processCxt`procs, processCxt`flows, `dfSet, fileCxt`files
      ensures Coherent(State(), rank, {}, cxt.now)
      ensures processCxt.procs == WithTable(x.w.procs, o, x.w.procs[o].table - {k})
      ensures processCxt.flows == x.w.flows - {x.w.procs[o].table[k]}
      ensures dfSet == Without(x.index, {x.w.procs[o].table[k]})
      ensures x.w.procs[o].table[k] in x.w.flows
      ensures Referred(old(fileCxt.files), fileCxt.files, x.w.flows[x.w.procs[o].table[k]], -1)
    {
      hide Homed, FileRefs, Closed, Declared, Indexed, ContainerRefs, PfIndexed, Timely, Unique, KeyOf, Honest,
           Without;
      EntryFacts(x, o, k, rank, cxt.now);
      var id := processCxt.procs[o].table[k];
      FlowFacts(x, {}, id, rank, cxt.now);
      CanDereference(x, fileCxt.files, {}, id, rank, cxt.now);
      var f := processCxt.flows[id];
      ghost var files := fileCxt.files;
      var removed;
      ghost var at;
      removed, at := RemoveFlowFromSet(id);
      processCxt.procs := WithTable(processCxt.procs, o, processCxt.procs[o].table - {k});
      processCxt.flows := processCxt.flows - {id};
      if f.rec.subject.File? {
        fileCxt.files := WithRefs(fileCxt.files, file, fileCxt.files[file].refs - 1);
      }
      RetireKeeps(x, State(), o, k, at, files, rank, cxt.now);
    }

    /** Writes a flow for the last time and erases it. */
    method RemoveAndWriteFlow(o: OID, k: FlowKey, file: string)
      requires Valid() && o in processCxt.procs && k in processCxt.procs[o].table
      requires OnFile(processCxt.Snapshot(), o, k, file)
      requires Proc(o) in Declared(writer.log)
      modifies processCxt`procs, processCxt`flows, `dfSet, writer`hushed, fileCxt`files, writer`log
      ensures Valid() && o in processCxt.procs
      ensures old(processCxt.procs)[o].table[k] in old(processCxt.flows)
      ensures processCxt.procs == WithTable(old(processCxt.procs), o, old(processCxt.procs)[o].table - {k})
      ensures processCxt.flows == old(processCxt.flows) - {old(processCxt.procs)[o].table[k]}
      ensures dfSet == Without(old(dfSet), {old(processCxt.procs)[o].table[k]})
      ensures Continues(old(writer.log), writer.log)
      ensures Traced()
              == Then(old(Traced()), cxt.cfg.readMode, [old(processCxt.flows)[old(processCxt.procs)[o].table[k]]])
      ensures Referred(old(fileCxt.files), fileCxt.files, old(processCxt.flows)[old(processCxt.procs)[o].table[k]], -1)
      ensures Total(State()) == Total(old(State()))
    {
      hide Homed, FileRefs, Closed, Declared, Indexed, ContainerRefs, PfIndexed, Timely, Unique, KeyOf, Honest,
           Behaviors, Offer, Withheld, Total, Then, Without;
      ghost var x := State();
      EntryFacts(x, o, k, rank, cxt.now);
      var f := processCxt.flows[processCxt.procs[o].table[k]];
      FlowFacts(x, {}, processCxt.procs[o].table[k], rank, cxt.now);
      ThenOne(Traced(), cxt.cfg.readMode, f);
      OfferLast(f);
      EraseFlow(o, k, file, x);
      TotalOffer(x, State(), cxt.cfg.readMode, f, x.w.procs[o].table[k]);
    }

    /** A first operation other than a close opens a flow: it enters the table of its process,
        the index and the heap, and its file gains a reference. */
    method OpenFlow(o: OID, key: FlowKey, f: DataFlow)
      requires Valid() && lastCheck > 0 && o in processCxt.procs && key == KeyOf(f) && key !in processCxt.procs[o].table
      requires forall e :: e in processCxt.delProcQue ==> e.oid != o
      requires f.rec.procOID == o && f.exportTime == f.lastUpdate == cxt.now && !Idle(f.rec.opFlags)
      requires f.rec.subject.File? ==> f.filekey in fileCxt.files && f.rec.subject.fileOID == Sha1(f.filekey)
      modifies processCxt`procs, processCxt`flows, processCxt`nextId, `dfSet, fileCxt`files
      ensures Valid()
      ensures processCxt.flows == old(processCxt.flows)[old(processCxt.nextId) := f]
      ensures old(processCxt.nextId) !in old(processCxt.flows)
      ensures processCxt.procs
              == WithTable(old(processCxt.procs), o, old(processCxt.procs)[o].table[key := old(processCxt.nextId)])
      ensures dfSet == Insert(old(dfSet), Entry(f.exportTime, old(processCxt.nextId)))
      ensures Referred(old(fileCxt.files), fileCxt.files, f, 1)
      ensures Total(State()) == Plus(Total(old(State())), f.rec.cnt)
    {
      hide Homed, FileRefs, Closed, Declared, Indexed, ContainerRefs, PfIndexed, Timely, Unique, KeyOf, Honest, Total,
           Behaviors;
      ghost var x := State();
      var id := processCxt.nextId;
      processCxt.nextId := id + 1;
      processCxt.flows := processCxt.flows[id := f];
      processCxt.procs := WithTable(processCxt.procs, o, processCxt.procs[o].table[key := id]);
      if f.rec.subject.File? {
        fileCxt.files := WithRefs(fileCxt.files, f.filekey, fileCxt.files[f.filekey].refs + 1);
      }
      dfSet := Insert(dfSet, Entry(f.exportTime, id));
      InsertFlow(x, State(), o, f, rank, cxt.now);
      TotalCharge(x, State(), id, f, f.rec.cnt);
    }

    /** A further operation on a live flow. */
    method UpdateFlow(id: FlowId, op: Op, ret: int, openFlags: int)
      requires Valid() && id in processCxt.flows && !op.Truncate?
      modifies processCxt`flows
      ensures Valid()
      ensures processCxt.flows
              == old(processCxt.flows)[id := Updated(old(processCxt.flows)[id], op, ret, openFlags, cxt.now)]
      ensures Total(State()) == Plus(Total(old(State())), DataCharge(op, ret))
    {
      hide Homed, FileRefs, Closed, Declared, Indexed, ContainerRefs, PfIndexed, Timely, Unique, KeyOf, Honest, Total,
           Behaviors, Updated;
      ghost var x := State();
      var f := Updated(processCxt.flows[id], op, ret, openFlags, cxt.now);
      FlowFacts(x, {}, id, rank, cxt.now);
      UpdatedFacts(processCxt.flows[id], op, ret, openFlags, cxt.now);
      processCxt.flows := processCxt.flows[id := f];
      ChangeFlow(x, State(), {}, id, f, rank, cxt.now);
      TotalCharge(x, State(), id, f, DataCharge(op, ret));
    }

    /** A close as the first operation: the flows of other threads end, and the close itself is
        written at once. */
    method CloseNewFlow(o: OID, f: DataFlow, ts: int) returns (ghost vec: seq<FlowId>)
      requires Valid() && o in processCxt.procs && KeyOf(f) !in processCxt.procs[o].table
      requires f.rec.cnt == ZERO && Needs(FlowRec(f.rec)) <= Declared(writer.log) && f.rec.procOID == o
      modifies processCxt`procs, processCxt`flows, `dfSet, writer`hushed, fileCxt`files, writer`log
      ensures Valid() && o in processCxt.procs
      ensures processCxt.procs == WithTable(old(processCxt.procs), o, processCxt.procs[o].table)
      ensures ClearOf(processCxt.procs[o].table, processCxt.flows, f)
      ensures Continues(old(writer.log), writer.log)
      ensures Shut(old(processCxt.procs)[o].table, old(processCxt.flows), old(Traced()),
                   processCxt.procs[o].table, processCxt.flows, Traced(), f, cxt.cfg.readMode, ts, vec)
      ensures dfSet == Without(old(dfSet), Elems(vec))
      ensures Total(State()) == Total(old(State()))
    {
      hide Total, Behaviors, Declared, Offer, Withheld, Then, Picked, Coherent, KeyOf, Fresh, Shut, Closed, Without;
      ghost var x := State();
      ghost var gone;
      vec, gone := RemoveAndWriteRelatedFlows(o, f, ts);
      PickedClears(x, State(), o, vec, f, rank, cxt.now);
      ghost var y := State();
      ClosedLog(y, {}, rank, cxt.now);
      ThenAppend(TrailOf(x.w), cxt.cfg.readMode, gone, Ended(f, ts));
      WriteFlow(Ended(f, ts));
      CoherentLog(y, State(), {}, rank, cxt.now);
      TotalNothing(y, State(), cxt.cfg.readMode, Ended(f, ts));
      assert processCxt.procs[o].table - {KeyOf(f)} == processCxt.procs[o].table;
      assert processCxt.flows - {} == processCxt.flows;
      PickedShuts(x.w.procs[o].table, processCxt.procs[o].table, x.w.flows, TrailOf(x.w),
                  processCxt.procs[o].table, processCxt.flows, Traced(), f, cxt.cfg.readMode, ts, vec,
                  gone);
    }

    /** A close of a live flow: the flows of other threads end, then the flow itself. */
    method CloseFlow(o: OID, key: FlowKey, file: string, ts: int) returns (ghost vec: seq<FlowId>)
      requires Valid() && o in processCxt.procs && key in processCxt.procs[o].table
      requires OnFile(processCxt.Snapshot(), o, key, file)
      requires Proc(o) in Declared(writer.log)
      requires processCxt.procs[o].table[key] in processCxt.flows
      modifies processCxt`procs, processCxt`flows, `dfSet, writer`hushed, fileCxt`files, writer`log
      ensures Valid() && o in processCxt.procs
      ensures processCxt.procs == WithTable(old(processCxt.procs), o, processCxt.procs[o].table)
      ensures ClearOf(processCxt.procs[o].table, processCxt.flows,
                      old(processCxt.flows)[old(processCxt.procs)[o].table[key]])
      ensures Continues(old(writer.log), writer.log)
      ensures Shut(old(processCxt.procs)[o].table, old(processCxt.flows), old(Traced()),
                   processCxt.procs[o].table, processCxt.flows, Traced(),
                   old(processCxt.flows)[old(processCxt.procs)[o].table[key]], cxt.cfg.readMode, ts, vec)
      ensures dfSet == Without(old(dfSet), Elems(vec) + {old(processCxt.procs)[o].table[key]})
      ensures Total(State()) == Total(old(State()))
    {
      hide Total, Behaviors, Declared, Then, Picked, Coherent, KeyOf, Fresh, Related, Shut, Closed, ClearOf, Without,
           Recorded, Segments;
      ghost var x := State();
      EntryFacts(x, o, key, rank, cxt.now);
      var f := processCxt.flows[processCxt.procs[o].table[key]];
      ghost var gone;
      vec, gone := RemoveAndWriteRelatedFlows(o, f, ts);
      PickedClears(x, State(), o, vec, f, rank, cxt.now);
      var id := processCxt.procs[o].table[key];
      ghost var mid := processCxt.flows;
      EndFlow(id, ts);
      ghost var y := State();
      assert y.w.flows[id := f] == mid;
      OwnKeysOf(y, o, rank, cxt.now);
      ThenThen(TrailOf(x.w), cxt.cfg.readMode, gone, [Ended(f, ts)]);
      WithoutTwice(x.index, Elems(vec), {id});
      RemoveAndWriteFlow(o, key, file);
      ClearAfter(y, o, f, id, Ended(f, ts));
      assert processCxt.flows == x.w.flows - Elems(vec) - {id};
      PickedShuts(x.w.procs[o].table, y.w.procs[o].table, x.w.flows, TrailOf(x.w),
                  processCxt.procs[o].table, processCxt.flows, Traced(), f, cxt.cfg.readMode, ts, vec,
                  gone);
    }

    method EndFlow(id: FlowId, ts: int)
      requires Valid() && id in processCxt.flows
      modifies processCxt`flows
      ensures Valid()
      ensures processCxt.flows == old(processCxt.flows)[id := Ended(old(processCxt.flows)[id], ts)]
      ensures Total(State()) == Total(old(State()))
    {
      hide Coherent, Fresh, Total, KeyOf;
      ghost var x := State();
      var f := Ended(processCxt.flows[id], ts);
      SameKey(processCxt.flows[id], ts);
      processCxt.flows := processCxt.flows[id := f];
      TouchFlow(x, State(), {}, id, f, rank, cxt.now);
      FreshTouch(x.w.flows, id, f, lastCheck);
    }

    /** One operation on a flow of a declared process: `f0` is the flow as it would be populated
        for it, `file` the file of the event. */
    method ProcessFlow(o: OID, key: FlowKey, f0: DataFlow, op: Op, ret: int, openFlags: int, file: string, ts: int)
      returns (ghost vec: seq<FlowId>)
      requires Valid() && lastCheck > 0 && o in processCxt.procs
      requires Populated(f0, o, op, cxt.now) && key == KeyOf(f0) && Needs(FlowRec(f0.rec)) <= Declared(writer.log)
      requires f0.rec.subject.File? ==> f0.filekey in fileCxt.files && f0.rec.subject.fileOID == Sha1(f0.filekey)
      requires !op.Close? ==> forall e :: e in processCxt.delProcQue ==> e.oid != o
      requires key in processCxt.procs[o].table ==> OnFile(processCxt.Snapshot(), o, key, file)
      modifies processCxt`procs, processCxt`flows, processCxt`nextId, `dfSet, writer`hushed, fileCxt`files, writer`log
      ensures Valid() && Kept(old(processCxt.procs), processCxt.procs, {}) && o in processCxt.procs
      ensures Total(State()) == Plus(Total(old(State())), DataCharge(op, ret))
      ensures Continues(old(writer.log), writer.log)
      ensures op.Close? ==>
        (ClearOf(processCxt.procs[o].table, processCxt.flows, f0)
         <==> Reaches(old(processCxt.procs)[o].table, old(processCxt.flows), f0))
      ensures processCxt.procs == WithTable(old(processCxt.procs), o, processCxt.procs[o].table)
      ensures Worked(old(processCxt.procs)[o].table, old(processCxt.flows), old(Traced()),
                     processCxt.procs[o].table, processCxt.flows, Traced(),
                     f0, op, ret, openFlags, cxt.cfg.readMode, ts, cxt.now, vec)
      ensures Reindexed(old(processCxt.flows), old(dfSet), processCxt.flows, dfSet)
    {
      hide Total, Behaviors, Declared, Coherent, KeyOf, Fresh, Related, Updated, Offer, Plus, PfKept, BornOf, Born,
           Shut, ClearOf, Reindexed, Without, Insert;
      ghost var ps, x0 := processCxt.procs, State();
      KeptRefl(ps, {});
      vec := [];
      UpdatedFacts(f0, op, ret, openFlags, cxt.now);
      if key !in processCxt.procs[o].table {
        var f := Updated(f0, op, ret, openFlags, cxt.now);
        PlusLaws(DataCharge(op, ret), ZERO, ZERO);
        if !op.Close? {
          OpenFlow(o, key, f);
          ReindexedNew(x0.w.flows, x0.index, x0.w.nextId, f);
        } else {
          PlusLaws(Total(State()), ZERO, ZERO);
          UpdatedNeeds(f0, op, ret, openFlags, cxt.now);
          vec := CloseNewFlow(o, f, ts);
          ShutGoes(ps[o].table, x0.w.flows, Traced(), TrailOf(x0.w), processCxt.procs[o].table, processCxt.flows, f,
                   cxt.cfg.readMode, ts, vec);
          ReindexedBy(x0.w.flows, x0.index, processCxt.flows, dfSet, Elems(vec));
        }
      } else {
        var id := processCxt.procs[o].table[key];
        ghost var g := processCxt.flows[id];
        EntryFacts(State(), o, key, rank, cxt.now);
        UpdatedFacts(g, op, ret, openFlags, cxt.now);
        UpdateFlow(id, op, ret, openFlags);
        ReindexedSame(x0.w.flows, processCxt.flows, dfSet);
        if op.Close? {
          ghost var x := State();
          OwnKeysOf(x0, o, rank, cxt.now);
          vec := CloseFlow(o, key, file, ts);
          ShutUpdated(ps[o].table, old(processCxt.flows), TrailOf(x.w), processCxt.procs[o].table,
                      processCxt.flows, Traced(), x.w.flows[id], cxt.cfg.readMode, ts, vec, id);
          ShutGoes(ps[o].table, x.w.flows, Traced(), TrailOf(x.w), processCxt.procs[o].table, processCxt.flows,
                   x.w.flows[id], cxt.cfg.readMode, ts, vec);
          ReindexedBy(x0.w.flows, x0.index, processCxt.flows, dfSet, Elems(vec) + {id});
        }
      }
      TableKeeps(ps, o, processCxt.procs[o].table);
      if op.Close? {
        OwnKeysOf(x0, o, rank, cxt.now);
        CloseClearsIff(ps[o].table, x0.w.flows, TrailOf(x0.w), processCxt.procs[o].table, processCxt.flows,
                       Traced(), f0, ret, openFlags, cxt.cfg.readMode, ts, cxt.now, vec);
      }
    }

    /** A network event: only IPv4 sockets have flows. */
    method HandleNetFlowEvent(ev: Event, op: Op, fd: int, d: FdInfo) returns (res: int, ghost vec: seq<FlowId>)
      requires Valid() && lastCheck > 0
      requires d.Ipv4? ==>
        && !op.Truncate? && Climbable(processCxt.procs, ev.task, rank, processCxt.tidy)
        && (!op.Close? ==> forall e :: e in processCxt.delProcQue ==> e.oid != OidOf(ev.task))
      modifies processCxt`procs, processCxt`flows, processCxt`nextId, `dfSet, writer`hushed, fileCxt`files,
               containerCxt`containers, writer`log
      ensures Valid()
      ensures Kept(old(processCxt.procs), processCxt.procs,
                   if d.Ipv4? then Born(old(processCxt.procs), ev.task) else {})
      ensures Total(State()) == Plus(Total(old(State())), if d.Ipv4? then DataCharge(op, ev.ret) else ZERO)
      ensures Continues(old(writer.log), writer.log)
      ensures Reindexed(old(processCxt.flows), old(dfSet), processCxt.flows, dfSet)
      ensures Sought(d.Ipv4?, ev, Reup, old(processCxt.Snapshot()), processCxt.Snapshot(), false)
      ensures d.Ipv4? && op.Close? ==>
        var o := OidOf(ev.task);
        o in processCxt.procs
        && ClearOf(processCxt.procs[o].table, processCxt.flows, NewNetFlow(o, d, ev.tid, fd, op, ev.ts, cxt.now))
      ensures Did(if d.Ipv4? then Operate(NewNetFlow(OidOf(ev.task), d, ev.tid, fd, op, ev.ts, cxt.now), 0) else Ignore,
                  old(processCxt.Snapshot()), processCxt.Snapshot(), ev, op, cxt.cfg.readMode, cxt.now, vec)
    {
      hide Total, Behaviors, Declared, Coherent, KeyOf, Fresh, Related, Plus, Closed, Settled, Did, Worked, ClearOf,
           PfKept, BornOf, Born, KeepsFlows, NewNetFlow, Reaches, OwnKeys, LookedUp, Recorded, Marked, Reindexed;
      PlusLaws(Total(State()), ZERO, ZERO);
      ghost var w := processCxt.Snapshot();
      vec := [];
      res := 1;
      DidNothing(w, ev, op, cxt.cfg.readMode, cxt.now, vec);
      KeptRefl(w.procs, {});
      ReindexedSame(w.flows, w.flows, dfSet);
      MarkedSame(w.procs);
      if !d.Ipv4? {
        return;
      }
      var o, _ := BeginEvent(ev, Reup);
      ghost var m := processCxt.Snapshot();
      var key := NetEventKey(d, ev.tid, fd);
      var f0 := NewNetFlow(o, d, ev.tid, fd, op, ev.ts, cxt.now);
      KeyRecovery(o, d, ev.tid, fd, op, ev.ts, cxt.now);
      NetEntries(State(), o, key, rank, cxt.now);
      NetFlowFacts(o, d, ev.tid, fd, op, ev.ts, cxt.now);
      OwnKeysOf(State(), o, rank, cxt.now);
      NetReaches(processCxt.procs[o].table, processCxt.flows, f0);
      vec := ProcessFlow(o, key, f0, op, ev.ret, 0, "", ev.ts);
      WorkedNamed(m.procs[o].table, m.flows, TrailOf(m), processCxt.procs[o].table, processCxt.flows, Traced(), f0, op,
                  ev.ret, 0, cxt.cfg.readMode, ev.ts, cxt.now, vec);
      MarkedTable(m.procs, o, processCxt.procs[o].table);
      LookedStill(ev, Reup, w, m, processCxt.Snapshot());
      DidAfter(w, m, processCxt.Snapshot(), ev, f0, op, 0, cxt.cfg.readMode, cxt.now, vec);
      KeptTrans(w.procs, m.procs, processCxt.procs, Born(w.procs, ev.task));
      res := 0;
    }

    /** `getProcess` on behalf of a flow or an event: the tables of flows do not change. */
    method BeginEvent(ev: Event, state: ObjectState) returns (o: OID, created: bool)
      requires Valid() && Climbable(processCxt.procs, ev.task, rank, processCxt.tidy)
      modifies processCxt`procs, containerCxt`containers, writer`log
      ensures Valid() && o == OidOf(ev.task) && o in processCxt.procs && Proc(o) in Declared(writer.log)
      ensures KeepsFlows(old(processCxt.procs), processCxt.procs)
      ensures Kept(old(processCxt.procs), processCxt.procs, Born(old(processCxt.procs), ev.task))
      ensures AddsEntities(old(writer.log), writer.log) && created == (o !in old(processCxt.procs))
      ensures processCxt.procs[o].written
      ensures LookedUp(ev, state, old(processCxt.Snapshot()), processCxt.Snapshot(), false)
      ensures Total(State()) == Total(old(State()))
    {
      hide Total, Behaviors, Declared, Fresh, Closed, Indexed, Timely, Standing, Walked, Recorded, Attired, Worn,
           RecordsFor;
      ghost var x := State();
      ghost var line, emitted;
      o, created, line, emitted := processCxt.GetProcess(ev, state);
      FirstLook(ev, state, x.w, processCxt.Snapshot(), line, emitted);
      TotalLog(x, State());
    }

    /** `getFile` on behalf of a flow or a file event. */
    method TakeFile(ev: Event, path: string, state: ObjectState) returns (key: string)
      requires Valid()
      modifies fileCxt`files, containerCxt`containers, writer`log
      ensures Valid() && key == ev.container.id + path && key in fileCxt.files
      ensures fileCxt.files == Fetched(old(fileCxt.files), key, state, ev.task.container.id)
      ensures Fil(Sha1(key)) in Declared(writer.log)
      ensures AddsEntities(old(writer.log), writer.log) && Recorded(writer.log) == Recorded(old(writer.log))
      ensures Total(State()) == Total(old(State()))
    {
      hide Total, Behaviors, Declared, Fresh, Closed, Indexed, Timely, Homed, FileRefs, ContainerRefs, PfIndexed,
           Honest;
      ghost var x := State();
      var created;
      key, created := fileCxt.GetFile(ev, path, state);
      CoherentFiles(x, State(), rank, cxt.now);
    }

    /** An event on a file, directory, unix socket or pipe. */
    method HandleFileFlowEvent(ev: Event, op: Op, fd0: int, fdinfo: Option<FdInfo>, mapped: Option<(int, FdInfo)>)
      returns (res: int, ghost vec: seq<FlowId>)
      requires Valid() && lastCheck > 0
      requires var target := FileTarget(cxt.cfg, op, fd0, fdinfo, mapped);
               target.Some? ==>
                 && Climbable(processCxt.procs, ev.task, rank, processCxt.tidy)
                 && (!cxt.cfg.consumer ==>
                     && !op.Truncate? && KeyNamesFile(processCxt.Snapshot(), ev, target.value.0, target.value.1)
                     && (!op.Close? ==> forall e :: e in processCxt.delProcQue ==> e.oid != OidOf(ev.task)))
      modifies processCxt`procs, processCxt`flows, processCxt`nextId, `dfSet, writer`hushed, fileCxt`files,
               containerCxt`containers, writer`log
      ensures Valid()
      ensures var target := FileTarget(cxt.cfg, op, fd0, fdinfo, mapped);
              Kept(old(processCxt.procs), processCxt.procs,
                   if target.Some? then Born(old(processCxt.procs), ev.task) else {})
      ensures var deed := FileDeed(cxt.cfg, ev, FileTarget(cxt.cfg, op, fd0, fdinfo, mapped), op, cxt.now);
              Total(State()) == Plus(Total(old(State())), if deed.Operate? then DataCharge(op, ev.ret) else ZERO)
      ensures Continues(old(writer.log), writer.log)
      ensures Did(FileDeed(cxt.cfg, ev, FileTarget(cxt.cfg, op, fd0, fdinfo, mapped), op, cxt.now),
                  old(processCxt.Snapshot()), processCxt.Snapshot(), ev, op, cxt.cfg.readMode, cxt.now, vec)
      ensures Reindexed(old(processCxt.flows), old(dfSet), processCxt.flows, dfSet)
      ensures var target := FileTarget(cxt.cfg, op, fd0, fdinfo, mapped);
              Sought(target.Some?, ev, Reup, old(processCxt.Snapshot()), processCxt.Snapshot(), false)
      ensures op.Close? ==>
        ClosedFully(FileDeed(cxt.cfg, ev, FileTarget(cxt.cfg, op, fd0, fdinfo, mapped), op, cxt.now),
                    old(processCxt.Snapshot()), processCxt.Snapshot(), OidOf(ev.task))
    {
      hide Total, Behaviors, Declared, Coherent, KeyOf, Fresh, Related, Plus, Closed, Settled, FileFlowKey, Did,
           PfKept, BornOf, Born, KeyNamesFile, FileFlowOf, ConsumerFlow, Climbable, ClosedFully, LookedUp, Recorded,
           Reindexed;
      PlusLaws(Total(State()), ZERO, ZERO);
      vec := [];
      res := 1;
      ghost var x := State();
      DidNothing(processCxt.Snapshot(), ev, op, cxt.cfg.readMode, cxt.now, vec);
      KeptRefl(processCxt.procs, {});
      ReindexedSame(processCxt.flows, processCxt.flows, dfSet);
      var target := FileTarget(cxt.cfg, op, fd0, fdinfo, mapped);
      if target.Some? {
        res, vec := FileOperation(ev, op, target.value.0, target.value.1);
      }
      if op.Close? {
        DidClose(FileDeed(cxt.cfg, ev, target, op, cxt.now), x, processCxt.Snapshot(), ev, cxt.cfg.readMode, rank,
                 cxt.now, vec);
      }
    }

    /** The process and the file of a file operation, both cached and declared. */
    method TakeBoth(ev: Event, d: FdInfo) returns (o: OID, filekey: string)
      requires Valid() && d.Resource? && Climbable(processCxt.procs, ev.task, rank, processCxt.tidy)
      modifies processCxt`procs, fileCxt`files, containerCxt`containers, writer`log
      ensures Valid() && o == OidOf(ev.task) && o in processCxt.procs && Proc(o) in Declared(writer.log)
      ensures filekey == EventFile(ev, d) && filekey in fileCxt.files && Fil(Sha1(filekey)) in Declared(writer.log)
      ensures fileCxt.files == Fetched(old(fileCxt.files), ev.container.id + d.name, Reup, ev.task.container.id)
      ensures KeepsFlows(old(processCxt.procs), processCxt.procs)
      ensures Kept(old(processCxt.procs), processCxt.procs, Born(old(processCxt.procs), ev.task))
      ensures AddsEntities(old(writer.log), writer.log) && Total(State()) == Total(old(State()))
      ensures LookedUp(ev, Reup, old(processCxt.Snapshot()), processCxt.Snapshot(), false)
    {
      hide Total, Behaviors, Declared, Coherent, Fresh, Closed, KeepsFlows, PfKept, BornOf, Born, Climbable, LookedUp,
           Recorded;
      var created;
      o, created := BeginEvent(ev, Reup);
      ghost var m := processCxt.Snapshot();
      filekey := TakeFile(ev, d.name, Reup);
      LookedStill(ev, Reup, old(processCxt.Snapshot()), m, processCxt.Snapshot());
    }

    /** An operation on a file the collector keeps flows for. */
    method FileOperation(ev: Event, op: Op, fd: int, d: FdInfo) returns (res: int, ghost vec: seq<FlowId>)
      requires Valid() && lastCheck > 0 && Climbable(processCxt.procs, ev.task, rank, processCxt.tidy) && d.Resource?
      requires !cxt.cfg.consumer ==>
        && !op.Truncate? && KeyNamesFile(processCxt.Snapshot(), ev, fd, d)
        && (!op.Close? ==> forall e :: e in processCxt.delProcQue ==> e.oid != OidOf(ev.task))
      modifies processCxt`procs, processCxt`flows, processCxt`nextId, `dfSet, writer`hushed, fileCxt`files,
               containerCxt`containers, writer`log
      ensures Valid() && Kept(old(processCxt.procs), processCxt.procs, Born(old(processCxt.procs), ev.task))
      ensures Total(State()) == Plus(Total(old(State())), if cxt.cfg.consumer then ZERO else DataCharge(op, ev.ret))
      ensures Continues(old(writer.log), writer.log)
      ensures Did(FileDeed(cxt.cfg, ev, Some((fd, d)), op, cxt.now),
                  old(processCxt.Snapshot()), processCxt.Snapshot(), ev, op, cxt.cfg.readMode, cxt.now, vec)
      ensures Reindexed(old(processCxt.flows), old(dfSet), processCxt.flows, dfSet)
      ensures LookedUp(ev, Reup, old(processCxt.Snapshot()), processCxt.Snapshot(), false)
    {
      hide Total, Behaviors, Declared, Coherent, KeyOf, Fresh, Plus, Closed, KeyNamesFile, PfKept, BornOf, Born,
           Reindexed, KeepsFlows, Did, FileFlowOf, ConsumerFlow, Climbable, Offer, DataCharge, EventFile, LookedUp,
           Recorded, Marked;
      ghost var w := processCxt.Snapshot();
      var o, filekey := TakeBoth(ev, d);
      ghost var m := processCxt.Snapshot();
      MarkedSame(m.procs);
      ReindexedSame(m.flows, m.flows, dfSet);
      if cxt.cfg.consumer {
        PlusLaws(Total(State()), ZERO, ZERO);
        vec := [];
        Consume(ev, o, op, fd, d, filekey, w);
        res := 1;
      } else {
        KeyStillNamesFile(w, processCxt.Snapshot(), ev, fd, d);
        vec := OperateOn(ev, o, op, fd, d, filekey, w);
        res := 0;
      }
      LookedStill(ev, Reup, w, m, processCxt.Snapshot());
    }

    method Consume(ev: Event, o: OID, op: Op, fd: int, d: FdInfo, filekey: string, ghost w: World)
      requires Valid() && d.Resource? && Proc(o) in Declared(writer.log) && Fil(Sha1(filekey)) in Declared(writer.log)
      requires o == OidOf(ev.task) && filekey == EventFile(ev, d)
      requires KeepsFlows(w.procs, processCxt.procs) && processCxt.flows == w.flows
      requires Traced() == TrailBy(w, processCxt.Snapshot())
      modifies writer`log, writer`hushed
      ensures Valid() && Total(State()) == Total(old(State()))
      ensures Continues(old(writer.log), writer.log)
      ensures Did(if op.Open? then Emit(ConsumerFlow(ev, fd, d, cxt.now)) else Ignore, w, processCxt.Snapshot(), ev, op,
                  cxt.cfg.readMode, cxt.now, [])
      ensures Recorded(writer.log) == Recorded(old(writer.log))
    {
      hide Total, Behaviors, Declared, Coherent, Fresh, Closed, KeepsFlows, Did, ConsumerFlow, Recorded;
      WriteConsumerRecord(ev, o, op, fd, d, filekey);
      DidWrite(if op.Open? then Emit(ConsumerFlow(ev, fd, d, cxt.now)) else Ignore, w, processCxt.Snapshot(), ev, op,
               cxt.cfg.readMode, cxt.now, []);
    }

    method OperateOn(ev: Event, o: OID, op: Op, fd: int, d: FdInfo, filekey: string,
                     ghost w: World) returns (ghost vec: seq<FlowId>)
      requires Valid() && lastCheck > 0 && !op.Truncate? && o == OidOf(ev.task) && o in processCxt.procs
      requires !op.Close? ==> forall e :: e in processCxt.delProcQue ==> e.oid != o
      requires d.Resource? && filekey == EventFile(ev, d) && KeyNamesFile(processCxt.Snapshot(), ev, fd, d)
      requires filekey in fileCxt.files && Proc(o) in Declared(writer.log) && Fil(Sha1(filekey)) in Declared(writer.log)
      requires KeepsFlows(w.procs, processCxt.procs) && Kept(w.procs, processCxt.procs, Born(w.procs, ev.task))
      requires processCxt.flows == w.flows && Traced() == TrailBy(w, processCxt.Snapshot())
      modifies processCxt`procs, processCxt`flows, processCxt`nextId, `dfSet, writer`hushed, fileCxt`files, writer`log
      ensures Valid() && Kept(w.procs, processCxt.procs, Born(w.procs, ev.task))
      ensures Total(State()) == Plus(Total(old(State())), DataCharge(op, ev.ret))
      ensures Continues(old(writer.log), writer.log)
      ensures Did(Operate(FileFlowOf(ev, fd, d, op, cxt.now), d.openFlags), w, processCxt.Snapshot(), ev, op,
                  cxt.cfg.readMode, cxt.now, vec)
      ensures Reindexed(old(processCxt.flows), old(dfSet), processCxt.flows, dfSet)
      ensures Recorded(writer.log) == Recorded(old(writer.log)) && Marked(old(processCxt.procs), processCxt.procs)
    {
      hide Total, Behaviors, Declared, Coherent, KeyOf, Fresh, Plus, Closed, KeyNamesFile, PfKept, BornOf, Born,
           KeepsFlows, Did, Worked, FileFlowOf, Recorded, Marked, Reindexed;
      ghost var m := processCxt.Snapshot();
      vec := UseFile(ev, o, op, fd, d, filekey);
      WorkedNamed(m.procs[o].table, m.flows, TrailOf(m), processCxt.procs[o].table, processCxt.flows, Traced(),
                  FileFlowOf(ev, fd, d, op, cxt.now), op, ev.ret, d.openFlags, cxt.cfg.readMode, ev.ts, cxt.now, vec);
      MarkedTable(m.procs, o, processCxt.procs[o].table);
      DidAfter(w, m, processCxt.Snapshot(), ev, FileFlowOf(ev, fd, d, op, cxt.now), op, d.openFlags, cxt.cfg.readMode,
               cxt.now, vec);
      KeptTrans(w.procs, m.procs, processCxt.procs, Born(w.procs, ev.task));
    }

    method UseFile(ev: Event, o: OID, op: Op, fd: int, d: FdInfo, filekey: string) returns (ghost vec: seq<FlowId>)
      requires Valid() && lastCheck > 0 && !op.Truncate? && o == OidOf(ev.task) && o in processCxt.procs
      requires !op.Close? ==> forall e :: e in processCxt.delProcQue ==> e.oid != o
      requires d.Resource? && filekey == EventFile(ev, d) && KeyNamesFile(processCxt.Snapshot(), ev, fd, d)
      requires filekey in fileCxt.files && Proc(o) in Declared(writer.log) && Fil(Sha1(filekey)) in Declared(writer.log)
      modifies processCxt`procs, processCxt`flows, processCxt`nextId, `dfSet, writer`hushed, fileCxt`files, writer`log
      ensures Valid() && Kept(old(processCxt.procs), processCxt.procs, {})
      ensures Total(State()) == Plus(Total(old(State())), DataCharge(op, ev.ret))
      ensures Continues(old(writer.log), writer.log) && o in processCxt.procs
      ensures processCxt.procs == WithTable(old(processCxt.procs), o, processCxt.procs[o].table)
      ensures Worked(old(processCxt.procs)[o].table, old(processCxt.flows), old(Traced()),
                     processCxt.procs[o].table, processCxt.flows, Traced(),
                     FileFlowOf(ev, fd, d, op, cxt.now),
                     op, ev.ret, d.openFlags, cxt.cfg.readMode, ev.ts, cxt.now, vec)
      ensures Reindexed(old(processCxt.flows), old(dfSet), processCxt.flows, dfSet)
    {
      hide Total, Behaviors, Declared, Coherent, KeyOf, Fresh, Related, Plus, Closed, FileFlowKey, Worked, PfKept,
           BornOf, Born, ClearOf, Reindexed;
      var flowkey := FileFlowKey(d.name, ev.container.id, ev.tid, fd);
      var f0 := NewFileFlow(o, d, filekey, flowkey, ev.tid, fd, op, ev.ts, cxt.now);
      FileFlowHasKey(f0);
      vec := ProcessFlow(o, FileKey(flowkey), f0, op, ev.ret, d.openFlags, filekey, ev.ts);
    }

    /** In consumer mode only opens are reported, each at once and without a flow object. */
    method WriteConsumerRecord(ev: Event, o: OID, op: Op, fd: int, d: FdInfo, filekey: string)
      requires Valid() && d.Resource? && Proc(o) in Declared(writer.log) && Fil(Sha1(filekey)) in Declared(writer.log)
      requires o == OidOf(ev.task) && filekey == EventFile(ev, d)
      modifies writer`log, writer`hushed
      ensures Valid()
      ensures Total(State()) == Total(old(State()))
      ensures Continues(old(writer.log), writer.log)
      ensures Traced() == if op.Open? then Then(old(Traced()), cxt.cfg.readMode, [ConsumerFlow(ev, fd, d, cxt.now)])
                          else old(Traced())
    {
      hide Total, Behaviors, Declared, Fresh, Closed, Indexed, Timely, Homed, FileRefs, ContainerRefs, PfIndexed,
           Honest, Offer, Withheld, Then;
      if op.Open? {
        ghost var x := State();
        ClosedLog(x, {}, rank, cxt.now);
        var f := NewFileFlow(o, d, filekey, "", ev.tid, fd, op, ev.ts, cxt.now).(filekey := "");
        f := Ended(f, ev.ts);
        ThenOne(Traced(), cxt.cfg.readMode, f);
        WriteFlow(f);
        CoherentLog(x, State(), {}, rank, cxt.now);
        TotalNothing(x, State(), cxt.cfg.readMode, f);
      }
    }

    /** Writes an event record whose entities are declared. */
    method WriteEvent(r: Record)
      requires Valid() && IsBehavior(r) && Cost(r) == ZERO && Needs(r) <= Declared(writer.log)
      modifies writer`log
      ensures Valid() && writer.log == old(writer.log) + [r]
      ensures Behaviors(writer.log) == Behaviors(old(writer.log)) + [r]
      ensures Recorded(writer.log) == Recorded(old(writer.log))
      ensures Continues(old(writer.log), writer.log) && Total(State()) == Total(old(State()))
    {
      hide Total, Behaviors, Declared, Coherent, Fresh, Closed;
      ghost var x := State();
      writer.Write(r);
      CoherentEvent(x, State(), r, rank, cxt.now);
    }

    /** Creation or removal of a file or directory: one event record on one file. */
    method WriteFileEvent(ev: Event, op: Op, path: string)
      requires Valid() && Climbable(processCxt.procs, ev.task, rank, processCxt.tidy)
      modifies processCxt`procs, fileCxt`files, containerCxt`containers, writer`log
      ensures Valid() && Kept(old(processCxt.procs), processCxt.procs, Born(old(processCxt.procs), ev.task))
      ensures Total(State()) == Total(old(State())) && Continues(old(writer.log), writer.log)
      ensures EndsWith(writer.log, FileEventRec(op, OidOf(ev.task), ev.tid, ev.ret, ev.ts,
                                                Sha1(ev.container.id + path), None))
      ensures KeepsFlows(old(processCxt.procs), processCxt.procs)
      ensures fileCxt.files
              == Fetched(old(fileCxt.files), ev.container.id + path, Created, ev.task.container.id)
      ensures Behaviors(writer.log) == Behaviors(old(writer.log))
                + [FileEventRec(op, OidOf(ev.task), ev.tid, ev.ret, ev.ts,
                                Sha1(ev.container.id + path), None)]
      ensures LookedUp(ev, Reup, old(processCxt.Snapshot()), processCxt.Snapshot(), false)
    {
      hide Total, Behaviors, Declared, Coherent, Fresh, Closed, PfKept, BornOf, Born, KeepsFlows, LookedUp, Recorded,
           Fetched, Segments;
      var o, _ := BeginEvent(ev, Reup);
      ghost var m := processCxt.Snapshot();
      var file := TakeFile(ev, path, Created);
      WriteEvent(FileEventRec(op, o, ev.tid, ev.ret, ev.ts, Sha1(file), None));
      LookedStill(ev, Reup, old(processCxt.Snapshot()), m, processCxt.Snapshot());
    }

    /** A link, symbolic link or rename: one event record on two files. */
    method WriteLinkEvent(ev: Event, op: Op, path1: string, path2: string)
      requires Valid() && Climbable(processCxt.procs, ev.task, rank, processCxt.tidy)
      modifies processCxt`procs, fileCxt`files, containerCxt`containers, writer`log
      ensures Valid() && Kept(old(processCxt.procs), processCxt.procs, Born(old(processCxt.procs), ev.task))
      ensures Total(State()) == Total(old(State())) && Continues(old(writer.log), writer.log)
      ensures EndsWith(writer.log, FileEventRec(op, OidOf(ev.task), ev.tid, ev.ret, ev.ts,
                                                Sha1(ev.container.id + path1), Some(Sha1(ev.container.id + path2))))
      ensures KeepsFlows(old(processCxt.procs), processCxt.procs)
      ensures fileCxt.files
              == Fetched(Fetched(old(fileCxt.files), ev.container.id + path1, Reup, ev.task.container.id),
                         ev.container.id + path2, Created, ev.task.container.id)
      ensures Behaviors(writer.log) == Behaviors(old(writer.log))
                + [FileEventRec(op, OidOf(ev.task), ev.tid, ev.ret, ev.ts,
                                Sha1(ev.container.id + path1), Some(Sha1(ev.container.id + path2)))]
      ensures LookedUp(ev, Reup, old(processCxt.Snapshot()), processCxt.Snapshot(), false)
    {
      hide Total, Behaviors, Declared, Coherent, Fresh, Closed, PfKept, BornOf, Born, KeepsFlows, LookedUp, Recorded,
           Fetched, Segments;
      var o, _ := BeginEvent(ev, Reup);
      ghost var m := processCxt.Snapshot();
      var file1 := TakeFile(ev, path1, Reup);
      var file2 := TakeFile(ev, path2, Created);
      WriteEvent(FileEventRec(op, o, ev.tid, ev.ret, ev.ts, Sha1(file1), Some(Sha1(file2))));
      LookedStill(ev, Reup, old(processCxt.Snapshot()), m, processCxt.Snapshot());
    }

    method HandleFileEvent(ev: Event, op: Op, d: Option<FdInfo>, path1: string, path2: string) returns (res: int)
      requires Valid() && (IsFileEvent(op) ==> Climbable(processCxt.procs, ev.task, rank, processCxt.tidy))
      modifies processCxt`procs, fileCxt`files, containerCxt`containers, writer`log
      ensures Valid()
      ensures Kept(old(processCxt.procs), processCxt.procs,
                   if IsFileEvent(op) then Born(old(processCxt.procs), ev.task) else {})
      ensures Total(State()) == Total(old(State())) && Continues(old(writer.log), writer.log)
      ensures ev.call.DataCall? && IsFileEvent(op) && op == ev.call.op && d == ev.call.fdinfo && path1 == ev.call.path1
              && path2 == ev.call.path2 ==>
        Did(Report(FileEventOf(ev)), old(processCxt.Snapshot()), processCxt.Snapshot(), ev, op, cxt.cfg.readMode,
            cxt.now, [])
      ensures !IsFileEvent(op) ==> writer.log == old(writer.log)
      ensures Sought(IsFileEvent(op), ev, Reup, old(processCxt.Snapshot()), processCxt.Snapshot(), false)
    {
      hide Total, Behaviors, Declared, Coherent, Fresh, Closed, PfKept, BornOf, Born, KeepsFlows, Did, Climbable,
           LookedUp, Recorded;
      ghost var w := processCxt.Snapshot();
      KeptRefl(processCxt.procs, {});
      res := 1;
      if op.Mkdir? || op.Rmdir? || op.Unlink? {
        WriteFileEvent(ev, op, if d.Some? && d.value.Resource? then d.value.name else path1);
        res := 0;
      } else if op.Link? || op.Symlink? || op.Rename? {
        WriteLinkEvent(ev, op, path1, path2);
        res := 0;
      }
      if && ev.call.DataCall? && IsFileEvent(op) && op == ev.call.op && d == ev.call.fdinfo
         && path1 == ev.call.path1 && path2 == ev.call.path2 {
        DidWrite(Report(FileEventOf(ev)), w, processCxt.Snapshot(), ev, op, cxt.cfg.readMode, cxt.now, []);
      }
    }

    /** A data event does exactly the deed it asks for.  `vec` lists the flows of other threads
        that end with a close. */
    method HandleDataEvent(ev: Event) returns (res: int, ghost vec: seq<FlowId>)
      requires Valid() && lastCheck > 0 && ev.call.DataCall?
      requires DataHypotheses(cxt.cfg, processCxt.Snapshot(), ev, rank)
      modifies processCxt`procs, processCxt`flows, processCxt`nextId, `dfSet, writer`hushed, fileCxt`files,
               containerCxt`containers, writer`log
      ensures Valid()
      ensures Kept(old(processCxt.procs), processCxt.procs,
                   if LooksUp(cxt.cfg, ev) then Born(old(processCxt.procs), ev.task) else {})
      ensures Total(State()) == Plus(Total(old(State())), EventCharge(cxt.cfg, ev))
      ensures Continues(old(writer.log), writer.log)
      ensures Reindexed(old(processCxt.flows), old(dfSet), processCxt.flows, dfSet)
      ensures Sought(LooksUp(cxt.cfg, ev), ev, Reup, old(processCxt.Snapshot()), processCxt.Snapshot(), false)
      ensures Did(DeedOf(cxt.cfg, ev, cxt.now), old(processCxt.Snapshot()), processCxt.Snapshot(), ev, ev.call.op,
                  cxt.cfg.readMode, cxt.now, vec)
      ensures Acted(cxt.cfg, ev, old(processCxt.Snapshot()), processCxt.Snapshot(), cxt.now, vec)
      ensures ev.call.op.Close? ==>
        ClosedFully(DeedOf(cxt.cfg, ev, cxt.now), old(processCxt.Snapshot()), processCxt.Snapshot(), OidOf(ev.task))
    {
      hide Total, Behaviors, Declared, Coherent, Fresh, Closed, PfKept, BornOf, Born, KeyNamesFile, Plus, ClearOf,
           Did, Climbable, NewNetFlow, FileFlowOf, ConsumerFlow, FileEventOf, KeyOf, ClosedFully, DataCharge,
           LookedUp, Recorded, Reindexed, Acted;
      PlusLaws(Total(State()), ZERO, ZERO);
      KeptRefl(processCxt.procs, {});
      vec := [];
      DidNothing(processCxt.Snapshot(), ev, ev.call.op, cxt.cfg.readMode, cxt.now, vec);
      ghost var x := State();
      ReindexedSame(x.w.flows, x.w.flows, dfSet);
      DeedAnyTime(cxt.cfg, ev, cxt.now);
      var c := ev.call;
      if c.fdinfo.None? {
        if IsFileEvent(c.op) && !cxt.cfg.noFiles {
          res := HandleFileEvent(ev, c.op, None, c.path1, c.path2);
        } else if c.op.Mmap? && !cxt.cfg.noFiles {
          res, vec := HandleFileFlowEvent(ev, c.op, c.fd, None, c.mapped);
        } else {
          res := 1;
        }
      } else {
        var d := c.fdinfo.value;
        if d.Ipv4? || d.Ipv6? {
          res, vec := HandleNetFlowEvent(ev, c.op, c.fd, d);
        } else if IsFileEvent(c.op) && !cxt.cfg.noFiles {
          res := HandleFileEvent(ev, c.op, c.fdinfo, c.path1, c.path2);
        } else if !cxt.cfg.noFiles {
          res, vec := HandleFileFlowEvent(ev, c.op, c.fd, c.fdinfo, c.mapped);
        } else {
          res := 2;
        }
      }
      DidActs(cxt.cfg, ev, x, processCxt.Snapshot(), rank, cxt.now, vec);
      if c.op.Close? {
        DidClose(DeedOf(cxt.cfg, ev, cxt.now), x, processCxt.Snapshot(), ev, cxt.cfg.readMode, rank, cxt.now, vec);
      }
    }

    /** Ends a flow because its thread, or its whole process (`tid == -1`), exits. */
    method RetireForExit(o: OID, k: FlowKey, tid: int) returns (ghost gone: seq<FlowId>)
      requires Valid() && o in processCxt.procs && k in processCxt.procs[o].table
      requires Proc(o) in Declared(writer.log) && processCxt.procs[o].table[k] in processCxt.flows
      requires tid == -1 || processCxt.flows[processCxt.procs[o].table[k]].rec.tid == tid
      modifies processCxt`procs, processCxt`flows, `dfSet, writer`hushed, fileCxt`files, writer`log
      ensures Valid() && Continues(old(writer.log), writer.log)
      ensures Took(old(processCxt.flows), o, tid, gone)
      ensures Fewer(old(processCxt.Snapshot()), processCxt.Snapshot(), o) && k !in processCxt.procs[o].table
      ensures Departed(old(processCxt.Snapshot()), processCxt.Snapshot(), gone, cxt.cfg.readMode, cxt.nowNs)
      ensures dfSet == Without(old(dfSet), Elems(gone))
      ensures Total(State()) == Total(old(State()))
    {
      hide Total, Behaviors, Declared, Coherent, Fresh, Closed, KeyOf, Related, Then, Fewer, Departed, Took, Without,
           Recorded, Segments;
      ghost var x, id := State(), processCxt.procs[o].table[k];
      ghost var vec := EndRelatives(o, k, tid);
      ghost var m := processCxt.Snapshot();
      EndEntry(o, k, processCxt.procs[o].table[k]);
      Retired(x.w, m, processCxt.Snapshot(), o, k, vec, cxt.cfg.readMode, cxt.nowNs);
      gone := vec + [id];
      WithoutTwice(x.index, Elems(vec), {id});
      ElemsConcat(vec, [id]);
      assert Elems([id]) == {id};
    }

    /** Marks the end of a flow of an exiting thread, and ends the flows of other threads related to it. */
    method EndRelatives(o: OID, k: FlowKey, tid: int) returns (ghost vec: seq<FlowId>)
      requires Valid() && o in processCxt.procs && k in processCxt.procs[o].table
      requires Proc(o) in Declared(writer.log) && processCxt.procs[o].table[k] in processCxt.flows
      requires tid == -1 || processCxt.flows[processCxt.procs[o].table[k]].rec.tid == tid
      modifies processCxt`procs, processCxt`flows, `dfSet, writer`hushed, fileCxt`files, writer`log
      ensures Valid() && Continues(old(writer.log), writer.log) && o in processCxt.procs
      ensures processCxt.procs == WithTable(old(processCxt.procs), o, processCxt.procs[o].table)
      ensures k in processCxt.procs[o].table
      ensures forall j :: j in processCxt.procs[o].table ==>
        j in old(processCxt.procs)[o].table && processCxt.procs[o].table[j] == old(processCxt.procs)[o].table[j]
      ensures var id := old(processCxt.procs)[o].table[k];
              var marked := old(processCxt.flows)[id := Ended(old(processCxt.flows)[id], cxt.nowNs)];
              && NoDup(vec) && id !in vec && (forall j :: j in vec ==> j in old(processCxt.flows))
              && processCxt.flows == marked - Elems(vec) && dfSet == Without(old(dfSet), Elems(vec))
              && Traced() == Then(old(Traced()), cxt.cfg.readMode, CutAll(marked, vec, cxt.nowNs))
              && Took(old(processCxt.flows), o, tid, vec + [id])
      ensures Total(State()) == Total(old(State()))
    {
      hide Total, Behaviors, Declared, Coherent, Fresh, Closed, KeyOf, Related, Then, Took, Without;
      ghost var x := State();
      EntryFacts(x, o, k, rank, cxt.now);
      var id := processCxt.procs[o].table[k];
      EndFlow(id, cxt.nowNs);
      vec := [];
      NoOffers(cxt.cfg.readMode, processCxt.flows, cxt.nowNs, Traced());
      WithoutNone(dfSet, Elems([]));
      assert processCxt.flows - Elems([]) == processCxt.flows;
      if tid != -1 {
        vec := RelatedForExit(o, k, id);
        KinOfEnded(x.w.flows, o, vec, id, cxt.nowNs);
      }
      TookOne(x.w.flows, o, tid, vec, id);
    }

    /** The flow is cut off, offered and erased. */
    method EndEntry(o: OID, k: FlowKey, id: FlowId)
      requires Valid() && o in processCxt.procs && k in processCxt.procs[o].table && processCxt.procs[o].table[k] == id
      requires Proc(o) in Declared(writer.log) && id in processCxt.flows
      modifies processCxt`procs, processCxt`flows, `dfSet, writer`hushed, fileCxt`files, writer`log
      ensures Valid() && Continues(old(writer.log), writer.log) && o in processCxt.procs
      ensures processCxt.procs == WithTable(old(processCxt.procs), o, old(processCxt.procs)[o].table - {k})
      ensures processCxt.flows == old(processCxt.flows) - {id} && dfSet == Without(old(dfSet), {id})
      ensures Traced() == Then(old(Traced()), cxt.cfg.readMode, [Truncated(old(processCxt.flows)[id], cxt.nowNs)])
      ensures Total(State()) == Total(old(State()))
    {
      hide Total, Behaviors, Declared, Coherent, Fresh, Closed, KeyOf, Then;
      TruncateFlow(id);
      EntryFacts(State(), o, k, rank, cxt.now);
      RemoveAndWriteFlow(o, k, processCxt.flows[id].filekey);
    }

    /** The flows of other threads on the same descriptor end with it. */
    method RelatedForExit(o: OID, k: FlowKey, id: FlowId) returns (vec: seq<FlowId>)
      requires Valid() && o in processCxt.procs && k in processCxt.procs[o].table
      requires processCxt.procs[o].table[k] == id && Proc(o) in Declared(writer.log)
      modifies processCxt`procs, processCxt`flows, `dfSet, writer`hushed, fileCxt`files, writer`log
      ensures Valid() && Continues(old(writer.log), writer.log)
      ensures o in processCxt.procs
      ensures processCxt.procs == WithTable(old(processCxt.procs), o, processCxt.procs[o].table)
      ensures k in processCxt.procs[o].table && processCxt.procs[o].table[k] == id && id in processCxt.flows
      ensures forall j :: j in processCxt.procs[o].table ==>
        j in old(processCxt.procs)[o].table && processCxt.procs[o].table[j] == old(processCxt.procs)[o].table[j]
      ensures processCxt.flows == old(processCxt.flows) - Elems(vec) && id !in vec
      ensures dfSet == Without(old(dfSet), Elems(vec))
      ensures NoDup(vec) && forall j :: j in vec ==> j in old(processCxt.flows)
      ensures Traced() == Then(old(Traced()), cxt.cfg.readMode, CutAll(old(processCxt.flows), vec, cxt.nowNs))
      ensures forall j :: j in vec <==>
        && j in old(processCxt.flows) && old(processCxt.flows)[j].rec.procOID == o
        && Related(old(processCxt.flows)[j], old(processCxt.flows)[id])
      ensures Total(State()) == Total(old(State()))
    {
      hide Total, Behaviors, Declared, Coherent, Fresh, Closed, KeyOf, Related, Then, Picked;
      ghost var x := State();
      EntryFacts(x, o, k, rank, cxt.now);
      var f := processCxt.flows[id];
      ghost var gone;
      vec, gone := RemoveAndWriteRelatedFlows(o, f, cxt.nowNs);
      PickedOrder(x, o, processCxt.procs[o].table, vec, f);
      PickedKin(x, o, processCxt.procs[o].table, vec, f, rank, cxt.now);
      assert gone == CutAll(x.w.flows, vec, cxt.nowNs);
      PickedClears(x, State(), o, vec, f, rank, cxt.now);
    }

    method TruncateFlow(id: FlowId)
      requires Valid() && id in processCxt.flows
      modifies processCxt`flows
      ensures Valid()
      ensures processCxt.flows == old(processCxt.flows)[id := Truncated(old(processCxt.flows)[id], cxt.nowNs)]
      ensures Total(State()) == Total(old(State()))
    {
      MarkPending(id, cxt.nowNs, {});
    }

    /** Ends the network flows, or the file flows, of an exiting thread or process. */
    method RemoveFromTable(o: OID, tid: int, net: bool) returns (ghost gone: seq<FlowId>)
      requires Valid() && o in processCxt.procs && Proc(o) in Declared(writer.log)
      modifies processCxt`procs, processCxt`flows, `dfSet, writer`hushed, fileCxt`files, writer`log
      ensures Valid() && Continues(old(writer.log), writer.log)
      ensures Fewer(old(processCxt.Snapshot()), processCxt.Snapshot(), o)
      ensures ExitDone(processCxt.Snapshot(), o, net, tid, {})
      ensures Departed(old(processCxt.Snapshot()), processCxt.Snapshot(), gone, cxt.cfg.readMode, cxt.nowNs)
      ensures dfSet == Without(old(dfSet), Elems(gone))
      ensures Took(old(processCxt.flows), o, tid, gone)
      ensures Total(State()) == Total(old(State()))
    {
      hide Total, Behaviors, Declared, Coherent, Fresh, Closed, KeyOf, Fewer, ExitDone, Departed, Took, Without;
      WithoutNone(dfSet, Elems([]));
      var todo := processCxt.procs[o].table.Keys;
      ghost var x := processCxt.Snapshot();
      gone := [];
      DepartedRefl(x, cxt.cfg.readMode, cxt.nowNs);
      FewerRefl(x, o);
      ExitStart(x, o, net, tid);
      TookNone(x.flows, o, tid);
      while todo != {}
        invariant Valid() && Continues(old(writer.log), writer.log)
        invariant Fewer(x, processCxt.Snapshot(), o) && o in processCxt.procs
        invariant ExitDone(processCxt.Snapshot(), o, net, tid, todo)
        invariant Departed(x, processCxt.Snapshot(), gone, cxt.cfg.readMode, cxt.nowNs)
        invariant Took(x.flows, o, tid, gone) && dfSet == Without(old(dfSet), Elems(gone))
        invariant Total(State()) == Total(old(State()))
        decreases |todo|
      {
        var k :| k in todo;
        gone := ExitOne(o, tid, net, k, x, old(dfSet), todo, gone);
        todo := todo - {k};
      }
    }

    method ExitOne(o: OID, tid: int, net: bool, k: FlowKey, ghost x: World, ghost index: seq<Entry<FlowId>>,
                   ghost todo: set<FlowKey>, ghost gone: seq<FlowId>)
      returns (ghost gone': seq<FlowId>)
      requires Valid() && o in processCxt.procs && Proc(o) in Declared(writer.log) && k in todo
      requires Fewer(x, processCxt.Snapshot(), o) && ExitDone(processCxt.Snapshot(), o, net, tid, todo)
      requires Departed(x, processCxt.Snapshot(), gone, cxt.cfg.readMode, cxt.nowNs) && Took(x.flows, o, tid, gone)
      requires dfSet == Without(index, Elems(gone))
      modifies processCxt`procs, processCxt`flows, `dfSet, writer`hushed, fileCxt`files, writer`log
      ensures Valid() && Continues(old(writer.log), writer.log) && o in processCxt.procs
      ensures Fewer(x, processCxt.Snapshot(), o) && ExitDone(processCxt.Snapshot(), o, net, tid, todo - {k})
      ensures Departed(x, processCxt.Snapshot(), gone', cxt.cfg.readMode, cxt.nowNs) && Took(x.flows, o, tid, gone')
      ensures dfSet == Without(index, Elems(gone'))
      ensures Total(State()) == Total(old(State()))
    {
      hide Total, Behaviors, Declared, Coherent, Fresh, Closed, KeyOf, Fewer, Departed, Took, ExitDone, Without;
      gone' := gone;
      if k in processCxt.procs[o].table && k.NetKey? == net {
        ghost var w := processCxt.Snapshot();
        EntryFacts(State(), o, k, rank, cxt.now);
        var f := processCxt.flows[processCxt.procs[o].table[k]];
        if tid == -1 || f.rec.tid == tid {
          ghost var more := RetireForExit(o, k, tid);
          DepartedTrans(x, w, processCxt.Snapshot(), gone, more, cxt.cfg.readMode, cxt.nowNs);
          DepartedMeans(x, w, gone, cxt.cfg.readMode, cxt.nowNs);
          TookTrans(x.flows, w.flows, o, tid, gone, more);
          ElemsConcat(gone, more);
          WithoutTwice(index, Elems(gone), Elems(more));
          gone' := gone + more;
          FewerTrans(x, w, processCxt.Snapshot(), o);
          FewerOwner(w, processCxt.Snapshot(), o);
          OwnKeysOf(State(), o, rank, cxt.now);
          ExitDoneFewer(w, processCxt.Snapshot(), o, net, tid, todo);
        }
      }
      ExitDoneBut(processCxt.Snapshot(), o, net, tid, todo, k);
    }

    /** Exit of a thread, or of the whole process (`tid == -1`): its flows are written, cut off,
        and removed, file flows first. */
    method RemoveAndWriteDFFromProc(o: OID, tid: int) returns (ghost gone: seq<FlowId>)
      requires Valid() && o in processCxt.procs && Proc(o) in Declared(writer.log)
      modifies processCxt`procs, processCxt`flows, `dfSet, writer`hushed, fileCxt`files, writer`log
      ensures Valid() && Continues(old(writer.log), writer.log)
      ensures Fewer(old(processCxt.Snapshot()), processCxt.Snapshot(), o)
      ensures ExitDone(processCxt.Snapshot(), o, false, tid, {}) && ExitDone(processCxt.Snapshot(), o, true, tid, {})
      ensures tid == -1 ==> processCxt.procs[o].table == map[]
      ensures Departed(old(processCxt.Snapshot()), processCxt.Snapshot(), gone, cxt.cfg.readMode, cxt.nowNs)
      ensures dfSet == Without(old(dfSet), Elems(gone))
      ensures forall id :: id in gone <==> Leaves(old(processCxt.flows), o, tid, id)
      ensures Total(State()) == Total(old(State()))
    {
      hide Total, Behaviors, Declared, Coherent, Fresh, Closed, KeyOf, Fewer, ExitDone, Departed, Took, Leaves,
           Without;
      ghost var x := processCxt.Snapshot();
      ghost var files := RemoveFromTable(o, tid, false);
      ghost var y := processCxt.Snapshot();
      FewerOwner(x, y, o);
      ghost var nets := RemoveFromTable(o, tid, true);
      gone := files + nets;
      ElemsConcat(files, nets);
      WithoutTwice(old(dfSet), Elems(files), Elems(nets));
      DepartedTrans(x, y, processCxt.Snapshot(), files, nets, cxt.cfg.readMode, cxt.nowNs);
      FewerTrans(x, y, processCxt.Snapshot(), o);
      FewerOwner(y, processCxt.Snapshot(), o);
      OwnKeysOf(State(), o, rank, cxt.now);
      ExitDoneFewer(y, processCxt.Snapshot(), o, false, tid, {});
      ExitAll(processCxt.Snapshot(), o, tid);
      DepartedMeans(x, y, files, cxt.cfg.readMode, cxt.nowNs);
      TookTrans(x.flows, y.flows, o, tid, files, nets);
      DepartedMeans(x, processCxt.Snapshot(), gone, cxt.cfg.readMode, cxt.nowNs);
      TookAll(x, State(), o, tid, gone, rank, cxt.now);
    }

    /** A deleted flow gives back the reference it held on its file. */
    method Dereference(f: DataFlow)
      requires f.rec.subject.File? ==> f.filekey in fileCxt.files && fileCxt.files[f.filekey].refs > 0
      modifies fileCxt`files
      ensures fileCxt.files == Dereferenced(old(fileCxt.files), f)
      ensures Referred(old(fileCxt.files), fileCxt.files, f, -1)
    {
      if f.rec.subject.File? {
        fileCxt.files := WithRefs(fileCxt.files, f.filekey, fileCxt.files[f.filekey].refs - 1);
      }
    }

    /** Discards an expired flow, first in the index, without writing it. */
    method ExpireFlow(id: FlowId)
      requires Coherent(State(), rank, {}, cxt.now) && id in processCxt.flows && dfSet != [] && dfSet[0].id == id
      modifies processCxt`procs, processCxt`flows, `dfSet, `lost, fileCxt`files, writer`log
      ensures Coherent(State(), rank, {}, cxt.now)
      ensures processCxt.flows == old(processCxt.flows) - {id} && dfSet == old(dfSet)[1..]
      ensures AddsEntities(old(writer.log), writer.log) && Kept(old(processCxt.procs), processCxt.procs, {})
      ensures Told(old(processCxt.procs), old(writer.log), processCxt.procs, writer.log)
      ensures Referred(old(fileCxt.files), fileCxt.files, old(processCxt.flows)[id], -1)
      ensures Total(State()) == Total(old(State())) && lost == Plus(old(lost), old(processCxt.flows)[id].rec.cnt)
    {
      hide Coherent, Fresh, Closed, Declared, Indexed, Total, Behaviors, Unique, KeyOf, Idle, Plus, PfKept, BornOf,
           Born, FilesWritten, Told, Recorded, Marked;
      ghost var x := State();
      FlowFacts(x, {}, id, rank, cxt.now);
      ClosedLog(x, {}, rank, cxt.now);
      var f := processCxt.flows[id];
      DeclareFile(f);
      lost := Plus(lost, f.rec.cnt);
      DropHead(id, f, x);
      TotalExpire(x, State(), id);
      ToldNone(x.w.procs, x.w.log, processCxt.procs, writer.log);
    }

    /** Takes the flow at the head of the index out of everything. */
    method DropHead(id: FlowId, f: DataFlow, ghost x: Flux)
      requires Coherent(x, rank, {}, cxt.now) && id in x.w.flows && f == x.w.flows[id] && x.index != []
      requires x.index[0].id == id
      requires State()
               == x.(w := x.w.(log := writer.log, files := fileCxt.files, hushed := writer.hushed), lost := lost)
      requires KeepsRefs(x.w.files, fileCxt.files) && FilesWritten(fileCxt.files, writer.log)
      requires Closed(writer.log) && Continues(x.w.log, writer.log)
      modifies processCxt`procs, processCxt`flows, `dfSet, fileCxt`files
      ensures Coherent(State(), rank, {}, cxt.now)
      ensures processCxt.flows == x.w.flows - {id} && dfSet == x.index[1..] && Kept(x.w.procs, processCxt.procs, {})
      ensures Marked(x.w.procs, processCxt.procs)
      ensures forall q :: q in processCxt.procs ==> processCxt.procs[q].written == x.w.procs[q].written
      ensures Referred(old(fileCxt.files), fileCxt.files, f, -1)
    {
      hide Coherent, Closed, Declared, Indexed, Unique, KeyOf, PfKept, BornOf, KeepsRefs, FilesWritten, Marked;
      FlowFacts(x, {}, id, rank, cxt.now);
      var o, k := f.rec.procOID, KeyOf(f);
      ghost var files := fileCxt.files;
      CanDereference(x, files, {}, id, rank, cxt.now);
      TableKeeps(x.w.procs, o, x.w.procs[o].table - {k});
      MarkedTable(x.w.procs, o, x.w.procs[o].table - {k});
      processCxt.procs := WithTable(processCxt.procs, o, processCxt.procs[o].table - {k});
      processCxt.flows := processCxt.flows - {id};
      Dereference(f);
      dfSet := EraseAt(dfSet, 0);
      RetireKeeps(x, State(), o, k, 0, files, rank, cxt.now);
    }

    /** Declares the process and the file of a flow about to be exported. */
    method DeclareEntities(f: DataFlow, id: FlowId)
      requires Coherent(State(), rank, {}, cxt.now) && id in processCxt.flows && f == processCxt.flows[id]
      modifies processCxt`procs, containerCxt`containers, fileCxt`files, writer`log
      ensures Coherent(State(), rank, {}, cxt.now) && Needs(FlowRec(f.rec)) <= Declared(writer.log)
      ensures KeepsFlows(old(processCxt.procs), processCxt.procs) && BornOf(old(processCxt.procs), processCxt.procs, {})
      ensures AddsEntities(old(writer.log), writer.log)
      ensures Told(old(processCxt.procs), old(writer.log), processCxt.procs, writer.log)
      ensures Total(State()) == Total(old(State()))
    {
      hide Standing, FilesWritten, Declared, Indexed, Timely, Unique, KeyOf, Total, Behaviors, Closed, KeepsFlows,
           Told, Recorded;
      ghost var x := State();
      FlowFacts(x, {}, id, rank, cxt.now);
      var found := processCxt.ExportProcess(f.rec.procOID);
      assert found;
      MarkKeepsFlows(x.w.procs, f.rec.procOID);
      ghost var y := State();
      TotalLog(x, y);
      ClosedLog(y, {}, rank, cxt.now);
      DeclareFile(f);
      CoherentFiles(y, State(), rank, cxt.now);
      ToldOne(x.w.procs, x.w.log, f.rec.procOID, writer.log);
    }

    /** Exports a due flow, first in the index, and starts it afresh. */
    method ExportFlow(id: FlowId)
      requires Coherent(State(), rank, {}, cxt.now) && id in processCxt.flows && dfSet != [] && dfSet[0].id == id
      modifies processCxt`procs, processCxt`flows, `dfSet, writer`hushed, containerCxt`containers, fileCxt`files,
               writer`log
      ensures Coherent(State(), rank, {}, cxt.now)
      ensures processCxt.flows == old(processCxt.flows)[id := Renewed(old(processCxt.flows)[id], cxt.now, cxt.nowNs)]
      ensures dfSet == Insert(old(dfSet)[1..], Entry(cxt.now, id))
      ensures Continues(old(writer.log), writer.log)
      ensures Traced() == Then(old(Traced()).(named := Recorded(writer.log)), cxt.cfg.readMode,
                               [Ended(old(processCxt.flows)[id], cxt.nowNs)])
      ensures KeepsFlows(old(processCxt.procs), processCxt.procs) && BornOf(old(processCxt.procs), processCxt.procs, {})
      ensures Told(old(processCxt.procs), old(writer.log), processCxt.procs, writer.log)
      ensures Total(State()) == Total(old(State()))
    {
      hide Coherent, Fresh, Closed, Declared, Total, Behaviors, KeyOf, Idle, Plus, Offer, Withheld, KeepsFlows,
           Insert, Then, Told;
      ghost var x := State();
      FlowFacts(x, {}, id, rank, cxt.now);
      OfferFlow(id);
      ThenOne(TrailBy(x.w, processCxt.Snapshot()), cxt.cfg.readMode, Ended(x.w.flows[id], cxt.nowNs));
      RenewHead(id);
      TotalRenew(x, State(), cxt.cfg.readMode, Ended(x.w.flows[id], cxt.nowNs), id, processCxt.flows[id]);
    }

    /** Declares what a flow names and offers it to the writer. */
    method OfferFlow(id: FlowId)
      requires Coherent(State(), rank, {}, cxt.now) && id in processCxt.flows
      modifies processCxt`procs, writer`hushed, containerCxt`containers, fileCxt`files, writer`log
      ensures Coherent(State(), rank, {}, cxt.now)
      ensures Continues(old(writer.log), writer.log)
      ensures Behaviors(writer.log) == Behaviors(old(writer.log))
                + Offer(cxt.cfg.readMode, Ended(processCxt.flows[id], cxt.nowNs))
      ensures KeepsFlows(old(processCxt.procs), processCxt.procs) && BornOf(old(processCxt.procs), processCxt.procs, {})
      ensures writer.hushed == old(writer.hushed) + Withheld(cxt.cfg.readMode, Ended(processCxt.flows[id], cxt.nowNs))
      ensures Told(old(processCxt.procs), old(writer.log), processCxt.procs, writer.log)
    {
      hide Coherent, Closed, Declared, Total, Behaviors, KeyOf, Plus, Offer, Withheld, KeepsFlows, Told, Recorded;
      ghost var ps, log := processCxt.procs, writer.log;
      var f := processCxt.flows[id];
      DeclareEntities(f, id);
      ghost var x := State();
      ClosedLog(x, {}, rank, cxt.now);
      WriteFlow(Ended(f, cxt.nowNs));
      CoherentLog(x, State(), {}, rank, cxt.now);
      ToldStill(ps, log, processCxt.procs, x.w.log, writer.log);
    }

    /** Starts the flow at the head of the index afresh and puts it back. */
    method RenewHead(id: FlowId)
      requires Coherent(State(), rank, {}, cxt.now) && id in processCxt.flows && dfSet != [] && dfSet[0].id == id
      modifies processCxt`flows, `dfSet
      ensures Coherent(State(), rank, {}, cxt.now)
      ensures processCxt.flows == old(processCxt.flows)[id := Renewed(old(processCxt.flows)[id], cxt.now, cxt.nowNs)]
      ensures dfSet == Insert(old(dfSet)[1..], Entry(cxt.now, id))
    {
      hide Coherent, KeyOf, Insert;
      ghost var x := State();
      assert EraseAt(dfSet, 0) == dfSet[1..];
      processCxt.flows := processCxt.flows[id := Renewed(processCxt.flows[id], cxt.now, cxt.nowNs)];
      dfSet := Insert(EraseAt(dfSet, 0), Entry(cxt.now, id));
      RenewFlow(x, State(), id, 0, rank, cxt.now, cxt.nowNs);
    }

    /** The state of a scan over `x` after `n` due flows. */
    ghost predicate Scanning(x: Flux, n: nat, check: int)
      requires Indexed(x.index, x.w.flows)
      reads this, processCxt, fileCxt, containerCxt, writer, cxt
    {
      && Coherent(State(), rank, {}, cxt.now)
      && Progress(x, State(), n, cxt.cfg.readMode, cxt.now, cxt.nowNs)
      && Kept(x.w.procs, processCxt.procs, {})
      && Told(x.w.procs, x.w.log, processCxt.procs, writer.log)
      && Total(State()) == Total(x)
      && (cxt.now - check <= EXPORT_INTERVAL ==> lost == x.lost)
    }

    method ScanNext(ghost x: Flux, n: nat, ghost check: int)
      requires Coherent(x, rank, {}, cxt.now) && Fresh(x.w.flows, check) && Scanning(x, n, check)
      requires dfSet != [] && cxt.now - dfSet[0].time >= EXPORT_INTERVAL
      modifies processCxt`procs, processCxt`flows, `dfSet, `lost, writer`hushed, containerCxt`containers, fileCxt`files,
               writer`log
      ensures Scanning(x, n + 1, check)
    {
      hide Standing, FilesWritten, ProcsWritten, Indexed, Timely, KeyOf, Total, Behaviors, Scanned, Exported, Then,
           Declared, PfKept, BornOf, Born, HeadsOff, Fresh, Closed, Plus, Progress, Insert, Told, Recorded;
      ghost var mode, y := cxt.cfg.readMode, State();
      NextHead(x, y, n, mode, cxt.now, cxt.nowNs);
      IndexPast(y, rank, cxt.now);
      var id := dfSet[0].id;
      var f := processCxt.flows[id];
      ghost var ps := processCxt.procs;
      if cxt.now - f.lastUpdate >= EXPIRE_INTERVAL {
        HonestWorld(x, rank, cxt.now);
        if cxt.now - check <= EXPORT_INTERVAL {
          ExpiryLosesNothing(x.w.flows, x.w.procs, check, cxt.now, id);
          PlusLaws(lost, ZERO, ZERO);
        }
        ExpireFlow(id);
      } else {
        ExportFlow(id);
        KeepsFlowsKeepsPf(ps, processCxt.procs);
      }
      ToldTrans(x.w.procs, x.w.log, ps, y.w.log, processCxt.procs, writer.log);
      ProgressNext(x, y, State(), n, mode, cxt.now, cxt.nowNs);
      KeptTrans(x.w.procs, ps, processCxt.procs, {});
    }

    /** The periodic scan: stops at the first flow that is not due, yet does exactly what a scan
        of all flows would do.  With scans at most thirty seconds apart nothing is lost. */
    method CheckForExpiredRecords() returns (n: nat)
      requires Valid() && cxt.now > 0
      modifies processCxt`procs, processCxt`flows, `dfSet, `lost, writer`hushed, `lastCheck,
               containerCxt`containers, fileCxt`files, writer`log
      ensures Valid() && lastCheck == cxt.now
      ensures var scans := old(lastCheck) != 0 && cxt.now - old(lastCheck) >= 1;
              if scans
              then && processCxt.flows == FullScan(old(processCxt.flows), cxt.now, cxt.nowNs)
                   && n == |DueSet(old(processCxt.flows), cxt.now)|
                   && (forall e :: e in old(dfSet) ==> e.id in old(processCxt.flows))
                   && FlowsOfScan(old(State()), State(), cxt.cfg.readMode, cxt.now, cxt.nowNs)
                   && Swept(old(processCxt.flows), processCxt.flows, cxt.now, cxt.nowNs)
                   && SweepWrote(cxt.cfg.readMode, old(dfSet), old(processCxt.flows), old(writer.log), writer.log,
                                 cxt.now, cxt.nowNs)
              else n == 0 && State() == old(State())
      ensures Kept(old(processCxt.procs), processCxt.procs, {}) && Continues(old(writer.log), writer.log)
      ensures Told(old(processCxt.procs), old(writer.log), processCxt.procs, writer.log)
      ensures Total(State()) == Total(old(State()))
      ensures cxt.now - old(lastCheck) <= EXPORT_INTERVAL ==> lost == old(lost)
    {
      hide Coherent, Fresh, Total, Declared, PfKept, BornOf, Born, FullScan, DueSet, FlowsOfScan, Swept, SweepWrote,
           Told;
      n := 0;
      KeptRefl(processCxt.procs, {});
      ToldRefl(processCxt.procs, writer.log);
      if lastCheck == 0 {
        FreshAtFirst(processCxt.flows, cxt.now);
        lastCheck := cxt.now;
      } else if cxt.now - lastCheck >= 1 {
        ghost var x := State();
        n := ScanAll(lastCheck);
        ScanMeans(x, State(), cxt.cfg.readMode, cxt.now, cxt.nowNs);
        lastCheck := cxt.now;
      }
    }

    method ScanAll(ghost check: int) returns (n: nat)
      requires Coherent(State(), rank, {}, cxt.now) && Fresh(processCxt.flows, check) && cxt.now > 0
      modifies processCxt`procs, processCxt`flows, `dfSet, `lost, writer`hushed, containerCxt`containers, fileCxt`files,
               writer`log
      ensures Coherent(State(), rank, {}, cxt.now) && Fresh(processCxt.flows, cxt.now)
      ensures processCxt.flows == FullScan(old(processCxt.flows), cxt.now, cxt.nowNs)
      ensures n == |DueSet(old(processCxt.flows), cxt.now)|
      ensures forall e :: e in old(dfSet) ==> e.id in old(processCxt.flows)
      ensures FlowsOfScan(old(State()), State(), cxt.cfg.readMode, cxt.now, cxt.nowNs)
      ensures Kept(old(processCxt.procs), processCxt.procs, {}) && Continues(old(writer.log), writer.log)
      ensures Told(old(processCxt.procs), old(writer.log), processCxt.procs, writer.log)
      ensures Total(State()) == Total(old(State()))
      ensures cxt.now - check <= EXPORT_INTERVAL ==> lost == old(lost)
    {
      hide Consistent, Timely, Total, Behaviors, Scanned, Exported, Then, Declared, PfKept, BornOf, Born, Progress,
           FullScan, DueSet, Fresh, Staying, Renewals, FlowsOfScan, Segments, Recorded, Told;
      n := 0;
      KeptRefl(processCxt.procs, {});
      ToldRefl(processCxt.procs, writer.log);
      ghost var x := State();
      IndexedAll(dfSet, processCxt.flows);
      ScanStart(x, cxt.cfg.readMode, cxt.now, cxt.nowNs);
      while dfSet != [] && cxt.now - dfSet[0].time >= EXPORT_INTERVAL
        invariant Scanning(x, n, check)
        decreases |x.index| - n
      {
        NextHead(x, State(), n, cxt.cfg.readMode, cxt.now, cxt.nowNs);
        ScanNext(x, n, check);
        n := n + 1;
      }
      ScanEnd(x, State(), n, cxt.cfg.readMode, cxt.now, cxt.nowNs);
      ScanRefreshes(x.w.flows, cxt.now, cxt.nowNs);
    }
  }
}
