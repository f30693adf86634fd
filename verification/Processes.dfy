/**
  The process cache: creation of a process with its ancestors, export, deferred deletion,
  pruning at a rotation and the flush at shutdown.
 */
module Processes {
  import opened Types
  import opened Trace
  import opened TimeSet
  import opened Ledger
  import opened Invariants
  import opened Caches
  import opened Pruning
  import opened ProcessState
  import opened Shutdown
  import opened Effects

  class ProcessContext {
    const fileCxt: FileContext
    const containerCxt: ContainerContext := fileCxt.containerCxt
    const writer: Writer := fileCxt.writer
    const cxt: SysFlowContext := writer.cxt
    ghost const rank: OID -> nat     // the order of ancestry, a hypothesis about the events
    ghost const tidy: bool           // whether the events are assumed to keep parents stable

    var procs: ProcessTable
    var flows: FlowHeap                  // the flow objects the tables point to
    var nextId: FlowId
    var pfSet: seq<Entry<OID>>
    var delProcQue: seq<OIDObj>
    var delProcTime: int
    ghost var discarded: Tally           // counters of process flows deleted unwritten

    constructor (fileCxt: FileContext, ghost rank: OID -> nat, ghost tidy: bool)
      ensures this.fileCxt == fileCxt && this.rank == rank && this.tidy == tidy
      ensures procs == map[] && flows == map[] && nextId == 0 && pfSet == [] && delProcQue == [] && discarded == ZERO
      ensures delProcTime == fileCxt.writer.cxt.now
    {
      this.fileCxt := fileCxt;
      this.rank := rank;
      this.tidy := tidy;
      procs, flows, nextId, pfSet, delProcQue := map[], map[], 0, [], [];
      delProcTime, discarded := fileCxt.writer.cxt.now, ZERO;
    }

    ghost function Snapshot(): World
      reads this, fileCxt, containerCxt, writer
    {
      World(writer.log, fileCxt.files, containerCxt.containers, procs, flows, nextId, pfSet, delProcQue, writer.hushed,
            tidy)
    }

    ghost predicate Valid()
      reads this, fileCxt, containerCxt, writer
    {
      Consistent(Snapshot(), rank, {})
    }

    /** Looks a process up by its host pid; the table is searched in hash order. */
    method FindByPid(pid: int) returns (r: Option<OID>)
      ensures r.Some? ==> r.value in procs && r.value.hpid == pid
      ensures r.None? ==> forall q :: q in procs ==> q.hpid != pid
    {
      var todo := procs.Keys;
      while todo != {}
        invariant todo <= procs.Keys
        invariant forall q :: q in procs && q !in todo ==> q.hpid != pid
        decreases |todo|
      {
        var q :| q in todo;
        if q.hpid == pid {
          return Some(q);
        }
        todo := todo - {q};
      }
      return None;
    }

    /** `getNumNetworkFlows` and `getNumFileFlows`: the table sizes add up to the live flows. */
    method CountFlows(net: bool) returns (total: nat)
      requires Homed(procs, flows, {})
      ensures total == |OfKind(flows, net)|
    {
      hide Homed;
      total := 0;
      var todo := procs.Keys;
      CountedStart(procs, flows, net);
      while todo != {}
        invariant todo <= procs.Keys && total == |Counted(flows, net, todo)|
        decreases |todo|
      {
        var o :| o in todo;
        CountOne(procs, flows, net, todo, o);
        total := total + |KeysOfKind(procs[o].table, net)|;
        todo := todo - {o};
      }
      assert Counted(flows, net, {}) == OfKind(flows, net);
    }

    /** A process object for a task, counted in its container, not yet in the table. */
    method CreateProcess(t: Task, r: ContainerRef, ts: int, state: ObjectState) returns (p: ProcessObj)
      requires Sane(t, rank, procs.Keys)
      modifies containerCxt`containers, writer`log
      ensures p.table == map[] && p.children == {} && p.pfo.None? && !p.written && p.state == state && p.ts == ts
      ensures p.poid.Some? ==> rank(p.poid.value) < rank(OidOf(t))
      ensures Fathered(p, procs.Keys, t)
      ensures p.containerId == if r.id != "" then Some(r.id) else None
      ensures forall c :: RefsOf(containerCxt.containers, c)
                          == RefsOf(old(containerCxt.containers), c) + One(p.containerId, c)
      ensures AddsEntities(old(writer.log), writer.log)
      ensures Recorded(writer.log) == Recorded(old(writer.log))
    {
      var poid: Option<OID> := None;
      if t.parent.Some? {
        poid := Some(OidOf(t.parent.value));
      } else if t.ptid != -1 {
        poid := FindByPid(t.ptid);
      }
      var found := containerCxt.GetContainer(r);
      if found {
        containerCxt.Ref(r.id);
      }
      p := ProcessObj(false, poid, if found then Some(r.id) else None, state, ts, map[], {}, None);
    }

    /** Renews the container of a cached process that is about to be written again. */
    method ReupContainer(o: OID, r: ContainerRef, ghost unborn: ProcessTable)
      requires o in procs && o !in unborn
      requires ContainerRefs(procs + unborn, containerCxt.containers)
      modifies `procs, containerCxt`containers, writer`log
      ensures procs == old(procs)[o := old(procs)[o].(containerId := if r.id != "" then Some(r.id) else None)]
      ensures ContainerRefs(procs + unborn, containerCxt.containers)
      ensures AddsEntities(old(writer.log), writer.log)
      ensures Recorded(writer.log) == Recorded(old(writer.log))
    {
      hide ContainerRefs, Recounted, Declared, Behaviors, Closed, Recorded, Segments;
      ghost var ps, cs := procs + unborn, containerCxt.containers;
      var cid := procs[o].containerId;
      if cid.Some? {
        NamedIsCached(ps, cs, o);
        containerCxt.Deref(cid.value);
      }
      ghost var ds := containerCxt.containers;
      assert forall c :: RefsOf(ds, c) + One(cid, c) == RefsOf(cs, c);
      var found := containerCxt.GetContainer(r);
      if found {
        containerCxt.Ref(r.id);
      }
      var p := procs[o].(containerId := if found then Some(r.id) else None);
      assert forall c :: RefsOf(containerCxt.containers, c) == RefsOf(ds, c) + One(p.containerId, c);
      ContainerRefsMove(ps, o, p, cs, ds, containerCxt.containers);
      UpdateInUnion(procs, unborn, o, p);
      procs := procs[o := p];
    }

    /** A cached process about to be written again, now with one more child. */
    method AdoptChild(o: OID, child: OID, ghost unborn: ProcessTable)
      requires o in procs && o !in unborn
      requires ContainerRefs(procs + unborn, containerCxt.containers)
      modifies `procs
      ensures procs == old(procs)[o := old(procs)[o].(state := Reup,
                                                      children := old(procs)[o].children + {child})]
      ensures ContainerRefs(procs + unborn, containerCxt.containers)
    {
      var p := procs[o].(state := Reup, children := procs[o].children + {child});
      TouchRefs(procs, unborn, o, p, containerCxt.containers);
      procs := procs[o := p];
    }

    /** The next ancestor joins the batch, with the last of the batch as its child. */
    method Enlist(t: Task, key: OID, ts: int, ghost old_: ProcessTable, batch: seq<OID>, unborn: ProcessTable)
      returns (unborn': ProcessTable)
      requires Gathered(old_, procs, unborn, batch, rank) && key == OidOf(t) && rank(key) < rank(batch[|batch| - 1])
      requires key in procs ==> !procs[key].written
      requires Sane(t, rank, procs.Keys) && ContainerRefs(procs + unborn, containerCxt.containers)
      modifies `procs, containerCxt`containers, writer`log
      ensures procs.Keys == old(procs).Keys && Gathered(old_, procs, unborn', batch + [key], rank)
      ensures ContainerRefs(procs + unborn', containerCxt.containers)
      ensures var child, all := batch[|batch| - 1], old(procs) + unborn;
              Kin(all) && child in all && all[child].poid == Some(key) ==> Kin(procs + unborn')
      ensures Stable(t, old_) ==> Rooted(procs + unborn', old_.Keys, t)
      ensures MoreChildren(old(procs) + unborn, procs + unborn')
      ensures key in procs + unborn' && batch[|batch| - 1] in (procs + unborn')[key].children
      ensures forall o :: o in unborn' ==>
        (o in unborn && unborn'[o].poid == unborn[o].poid) || (o, unborn'[o].poid) in Births(t, old_.Keys)
      ensures OneDressed(old(procs) + unborn, procs + unborn', key, TaskGuise(t, ts, old(procs)))
      ensures AddsEntities(old(writer.log), writer.log)
      ensures Recorded(writer.log) == Recorded(old(writer.log))
    {
      hide Declared, Behaviors, Closed, Recorded, ContainerRefs, Gathered, Kin, Stable, Rooted, Births, MoreChildren,
           OneDressed, Segments;
      ghost var all := procs + unborn;
      unborn' := unborn;
      GatheredFacts(old_, procs, unborn, batch, rank);
      var child := batch[|batch| - 1];
      if key !in procs {
        ghost var cs := containerCxt.containers;
        var p := CreateProcess(t, t.container, ts, Reup);
        p := p.(children := {child});
        GatherUnborn(old_, procs, unborn, batch, rank, key, p);
        ContainerRefsAdd(procs + unborn, key, p, cs, containerCxt.containers);
        UpdateRightOfUnion(procs, unborn, key, p);
        FatheredIsBirth(p, old_.Keys, t);
        unborn' := unborn[key := p];
        ChildrenSet(all, key, p);
        OneDressing(all, key, p);
        if Kin(all) && child in all && all[child].poid == Some(key) { KinAdopt(all, key, child, p); }
        if Stable(t, old_) { RootedUnborn(old_, procs, unborn', t); }
      } else {
        ghost var ps := procs;
        ReupContainer(key, t.container, unborn);
        AdoptChild(key, child, unborn);
        GatherCached(old_, ps, unborn, batch, rank, key, procs[key]);
        assert procs == ps[key := procs[key]];
        UpdateInUnion(ps, unborn, key, procs[key]);
        ChildrenSet(all, key, procs[key]);
        OneDressing(all, key, procs[key]);
        if Kin(all) && child in all && all[child].poid == Some(key) { KinAdopt(all, key, child, procs[key]); }
        if Stable(t, old_) { RootedCached(old_, procs, unborn, t); }
      }
    }

    /** The state of a walk up from `task` that has come to `top`. */
    ghost predicate Climbing(task: Task, top: Task, stopped: bool, old_: ProcessTable, batch0: seq<OID>,
                             batch: seq<OID>, unborn: ProcessTable, kin: bool)
      reads this, containerCxt
    {
      && Gathered(old_, procs, unborn, batch, rank) && procs.Keys == old_.Keys
      && ContainerRefs(procs + unborn, containerCxt.containers)
      && Sane(top, rank, procs.Keys) && rank(OidOf(top)) <= rank(batch[|batch| - 1])
      && batch0 + Climbed(task, old_) == batch + (if stopped then [] else Climbed(top, old_))
      && Met(task, old_) == (stopped || Met(top, old_)) && (!stopped ==> TopOf(task) == TopOf(top))
      && Lists(procs + unborn, batch)
      && (forall o :: o in unborn ==> (o, unborn[o].poid) in Births(task, old_.Keys))
      && Births(top, old_.Keys) <= Births(task, old_.Keys)
      && (kin ==> Kin(procs + unborn) && (!stopped ==> Kinship(procs + unborn, old_, top, batch[|batch| - 1])))
    }

    /** The guises on the walk: `worn` so far, from `worn0` on. */
    ghost predicate Dressing(task: Task, top: Task, stopped: bool, ts: int, old_: ProcessTable, batch: seq<OID>,
                             unborn: ProcessTable, worn0: map<OID, Guise>, worn: map<OID, Guise>)
      reads this
    {
      && Attired(procs + unborn, old_, worn) && (forall o :: o in worn ==> o in batch)
      && ClimbGuises(task, ts, old_, worn0) == if stopped then worn else ClimbGuises(top, ts, old_, worn)
    }

    /** Climbs the parent tasks, collecting every ancestor up to the first one that is already
        written; `stopped` tells whether one was found. */
    method Climb(task: Task, ts: int, ghost old_: ProcessTable, batch0: seq<OID>, unborn0: ProcessTable,
                 ghost kin: bool, ghost worn0: map<OID, Guise>)
      returns (batch: seq<OID>, unborn: ProcessTable, top: Task, stopped: bool)
      requires batch0 != [] && Climbing(task, task, false, old_, batch0, batch0, unborn0, kin)
      requires Attired(procs + unborn0, old_, worn0) && forall o :: o in worn0 ==> o in batch0
      modifies `procs, containerCxt`containers, writer`log
      ensures Climbing(task, top, stopped, old_, batch0, batch, unborn, kin)
      ensures batch == batch0 + Climbed(task, old_) && stopped == Met(task, old_)
      ensures !stopped ==> top == TopOf(task) && top.parent.None?
      ensures Attired(procs + unborn, old_, ClimbGuises(task, ts, old_, worn0))
      ensures AddsEntities(old(writer.log), writer.log)
      ensures Recorded(writer.log) == Recorded(old(writer.log))
    {
      hide Declared, Behaviors, Closed, Recorded, Climbing, Attired;
      batch, unborn, top, stopped := batch0, unborn0, task, false;
      ghost var worn := worn0;
      var mt := task.parent;
      while mt.Some?
        invariant !stopped ==> mt == top.parent
        invariant stopped ==> mt.None?
        invariant Climbing(task, top, stopped, old_, batch0, batch, unborn, kin)
        invariant Dressing(task, top, stopped, ts, old_, batch, unborn, worn0, worn)
        invariant AddsEntities(old(writer.log), writer.log)
        invariant Recorded(writer.log) == Recorded(old(writer.log))
        decreases mt.Some?, mt
      {
        var t := mt.value;
        if t.tid == -1 || (!(t.cloneTs == 0 && t.pid == 0) && OidOf(t) in procs && procs[OidOf(t)].written) {
          StopClimbing(task, top, old_, batch0, batch, unborn, kin);
          stopped, mt := true, None;
        } else {
          if t.cloneTs == 0 && t.pid == 0 {
            ClimbPast(task, top, t, old_, batch0, batch, unborn, kin);
          } else {
            batch, unborn, worn := ClimbOne(task, top, t, ts, old_, batch0, batch, unborn, kin, worn0, worn);
          }
          top, mt := t, t.parent;
        }
      }
      ClimbingEnds(task, top, stopped, old_, batch0, batch, unborn, kin);
    }

    lemma StartClimbing(task: Task, old_: ProcessTable, unborn: ProcessTable, kin: bool)
      requires Gathered(old_, procs, unborn, [OidOf(task)], rank)
      requires ContainerRefs(procs + unborn, containerCxt.containers)
      requires Sane(task, rank, old_.Keys)
      requires forall o :: o in unborn ==> (o, unborn[o].poid) in Births(task, old_.Keys)
      requires kin ==> Kin(procs + unborn) && Stable(task, old_) && Rooted(procs + unborn, old_.Keys, task)
      ensures Climbing(task, task, false, old_, [OidOf(task)], [OidOf(task)], unborn, kin)
    {
      hide Kin, Rooted, Stable, ContainerRefs, Births, Gathered;
      GatheredFacts(old_, procs, unborn, [OidOf(task)], rank);
    }

    lemma ClimbingMeans(task: Task, top: Task, stopped: bool, old_: ProcessTable, batch0: seq<OID>, batch: seq<OID>,
                        unborn: ProcessTable, kin: bool)
      requires Climbing(task, top, stopped, old_, batch0, batch, unborn, kin)
      ensures Gathered(old_, procs, unborn, batch, rank) && procs.Keys == old_.Keys && batch != []
      ensures ContainerRefs(procs + unborn, containerCxt.containers) && Lists(procs + unborn, batch)
      ensures Sane(top, rank, procs.Keys) && rank(OidOf(top)) <= rank(batch[|batch| - 1])
      ensures forall o :: o in unborn ==> (o, unborn[o].poid) in Births(task, old_.Keys)
      ensures forall o :: o in procs ==> procs[o].written == old_[o].written
      ensures kin ==> Kin(procs + unborn) && (!stopped ==> Kinship(procs + unborn, old_, top, OidOf(top)))
    {
      hide Kin, ContainerRefs, Births, Gathered, Lists;
      GatheredFacts(old_, procs, unborn, batch, rank);
    }

    /** The walk ends at a written parent, or at one that is no task. */
    lemma StopClimbing(task: Task, top: Task, old_: ProcessTable, batch0: seq<OID>, batch: seq<OID>,
                       unborn: ProcessTable, kin: bool)
      requires Climbing(task, top, false, old_, batch0, batch, unborn, kin) && top.parent.Some?
      requires var t := top.parent.value;
               t.tid == -1 || (!(t.cloneTs == 0 && t.pid == 0) && OidOf(t) in procs && procs[OidOf(t)].written)
      ensures Climbing(task, top, true, old_, batch0, batch, unborn, kin)
      ensures forall ts, worn :: ClimbGuises(top, ts, old_, worn) == worn
    {
      hide ContainerRefs, Kin, Kinship, Lists, Births;
    }

    lemma ClimbingEnds(task: Task, top: Task, stopped: bool, old_: ProcessTable, batch0: seq<OID>, batch: seq<OID>,
                       unborn: ProcessTable, kin: bool)
      requires Climbing(task, top, stopped, old_, batch0, batch, unborn, kin) && (!stopped ==> top.parent.None?)
      ensures batch == batch0 + Climbed(task, old_) && stopped == Met(task, old_) && (!stopped ==> top == TopOf(task))
    {
      hide ContainerRefs, Kin, Kinship, Lists, Births, Gathered;
    }

    /** One step up, past a task of pid zero. */
    lemma ClimbPast(task: Task, top: Task, t: Task, old_: ProcessTable, batch0: seq<OID>, batch: seq<OID>,
                    unborn: ProcessTable, kin: bool)
      requires Climbing(task, top, false, old_, batch0, batch, unborn, kin) && top.parent == Some(t) && t.tid != -1
      requires t.cloneTs == 0 && t.pid == 0
      ensures Climbing(task, t, false, old_, batch0, batch, unborn, kin)
    {
      hide ContainerRefs, Kin, Rooted, Stable, Gathered, Lists, Births;
      BirthsUp(top, old_.Keys);
      GatheredFacts(old_, procs, unborn, batch, rank);
      if kin { KinshipUp(procs + unborn, old_, top, batch[|batch| - 1]); }
    }

    /** One step up, with an ancestor to be written. */
    method ClimbOne(ghost task: Task, ghost top: Task, t: Task, ts: int, ghost old_: ProcessTable,
                    ghost batch0: seq<OID>, batch: seq<OID>, unborn: ProcessTable, ghost kin: bool,
                    ghost worn0: map<OID, Guise>, ghost worn: map<OID, Guise>)
      returns (batch': seq<OID>, unborn': ProcessTable, ghost worn': map<OID, Guise>)
      requires Dressing(task, top, false, ts, old_, batch, unborn, worn0, worn)
      requires Climbing(task, top, false, old_, batch0, batch, unborn, kin) && top.parent == Some(t) && t.tid != -1
      requires !(t.cloneTs == 0 && t.pid == 0) && !(OidOf(t) in procs && procs[OidOf(t)].written)
      modifies `procs, containerCxt`containers, writer`log
      ensures Climbing(task, t, false, old_, batch0, batch', unborn', kin)
      ensures Dressing(task, t, false, ts, old_, batch', unborn', worn0, worn')
      ensures AddsEntities(old(writer.log), writer.log)
      ensures Recorded(writer.log) == Recorded(old(writer.log))
    {
      hide Declared, Behaviors, Closed, Recorded, ContainerRefs, Kin, Rooted, Stable, Gathered, Lists, Births,
           MoreChildren, Attired, OneDressed;
      GatheredFacts(old_, procs, unborn, batch, rank);
      NotAgain(batch, rank, OidOf(t));
      ghost var ps := procs;
      BirthsUp(top, old_.Keys);
      if kin { KinshipUp(procs + unborn, old_, top, batch[|batch| - 1]); }
      ghost var all := procs + unborn;
      batch' := batch + [OidOf(t)];
      ClimbedStep(old_, batch, top, t);
      unborn' := Enlist(t, OidOf(t), ts, old_, batch, unborn);
      ListsMore(all, procs + unborn', batch);
      ListsAppend(procs + unborn', batch, OidOf(t));
      DressOne(all, procs + unborn', old_, ps, worn, t, ts);
      worn' := worn[OidOf(t) := TaskGuise(t, ts, old_)];
    }

    /** A guessed ancestor gains its child and, unless it is written, joins the batch. */
    method GuessOne(o: OID, child: OID, ghost old_: ProcessTable, batch0: seq<OID>, unborn: ProcessTable)
      returns (batch: seq<OID>)
      requires Gathered(old_, procs, unborn, batch0, rank)
      requires o in procs && rank(o) < rank(batch0[|batch0| - 1])
      requires ContainerRefs(procs + unborn, containerCxt.containers)
      modifies `procs
      ensures Gathered(old_, procs, unborn, batch, rank)
      ensures batch == if old(procs)[o].written then batch0 else batch0 + [o]
      ensures procs == AddChild(old(procs), o, child)
      ensures var all := old(procs) + unborn;
              Kin(all) && child in all && all[child].poid == Some(o) ==> Kin(procs + unborn)
      ensures MoreChildren(old(procs) + unborn, procs + unborn) && child in (procs + unborn)[o].children
      ensures ContainerRefs(procs + unborn, containerCxt.containers)
    {
      hide Kin, ContainerRefs;
      batch := batch0;
      var p := procs[o].(children := procs[o].children + {child});
      ghost var all := procs + unborn;
      UpdateInUnion(procs, unborn, o, p);
      if Kin(all) && child in all && all[child].poid == Some(o) { KinAdopt(all, o, child, p); }
      TouchRefs(procs, unborn, o, p, containerCxt.containers);
      if !procs[o].written {
        GatherCached(old_, procs, unborn, batch, rank, o, p);
        batch := batch + [o];
      } else {
        GatherTouch(old_, procs, unborn, batch, rank, o, p);
      }
      procs := procs[o := p];
    }

    /** The state of a walk along stored parents: `line` has been walked, `prt` comes next. */
    ghost predicate Guessing(top: OID, old_: ProcessTable, batch0: seq<OID>, batch: seq<OID>, unborn: ProcessTable,
                             line: seq<OID>, prt: Option<OID>, up: seq<OID>, kin: bool, worn: map<OID, Guise>)
      reads this, containerCxt
    {
      && Gathered(old_, procs, unborn, batch, rank) && ContainerRefs(procs + unborn, containerCxt.containers)
      && batch != [] && batch == batch0 + Unwritten(line, old_)
      && (prt.Some? ==> rank(prt.value) < rank(batch[|batch| - 1]))
      && OnLine(old_, line, prt) && Heirs(procs + unborn, top, line, up, prt, kin)
      && Attired(procs + unborn, old_, worn)
    }

    method GuessNext(top: OID, o: OID, ghost old_: ProcessTable, ghost batch0: seq<OID>, batch: seq<OID>,
                     unborn: ProcessTable, child: OID, ghost line: seq<OID>, ghost up: seq<OID>, ghost kin: bool,
                     ghost worn: map<OID, Guise>)
      returns (batch': seq<OID>, prt: Option<OID>)
      requires Guessing(top, old_, batch0, batch, unborn, line, Some(o), up, kin, worn) && Ranked(old_, rank)
      requires child == LastOf(top, line)
      modifies `procs
      ensures Guessing(top, old_, batch0, batch', unborn, line + [o], prt, up, kin, worn)
      ensures prt.Some? ==> rank(prt.value) < rank(o)
    {
      hide ContainerRefs, Kin, Gathered, Unwritten, MoreChildren, OnLine, Heirs, Ranked, AddChild, Descending, LastOf,
           Attired;
      ghost var all := procs + unborn;
      GatheredFacts(old_, procs, unborn, batch, rank);
      OnLineNext(old_, line, o, rank);
      HeirsMeans(all, top, line, up, o, kin);
      AttiredChild(procs, unborn, o, child, old_, worn);
      batch' := GuessOne(o, child, old_, batch, unborn);
      GatheredFacts(old_, procs, unborn, batch', rank);
      UnwrittenAppend(line, o, old_);
      Assoc(batch0, Unwritten(line, old_), [o]);
      prt := NextUp(procs, o);
      assert prt == NextUp(old_, o);
      HeirsNext(all, procs + unborn, top, line, up, o, prt, kin);
    }

    /** When the topmost task has no parent task, its pid chain is followed through the table. */
    method GuessAncestors(top: Task, ghost old_: ProcessTable, batch0: seq<OID>, unborn: ProcessTable,
                          ghost up: seq<OID>, ghost kin: bool, ghost worn: map<OID, Guise>)
      returns (batch: seq<OID>, ghost line: seq<OID>)
      requires Attired(procs + unborn, old_, worn)
      requires Gathered(old_, procs, unborn, batch0, rank) && Ranked(old_, rank) && Lists(procs + unborn, up)
      requires Sane(top, rank, procs.Keys) && top.parent.None? && top.ptid != -1
      requires rank(OidOf(top)) <= rank(batch0[|batch0| - 1])
      requires ContainerRefs(procs + unborn, containerCxt.containers)
      requires kin ==> Kinship(procs + unborn, old_, top, OidOf(top))
      modifies `procs
      ensures Gathered(old_, procs, unborn, batch, rank) && batch == batch0 + Unwritten(line, old_)
      ensures if line == [] then forall q :: q in old_ ==> q.hpid != top.ptid
              else line[0].hpid == top.ptid && Line(old_, line[0], line)
      ensures Lists(procs + unborn, [OidOf(top)] + line) && Lists(procs + unborn, up)
      ensures Attired(procs + unborn, old_, worn)
      ensures ContainerRefs(procs + unborn, containerCxt.containers)
      ensures kin ==> Kin(procs + unborn)
    {
      hide ContainerRefs, Kin, Kinship, Gathered, Lists, OnLine, Heirs, Ranked, Unwritten, Line, Attired;
      batch, line := batch0, [];
      GatheredFacts(old_, procs, unborn, batch, rank);
      var prt := FindByPid(top.ptid);
      var child := OidOf(top);
      GuessStart(procs + unborn, old_, top, up, prt, kin);
      assert batch0 + [] == batch0;
      while prt.Some?
        invariant Guessing(OidOf(top), old_, batch0, batch, unborn, line, prt, up, kin, worn)
        invariant child == LastOf(OidOf(top), line)
        invariant line == [] && prt.None? ==> forall q :: q in old_ ==> q.hpid != top.ptid
        invariant if line != [] then line[0].hpid == top.ptid else prt.Some? ==> prt.value.hpid == top.ptid
        decreases prt.Some?, if prt.Some? then rank(prt.value) else 0
      {
        var o := prt.value;
        batch, prt := GuessNext(OidOf(top), o, old_, batch0, batch, unborn, child, line, up, kin, worn);
        LastIs(OidOf(top), line, o);
        line := line + [o];
        child := o;
      }
      GuessEnds(procs + unborn, old_, OidOf(top), line, up, kin);
    }

    /** Enters a process object into the table, writes its record and marks it written. */
    method WriteProcess(o: OID, p: ProcessObj)
      requires ProcsWritten(procs, writer.log)
      modifies `procs, writer`log
      ensures procs == old(procs)[o := p.(written := true)]
      ensures writer.log == old(writer.log) + [ProcessRec(o, p.poid, p.containerId, p.state, p.ts)]
      ensures ProcsWritten(procs, writer.log) && Proc(o) in Declared(writer.log)
      ensures AddsEntities(old(writer.log), writer.log)
      ensures Recorded(writer.log) == Recorded(old(writer.log)) + [RecordOf(o, p)]
    {
      writer.Write(ProcessRec(o, p.poid, p.containerId, p.state, p.ts));
      procs := procs[o := p.(written := true)];
    }

    /** The state while a batch is written, from its end down to position `i`. */
    ghost predicate Underway(batch: seq<OID>, i: nat, unborn: ProcessTable, old_: ProcessTable,
                             all: ProcessTable, log0: seq<Record>)
      requires i <= |batch|
      reads this, containerCxt, writer
    {
      && Committing(old_, procs, unborn, batch, i, rank)
      && SameLinks(all, procs + unborn)
      && ContainerRefs(procs + unborn, containerCxt.containers)
      && ProcsWritten(procs, writer.log)
      && AddsEntities(log0, writer.log)
      && Recorded(writer.log) == Recorded(log0) + RecordsFor(Reversed(batch[i..]), all)
    }

    method CommitOne(batch: seq<OID>, i: nat, unborn: ProcessTable, ghost old_: ProcessTable,
                     ghost all: ProcessTable, ghost log0: seq<Record>) returns (unborn': ProcessTable)
      requires i < |batch| && Underway(batch, i + 1, unborn, old_, all, log0)
      modifies `procs, writer`log
      ensures Underway(batch, i, unborn', old_, all, log0)
    {
      hide SameLinks, ContainerRefs, Declared, Behaviors, Closed, Recorded, Reversed, Committing, ProcsWritten,
           RecordsFor;
      var o := batch[i];
      ghost var before := procs + unborn;
      CommitStep(old_, procs, unborn, batch, i, rank);
      CommitLinks(procs, unborn, o);
      CommitRefs(procs, unborn, o, containerCxt.containers);
      ReversedFrom(batch, i);
      LinkedRecord(all, before, o);
      RecordsAppend(Reversed(batch[i + 1..]), o, all);
      Assoc(Recorded(log0), RecordsFor(Reversed(batch[i + 1..]), all), [RecordOf(o, all[o])]);
      WriteProcess(o, if o in unborn then unborn[o] else procs[o]);
      unborn' := unborn - {o};
      SameLinksTrans(all, before, procs + unborn');
    }

    /** Enters the unborn objects into the table and writes the whole batch, ancestors first. */
    method Commit(batch: seq<OID>, unborn0: ProcessTable, ghost old_: ProcessTable)
      requires Gathered(old_, procs, unborn0, batch, rank)
      requires ContainerRefs(procs + unborn0, containerCxt.containers)
      requires Closed(writer.log) && ProcsWritten(procs, writer.log) && Ranked(old_, rank)
      modifies `procs, writer`log
      ensures Settled(old_, procs, rank)
      ensures SameLinks(old(procs) + unborn0, procs)
      ensures forall o :: o in batch ==> o in procs && procs[o].written
      ensures ContainerRefs(procs, containerCxt.containers)
      ensures ProcsWritten(procs, writer.log)
      ensures AddsEntities(old(writer.log), writer.log)
      ensures Recorded(writer.log) == Recorded(old(writer.log)) + RecordsFor(Reversed(batch), procs)
    {
      ghost var all := procs + unborn0;
      var unborn := unborn0;
      var i := |batch|;
      CommitStart(old_, procs, unborn, batch, rank);
      while i > 0
        invariant 0 <= i <= |batch|
        invariant Underway(batch, i, unborn, old_, all, old(writer.log))
      {
        i := i - 1;
        unborn := CommitOne(batch, i, unborn, old_, all, old(writer.log));
      }
      CommitEnd(old_, procs, unborn, batch, rank);
      RecordsSame(Reversed(batch), all, procs);
    }

    /** Starts a batch with the process of the event itself. */
    method Begin(ev: Event, oid: OID, state: ObjectState) returns (unborn: ProcessTable)
      requires oid == OidOf(ev.task) && (oid in procs ==> !procs[oid].written)
      requires ContainerRefs(procs, containerCxt.containers)
      requires Sane(ev.task, rank, procs.Keys)
      modifies `procs, containerCxt`containers, writer`log
      ensures Gathered(old(procs), procs, unborn, [oid], rank)
      ensures ContainerRefs(procs + unborn, containerCxt.containers)
      ensures forall o :: o in unborn ==> (o, unborn[o].poid) in Births(ev.task, old(procs).Keys)
      ensures Kin(old(procs)) ==> Kin(procs + unborn)
      ensures Stable(ev.task, old(procs)) ==> Rooted(procs + unborn, old(procs).Keys, ev.task)
      ensures Attired(procs + unborn, old(procs), map[oid := FirstGuise(ev, state, old(procs))])
      ensures AddsEntities(old(writer.log), writer.log)
      ensures Recorded(writer.log) == Recorded(old(writer.log))
    {
      hide Declared, Behaviors, Closed, Recorded, ContainerRefs, Kin, Stable, Rooted, Births;
      if oid !in procs {
        unborn := BeginNew(ev, oid, state);
      } else {
        BeginCached(ev, oid, state);
        unborn := map[];
        assert procs + map[] == procs;
      }
    }

    method BeginNew(ev: Event, oid: OID, state: ObjectState) returns (unborn: ProcessTable)
      requires oid == OidOf(ev.task) && oid !in procs
      requires ContainerRefs(procs, containerCxt.containers) && Sane(ev.task, rank, procs.Keys)
      modifies containerCxt`containers, writer`log
      ensures Gathered(procs, procs, unborn, [oid], rank)
      ensures ContainerRefs(procs + unborn, containerCxt.containers)
      ensures forall o :: o in unborn ==> (o, unborn[o].poid) in Births(ev.task, procs.Keys)
      ensures Kin(procs) ==> Kin(procs + unborn)
      ensures Stable(ev.task, procs) ==> Rooted(procs + unborn, procs.Keys, ev.task)
      ensures Attired(procs + unborn, procs, map[oid := FirstGuise(ev, state, procs)])
      ensures AddsEntities(old(writer.log), writer.log)
      ensures Recorded(writer.log) == Recorded(old(writer.log))
    {
      hide Declared, Behaviors, Closed, Recorded, ContainerRefs, Kin, Stable, Rooted, Births;
      ghost var cs := containerCxt.containers;
      var p := CreateProcess(ev.task, ev.container, ev.ts, state);
      unborn := map[oid := p];
      FatheredIsBirth(p, procs.Keys, ev.task);
      if Kin(procs) { KinNew(procs, oid, p); }
      if Stable(ev.task, procs) { RootedUnborn(procs, procs, unborn, ev.task); }
      ContainerRefsAdd(procs, oid, p, cs, containerCxt.containers);
      assert procs + unborn == procs[oid := p];
    }

    method BeginCached(ev: Event, oid: OID, ghost state: ObjectState)
      requires oid == OidOf(ev.task) && oid in procs && !procs[oid].written
      requires ContainerRefs(procs, containerCxt.containers)
      modifies `procs, containerCxt`containers, writer`log
      ensures Gathered(old(procs), procs, map[], [oid], rank)
      ensures ContainerRefs(procs, containerCxt.containers)
      ensures Kin(old(procs)) ==> Kin(procs)
      ensures Stable(ev.task, old(procs)) ==> Rooted(procs, old(procs).Keys, ev.task)
      ensures Attired(procs, old(procs), map[oid := FirstGuise(ev, state, old(procs))])
      ensures AddsEntities(old(writer.log), writer.log)
      ensures Recorded(writer.log) == Recorded(old(writer.log))
    {
      hide Declared, Behaviors, Closed, Recorded, ContainerRefs, Kin, Stable, Rooted;
      assert procs + map[] == procs;
      var p := procs[oid].(state := Reup);
      TouchRefs(procs, map[], oid, p, containerCxt.containers);
      procs := procs[oid := p];
      ReupContainer(oid, ev.container, map[]);
      KinSame(old(procs), procs);
      assert procs + map[] == procs;
      if Stable(ev.task, old(procs)) { RootedCached(old(procs), procs, map[], ev.task); }
    }

    /** Collects the process of an event and its ancestors for writing. */
    method Gather(ev: Event, oid: OID, state: ObjectState)
      returns (batch: seq<OID>, unborn: ProcessTable, ghost line: seq<OID>)
      requires oid == OidOf(ev.task) && (oid in procs ==> !procs[oid].written)
      requires ContainerRefs(procs, containerCxt.containers) && Ranked(procs, rank)
      requires Sane(ev.task, rank, procs.Keys) && ProcsWritten(procs, writer.log)
      modifies `procs, containerCxt`containers, writer`log
      ensures Gathered(old(procs), procs, unborn, batch, rank)
      ensures var up := [oid] + Climbed(ev.task, old(procs));
              && GuessedLine(ev.task, old(procs), line) && batch == up + Unwritten(line, old(procs))
              && Lists(procs + unborn, up) && Lists(procs + unborn, [OidOf(TopOf(ev.task))] + line)
      ensures forall o :: o in unborn ==> (o, unborn[o].poid) in Births(ev.task, old(procs).Keys)
      ensures ContainerRefs(procs + unborn, containerCxt.containers)
      ensures ProcsWritten(procs, writer.log)
      ensures AddsEntities(old(writer.log), writer.log)
      ensures Recorded(writer.log) == Recorded(old(writer.log))
      ensures Kin(old(procs)) && Stable(ev.task, old(procs)) ==> Kin(procs + unborn)
      ensures Attired(procs + unborn, old(procs), Worn(ev, state, old(procs)))
    {
      hide Kin, Rooted, Stable, ContainerRefs, Declared, Behaviors, Closed, Recorded, Births, Climbing, Kinship,
           Lists, Gathered, ProcsWritten, Attired, ClimbGuises;
      ghost var ps := procs;
      ghost var kin := Kin(procs) && Stable(ev.task, procs);
      unborn := Begin(ev, oid, state);
      StartClimbing(ev.task, ps, unborn, kin);
      var top: Task, stopped: bool;
      batch, unborn, top, stopped := Climb(ev.task, ev.ts, ps, [oid], unborn, kin,
                                           map[oid := FirstGuise(ev, state, ps)]);
      ClimbingMeans(ev.task, top, stopped, ps, [oid], batch, unborn, kin);
      StillWritten(ps, procs, old(writer.log), writer.log);
      line := [];
      ListsOne(procs + unborn, OidOf(TopOf(ev.task)));
      assert batch + Unwritten(line, ps) == batch;
      if !stopped && top.ptid != -1 {
        batch, line := GuessAncestors(top, ps, batch, unborn, batch, kin, Worn(ev, state, ps));
        GatheredFacts(ps, procs, unborn, batch, rank);
        StillWritten(ps, procs, old(writer.log), writer.log);
      }
    }

    /** A batch has been collected, starting from the consistent world `w`. */
    ghost predicate Collected(w: World, ev: Event, state: ObjectState, batch: seq<OID>, unborn: ProcessTable,
                              line: seq<OID>)
      reads this, fileCxt, containerCxt, writer
    {
      var task := ev.task;
      && Consistent(w, rank, {})
      && Snapshot() == w.(log := writer.log, containers := containerCxt.containers, procs := procs)
      && Gathered(w.procs, procs, unborn, batch, rank)
      && GuessedLine(task, w.procs, line) && batch == [OidOf(task)] + Climbed(task, w.procs) + Unwritten(line, w.procs)
      && Lists(procs + unborn, [OidOf(task)] + Climbed(task, w.procs))
      && Lists(procs + unborn, [OidOf(TopOf(task))] + line)
      && (forall o :: o in unborn ==> (o, unborn[o].poid) in Births(task, w.procs.Keys))
      && ContainerRefs(procs + unborn, containerCxt.containers) && ProcsWritten(procs, writer.log)
      && AddsEntities(w.log, writer.log) && Recorded(writer.log) == Recorded(w.log)
      && (w.tidy ==> Kin(procs + unborn)) && Attired(procs + unborn, w.procs, Worn(ev, state, w.procs))
    }

    /** Writes a collected batch, ancestors first. */
    method Publish(ghost w: World, ghost ev: Event, ghost state: ObjectState, batch: seq<OID>, unborn: ProcessTable,
                   ghost line: seq<OID>)
      returns (ghost emitted: seq<OID>)
      requires Collected(w, ev, state, batch, unborn, line)
      modifies `procs, writer`log
      ensures Valid()
      ensures OidOf(ev.task) in procs && procs[OidOf(ev.task)].written && Settled(w.procs, procs, rank)
      ensures BornOf(w.procs, procs, Births(ev.task, w.procs.Keys))
      ensures Walked(ev.task, w.procs, procs, line, emitted)
      ensures AddsEntities(w.log, writer.log)
      ensures Recorded(writer.log) == Recorded(w.log) + RecordsFor(emitted, procs)
      ensures Attired(procs, w.procs, Worn(ev, state, w.procs))
      ensures AncestorsFirst(emitted, procs, rank)
    {
      hide Consistent, ContainerRefs, AncestorsFirst, Kin, Births, ProcsWritten;
      hide Declared, Behaviors, Closed, Recorded, Settled, Gathered, Walked, Lists, GuessedLine, Descending,
           SameLinks, MoreChildren, BornOf, Ranked, Reversed, Attired, Worn, RecordsFor;
      ConsistentParts(w, rank);
      GatheredFacts(w.procs, procs, unborn, batch, rank);
      ghost var all := procs + unborn;
      emitted := Reversed(batch);
      assert batch[0] == OidOf(ev.task);
      Commit(batch, unborn, w.procs);
      KinLinks(all, procs);
      AttiredLinks(all, procs, w.procs, Worn(ev, state, w.procs));
      BornIn(w.procs, unborn, all, procs, Births(ev.task, w.procs.Keys));
      ListsMore(all, procs, [OidOf(ev.task)] + Climbed(ev.task, w.procs));
      ListsMore(all, procs, [OidOf(TopOf(ev.task))] + line);
      WalkedBy(ev.task, w.procs, procs, line, batch);
      SettledFacts(w.procs, procs, rank);
      EmittedOrder(batch, procs, rank);
      SettledKeeps(w, Snapshot(), rank);
    }

    /** Writes the process of an event and its unwritten ancestors. */
    method Introduce(ev: Event, oid: OID, state: ObjectState) returns (ghost line: seq<OID>, ghost emitted: seq<OID>)
      requires Valid() && Sane(ev.task, rank, procs.Keys) && (tidy ==> Stable(ev.task, procs))
      requires oid == OidOf(ev.task) && (oid in procs ==> !procs[oid].written)
      modifies `procs, containerCxt`containers, writer`log
      ensures Valid()
      ensures oid in procs && procs[oid].written && Settled(old(procs), procs, rank)
      ensures BornOf(old(procs), procs, Births(ev.task, old(procs).Keys))
      ensures Walked(ev.task, old(procs), procs, line, emitted)
      ensures AddsEntities(old(writer.log), writer.log)
      ensures Recorded(writer.log) == Recorded(old(writer.log)) + RecordsFor(emitted, procs)
      ensures Attired(procs, old(procs), Worn(ev, state, old(procs)))
      ensures AncestorsFirst(emitted, procs, rank)
    {
      hide Consistent, ContainerRefs, AncestorsFirst, Kin, Births, ProcsWritten;
      hide Declared, Behaviors, Closed, Recorded, Settled, Gathered, Walked, Lists, GuessedLine, BornOf, Ranked,
           Attired, Worn, RecordsFor;
      ghost var w := Snapshot();
      ConsistentParts(w, rank);
      var batch, unborn;
      batch, unborn, line := Gather(ev, oid, state);
      emitted := Publish(w, ev, state, batch, unborn, line);
    }

    /** The process of an event, cached and declared in this segment.  When it is not written
        yet, it is written together with its unwritten ancestors, ancestors first; `line` is the
        line of stored parents the walk went on with. */
    method GetProcess(ev: Event, state: ObjectState)
      returns (oid: OID, created: bool, ghost line: seq<OID>, ghost emitted: seq<OID>)
      requires Valid() && Climbable(procs, ev.task, rank, tidy)
      modifies `procs, containerCxt`containers, writer`log
      ensures Valid()
      ensures oid == OidOf(ev.task) && created == (oid !in old(procs))
      ensures oid in procs && procs[oid].written && Proc(oid) in Declared(writer.log)
      ensures Settled(old(procs), procs, rank)
      ensures BornOf(old(procs), procs, Born(old(procs), ev.task))
      ensures if !created && old(procs)[oid].written
              then && procs == old(procs) && containerCxt.containers == old(containerCxt.containers)
                   && writer.log == old(writer.log) && emitted == []
              else && Walked(ev.task, old(procs), procs, line, emitted)
                   && Attired(procs, old(procs), Worn(ev, state, old(procs)))
      ensures AddsEntities(old(writer.log), writer.log)
      ensures Recorded(writer.log) == Recorded(old(writer.log)) + RecordsFor(emitted, procs)
      ensures AncestorsFirst(emitted, procs, rank)
    {
      hide Births, Walked, Attired, Worn;
      oid := OidOf(ev.task);
      created := oid !in procs;
      line, emitted := [], [];
      if oid in procs && procs[oid].written {
        return;
      }
      line, emitted := Introduce(ev, oid, state);
    }

    method ExportContainerOf(o: OID)
      requires o in procs
      modifies containerCxt`containers, writer`log
      ensures forall c :: RefsOf(containerCxt.containers, c) == RefsOf(old(containerCxt.containers), c)
      ensures AddsEntities(old(writer.log), writer.log)
      ensures Recorded(writer.log) == Recorded(old(writer.log))
    {
      if procs[o].containerId.Some? {
        var _ := containerCxt.ExportContainer(procs[o].containerId.value);
      }
    }

    /** Declares a cached process in this segment; its ancestors are not written. */
    method ExportProcess(o: OID) returns (found: bool)
      requires Valid()
      modifies `procs, containerCxt`containers, writer`log
      ensures Valid()
      ensures found <==> o in old(procs)
      ensures found ==> Proc(o) in Declared(writer.log)
      ensures procs == if found then old(procs)[o := old(procs)[o].(written := true)] else old(procs)
      ensures AddsEntities(old(writer.log), writer.log)
      ensures Recorded(writer.log) == Recorded(old(writer.log))
                + if found && !old(procs)[o].written then [RecordOf(o, old(procs)[o])] else []
    {
      found := o in procs;
      if found {
        hide Homed, PfIndexed, FileRefs, Doomed, Honest, Settled, Declared, Behaviors, Closed, Recorded, Kin;
        ghost var w := Snapshot();
        SettledRefl(procs, rank);
        SettledStep(procs, procs, map[], o, rank);
        ExportContainerOf(o);
        if !procs[o].written {
          WriteProcess(o, procs[o]);
        }
        assert procs == w.procs[o := w.procs[o].(written := true)];
        KinSame(w.procs, procs);
        ContainerRefsSame(w.procs, procs, w.containers, containerCxt.containers);
        SettledKeeps(w, Snapshot(), rank);
      }
    }

    /** The value scan in the process index finds the process itself. */
    method RemoveProcessFromSet(o: OID) returns (removed: nat)
      requires PfIndexed(pfSet, procs) && o in procs && procs[o].pfo.Some?
      modifies `procs, `pfSet
      ensures removed == 1
      ensures procs == old(procs)[o := old(procs)[o].(pfo := None)]
      ensures PfIndexed(pfSet, procs) && pfSet == Without(old(pfSet), {o})
    {
      hide Without;
      var t := procs[o].pfo.value.exportTime;
      var i := LowerBound(pfSet, t);
      ghost var k :| 0 <= k < |pfSet| && pfSet[k].id == o;
      assert pfSet[k] in pfSet && pfSet[k].time == t;
      while i < |pfSet| && !(pfSet[i].id == o && pfSet[i].time == t)
        invariant i <= k
      {
        i := i + 1;
      }
      removed := 0;
      PfIndexedErase(pfSet, procs, i);
      EraseIsWithout(pfSet, i);
      if i < |pfSet| {
        pfSet := EraseAt(pfSet, i);
        removed := 1;
      }
      procs := procs[o := procs[o].(pfo := None)];
    }

    method MarkForDeletion(o: OID)
      requires Valid() && (o in procs ==> procs[o].table == map[])
      modifies `delProcQue
      ensures Valid()
      ensures delProcQue == old(delProcQue) + [OIDObj(o, cxt.now)]
    {
      delProcQue := delProcQue + [OIDObj(o, cxt.now)];
    }

    /** Gives back the container reference of a process about to be dropped. */
    method Release(o: OID, ghost ps: ProcessTable)
      requires ContainerRefs(ps, containerCxt.containers)
      requires o in ps && o in procs && procs[o].containerId == ps[o].containerId
      modifies containerCxt`containers
      ensures Recounted(old(containerCxt.containers), containerCxt.containers)
      ensures forall c :: RefsOf(containerCxt.containers, c) + One(ps[o].containerId, c)
                          == RefsOf(old(containerCxt.containers), c)
    {
      var cid := procs[o].containerId;
      if cid.Some? {
        NamedIsCached(ps, containerCxt.containers, o);
        containerCxt.Deref(cid.value);
      }
    }

    /** Takes a process out of its parent, its container, the process index and the table. */
    method Detach(o: OID)
      requires ContainerRefs(procs, containerCxt.containers) && PfIndexed(pfSet, procs)
      requires o in procs && procs[o].table == map[]
      modifies `procs, `pfSet, containerCxt`containers
      ensures procs.Keys == old(procs).Keys - {o} && Shrinks(old(procs), procs)
      ensures ContainerRefs(procs, containerCxt.containers) && PfIndexed(pfSet, procs)
      ensures Kin(old(procs)) ==> Kin(procs)
      ensures pfSet == Without(old(pfSet), {o})
    {
      hide Kin, Without;
      ghost var ps, cs := procs, containerCxt.containers;
      NotInPfSet(pfSet, procs, o);
      PfIndexedSame(pfSet, procs, Orphaned(procs, o));
      procs := Orphaned(procs, o);
      Release(o, ps);
      if procs[o].pfo.Some? {
        var _ := RemoveProcessFromSet(o);
      }
      OrphanGone(ps, procs, o, cs, containerCxt.containers, pfSet);
      procs := procs - {o};
    }

    /** Drops a process that has no data flows; a process flow it still has is discarded. */
    method DeleteProcess(o: OID)
      requires Valid() && o in procs && procs[o].table == map[]
      modifies `procs, `pfSet, `discarded, containerCxt`containers
      ensures Valid()
      ensures procs.Keys == old(procs).Keys - {o} && Shrinks(old(procs), procs)
      ensures discarded == Plus(old(discarded), PfCount(old(procs)[o].pfo))
      ensures Plus(LiveProc(procs), discarded) == Plus(LiveProc(old(procs)), old(discarded))
      ensures pfSet == Without(old(pfSet), {o})
    {
      hide LiveProc, Kin, Homed, PfIndexed, FileRefs, ContainerRefs, Closed, Shrinks, Honest, Without;
      ghost var w := Snapshot();
      Detach(o);
      DeleteBooks(w, Snapshot(), o, rank);
      discarded := Plus(discarded, PfCount(w.procs[o].pfo));
      Transfer(LiveProc(procs), old(discarded), PfCount(w.procs[o].pfo), LiveProc(w.procs));
    }

    /** What deletions have done since the queue was `q0` and the table `ps`. */
    ghost predicate Drained(q0: seq<OIDObj>, ps: ProcessTable, total: Tally)
      reads this, fileCxt, containerCxt, writer, cxt
    {
      Valid() && DrainedTo(q0, ps, delProcQue, procs, cxt.now) && Plus(LiveProc(procs), discarded) == total
    }

    method DeleteFromQueue(it: nat, ghost q0: seq<OIDObj>, ghost ps: ProcessTable, ghost total: Tally)
      requires it < |delProcQue| && cxt.now - delProcQue[it].exportTime >= 1
      requires Drained(q0, ps, total)
      modifies `procs, `pfSet, `discarded, `delProcQue, containerCxt`containers
      ensures Drained(q0, ps, total)
      ensures delProcQue == old(delProcQue)[..it] + old(delProcQue)[it + 1..]
      ensures procs.Keys == old(procs).Keys - {old(delProcQue)[it].oid}
      ensures pfSet == Without(old(pfSet), {old(delProcQue)[it].oid})
    {
      hide LiveProc, Homed, PfIndexed, FileRefs, Honest, ContainerRefs, Closed, Shrinks, DrainedTo, Kin, Plus,
           Without;
      var e := delProcQue[it];
      NotInPfSet(pfSet, procs, e.oid);
      ghost var qs := procs;
      ShrinksRefl(procs);
      if e.oid in procs {
        DeleteProcess(e.oid);
      }
      var rest := delProcQue[..it] + delProcQue[it + 1..];
      OneLess(delProcQue, it);
      DrainStep(q0, ps, delProcQue, qs, rest, procs, e, cxt.now);
      delProcQue := rest;
    }

    /** A round of deletions under way: it started from the queue `q0` and the table `ps`, its
        present pass from `q1`; earlier passes have taken `before`, this one `gone`. */
    ghost predicate Draining(q0: seq<OIDObj>, ps: ProcessTable, pf0: seq<Entry<OID>>, total: Tally, q1: seq<OIDObj>,
                             before: seq<OIDObj>, gone: seq<OIDObj>, it: nat)
      reads this, fileCxt, containerCxt, writer, cxt
    {
      && Drained(q0, ps, total) && MidPass(q1, delProcQue, it, gone, cxt.now)
      && LeadsTo(q0, q1, before, cxt.now) && procs.Keys == ps.Keys - Oids(before + gone)
      && pfSet == Without(pf0, Oids(before + gone))
    }

    /** Deletes processes whose exit is at least a second old, when the last round of deletions is
        more than a second old.  The iterator is advanced once more after each erasure, so the
        element behind an erased one is skipped; an advance past the end may stop or come round
        to the head of the list. */
    method CheckForDeletion() returns (ghost taken: seq<OIDObj>)
      requires Valid()
      modifies `procs, `pfSet, `discarded, `delProcQue, `delProcTime, containerCxt`containers
      ensures Drained(old(delProcQue), old(procs), Plus(LiveProc(old(procs)), old(discarded)))
      ensures delProcTime == if cxt.now - old(delProcTime) <= 1 then old(delProcTime) else cxt.now
      ensures if cxt.now - old(delProcTime) > 1
              then Passes(old(delProcQue), delProcQue, taken, cxt.now)
              else delProcQue == old(delProcQue) && taken == []
      ensures procs.Keys == old(procs).Keys - Oids(taken) && pfSet == Without(old(pfSet), Oids(taken))
      ensures taken == [] ==> procs == old(procs) && pfSet == old(pfSet) && discarded == old(discarded)
    {
      hide LiveProc, Consistent, Plus, DrainedTo, MidPass, Passes, LeadsTo, Overdue, Without;
      WithoutNone(pfSet, Oids([]));
      WithoutNone(pfSet, Oids([] + []));
      DrainRefl(delProcQue, procs, cxt.now);
      taken := [];
      if cxt.now - delProcTime <= 1 {
        return;
      }
      ghost var q0, ps, total := delProcQue, procs, Plus(LiveProc(procs), discarded);
      ghost var q1, before, gone := delProcQue, [], [];
      PassStarts(q0, cxt.now);
      NoneBefore(q0, cxt.now);
      var it := 0;
      while it < |delProcQue| && cxt.now - delProcQue[it].exportTime >= 1
        invariant 0 <= it && Draining(q0, ps, old(pfSet), total, q1, before, gone, it)
        invariant before + gone == [] ==> procs == ps && pfSet == old(pfSet) && discarded == old(discarded)
        decreases |delProcQue|
      {
        it, q1, before, gone := DeleteAt(it, q0, ps, old(pfSet), total, q1, before, gone);
      }
      PassEnds(q0, q1, before, delProcQue, it, gone, cxt.now);
      taken := before + gone;
      delProcTime := cxt.now;
    }

    /** One turn of the loop: the entry is erased and the iterator advanced. */
    method DeleteAt(it: nat, ghost q0: seq<OIDObj>, ghost ps: ProcessTable, ghost pf0: seq<Entry<OID>>,
                    ghost total: Tally, ghost q1: seq<OIDObj>, ghost before: seq<OIDObj>, ghost gone: seq<OIDObj>)
      returns (it': nat, ghost q1': seq<OIDObj>, ghost before': seq<OIDObj>, ghost gone': seq<OIDObj>)
      requires it < |delProcQue| && cxt.now - delProcQue[it].exportTime >= 1
      requires Draining(q0, ps, pf0, total, q1, before, gone, it)
      modifies `procs, `pfSet, `discarded, `delProcQue, containerCxt`containers
      ensures Draining(q0, ps, pf0, total, q1', before', gone', it') && before' + gone' != []
      ensures |delProcQue| < |old(delProcQue)|
    {
      hide LiveProc, Consistent, DrainedTo, Plus, MidPass, LeadsTo, RunsOff, Skimmed, Taken, Oids, Without;
      var e := delProcQue[it];
      OneMore(before, gone, e);
      WithoutTwice(pf0, Oids(before + gone), {e.oid});
      if it + 1 < |delProcQue| {
        PassGoesOn(q1, delProcQue, it, gone, cxt.now);
        DeleteFromQueue(it, q0, ps, total);
        it', q1', before', gone' := it + 1, q1, before, gone + [e];
      } else {
        PassRunsOff(q1, delProcQue, it, gone, cxt.now);
        DeleteFromQueue(it, q0, ps, total);
        it', q1', before', gone' := ComeRound(it, q0, ps, pf0, total, q1, before, gone + [e]);
      }
    }

    /** The iterator is past the end of the list: it may stay there, or come round to the head. */
    method ComeRound(it: nat, ghost q0: seq<OIDObj>, ghost ps: ProcessTable, ghost pf0: seq<Entry<OID>>,
                     ghost total: Tally, ghost q1: seq<OIDObj>, ghost before: seq<OIDObj>, ghost gone: seq<OIDObj>)
      returns (it': nat, ghost q1': seq<OIDObj>, ghost before': seq<OIDObj>, ghost gone': seq<OIDObj>)
      requires Draining(q0, ps, pf0, total, q1, before, gone, it) && before + gone != []
      requires delProcQue == Skimmed(q1, cxt.now) && gone == Taken(q1, cxt.now) && RunsOff(q1, cxt.now)
      ensures Draining(q0, ps, pf0, total, q1', before', gone', it') && before' + gone' == before + gone
    {
      hide LiveProc, Consistent, DrainedTo, Plus, MidPass, LeadsTo, RunsOff, Skimmed, Taken, Oids, Without;
      it', q1', before', gone' := it, q1, before, gone;
      if * {
        PassAgain(q0, q1, before, cxt.now);
        PassStarts(delProcQue, cxt.now);
        assert before + gone + [] == before + gone;
        it', q1', before', gone' := 0, delProcQue, before + gone, [];
      }
    }

    /** The process with all its ancestors in the table, and those of them to be written. */
    method FindLine(o: OID) returns (line: seq<OID>, batch: seq<OID>)
      requires Ranked(procs, rank) && o in procs
      ensures Line(procs, o, line) && batch == [o] + Unwritten(line[1..], procs)
      ensures Descending(batch, rank) && (forall q :: q in batch ==> q in procs)
      ensures forall q :: q in line ==> procs[q].written || q in batch
    {
      hide Linked, Line, Unwritten, Descending;
      batch, line := [o], [o];
      StartOfLine(procs, o, rank);
      var poid := procs[o].poid;
      while poid.Some? && poid.value in procs
        invariant batch != [] && line != [] && line[0] == o && Linked(procs, line)
        invariant line[|line| - 1] in procs && poid == procs[line[|line| - 1]].poid
        invariant rank(line[|line| - 1]) <= rank(batch[|batch| - 1])
        invariant Descending(batch, rank) && batch == [o] + Unwritten(line[1..], procs)
        decreases if poid.Some? then rank(poid.value) + 1 else 0
      {
        var q := poid.value;
        LinkedAppend(procs, line, q);
        DescendingAppend(batch, q, rank);
        UnwrittenAppend(line[1..], q, procs);
        assert (line + [q])[1..] == line[1..] + [q];
        if !procs[q].written {
          Assoc([o], Unwritten(line[1..], procs), [q]);
          batch := batch + [q];
        }
        line := line + [q];
        poid := procs[q].poid;
      }
      EndOfLine(procs, o, line);
    }

    /** The state while a line is written, from the end of its batch down to position `i`. */
    ghost predicate LineUnderway(w: World, batch: seq<OID>, i: nat)
      requires i <= |batch|
      reads this, containerCxt, writer
    {
      && Settled(w.procs, procs, rank) && procs.Keys == w.procs.Keys
      && (forall q :: q in procs ==> procs[q].containerId == w.procs[q].containerId)
      && (forall c :: RefsOf(containerCxt.containers, c) == RefsOf(w.containers, c))
      && (forall j :: i <= j < |batch| ==> batch[j] in procs && procs[batch[j]].written)
      && ProcsWritten(procs, writer.log)
      && AddsEntities(w.log, writer.log)
      && SameRecords(w.procs, procs)
      && Recorded(writer.log) == Recorded(w.log) + RecordsFor(Reversed(batch[i..]), w.procs)
    }

    method WriteLineOne(ghost w: World, batch: seq<OID>, i: nat)
      requires i < |batch| && batch[i] in procs && LineUnderway(w, batch, i + 1)
      modifies `procs, containerCxt`containers, writer`log
      ensures LineUnderway(w, batch, i)
    {
      hide Declared, Recorded, Behaviors, Closed, Reversed, Settled, RecordsFor, Segments, ProcsWritten, SameRecords;
      var q := batch[i];
      RecordsMark(w.procs, procs, q);
      ghost var log := writer.log;
      SettledStep(w.procs, procs, map[], q, rank);
      ExportContainerOf(q);
      StillWritten(procs, procs, log, writer.log);
      ReversedFrom(batch, i);
      RecordsAppend(Reversed(batch[i + 1..]), q, w.procs);
      Assoc(Recorded(w.log), RecordsFor(Reversed(batch[i + 1..]), w.procs), [RecordOf(q, procs[q])]);
      WriteProcess(q, procs[q]);
    }

    /** Writes a process and its unwritten ancestors, ancestors first.  `line` is the process
        with all its ancestors in the table. */
    method WriteProcessAndAncestors(o: OID) returns (ghost line: seq<OID>, ghost emitted: seq<OID>)
      requires o in procs && Ranked(procs, rank)
      requires ContainerRefs(procs, containerCxt.containers) && ProcsWritten(procs, writer.log)
      modifies `procs, containerCxt`containers, writer`log
      ensures procs.Keys == old(procs).Keys && Settled(old(procs), procs, rank)
      ensures ContainerRefs(procs, containerCxt.containers) && ProcsWritten(procs, writer.log)
      ensures Line(procs, o, line) && forall q :: q in line ==> procs[q].written
      ensures AddsEntities(old(writer.log), writer.log)
      ensures Recorded(writer.log) == Recorded(old(writer.log)) + RecordsFor(emitted, old(procs))
      ensures SameRecords(old(procs), procs)
      ensures emitted == Reversed([o] + Unwritten(line[1..], old(procs))) && AncestorsFirst(emitted, procs, rank)
    {
      hide ContainerRefs, Declared, Behaviors, Closed, Recorded, AncestorsFirst, Line, Descending, Settled, Ranked,
           Unwritten;
      ghost var w := Snapshot();
      var chain, batch := FindLine(o);
      line, emitted := chain, Reversed(batch);
      SettledRefl(procs, rank);
      var i := |batch|;
      while i > 0
        invariant 0 <= i <= |batch| && LineUnderway(w, batch, i)
      {
        i := i - 1;
        WriteLineOne(w, batch, i);
      }
      assert batch[0..] == batch;
      SettledFacts(w.procs, procs, rank);
      SettledLine(w.procs, procs, o, line, batch, rank);
      EmittedOrder(batch, procs, rank);
      ContainerRefsSame(w.procs, procs, w.containers, containerCxt.containers);
    }

    /** What holds throughout a pruning of `ps0`. */
    ghost predicate Sweeping(ps0: ProcessTable, todo: set<OID>, cur: Option<OID>)
      requires Ranked(ps0, rank)
      reads this, containerCxt
    {
      && Thinned(ps0, procs, todo)
      && ContainerRefs(procs, containerCxt.containers)
      && (Kin(ps0) ==> Passing(ps0, procs, todo, cur, rank))
    }

    /** Makes the ancestors of an idle leaf forget it, up to the first that is still of use. */
    method TellAncestors(o: OID, ghost ps0: ProcessTable, ghost todo: set<OID>)
      requires Ranked(ps0, rank) && Sweeping(ps0, todo, None)
      requires o in procs && IdleLeaf(procs[o])
      modifies `procs
      ensures Sweeping(ps0, todo, None) && (Kin(ps0) ==> Unlisted(procs, o))
      ensures procs.Keys == old(procs).Keys && IdleLeaf(procs[o])
    {
      hide Passing, Kin, Unlisted, Thinned, ContainerRefs;
      var cur, poid := o, procs[o].poid;
      ghost var open := Some(o);
      if Kin(ps0) { OpenLeaf(ps0, procs, todo, o, rank); }
      while poid.Some? && poid.value in procs
        invariant cur in procs && (poid.Some? ==> poid == procs[cur].poid)
        invariant open == Some(cur) || (open.None? && poid.None?)
        invariant open.Some? ==> poid == procs[cur].poid
        invariant Sweeping(ps0, todo, open)
        invariant Kin(ps0) ==> open == Some(o) || Unlisted(procs, o)
        invariant procs.Keys == old(procs).Keys && IdleLeaf(procs[o])
        decreases poid.Some?, rank(cur)
      {
        var k := poid.value;
        var p := procs[k].(children := procs[k].children - {cur});
        if Kin(ps0) {
          TellParent(ps0, procs, todo, cur, k, rank);
          StayUnlisted(procs, procs[k := p], o);
        }
        ThinnedRank(ps0, procs, todo, cur, rank);
        ThinnedTell(ps0, procs, todo, cur, k);
        ContainerRefsSame(procs, procs[k := p], containerCxt.containers, containerCxt.containers);
        procs := procs[k := p];
        if IdleLeaf(p) {
          cur, poid, open := k, p.poid, Some(k);
        } else {
          poid, open := None, None;
        }
      }
      if open.Some? && Kin(ps0) { NoParent(ps0, procs, todo, cur, rank); }
    }

    /** Visits one process of the first pass. */
    method Visit(o: OID, ghost ps0: ProcessTable, ghost todo: set<OID>)
      requires Ranked(ps0, rank) && Sweeping(ps0, todo, None) && o in procs && o in todo
      modifies `procs, containerCxt`containers
      ensures Sweeping(ps0, todo - {o}, None)
      ensures procs.Keys == old(procs).Keys || procs.Keys == old(procs).Keys - {o}
      ensures Recounted(old(containerCxt.containers), containerCxt.containers)
    {
      hide Passing, Unlisted, Kin, Thinned, ContainerRefs, IdleLeaf;
      if IdleLeaf(procs[o]) {
        TellAncestors(o, ps0, todo);
        ThinnedErase(ps0, procs, todo, o);
        if Kin(ps0) { EraseLeaf(ps0, procs, todo, o, rank); }
        EraseProcess(o);
      } else {
        ThinnedMark(ps0, procs, todo, o);
        if Kin(ps0) { KeepVisited(ps0, procs, todo, o, rank); }
        ContainerRefsSame(procs, procs[o := procs[o].(written := false)],
                          containerCxt.containers, containerCxt.containers);
        procs := procs[o := procs[o].(written := false)];
      }
    }

    /** Visits every process once, in the order of the hash table. */
    method FirstPass()
      requires Ranked(procs, rank) && ContainerRefs(procs, containerCxt.containers)
      modifies `procs, containerCxt`containers
      ensures Ranked(old(procs), rank) && Thinned(old(procs), procs, {})
      ensures ContainerRefs(procs, containerCxt.containers)
      ensures Recounted(old(containerCxt.containers), containerCxt.containers)
      ensures Kin(old(procs)) ==> Passing(old(procs), procs, {}, None, rank)
    {
      ghost var ps0 := procs;
      var todo := procs.Keys;
      while todo != {}
        invariant todo <= procs.Keys && Sweeping(ps0, todo, None)
        invariant Recounted(old(containerCxt.containers), containerCxt.containers)
        decreases |todo|
      {
        var o :| o in todo;
        Visit(o, ps0, todo);
        todo := todo - {o};
      }
    }

    /** Erases the processes the first pass has turned into idle leaves after visiting them. */
    method SecondPass(ghost ps0: ProcessTable)
      requires Thinned(ps0, procs, {}) && ContainerRefs(procs, containerCxt.containers)
      modifies `procs, containerCxt`containers
      ensures procs == map o | o in old(procs) && !IdleLeaf(old(procs)[o]) :: old(procs)[o]
      ensures Thinned(ps0, procs, {}) && ContainerRefs(procs, containerCxt.containers)
      ensures Recounted(old(containerCxt.containers), containerCxt.containers)
    {
      hide ContainerRefs, IdleLeaf, Thinned;
      ghost var ps1 := procs;
      var todo := procs.Keys;
      while todo != {}
        invariant todo <= procs.Keys && ContainerRefs(procs, containerCxt.containers)
        invariant Leafless(ps1, procs, todo) && Recounted(old(containerCxt.containers), containerCxt.containers)
        decreases |todo|
      {
        var o :| o in todo;
        if IdleLeaf(procs[o]) {
          EraseProcess(o);
        }
        todo := todo - {o};
      }
      LeaflessEnd(ps0, ps1, procs);
    }

    /** Rotation: drops the processes nothing active is at or below of, and marks the others
        unwritten.  When the listed children are cached under their parents, the result does
        not depend on the order of iteration. */
    method ClearProcesses()
      requires Standing(Snapshot(), rank, {})
      modifies `procs, containerCxt`containers
      ensures Standing(Snapshot(), rank, {})
      ensures forall o :: o in procs ==> !procs[o].written
      ensures Thinned(old(procs), procs, {})
      ensures Kin(old(procs)) ==> procs == Pruned(old(procs), rank) && Kin(procs)
      ensures Kin(old(procs)) ==> PrunedTo(old(procs), procs)
      ensures Recounted(old(containerCxt.containers), containerCxt.containers)
      ensures LiveProc(procs) == LiveProc(old(procs))
    {
      hide Passing, LiveProc, PrunedTo;
      ghost var w := Snapshot();
      assert Ranked(w.procs, rank) && ContainerRefs(procs, containerCxt.containers);
      FirstPass();
      ghost var ps1 := procs;
      SecondPass(w.procs);
      if Kin(w.procs) {
        SweepIsPruned(w.procs, ps1, procs, rank);
        PrunedMeans(w.procs, rank);
      }
      ThinnedKeeps(w, Snapshot(), rank);
    }

    /** Erases a process that has no flows, giving back its container reference. */
    method EraseProcess(o: OID)
      requires ContainerRefs(procs, containerCxt.containers) && o in procs
      modifies `procs, containerCxt`containers
      ensures procs == old(procs) - {o}
      ensures ContainerRefs(procs, containerCxt.containers)
      ensures Recounted(old(containerCxt.containers), containerCxt.containers)
    {
      ghost var cs := containerCxt.containers;
      Release(o, procs);
      ContainerRefsDrop(procs, o, cs, containerCxt.containers);
      procs := procs - {o};
    }

    /** Declares the file of a flow of a declared process and offers the flow to the writer. */
    method OfferCut(f: DataFlow)
      requires Closed(writer.log) && fileCxt.Valid() && Proc(f.rec.procOID) in Declared(writer.log)
      requires f.rec.subject.File? ==> f.filekey in fileCxt.files && f.rec.subject.fileOID == Sha1(f.filekey)
      modifies fileCxt`files, writer`log
      ensures Closed(writer.log) && fileCxt.Valid() && KeepsRefs(old(fileCxt.files), fileCxt.files)
      ensures Continues(old(writer.log), writer.log)
      ensures Behaviors(writer.log) == Behaviors(old(writer.log)) + Offered(f.rec)
    {
      hide Declared, Behaviors, Closed, Offered;
      if f.rec.subject.File? {
        var found := fileCxt.ExportFile(f.filekey);
        assert found;
      }
      writer.WriteFlow(f.rec);
    }

    /** Cuts off one flow of a process that is declared: offers it to the writer and frees it. */
    method FlushFlow(o: OID, k: FlowKey, ghost w0: World, ghost order: seq<Item>) returns (ghost order': seq<Item>)
      requires Afloat(Snapshot(), rank) && Offloaded(w0, Snapshot(), order, cxt.nowNs)
      requires o in procs && k in procs[o].table && Proc(o) in Declared(writer.log)
      modifies `procs, `flows, fileCxt`files, writer`log
      ensures Afloat(Snapshot(), rank) && Offloaded(w0, Snapshot(), order', cxt.nowNs)
      ensures procs == WithTable(old(procs), o, old(procs)[o].table - {k})
      ensures Proc(o) in Declared(writer.log)
    {
      hide Offloaded, Homed, FileRefs, ContainerRefs, Honest, Ranked, Declared, Behaviors, Closed, Offered;
      ghost var w := Snapshot();
      AfloatFile(w, o, k, rank);
      var id := procs[o].table[k];
      OfferCut(Truncated(flows[id], cxt.nowNs));
      order' := order + [OfFlow(id)];
      procs := WithTable(procs, o, procs[o].table - {k});
      flows := flows - {id};
      AfloatFlow(w, Snapshot(), o, k, rank);
      OffloadFlow(w0, w, Snapshot(), order, o, k, cxt.nowNs);
    }

    /** Flushes the network flows, or the file flows, of a declared process. */
    method FlushTable(o: OID, net: bool, ghost w0: World, ghost order: seq<Item>) returns (ghost order': seq<Item>)
      requires Afloat(Snapshot(), rank) && Offloaded(w0, Snapshot(), order, cxt.nowNs)
      requires o in procs && Proc(o) in Declared(writer.log)
      modifies `procs, `flows, fileCxt`files, writer`log
      ensures Afloat(Snapshot(), rank) && Offloaded(w0, Snapshot(), order', cxt.nowNs)
      ensures o in procs && procs == WithTable(old(procs), o, procs[o].table)
      ensures forall k :: k in procs[o].table <==> k in old(procs)[o].table && k.NetKey? != net
      ensures Proc(o) in Declared(writer.log)
    {
      hide Offloaded, Afloat, Declared, Behaviors;
      order' := order;
      var todo := set k | k in procs[o].table && k.NetKey? == net;
      while todo != {}
        invariant Afloat(Snapshot(), rank) && Offloaded(w0, Snapshot(), order', cxt.nowNs)
        invariant o in procs && Proc(o) in Declared(writer.log)
        invariant procs == WithTable(old(procs), o, procs[o].table)
        invariant forall k :: k in procs[o].table <==> k in old(procs)[o].table && (k.NetKey? != net || k in todo)
        invariant forall k :: k in todo ==> k in procs[o].table && k.NetKey? == net
        decreases |todo|
      {
        var k :| k in todo;
        order' := FlushFlow(o, k, w0, order');
        todo := todo - {k};
      }
    }

    /** Flushes everything a process has, declaring it first when it has anything. */
    method FlushProcess(o: OID, ghost w0: World, ghost order: seq<Item>) returns (ghost order': seq<Item>)
      requires Afloat(Snapshot(), rank) && Offloaded(w0, Snapshot(), order, cxt.nowNs) && o in procs
      modifies `procs, `flows, fileCxt`files, containerCxt`containers, writer`log
      ensures Afloat(Snapshot(), rank) && Offloaded(w0, Snapshot(), order', cxt.nowNs)
      ensures procs.Keys == old(procs).Keys && procs[o].table == map[] && procs[o].pfo.None?
      ensures forall q :: q in procs && q != o ==>
        procs[q].table == old(procs)[q].table && procs[q].pfo == old(procs)[q].pfo
    {
      hide Offloaded, Afloat, Declared;
      order' := order;
      if !Active(procs[o]) {
        return;
      }
      DeclareForFlush(o, w0, order);
      order' := FlushTable(o, true, w0, order');
      order' := FlushTable(o, false, w0, order');
      assert procs[o].table.Keys == {};
      order' := FlushProcFlow(o, w0, order');
    }

    method DeclareForFlush(o: OID, ghost w0: World, ghost order: seq<Item>)
      requires Afloat(Snapshot(), rank) && Offloaded(w0, Snapshot(), order, cxt.nowNs) && o in procs
      modifies `procs, containerCxt`containers, writer`log
      ensures Afloat(Snapshot(), rank) && Offloaded(w0, Snapshot(), order, cxt.nowNs)
      ensures procs.Keys == old(procs).Keys && Proc(o) in Declared(writer.log)
      ensures forall q :: q in procs ==> procs[q].table == old(procs)[q].table && procs[q].pfo == old(procs)[q].pfo
    {
      hide Offloaded, Homed, FileRefs, ContainerRefs, Honest, Ranked, Declared, Behaviors, Closed, FilesWritten;
      if !procs[o].written {
        ghost var w := Snapshot();
        ghost var line, emitted := WriteProcessAndAncestors(o);
        assert o in line;
        AfloatSettled(w, Snapshot(), rank);
        OffloadedEntities(w0, w, Snapshot(), order, cxt.nowNs);
      }
    }

    method FlushProcFlow(o: OID, ghost w0: World, ghost order: seq<Item>) returns (ghost order': seq<Item>)
      requires Afloat(Snapshot(), rank) && Offloaded(w0, Snapshot(), order, cxt.nowNs)
      requires o in procs && Proc(o) in Declared(writer.log)
      modifies `procs, writer`log
      ensures Afloat(Snapshot(), rank) && Offloaded(w0, Snapshot(), order', cxt.nowNs)
      ensures procs == old(procs)[o := old(procs)[o].(pfo := None)]
    {
      hide Offloaded, Homed, FileRefs, ContainerRefs, Honest, Ranked, Declared, Behaviors, Closed, FilesWritten,
           OfferedProc;
      order' := order;
      if procs[o].pfo.Some? {
        ghost var w := Snapshot();
        writer.WriteProcessFlow(o, CutProc(procs[o].pfo.value, cxt.nowNs));
        procs := procs[o := procs[o].(pfo := None)];
        AfloatProcFlow(w, Snapshot(), o, rank);
        OffloadProcFlow(w0, w, Snapshot(), order, o, cxt.nowNs);
        order' := order + [OfProc(o)];
      }
    }

    /** Shutdown: every live data flow and process flow is offered to the writer exactly once, cut
        off, after the record of its process; nothing else is written but entities; then
        everything is freed. */
    method ClearAllProcesses() returns (ghost order: seq<Item>)
      requires Valid()
      modifies `procs, `flows, `pfSet, `delProcQue, fileCxt`files, containerCxt`containers, writer`log
      ensures procs == map[] && flows == map[]
      ensures Closed(writer.log) && Continues(old(writer.log), writer.log)
      ensures FlushedTo(old(Snapshot()), writer.log, order, cxt.nowNs)
      ensures Written(Behaviors(writer.log)) == Book(old(Snapshot()))
    {
      hide Offloaded, Afloat, Consistent, Book, Closed, Declared, Behaviors, Written, Flushed, FlushedTo;
      ghost var w0 := Snapshot();
      OffloadStart(w0, rank, cxt.nowNs);
      order := [];
      var todo := procs.Keys;
      while todo != {}
        invariant Afloat(Snapshot(), rank) && Offloaded(w0, Snapshot(), order, cxt.nowNs)
        invariant todo <= procs.Keys
        invariant forall o :: o in procs && o !in todo ==> procs[o].table == map[] && procs[o].pfo.None?
        decreases |todo|
      {
        var o :| o in todo;
        order := FlushProcess(o, w0, order);
        todo := todo - {o};
      }
      OffloadEnd(w0, Snapshot(), order, cxt.nowNs, rank);
      FlushIs(w0, writer.log, order, cxt.nowNs);
      procs, pfSet, delProcQue := map[], [], [];
    }
  }
}
