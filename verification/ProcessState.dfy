/**
  The process table together with everything that has to agree with it, as values: the
  agreements, the batches of processes written together, and how each change of the table
  carries the agreements over.
 */
module ProcessState {
  import opened Types
  import opened Trace
  import opened TimeSet
  import opened Ledger
  import opened Invariants
  import opened Pruning

  /** A parent has a smaller rank than its child along the whole chain, also when the parent
      of the topmost task has to be guessed among the cached processes by its pid. */
  predicate Sane(t: Task, rank: OID -> nat, cached: set<OID>)
    decreases t
  {
    match t.parent
    case Some(p) => rank(OidOf(p)) < rank(OidOf(t)) && Sane(p, rank, cached)
    case None => t.ptid != -1 ==> forall q :: q in cached && q.hpid == t.ptid ==> rank(q) < rank(OidOf(t))
  }

  /** The parent of a task is the parent its cached process was given, and is not pid zero;
      a parent that has to be guessed by its pid is the only one cached under that pid. */
  predicate Stable(t: Task, procs: ProcessTable)
    decreases t
  {
    match t.parent
    case Some(p) =>
      && !(p.cloneTs == 0 && p.pid == 0)
      && (OidOf(t) in procs ==> procs[OidOf(t)].poid == Some(OidOf(p)))
      && Stable(p, procs)
    case None =>
      t.ptid != -1 ==> forall q :: q in procs && q.hpid == t.ptid ==>
        && (forall r :: r in procs && r.hpid == t.ptid ==> r == q)
        && (OidOf(t) in procs ==> procs[OidOf(t)].poid == Some(q))
  }

  /** The hypotheses about the ancestry of an event.  A process that is already written is not
      looked up any further. */
  predicate Climbable(procs: ProcessTable, t: Task, rank: OID -> nat, tidy: bool) {
    || (OidOf(t) in procs && procs[OidOf(t)].written)
    || (Sane(t, rank, procs.Keys) && (tidy ==> Stable(t, procs)))
  }

  /** The object of the task names as its parent whom a walk up from it comes to. */
  ghost predicate Rooted(all: ProcessTable, cached: set<OID>, t: Task) {
    && OidOf(t) in all
    && match t.parent
       case Some(p) => all[OidOf(t)].poid == Some(OidOf(p))
       case None => t.ptid != -1 ==> forall q :: q in cached && q.hpid == t.ptid ==> all[OidOf(t)].poid == Some(q)
  }

  /** A new object was given its parent by the same rule. */
  predicate Fathered(p: ProcessObj, cached: set<OID>, t: Task) {
    match t.parent
    case Some(q) => p.poid == Some(OidOf(q))
    case None =>
      if p.poid.Some? then t.ptid != -1 && p.poid.value in cached && p.poid.value.hpid == t.ptid
      else t.ptid != -1 ==> forall q :: q in cached ==> q.hpid != t.ptid
  }

  /** The processes a walk up from the task may create, with the parents they may be given. */
  ghost function Births(t: Task, cached: set<OID>): set<(OID, Option<OID>)>
    decreases t
  {
    match t.parent
    case Some(p) => {(OidOf(t), Some(OidOf(p)))} + Births(p, cached)
    case None =>
      {(OidOf(t), None)} + (if t.ptid == -1 then {} else set q | q in cached && q.hpid == t.ptid :: (OidOf(t), Some(q)))
  }

  /** The births an event may bring: none when its process is written already. */
  ghost function Born(ps: ProcessTable, t: Task): set<(OID, Option<OID>)> {
    if OidOf(t) in ps && ps[OidOf(t)].written then {} else Births(t, ps.Keys)
  }

  lemma BornTrans(a: ProcessTable, b: ProcessTable, c: ProcessTable, births: set<(OID, Option<OID>)>)
    requires BornOf(a, b, births) && BornOf(b, c, {})
    ensures BornOf(a, c, births)
  {
  }

  /** Cached processes keep their parents, and new ones are among the births. */
  ghost predicate BornOf(ps: ProcessTable, qs: ProcessTable, births: set<(OID, Option<OID>)>) {
    forall o :: o in qs ==> if o in ps then qs[o].poid == ps[o].poid else (o, qs[o].poid) in births
  }

  lemma BornIn(ps: ProcessTable, unborn: ProcessTable, all: ProcessTable, qs: ProcessTable,
               births: set<(OID, Option<OID>)>)
    requires SameLinks(all, qs) && all.Keys == ps.Keys + unborn.Keys
    requires forall o :: o in unborn ==> o !in ps && all[o].poid == unborn[o].poid && (o, unborn[o].poid) in births
    requires forall o :: o in ps ==> all[o].poid == ps[o].poid
    ensures BornOf(ps, qs, births) && MoreChildren(all, qs)
  {
  }

  lemma FatheredIsBirth(p: ProcessObj, cached: set<OID>, t: Task)
    requires Fathered(p, cached, t)
    ensures (OidOf(t), p.poid) in Births(t, cached)
  {
  }

  lemma BirthsUp(t: Task, cached: set<OID>)
    requires t.parent.Some?
    ensures Births(t.parent.value, cached) <= Births(t, cached)
  {
  }

  /** The ancestors of the task that are collected for writing: its parent tasks, pid zero
      excepted, up to the first that is no task or is written already. */
  ghost function Climbed(t: Task, ps: ProcessTable): seq<OID>
    decreases t
  {
    match t.parent
    case None => []
    case Some(p) =>
      if p.tid == -1 then []
      else if p.cloneTs == 0 && p.pid == 0 then Climbed(p, ps)
      else if OidOf(p) in ps && ps[OidOf(p)].written then []
      else [OidOf(p)] + Climbed(p, ps)
  }

  /** The walk comes to an end before the parent tasks do. */
  ghost predicate Met(t: Task, ps: ProcessTable)
    decreases t
  {
    match t.parent
    case None => false
    case Some(p) =>
      if p.tid == -1 then true
      else if p.cloneTs == 0 && p.pid == 0 then Met(p, ps)
      else (OidOf(p) in ps && ps[OidOf(p)].written) || Met(p, ps)
  }

  lemma ClimbedStep(ps: ProcessTable, batch: seq<OID>, top: Task, t: Task)
    requires top.parent == Some(t) && t.tid != -1 && !(t.cloneTs == 0 && t.pid == 0)
    requires !(OidOf(t) in ps && ps[OidOf(t)].written)
    ensures batch + Climbed(top, ps) == batch + [OidOf(t)] + Climbed(t, ps) && Met(top, ps) == Met(t, ps)
  {
  }

  /** The topmost task of the chain. */
  ghost function TopOf(t: Task): Task
    decreases t
  {
    if t.parent.Some? then TopOf(t.parent.value) else t
  }

  // ------------------------------------------------------ what the records show

  /** What the record of a process shows besides the process and its parent. */
  datatype Guise = Guise(containerId: Option<string>, state: ObjectState, ts: int)

  function GuiseOf(p: ProcessObj): Guise { Guise(p.containerId, p.state, p.ts) }

  /** The record of a cached process. */
  function RecordOf(o: OID, p: ProcessObj): Record { ProcessRec(o, p.poid, p.containerId, p.state, p.ts) }

  /** The records of the processes `os`, in this order. */
  ghost function RecordsFor(os: seq<OID>, ps: ProcessTable): seq<Record> {
    seq(|os|, i requires 0 <= i < |os| => if os[i] in ps then RecordOf(os[i], ps[os[i]]) else HeaderRec)
  }

  lemma RecordsAppend(os: seq<OID>, o: OID, ps: ProcessTable)
    requires o in ps
    ensures RecordsFor(os + [o], ps) == RecordsFor(os, ps) + [RecordOf(o, ps[o])]
  {
  }

  /** The same processes, with the same records. */
  ghost predicate SameRecords(ps: ProcessTable, qs: ProcessTable) {
    ps.Keys == qs.Keys && forall q :: q in qs ==> RecordOf(q, qs[q]) == RecordOf(q, ps[q])
  }

  lemma RecordsMark(ps: ProcessTable, qs: ProcessTable, o: OID)
    requires SameRecords(ps, qs) && o in qs
    ensures o in ps && RecordOf(o, qs[o]) == RecordOf(o, ps[o])
    ensures SameRecords(ps, qs[o := qs[o].(written := true)])
  {
  }

  lemma NoRecords(ps: ProcessTable)
    ensures RecordsFor([], ps) == []
  {
  }

  lemma OneDressing(all: ProcessTable, key: OID, p: ProcessObj)
    ensures OneDressed(all, all[key := p], key, GuiseOf(p))
  {
  }

  lemma LinkedRecord(ps: ProcessTable, qs: ProcessTable, o: OID)
    requires SameLinks(ps, qs) && o in qs
    ensures o in ps && RecordOf(o, qs[o]) == RecordOf(o, ps[o])
  {
    assert GuiseOf(qs[o]) == GuiseOf(ps[o]);
  }

  lemma RecordsSame(os: seq<OID>, ps: ProcessTable, qs: ProcessTable)
    requires SameLinks(ps, qs)
    ensures RecordsFor(os, qs) == RecordsFor(os, ps)
  {
    forall i | 0 <= i < |os| ensures RecordsFor(os, qs)[i] == RecordsFor(os, ps)[i] {
      assert os[i] in ps ==> GuiseOf(qs[os[i]]) == GuiseOf(ps[os[i]]);
    }
  }

  function ContainerIn(r: ContainerRef): Option<string> { if r.id != "" then Some(r.id) else None }

  /** An ancestor that is collected: in its task's own container, as found again, and a new one with the
      time of the event. */
  ghost function TaskGuise(t: Task, ts: int, ps: ProcessTable): Guise {
    Guise(ContainerIn(t.container), Reup, if OidOf(t) in ps then ps[OidOf(t)].ts else ts)
  }

  /** The process of the event: in the container of the thread, a new one in the given state with the
      time of the event, a cached one as found again. */
  ghost function FirstGuise(ev: Event, state: ObjectState, ps: ProcessTable): Guise {
    if OidOf(ev.task) in ps then Guise(ContainerIn(ev.container), Reup, ps[OidOf(ev.task)].ts)
    else Guise(ContainerIn(ev.container), state, ev.ts)
  }

  /** The guises of those the walk up from the task collects, besides `worn`. */
  ghost function ClimbGuises(t: Task, ts: int, ps: ProcessTable, worn: map<OID, Guise>): map<OID, Guise>
    decreases t
  {
    match t.parent
    case None => worn
    case Some(p) =>
      if p.tid == -1 then worn
      else if p.cloneTs == 0 && p.pid == 0 then ClimbGuises(p, ts, ps, worn)
      else if OidOf(p) in ps && ps[OidOf(p)].written then worn
      else ClimbGuises(p, ts, ps, worn[OidOf(p) := TaskGuise(p, ts, ps)])
  }

  /** The guises a look-up gives: to the process of the event and to those collected on its walk. */
  ghost function Worn(ev: Event, state: ObjectState, ps: ProcessTable): map<OID, Guise> {
    ClimbGuises(ev.task, ev.ts, ps, map[OidOf(ev.task) := FirstGuise(ev, state, ps)])
  }

  /** Everyone in `all` has the guise in `worn`, or else the one in `ps`. */
  ghost predicate Attired(all: ProcessTable, ps: ProcessTable, worn: map<OID, Guise>) {
    forall o :: o in all ==>
      (o in worn || o in ps) && GuiseOf(all[o]) == if o in worn then worn[o] else GuiseOf(ps[o])
  }

  /** Only the guise of `key` changes. */
  ghost predicate OneDressed(all: ProcessTable, all': ProcessTable, key: OID, g: Guise) {
    && all'.Keys == all.Keys + {key} && GuiseOf(all'[key]) == g
    && forall o :: o in all && o != key ==> GuiseOf(all'[o]) == GuiseOf(all[o])
  }

  lemma DressOne(all: ProcessTable, all': ProcessTable, ps: ProcessTable, qs: ProcessTable, worn: map<OID, Guise>,
                 t: Task, ts: int)
    requires Attired(all, ps, worn) && OneDressed(all, all', OidOf(t), TaskGuise(t, ts, qs)) && OidOf(t) !in worn
    requires OidOf(t) in qs <==> OidOf(t) in ps
    requires OidOf(t) in qs ==> OidOf(t) in all && all[OidOf(t)] == qs[OidOf(t)]
    ensures Attired(all', ps, worn[OidOf(t) := TaskGuise(t, ts, ps)])
  {
    assert OidOf(t) in qs ==> GuiseOf(all[OidOf(t)]) == GuiseOf(ps[OidOf(t)]);
  }

  lemma AttiredLinks(all: ProcessTable, qs: ProcessTable, ps: ProcessTable, worn: map<OID, Guise>)
    requires Attired(all, ps, worn) && SameLinks(all, qs)
    ensures Attired(qs, ps, worn)
  {
  }

  lemma AttiredChild(ps: ProcessTable, unborn: ProcessTable, o: OID, child: OID, old_: ProcessTable,
                     worn: map<OID, Guise>)
    requires o in ps && Attired(ps + unborn, old_, worn)
    ensures Attired(AddChild(ps, o, child) + unborn, old_, worn)
  {
    var all, all' := ps + unborn, AddChild(ps, o, child) + unborn;
    forall q | q in all' ensures GuiseOf(all'[q]) == GuiseOf(all[q]) {
    }
  }

  lemma NotAgain(batch: seq<OID>, rank: OID -> nat, key: OID)
    requires batch != [] && Descending(batch, rank) && rank(key) < rank(batch[|batch| - 1])
    ensures key !in batch
  {
    forall i | 0 <= i < |batch| ensures rank(batch[i]) >= rank(batch[|batch| - 1]) {
    }
  }

  /** Those of the line that are not written. */
  ghost function Unwritten(line: seq<OID>, ps: ProcessTable): seq<OID> {
    if line == [] then []
    else
      var q := line[|line| - 1];
      Unwritten(line[..|line| - 1], ps) + (if q in ps && ps[q].written then [] else [q])
  }

  lemma UnwrittenAppend(line: seq<OID>, q: OID, ps: ProcessTable)
    ensures Unwritten(line + [q], ps) == Unwritten(line, ps) + (if q in ps && ps[q].written then [] else [q])
  {
    assert (line + [q])[..|line|] == line;
  }

  /** Every process of the line is listed as a child by the next one. */
  ghost predicate Lists(all: ProcessTable, line: seq<OID>) {
    forall j :: 1 <= j < |line| ==> line[j] in all && line[j - 1] in all[line[j]].children
  }

  /** The same processes, parents, children and guises. */
  ghost predicate SameLinks(ps: ProcessTable, qs: ProcessTable) {
    && ps.Keys == qs.Keys
    && forall o :: o in ps ==>
         qs[o].children == ps[o].children && qs[o].poid == ps[o].poid && GuiseOf(qs[o]) == GuiseOf(ps[o])
  }

  lemma SameLinksTrans(a: ProcessTable, b: ProcessTable, c: ProcessTable)
    requires SameLinks(a, b) && SameLinks(b, c)
    ensures SameLinks(a, c)
  {
  }

  /** Children are only added. */
  ghost predicate MoreChildren(ps: ProcessTable, qs: ProcessTable) {
    forall o :: o in ps ==> o in qs && ps[o].children <= qs[o].children
  }

  lemma ChildrenSet(all: ProcessTable, key: OID, p: ProcessObj)
    requires key in all ==> all[key].children <= p.children
    ensures MoreChildren(all, all[key := p])
  {
  }

  lemma ListsMore(ps: ProcessTable, qs: ProcessTable, line: seq<OID>)
    requires Lists(ps, line) && MoreChildren(ps, qs)
    ensures Lists(qs, line)
  {
  }

  lemma ListsAppend(all: ProcessTable, line: seq<OID>, q: OID)
    requires Lists(all, line) && (line != [] ==> q in all && line[|line| - 1] in all[q].children)
    ensures Lists(all, line + [q])
  {
    var l := line + [q];
    forall j | 1 <= j < |l| ensures l[j] in all && l[j - 1] in all[l[j]].children {
      assert l[j - 1] == line[j - 1] && (j < |line| ==> l[j] == line[j]);
    }
  }

  /** The stored parent of a process, when it is in the table. */
  function NextUp(ps: ProcessTable, o: OID): Option<OID>
    requires o in ps
  {
    if ps[o].poid.Some? && ps[o].poid.value in ps then ps[o].poid else None
  }

  /** A walk along stored parents has come along `line`, and goes on to `prt` if there is one. */
  ghost predicate OnLine(ps: ProcessTable, line: seq<OID>, prt: Option<OID>) {
    && Linked(ps, line)
    && (prt.Some? ==> prt.value in ps && (line != [] ==> ps[line[|line| - 1]].poid == prt))
    && (prt.None? && line != [] ==> Line(ps, line[0], line))
  }

  lemma OnLineNext(ps: ProcessTable, line: seq<OID>, o: OID, rank: OID -> nat)
    requires OnLine(ps, line, Some(o)) && Ranked(ps, rank)
    ensures o in ps && OnLine(ps, line + [o], NextUp(ps, o))
    ensures NextUp(ps, o).Some? ==> rank(NextUp(ps, o).value) < rank(o)
  {
    hide Linked, Line;
    LinkedAppend(ps, line, o);
  }

  function LastOf(top: OID, line: seq<OID>): OID { if line == [] then top else line[|line| - 1] }

  lemma LastIs(top: OID, line: seq<OID>, o: OID)
    ensures LastOf(top, line + [o]) == o
  {
  }

  /** Everyone on the line from `top`, and on `up`, is listed by the next one; with `kin`, `prt` is
      the parent of the last one on the line. */
  ghost predicate Heirs(all: ProcessTable, top: OID, line: seq<OID>, up: seq<OID>, prt: Option<OID>, kin: bool) {
    && Lists(all, [top] + line) && Lists(all, up)
    && (kin ==> Kin(all) && LastOf(top, line) in all && (prt.Some? ==> all[LastOf(top, line)].poid == prt))
  }

  lemma HeirsMeans(all: ProcessTable, top: OID, line: seq<OID>, up: seq<OID>, o: OID, kin: bool)
    requires Heirs(all, top, line, up, Some(o), kin)
    ensures kin ==> Kin(all) && LastOf(top, line) in all && all[LastOf(top, line)].poid == Some(o)
  {
  }

  lemma HeirsNext(all: ProcessTable, all': ProcessTable, top: OID, line: seq<OID>, up: seq<OID>, o: OID,
                   prt: Option<OID>, kin: bool)
    requires Heirs(all, top, line, up, Some(o), kin) && MoreChildren(all, all')
    requires o in all' && LastOf(top, line) in all'[o].children && (kin ==> Kin(all'))
    requires prt.Some? ==> all'[o].poid == prt
    ensures Heirs(all', top, line + [o], up, prt, kin)
  {
    hide Lists, MoreChildren, Kin;
    ListsMore(all, all', up);
    LineGrows(all, all', top, line, o);
  }

  lemma GuessStart(all: ProcessTable, old_: ProcessTable, top: Task, up: seq<OID>, prt: Option<OID>, kin: bool)
    requires Lists(all, up) && (prt.Some? ==> prt.value in old_ && prt.value.hpid == top.ptid)
    requires kin ==> Kinship(all, old_, top, OidOf(top)) && top.parent.None? && top.ptid != -1
    ensures OnLine(old_, [], prt) && Heirs(all, OidOf(top), [], up, prt, kin) && Unwritten([], old_) == []
  {
    hide Kin, Kinship;
    if kin { KinshipGuess(all, old_, top, prt); }
  }

  lemma GuessEnds(all: ProcessTable, old_: ProcessTable, top: OID, line: seq<OID>, up: seq<OID>, kin: bool)
    requires OnLine(old_, line, None) && Heirs(all, top, line, up, None, kin)
    ensures Lists(all, [top] + line) && Lists(all, up) && (kin ==> Kin(all))
    ensures line != [] ==> Line(old_, line[0], line)
  {
  }

  /** A walk that started from `top` comes to `q`. */
  lemma LineGrows(all: ProcessTable, all': ProcessTable, top: OID, line: seq<OID>, q: OID)
    requires Lists(all, [top] + line) && MoreChildren(all, all')
    requires q in all' && LastOf(top, line) in all'[q].children
    ensures Lists(all', [top] + (line + [q]))
  {
    hide Lists, MoreChildren;
    ListsMore(all, all', [top] + line);
    ListsAppend(all', [top] + line, q);
    assert [top] + (line + [q]) == [top] + line + [q];
  }

  lemma ListsOne(all: ProcessTable, o: OID)
    ensures Lists(all, [o] + [])
  {
  }

  lemma DescendingAppend(batch: seq<OID>, q: OID, rank: OID -> nat)
    requires Descending(batch, rank) && batch != [] && rank(q) < rank(batch[|batch| - 1])
    ensures Descending(batch + [q], rank)
  {
  }

  lemma StartOfLine(ps: ProcessTable, o: OID, rank: OID -> nat)
    requires o in ps
    ensures Linked(ps, [o]) && Descending([o], rank) && [o] + Unwritten([o][1..], ps) == [o]
  {
  }

  lemma EndOfLine(ps: ProcessTable, o: OID, line: seq<OID>)
    requires Linked(ps, line) && line != [] && line[0] == o
    requires var top := ps[line[|line| - 1]].poid; top.None? || top.value !in ps
    ensures Line(ps, o, line)
    ensures var batch := [o] + Unwritten(line[1..], ps);
            (forall q :: q in batch ==> q in ps) && (forall q :: q in line ==> ps[q].written || q in batch)
  {
    UnwrittenMembers(line[1..], ps);
    assert line == [o] + line[1..];
  }

  lemma {:induction false} UnwrittenMembers(line: seq<OID>, ps: ProcessTable)
    ensures forall q :: q in Unwritten(line, ps) <==> q in line && !(q in ps && ps[q].written)
  {
    if line != [] {
      var n := |line| - 1;
      UnwrittenMembers(line[..n], ps);
      assert line == line[..n] + [line[n]];
    }
  }

  /** A stored line goes on with the parent of its last process, as long as there is one. */
  lemma LinkedAppend(ps: ProcessTable, line: seq<OID>, o: OID)
    requires Linked(ps, line) && o in ps && (line != [] ==> ps[line[|line| - 1]].poid == Some(o))
    ensures Linked(ps, line + [o])
    ensures ps[o].poid.None? || ps[o].poid.value !in ps ==> Line(ps, (line + [o])[0], line + [o])
  {
    var l := line + [o];
    forall i | 0 <= i < |l| - 1 ensures ps[l[i]].poid == Some(l[i + 1]) {
      assert l[i] == line[i] && (i + 1 < |line| ==> l[i + 1] == line[i + 1]);
    }
  }

  /** What `getProcess` writes and links for a process that is not written: the process and its
      collected ancestors; then, when the parent tasks run out and the parent has to be guessed
      by its pid, the stored line of the guessed parent; ancestors first.  Each of them lists the
      one it was reached from. */
  ghost predicate Walked(task: Task, ps: ProcessTable, qs: ProcessTable, line: seq<OID>, emitted: seq<OID>) {
    var up := [OidOf(task)] + Climbed(task, ps);
    var top := TopOf(task);
    && GuessedLine(task, ps, line)
    && emitted == Reversed(up + Unwritten(line, ps))
    && Lists(qs, up) && Lists(qs, [OidOf(top)] + line)
    && forall o :: o in emitted ==> o in qs && qs[o].written
  }

  /** No process comes or goes, no child and no mark is taken away, and every process keeps its parent
      and its guise, that of `o` excepted when it is `retold`: then it is modified at `ts`. */
  ghost predicate Follows(ps: ProcessTable, qs: ProcessTable, o: OID, retold: bool, ts: int) {
    && qs.Keys == ps.Keys
    && forall q :: q in ps ==>
         && ps[q].children <= qs[q].children && (ps[q].written ==> qs[q].written) && qs[q].poid == ps[q].poid
         && GuiseOf(qs[q]) == if retold && q == o then Guise(ps[q].containerId, Modified, ts) else GuiseOf(ps[q])
  }

  ghost predicate Marked(ps: ProcessTable, qs: ProcessTable) { Follows(ps, qs, OID(0, 0), false, 0) }

  /** The process of the event has been looked up in the table `ps`: nothing happens to one that was
      written already; otherwise the process and its unwritten ancestors are recorded, ancestors first,
      in their new guises. */
  ghost predicate Looked(ev: Event, state: ObjectState, ps: ProcessTable, qs: ProcessTable, line: seq<OID>,
                         emitted: seq<OID>)
  {
    if OidOf(ev.task) in ps && ps[OidOf(ev.task)].written then emitted == [] && qs == ps
    else Walked(ev.task, ps, qs, line, emitted) && Attired(qs, ps, Worn(ev, state, ps))
  }

  /** The process of the event has been looked up.  The process records written since are those of the
      look-up and, when it is `retold`, one more of the process itself, as modified by the event. */
  ghost predicate LookedUp(ev: Event, state: ObjectState, x: World, y: World, retold: bool) {
    var o := OidOf(ev.task);
    && o in y.procs && y.procs[o].written
    && exists ms, line, emitted :: Looked(ev, state, x.procs, ms, line, emitted)
                                   && Follows(ms, y.procs, o, retold, ev.ts)
                                   && Recorded(y.log) == Recorded(x.log) + RecordsFor(emitted, ms)
                                                         + if retold then [RecordOf(o, y.procs[o])] else []
  }

  /** The same when a process is looked up at all; otherwise no process is recorded or changed. */
  ghost predicate Sought(looks: bool, ev: Event, state: ObjectState, x: World, y: World, retold: bool) {
    if looks then LookedUp(ev, state, x, y, retold) else Recorded(y.log) == Recorded(x.log) && Marked(x.procs, y.procs)
  }

  /** After the look-up the process has been recorded once more, or nothing has. */
  lemma LookedThen(ev: Event, state: ObjectState, x: World, m: World, y: World, retold: bool)
    requires LookedUp(ev, state, x, m, false) && Follows(m.procs, y.procs, OidOf(ev.task), retold, ev.ts)
    requires OidOf(ev.task) in y.procs
    requires Recorded(y.log)
             == Recorded(m.log) + if retold then [RecordOf(OidOf(ev.task), y.procs[OidOf(ev.task)])] else []
    ensures LookedUp(ev, state, x, y, retold)
  {
    hide Looked, Recorded, RecordsFor;
    var o := OidOf(ev.task);
    var ms, line, emitted :| Looked(ev, state, x.procs, ms, line, emitted)
                             && Follows(ms, m.procs, o, false, ev.ts)
                             && Recorded(m.log) == Recorded(x.log) + RecordsFor(emitted, ms) + [];
    FollowsTrans(ms, m.procs, y.procs, o, retold, ev.ts);
    assert Recorded(x.log) + RecordsFor(emitted, ms) + [] == Recorded(x.log) + RecordsFor(emitted, ms);
  }

  lemma FollowsTrans(a: ProcessTable, b: ProcessTable, c: ProcessTable, o: OID, retold: bool, ts: int)
    requires Follows(a, b, o, false, ts) && Follows(b, c, o, retold, ts)
    ensures Follows(a, c, o, retold, ts)
  {
    assert o in a ==> GuiseOf(b[o]) == GuiseOf(a[o]);
  }

  /** A second look-up finds the process written. */
  lemma LookedTwice(ev: Event, state: ObjectState, x: World, m: World, y: World)
    requires LookedUp(ev, state, x, m, false) && LookedUp(ev, state, m, y, false)
    ensures LookedUp(ev, state, x, y, false)
  {
    hide Walked, Recorded, Follows, Attired, RecordsFor;
    var ms, line, emitted :| Looked(ev, state, m.procs, ms, line, emitted)
                             && Follows(ms, y.procs, OidOf(ev.task), false, ev.ts)
                             && Recorded(y.log) == Recorded(m.log) + RecordsFor(emitted, ms) + [];
    NoRecords(ms);
    assert Recorded(m.log) + [] + [] == Recorded(m.log) + [];
    LookedThen(ev, state, x, m, y, false);
  }

  lemma FirstLook(ev: Event, state: ObjectState, x: World, y: World, line: seq<OID>, emitted: seq<OID>)
    requires OidOf(ev.task) in y.procs && y.procs[OidOf(ev.task)].written
    requires Recorded(y.log) == Recorded(x.log) + RecordsFor(emitted, y.procs)
    requires Looked(ev, state, x.procs, y.procs, line, emitted)
    ensures LookedUp(ev, state, x, y, false)
  {
    hide Looked, Recorded, RecordsFor;
    assert Follows(y.procs, y.procs, OidOf(ev.task), false, ev.ts);
    assert Recorded(x.log) + RecordsFor(emitted, y.procs) + [] == Recorded(x.log) + RecordsFor(emitted, y.procs);
  }

  /** Nothing has been recorded since. */
  lemma LookedStill(ev: Event, state: ObjectState, x: World, m: World, y: World)
    requires LookedUp(ev, state, x, m, false) && (y.procs == m.procs || Marked(m.procs, y.procs))
    requires Recorded(y.log) == Recorded(m.log)
    ensures LookedUp(ev, state, x, y, false)
  {
    hide LookedUp, Recorded;
    assert LookedUp(ev, state, x, m, false) ==> OidOf(ev.task) in m.procs by { LookedMeans(ev, state, x, m, false); }
    assert Follows(m.procs, y.procs, OidOf(ev.task), false, ev.ts);
    assert Recorded(m.log) + [] == Recorded(m.log);
    LookedThen(ev, state, x, m, y, false);
  }

  lemma LookedMeans(ev: Event, state: ObjectState, x: World, y: World, retold: bool)
    requires LookedUp(ev, state, x, y, retold)
    ensures OidOf(ev.task) in y.procs && y.procs[OidOf(ev.task)].written
  {
  }

  lemma MarkedSame(ps: ProcessTable)
    ensures Marked(ps, ps)
  {
  }

  lemma MarkedTable(ps: ProcessTable, o: OID, t: map<FlowKey, FlowId>)
    requires o in ps
    ensures Marked(ps, WithTable(ps, o, t))
  {
  }

  // ------------------------------------------------- records outside of look-ups

  /** The processes `os` are those marked written since `ps`, once each. */
  ghost predicate Newly(ps: ProcessTable, qs: ProcessTable, os: seq<OID>) {
    NoDup(os) && forall o :: o in os <==> o in ps && o in qs && !ps[o].written && qs[o].written
  }

  /** Only processes that were not written have been recorded, once each and as they are; nothing else
      about the processes has changed but their flows. */
  ghost predicate Told(ps: ProcessTable, from: seq<Record>, qs: ProcessTable, to: seq<Record>) {
    Marked(ps, qs) && exists os :: Newly(ps, qs, os) && Recorded(to) == Recorded(from) + RecordsFor(os, ps)
  }

  lemma ToldNone(ps: ProcessTable, from: seq<Record>, qs: ProcessTable, to: seq<Record>)
    requires Marked(ps, qs) && Recorded(to) == Recorded(from)
    requires forall o :: o in qs ==> qs[o].written == ps[o].written
    ensures Told(ps, from, qs, to)
  {
    hide Recorded, RecordsFor;
    NoRecords(ps);
    assert Newly(ps, qs, []) && Recorded(from) + [] == Recorded(from);
  }

  lemma ToldRefl(ps: ProcessTable, log: seq<Record>)
    ensures Told(ps, log, ps, log)
  {
    ToldNone(ps, log, ps, log);
  }

  lemma ToldStill(ps: ProcessTable, from: seq<Record>, qs: ProcessTable, mid: seq<Record>, to: seq<Record>)
    requires Told(ps, from, qs, mid) && Recorded(to) == Recorded(mid)
    ensures Told(ps, from, qs, to)
  {
    hide Recorded, RecordsFor, Follows, Newly;
  }

  lemma ToldOne(ps: ProcessTable, from: seq<Record>, o: OID, to: seq<Record>)
    requires o in ps
    requires Recorded(to) == Recorded(from) + if ps[o].written then [] else [RecordOf(o, ps[o])]
    ensures Told(ps, from, ps[o := ps[o].(written := true)], to)
  {
    hide Recorded, RecordsFor;
    var qs := ps[o := ps[o].(written := true)];
    NoRecords(ps);
    RecordsAppend([], o, ps);
    assert [] + [o] == [o];
    assert Newly(ps, qs, if ps[o].written then [] else [o]);
  }

  lemma NewlyTrans(a: ProcessTable, b: ProcessTable, c: ProcessTable, os: seq<OID>, more: seq<OID>)
    requires Marked(a, b) && Marked(b, c) && Newly(a, b, os) && Newly(b, c, more)
    ensures Newly(a, c, os + more) && RecordsFor(more, b) == RecordsFor(more, a)
    ensures RecordsFor(os + more, a) == RecordsFor(os, a) + RecordsFor(more, a)
  {
    Disjoint(os, more);
  }

  lemma Disjoint(a: seq<OID>, b: seq<OID>)
    requires NoDup(a) && NoDup(b) && forall o :: o in a ==> o !in b
    ensures NoDup(a + b)
  {
    forall i, j | 0 <= i < j < |a + b| ensures (a + b)[i] != (a + b)[j] {
      assert (i < |a| ==> a[i] in a) && (j >= |a| ==> (a + b)[j] == b[j - |a|] && b[j - |a|] in b);
    }
  }

  lemma ToldTrans(a: ProcessTable, l: seq<Record>, b: ProcessTable, m: seq<Record>, c: ProcessTable, n: seq<Record>)
    requires Told(a, l, b, m) && Told(b, m, c, n)
    ensures Told(a, l, c, n)
  {
    hide Recorded, RecordsFor, Newly, Follows;
    var os :| Newly(a, b, os) && Recorded(m) == Recorded(l) + RecordsFor(os, a);
    var more :| Newly(b, c, more) && Recorded(n) == Recorded(m) + RecordsFor(more, b);
    NewlyTrans(a, b, c, os, more);
    FollowsTrans(a, b, c, OID(0, 0), false, 0);
    assert Newly(a, c, os + more);
    assert Recorded(n) == Recorded(l) + RecordsFor(os + more, a);
  }

  lemma WalkedBy(task: Task, ps: ProcessTable, qs: ProcessTable, line: seq<OID>, batch: seq<OID>)
    requires GuessedLine(task, ps, line) && batch == [OidOf(task)] + Climbed(task, ps) + Unwritten(line, ps)
    requires Lists(qs, [OidOf(task)] + Climbed(task, ps)) && Lists(qs, [OidOf(TopOf(task))] + line)
    requires forall o :: o in batch ==> o in qs && qs[o].written
    ensures Walked(task, ps, qs, line, Reversed(batch))
  {
    hide Lists, GuessedLine;
  }

  /** The stored line a walk goes on with: that of some cached process with the pid of the missing
      parent, nothing if there is none or the walk has ended before. */
  ghost predicate GuessedLine(task: Task, ps: ProcessTable, line: seq<OID>) {
    var top := TopOf(task);
    if Met(task, ps) || top.ptid == -1 then line == []
    else if line == [] then forall q :: q in ps ==> q.hpid != top.ptid
    else line[0].hpid == top.ptid && Line(ps, line[0], line)
  }

  lemma RootedCached(old_: ProcessTable, ps: ProcessTable, unborn: ProcessTable, t: Task)
    requires Stable(t, old_) && OidOf(t) in ps && OidOf(t) !in unborn && ps.Keys == old_.Keys
    requires ps[OidOf(t)].poid == old_[OidOf(t)].poid
    ensures Rooted(ps + unborn, old_.Keys, t)
  {
  }

  lemma RootedUnborn(old_: ProcessTable, ps: ProcessTable, unborn: ProcessTable, t: Task)
    requires Stable(t, old_) && OidOf(t) in unborn && Fathered(unborn[OidOf(t)], old_.Keys, t)
    ensures Rooted(ps + unborn, old_.Keys, t)
  {
  }

  /** The walk up the ancestors has come to `t`, the last of the batch. */
  ghost predicate Kinship(all: ProcessTable, old_: ProcessTable, t: Task, last: OID) {
    Kin(all) && Stable(t, old_) && Rooted(all, old_.Keys, t) && last == OidOf(t)
  }

  lemma KinshipUp(all: ProcessTable, old_: ProcessTable, t: Task, last: OID)
    requires Kinship(all, old_, t, last) && t.parent.Some?
    ensures var p := t.parent.value;
            && Kin(all) && last in all && all[last].poid == Some(OidOf(p))
            && Stable(p, old_) && !(p.cloneTs == 0 && p.pid == 0)
  {
  }

  lemma KinshipGuess(all: ProcessTable, old_: ProcessTable, top: Task, prt: Option<OID>)
    requires Kinship(all, old_, top, OidOf(top)) && top.parent.None? && top.ptid != -1
    requires prt.Some? ==> prt.value in old_ && prt.value.hpid == top.ptid
    ensures Kin(all) && OidOf(top) in all && (prt.Some? ==> all[OidOf(top)].poid == prt)
  {
  }

  lemma KinSame(ps: ProcessTable, qs: ProcessTable)
    requires ps.Keys == qs.Keys
    requires forall o :: o in ps ==> qs[o].children == ps[o].children && qs[o].poid == ps[o].poid
    ensures Kin(ps) ==> Kin(qs)
  {
  }

  lemma KinLinks(ps: ProcessTable, qs: ProcessTable)
    requires SameLinks(ps, qs)
    ensures Kin(ps) ==> Kin(qs)
  {
  }

  /** A process lists a child that names it as its parent. */
  lemma KinAdopt(all: ProcessTable, key: OID, child: OID, p: ProcessObj)
    requires Kin(all) && child in all && all[child].poid == Some(key)
    requires p.children == (if key in all then all[key].children else {}) + {child}
    requires key in all ==> p.poid == all[key].poid
    ensures Kin(all[key := p])
  {
  }

  lemma KinNew(all: ProcessTable, key: OID, p: ProcessObj)
    requires Kin(all) && key !in all && p.children == {}
    ensures Kin(all[key := p])
  {
  }

  function Reversed(s: seq<OID>): (r: seq<OID>)
    ensures |r| == |s| && (forall q :: q in r <==> q in s) && forall i :: 0 <= i < |s| ==> r[i] == s[|s| - 1 - i]
  {
    var r := seq(|s|, i requires 0 <= i < |s| => s[|s| - 1 - i]);
    assert forall i :: 0 <= i < |s| ==> r[|s| - 1 - i] == s[i];
    r
  }

  lemma Assoc<T>(a: seq<T>, b: seq<T>, c: seq<T>)
    ensures a + b + c == a + (b + c)
  {
  }

  lemma ReversedFrom(s: seq<OID>, i: nat)
    requires i < |s|
    ensures Reversed(s[i..]) == Reversed(s[i + 1..]) + [s[i]]
  {
    assert s[i..][1..] == s[i + 1..];
  }

  /** The processes waiting for deletion have no flows. */
  ghost predicate Doomed(queue: seq<OIDObj>, procs: ProcessTable) {
    forall e :: e in queue && e.oid in procs ==> procs[e.oid].table == map[]
  }

  /** A snapshot of the tables that have to agree, with the trace and the flows kept out of it by
      the read mode; `tidy` tells whether the events keep the parents of cached processes stable. */
  datatype World = World(log: seq<Record>, files: FileTable, containers: ContainerTable,
                         procs: ProcessTable, flows: FlowHeap, nextId: FlowId,
                         pfSet: seq<Entry<OID>>, queue: seq<OIDObj>, hushed: seq<DataFlow>, tidy: bool)

  /** The agreements that do not depend on what the current segment declares; flows in
      `pending` are out of their tables but not deleted yet. */
  ghost predicate Standing(w: World, rank: OID -> nat, pending: set<FlowId>) {
    && Closed(w.log)
    && ContainerRefs(w.procs, w.containers)
    && Ranked(w.procs, rank)
    && PfIndexed(w.pfSet, w.procs)
    && FileRefs(w.files, w.flows)
    && (forall id :: id in w.flows ==> id < w.nextId)
    && Doomed(w.queue, w.procs)
    && Homed(w.procs, w.flows, pending)
    && Honest(w.flows, w.procs)
    && (w.tidy ==> Kin(w.procs))
  }

  /** All agreements: what is marked written is declared in the current segment. */
  ghost predicate Consistent(w: World, rank: OID -> nat, pending: set<FlowId>) {
    && Standing(w, rank, pending)
    && FilesWritten(w.files, w.log)
    && ProcsWritten(w.procs, w.log)
  }

  lemma ConsistentParts(w: World, rank: OID -> nat)
    requires Consistent(w, rank, {})
    ensures Closed(w.log) && ContainerRefs(w.procs, w.containers) && Ranked(w.procs, rank)
    ensures ProcsWritten(w.procs, w.log) && (w.tidy ==> Kin(w.procs))
  {
  }

  /** The same processes with the same flows and the same parents; only marks, container ids,
      states and children may differ. */
  ghost predicate SameButMarks(ps: ProcessTable, qs: ProcessTable) {
    && ps.Keys == qs.Keys
    && forall o :: o in ps ==>
         && qs[o].table == ps[o].table && qs[o].pfo == ps[o].pfo && qs[o].poid == ps[o].poid
         && qs[o].written == ps[o].written && ps[o].children <= qs[o].children
  }

  /** New process objects that are not in the table yet. */
  ghost predicate Unborn(unborn: ProcessTable, rank: OID -> nat) {
    && Ranked(unborn, rank)
    && forall o :: o in unborn ==>
         !unborn[o].written && unborn[o].table == map[] && unborn[o].pfo.None?
  }

  ghost predicate Descending(batch: seq<OID>, rank: OID -> nat) {
    forall i, j :: 0 <= i < j < |batch| ==> rank(batch[i]) > rank(batch[j])
  }

  /** What the walk up the ancestors has collected: `batch` lists, child first, the processes
      to be written, which are unwritten table entries or unborn objects. */
  ghost predicate Gathered(old_: ProcessTable, ps: ProcessTable, unborn: ProcessTable,
                           batch: seq<OID>, rank: OID -> nat)
  {
    && SameButMarks(old_, ps)
    && Unborn(unborn, rank) && unborn.Keys !! ps.Keys
    && batch != [] && Descending(batch, rank)
    && (forall o :: o in unborn ==> o in batch)
    && (forall o :: o in batch ==> (o in ps && !ps[o].written) || o in unborn)
  }

  lemma GatheredFacts(old_: ProcessTable, ps: ProcessTable, unborn: ProcessTable, batch: seq<OID>, rank: OID -> nat)
    requires Gathered(old_, ps, unborn, batch, rank)
    ensures batch != [] && Descending(batch, rank) && unborn.Keys !! ps.Keys && ps.Keys == old_.Keys
    ensures forall o :: o in ps ==> ps[o].poid == old_[o].poid && ps[o].written == old_[o].written
  {
  }

  function AddChild(ps: ProcessTable, o: OID, child: OID): ProcessTable
    requires o in ps
  {
    ps[o := ps[o].(children := ps[o].children + {child})]
  }

  /** The next ancestor joins the batch as an unborn object. */
  lemma GatherUnborn(old_: ProcessTable, ps: ProcessTable, unborn: ProcessTable, batch: seq<OID>,
                     rank: OID -> nat, key: OID, p: ProcessObj)
    requires Gathered(old_, ps, unborn, batch, rank)
    requires key !in ps && rank(key) < rank(batch[|batch| - 1])
    requires !p.written && p.table == map[] && p.pfo.None?
    requires p.poid.Some? ==> rank(p.poid.value) < rank(key)
    ensures key !in unborn
    ensures Gathered(old_, ps, unborn[key := p], batch + [key], rank)
  {
    forall o | o in batch ensures rank(o) >= rank(batch[|batch| - 1]) {
      var i :| 0 <= i < |batch| && batch[i] == o;
    }
  }

  /** The next ancestor joins the batch from the table. */
  lemma GatherCached(old_: ProcessTable, ps: ProcessTable, unborn: ProcessTable, batch: seq<OID>,
                     rank: OID -> nat, key: OID, p: ProcessObj)
    requires Gathered(old_, ps, unborn, batch, rank)
    requires key in ps && !ps[key].written && rank(key) < rank(batch[|batch| - 1])
    requires !p.written && p.table == ps[key].table && p.pfo == ps[key].pfo && p.poid == ps[key].poid
    requires ps[key].children <= p.children
    ensures Gathered(old_, ps[key := p], unborn, batch + [key], rank)
  {
  }

  /** A cached process outside the batch gains a child. */
  lemma GatherTouch(old_: ProcessTable, ps: ProcessTable, unborn: ProcessTable, batch: seq<OID>,
                    rank: OID -> nat, key: OID, p: ProcessObj)
    requires Gathered(old_, ps, unborn, batch, rank) && key in ps
    requires p == ps[key].(children := p.children) && ps[key].children <= p.children
    ensures Gathered(old_, ps[key := p], unborn, batch, rank)
  {
  }

  lemma TouchRefs(ps: ProcessTable, unborn: ProcessTable, o: OID, p: ProcessObj, cs: ContainerTable)
    requires o in ps && o !in unborn && p.containerId == ps[o].containerId
    requires ContainerRefs(ps + unborn, cs)
    ensures ContainerRefs(ps[o := p] + unborn, cs)
  {
    UpdateInUnion(ps, unborn, o, p);
    ContainerRefsSame(ps + unborn, (ps + unborn)[o := p], cs, cs);
  }

  ghost predicate Settled(old_: ProcessTable, ps: ProcessTable, rank: OID -> nat) {
    && KeepsFlows(old_, ps) && Ranked(ps, rank)
    && (forall o :: o in old_ ==> ps[o].poid == old_[o].poid && (old_[o].written ==> ps[o].written))
  }

  lemma SettledRefl(ps: ProcessTable, rank: OID -> nat)
    requires Ranked(ps, rank)
    ensures Settled(ps, ps, rank)
  {
  }

  lemma SettledLine(ps: ProcessTable, qs: ProcessTable, o: OID, line: seq<OID>, batch: seq<OID>, rank: OID -> nat)
    requires Settled(ps, qs, rank) && qs.Keys == ps.Keys && Line(ps, o, line)
    requires forall q :: q in line ==> ps[q].written || q in batch
    requires forall j :: 0 <= j < |batch| ==> batch[j] in qs && qs[batch[j]].written
    ensures Line(qs, o, line) && forall q :: q in line ==> qs[q].written
  {
  }

  lemma StillWritten(ps: ProcessTable, qs: ProcessTable, log: seq<Record>, log': seq<Record>)
    requires ProcsWritten(ps, log) && AddsEntities(log, log') && qs.Keys == ps.Keys
    requires forall o :: o in qs ==> qs[o].written == ps[o].written
    ensures ProcsWritten(qs, log')
  {
  }

  lemma SettledFacts(old_: ProcessTable, ps: ProcessTable, rank: OID -> nat)
    requires Settled(old_, ps, rank)
    ensures Ranked(ps, rank)
  {
  }

  lemma SettledStep(old_: ProcessTable, ps: ProcessTable, unborn: ProcessTable, o: OID, rank: OID -> nat)
    requires Settled(old_, ps, rank) && Unborn(unborn, rank) && unborn.Keys !! ps.Keys
    requires o in ps || o in unborn
    ensures var p := if o in unborn then unborn[o] else ps[o];
            Settled(old_, ps[o := p.(written := true)], rank)
  {
  }

  /** The batch from position `i` on is in the table and written; the rest is as gathered. */
  ghost predicate Committing(old_: ProcessTable, ps: ProcessTable, unborn: ProcessTable,
                             batch: seq<OID>, i: nat, rank: OID -> nat)
    requires i <= |batch|
  {
    && Settled(old_, ps, rank)
    && Unborn(unborn, rank) && unborn.Keys !! ps.Keys && Descending(batch, rank)
    && (forall o :: o in unborn ==> o in batch[..i])
    && (forall o :: o in batch[..i] ==> o in ps || o in unborn)
    && (forall o :: o in batch[i..] ==> o in ps && ps[o].written)
  }

  lemma CommitStart(old_: ProcessTable, ps: ProcessTable, unborn: ProcessTable, batch: seq<OID>,
                    rank: OID -> nat)
    requires Gathered(old_, ps, unborn, batch, rank) && Ranked(old_, rank)
    ensures Committing(old_, ps, unborn, batch, |batch|, rank)
    ensures ps.Keys + unborn.Keys == old_.Keys + unborn.Keys
    ensures Reversed(batch[|batch|..]) == []
  {
    assert batch[..|batch|] == batch && batch[|batch|..] == [];
  }

  lemma CommitEnd(old_: ProcessTable, ps: ProcessTable, unborn: ProcessTable, batch: seq<OID>,
                  rank: OID -> nat)
    requires Committing(old_, ps, unborn, batch, 0, rank)
    ensures unborn == map[] && ps + unborn == ps && ps.Keys + unborn.Keys == ps.Keys
    ensures forall o :: o in batch ==> o in ps && ps[o].written
    ensures batch[0..] == batch
  {
    assert batch[..0] == [] && batch[0..] == batch;
    assert unborn.Keys == {};
  }

  lemma UnbornLess(unborn: ProcessTable, o: OID, rank: OID -> nat)
    requires Unborn(unborn, rank)
    ensures Unborn(unborn - {o}, rank)
  {
  }

  lemma CommitStep(old_: ProcessTable, ps: ProcessTable, unborn: ProcessTable, batch: seq<OID>,
                   i: nat, rank: OID -> nat)
    requires i < |batch| && Committing(old_, ps, unborn, batch, i + 1, rank)
    ensures batch[i] in ps || batch[i] in unborn
    ensures var o := batch[i];
            var p := if o in unborn then unborn[o] else ps[o];
            Committing(old_, ps[o := p.(written := true)], unborn - {o}, batch, i, rank)
  {
    hide Settled, Unborn, Descending;
    UnbornLess(unborn, batch[i], rank);
    BatchStep(batch, i, rank);
    SettledStep(old_, ps, unborn, batch[i], rank);
  }

  lemma BatchStep(batch: seq<OID>, i: nat, rank: OID -> nat)
    requires i < |batch| && Descending(batch, rank)
    ensures batch[i] !in batch[..i]
    ensures forall q :: q in batch[..i + 1] <==> q in batch[..i] || q == batch[i]
    ensures forall q :: q in batch[i..] <==> q == batch[i] || q in batch[i + 1..]
  {
    assert batch[..i + 1] == batch[..i] + [batch[i]];
    assert batch[i..] == [batch[i]] + batch[i + 1..];
  }

  lemma CommitLinks(ps: ProcessTable, unborn: ProcessTable, o: OID)
    requires o in ps || o in unborn
    ensures var p := if o in unborn then unborn[o] else ps[o];
            SameLinks(ps + unborn, ps[o := p.(written := true)] + (unborn - {o}))
  {
  }

  lemma CommitRefs(ps: ProcessTable, unborn: ProcessTable, o: OID, containers: ContainerTable)
    requires ContainerRefs(ps + unborn, containers) && (o in ps || o in unborn)
    ensures var p := if o in unborn then unborn[o] else ps[o];
            ContainerRefs(ps[o := p.(written := true)] + (unborn - {o}), containers)
  {
    var p := if o in unborn then unborn[o] else ps[o];
    var qs := ps[o := p.(written := true)] + (unborn - {o});
    assert qs.Keys == (ps + unborn).Keys;
    ContainerRefsSame(ps + unborn, qs, containers, containers);
  }

  /** All agreements survive the writing of a batch. */
  lemma SettledKeeps(w: World, w': World, rank: OID -> nat)
    requires Consistent(w, rank, {}) && Settled(w.procs, w'.procs, rank)
    requires w' == w.(log := w'.log, procs := w'.procs, containers := w'.containers)
    requires AddsEntities(w.log, w'.log) && ProcsWritten(w'.procs, w'.log)
    requires ContainerRefs(w'.procs, w'.containers) && (w.tidy ==> Kin(w'.procs))
    ensures Consistent(w', rank, {})
  {
    HomedKeeps(w.procs, w'.procs, w.flows, {});
    PfIndexedSame(w.pfSet, w.procs, w'.procs);
  }

  /** Exactly the children that went have been forgotten by their parents. */
  ghost predicate Forgets(ps: ProcessTable, qs: ProcessTable) {
    forall o, c :: o in ps && o in qs ==>
      (c in qs[o].children <==> c in ps[o].children && !(c in ps && c !in qs && ps[c].poid == Some(o)))
  }

  lemma ForgetsTrans(ps: ProcessTable, qs: ProcessTable, rs: ProcessTable)
    requires Forgets(ps, qs) && Forgets(qs, rs) && rs.Keys <= qs.Keys <= ps.Keys
    requires forall o :: o in qs ==> qs[o].poid == ps[o].poid
    ensures Forgets(ps, rs)
  {
    forall o, c | o in ps && o in rs
      ensures c in rs[o].children <==> c in ps[o].children && !(c in ps && c !in rs && ps[c].poid == Some(o))
    {
      assert o in qs;
      assert c in qs[o].children <==> c in ps[o].children && !(c in ps && c !in qs && ps[c].poid == Some(o));
      assert c in rs[o].children <==> c in qs[o].children && !(c in qs && c !in rs && qs[c].poid == Some(o));
    }
  }

  /** `qs` lacks processes of `ps` that had no data flows; the others have forgotten those that were their
      children, and are otherwise as they were. */
  ghost predicate Shrinks(ps: ProcessTable, qs: ProcessTable) {
    && (forall o :: o in qs ==> o in ps && qs[o].table == ps[o].table && qs[o].poid == ps[o].poid
                                && qs[o].pfo == ps[o].pfo && qs[o].written == ps[o].written
                                && GuiseOf(qs[o]) == GuiseOf(ps[o]))
    && Forgets(ps, qs)
    && (forall o :: o in ps && o !in qs ==> ps[o].table == map[])
  }

  /** All agreements survive the loss of processes without data flows. */
  lemma ShrinksKeeps(w: World, w': World, rank: OID -> nat)
    requires Consistent(w, rank, {}) && Shrinks(w.procs, w'.procs)
    requires w' == w.(procs := w'.procs, containers := w'.containers, pfSet := w'.pfSet)
    requires ContainerRefs(w'.procs, w'.containers) && PfIndexed(w'.pfSet, w'.procs) && (w.tidy ==> Kin(w'.procs))
    ensures Consistent(w', rank, {})
  {
    var ps, qs, flows := w.procs, w'.procs, w.flows;
    forall id | id in flows ensures InTable(qs, flows[id], id) {
      assert InTable(ps, flows[id], id);
    }
    assert Homed(qs, flows, {});
  }

  /** What deletions have made of the queue `q0` and the table `ps`: only processes queued for at
      least a second are gone, and whatever left the queue is gone. */
  ghost predicate DrainedTo(q0: seq<OIDObj>, ps: ProcessTable, q: seq<OIDObj>, qs: ProcessTable, now: int) {
    && Shrinks(ps, qs)
    && (forall o :: o in ps && o !in qs ==> exists e :: e in q0 && e.oid == o && now - e.exportTime >= 1)
    && (forall e :: e in q ==> e in q0)
    && (forall e :: e in q0 && e !in q ==> e.oid !in qs && now - e.exportTime >= 1)
  }

  predicate Overdue(e: OIDObj, now: int) { now - e.exportTime >= 1 }

  /** What one pass over the queue takes: every second entry, up to the first it comes to that is
      not overdue. */
  function Taken(q: seq<OIDObj>, now: int): seq<OIDObj> {
    if q == [] || !Overdue(q[0], now) then []
    else [q[0]] + if |q| == 1 then [] else Taken(q[2..], now)
  }

  /** What one pass leaves. */
  function Skimmed(q: seq<OIDObj>, now: int): seq<OIDObj> {
    if q == [] || !Overdue(q[0], now) then q
    else if |q| == 1 then [] else [q[1]] + Skimmed(q[2..], now)
  }

  /** The pass takes the last entry, and so leaves its iterator past the end. */
  predicate RunsOff(q: seq<OIDObj>, now: int) {
    q != [] && Overdue(q[0], now) && (|q| == 1 || RunsOff(q[2..], now))
  }

  /** The passes of one round of deletions: another one follows only when the last ran off. */
  ghost predicate Passes(q: seq<OIDObj>, q': seq<OIDObj>, gone: seq<OIDObj>, now: int)
    decreases |q|
  {
    || (q' == Skimmed(q, now) && gone == Taken(q, now))
    || (&& RunsOff(q, now) && Taken(q, now) <= gone && |Skimmed(q, now)| < |q|
        && Passes(Skimmed(q, now), q', gone[|Taken(q, now)|..], now))
  }

  function Oids(es: seq<OIDObj>): set<OID> { set e | e in es :: e.oid }

  /** An overdue head of the queue always goes. */
  lemma HeadIsTaken(q: seq<OIDObj>, q': seq<OIDObj>, gone: seq<OIDObj>, now: int)
    requires Passes(q, q', gone, now) && q != [] && Overdue(q[0], now)
    ensures gone != [] && gone[0] == q[0]
  {
    assert Taken(q, now)[0] == q[0];
  }

  lemma {:induction false} RunsOffTakes(q: seq<OIDObj>, now: int)
    ensures |Skimmed(q, now)| + |Taken(q, now)| == |q|
    ensures RunsOff(q, now) ==> Taken(q, now) != []
  {
    if q != [] && Overdue(q[0], now) && |q| > 1 { RunsOffTakes(q[2..], now); }
  }

  /** One pass under way, at position `i` of the queue `q`: it started from `q1`, and has taken `gone`. */
  ghost predicate MidPass(q1: seq<OIDObj>, q: seq<OIDObj>, i: nat, gone: seq<OIDObj>, now: int) {
    && i <= |q| && q[..i] + Skimmed(q[i..], now) == Skimmed(q1, now)
    && gone + Taken(q[i..], now) == Taken(q1, now)
    && (q[i..] != [] ==> RunsOff(q[i..], now) == RunsOff(q1, now))
  }

  lemma PassStarts(q: seq<OIDObj>, now: int)
    ensures MidPass(q, q, 0, [], now)
  {
    assert q[0..] == q && q[..0] == [];
  }

  /** The pass takes the entry at `i` and goes on behind the next one. */
  lemma PassGoesOn(q1: seq<OIDObj>, q: seq<OIDObj>, i: nat, gone: seq<OIDObj>, now: int)
    requires MidPass(q1, q, i, gone, now) && i + 1 < |q| && Overdue(q[i], now)
    ensures MidPass(q1, q[..i] + q[i + 1..], i + 1, gone + [q[i]], now)
  {
    hide Overdue;
    var rest, tail := q[..i] + q[i + 1..], q[i..];
    assert tail[0] == q[i] && rest[..i + 1] == q[..i] + [tail[1]] && rest[i + 1..] == tail[2..];
    OnePast(tail, now);
    Prepend(q[..i], tail[1], Skimmed(tail[2..], now));
    Prepend(gone, q[i], Taken(tail[2..], now));
  }

  lemma OnePast(q: seq<OIDObj>, now: int)
    requires |q| > 1 && Overdue(q[0], now)
    ensures Skimmed(q, now) == [q[1]] + Skimmed(q[2..], now) && Taken(q, now) == [q[0]] + Taken(q[2..], now)
    ensures RunsOff(q, now) == RunsOff(q[2..], now)
  {
  }

  lemma Prepend(a: seq<OIDObj>, e: OIDObj, b: seq<OIDObj>)
    ensures a + ([e] + b) == a + [e] + b
  {
  }

  /** The pass takes the last entry. */
  lemma PassRunsOff(q1: seq<OIDObj>, q: seq<OIDObj>, i: nat, gone: seq<OIDObj>, now: int)
    requires MidPass(q1, q, i, gone, now) && i + 1 == |q| && Overdue(q[i], now)
    ensures q[..i] + q[i + 1..] == Skimmed(q1, now) && gone + [q[i]] == Taken(q1, now) && RunsOff(q1, now)
    ensures MidPass(q1, q[..i] + q[i + 1..], i, gone + [q[i]], now)
  {
    var rest := q[..i] + q[i + 1..];
    assert q[i..] == [q[i]] && rest == q[..i] && rest[..i] == rest && rest[i..] == [];
  }

  /** The pass stops at an entry that is not overdue, or past the end. */
  lemma PassStops(q1: seq<OIDObj>, q: seq<OIDObj>, i: nat, gone: seq<OIDObj>, now: int)
    requires MidPass(q1, q, i, gone, now) && (i < |q| ==> !Overdue(q[i], now))
    ensures q == Skimmed(q1, now) && gone == Taken(q1, now)
  {
    assert i < |q| ==> q[i..][0] == q[i];
    assert q == q[..i] + q[i..];
  }

  lemma PassEnds(q0: seq<OIDObj>, q1: seq<OIDObj>, before: seq<OIDObj>, q: seq<OIDObj>, i: nat, gone: seq<OIDObj>,
                 now: int)
    requires LeadsTo(q0, q1, before, now) && MidPass(q1, q, i, gone, now)
    requires i < |q| ==> now - q[i].exportTime < 1
    ensures Passes(q0, q, before + gone, now)
  {
    PassStops(q1, q, i, gone, now);
  }

  /** Passes from `q1` on, after earlier ones that took `before`, make a round from `q0`. */
  ghost predicate LeadsTo(q0: seq<OIDObj>, q1: seq<OIDObj>, before: seq<OIDObj>, now: int) {
    forall q, more :: Passes(q1, q, more, now) ==> Passes(q0, q, before + more, now)
  }

  lemma NoneBefore(q0: seq<OIDObj>, now: int)
    ensures LeadsTo(q0, q0, [], now) && Oids([] + []) == {}
  {
    hide Passes;
    forall q, more | Passes(q0, q, more, now) ensures Passes(q0, q, [] + more, now) {
      assert [] + more == more;
    }
  }

  lemma OneMore(before: seq<OIDObj>, gone: seq<OIDObj>, e: OIDObj)
    ensures Oids(before + (gone + [e])) == Oids(before + gone) + {e.oid}
    ensures before + (gone + [e]) + [] == before + (gone + [e])
  {
    var a, b := before + gone, before + (gone + [e]);
    assert b == a + [e];
    assert e in b && forall x :: x in b <==> x in a || x == e;
  }

  /** A pass that ran off may be followed by another. */
  lemma PassesTwice(q1: seq<OIDObj>, q: seq<OIDObj>, gone: seq<OIDObj>, now: int)
    requires RunsOff(q1, now) && Passes(Skimmed(q1, now), q, gone, now)
    ensures Passes(q1, q, Taken(q1, now) + gone, now)
  {
    hide Skimmed, Taken, RunsOff;
    RunsOffTakes(q1, now);
    assert (Taken(q1, now) + gone)[|Taken(q1, now)|..] == gone;
  }

  lemma PassAgain(q0: seq<OIDObj>, q1: seq<OIDObj>, before: seq<OIDObj>, now: int)
    requires RunsOff(q1, now) && LeadsTo(q0, q1, before, now)
    ensures LeadsTo(q0, Skimmed(q1, now), before + Taken(q1, now), now)
  {
    hide Passes, Skimmed, Taken, RunsOff;
    forall q, gone | Passes(Skimmed(q1, now), q, gone, now)
      ensures Passes(q0, q, before + Taken(q1, now) + gone, now)
    {
      PassesTwice(q1, q, gone, now);
      assert before + (Taken(q1, now) + gone) == before + Taken(q1, now) + gone;
    }
  }

  lemma DrainRefl(q: seq<OIDObj>, ps: ProcessTable, now: int)
    ensures DrainedTo(q, ps, q, ps, now)
  {
  }

  lemma DrainStep(q0: seq<OIDObj>, ps: ProcessTable, q: seq<OIDObj>, qs: ProcessTable,
                  q': seq<OIDObj>, qs': ProcessTable, e: OIDObj, now: int)
    requires DrainedTo(q0, ps, q, qs, now) && e in q && now - e.exportTime >= 1
    requires Shrinks(qs, qs') && qs'.Keys == qs.Keys - {e.oid}
    requires forall x :: x in q' ==> x in q
    requires forall x :: x in q ==> x in q' || x == e
    ensures DrainedTo(q0, ps, q', qs', now)
  {
    hide Shrinks;
    ShrinksTrans(ps, qs, qs');
  }

  lemma OneLess(q: seq<OIDObj>, i: nat)
    requires i < |q|
    ensures forall x :: x in q[..i] + q[i + 1..] ==> x in q
    ensures forall x :: x in q ==> x in q[..i] + q[i + 1..] || x == q[i]
  {
    assert q == q[..i] + [q[i]] + q[i + 1..];
  }

  lemma ShrinksRefl(ps: ProcessTable)
    ensures Shrinks(ps, ps)
  {
  }

  lemma ShrinksTrans(ps: ProcessTable, qs: ProcessTable, rs: ProcessTable)
    requires Shrinks(ps, qs) && Shrinks(qs, rs)
    ensures Shrinks(ps, rs) && rs.Keys <= qs.Keys <= ps.Keys
  {
    hide Forgets;
    ForgetsTrans(ps, qs, rs);
  }

  /** The agreements survive a pruning, and no process flow is lost. */
  lemma ThinnedKeeps(w: World, w': World, rank: OID -> nat)
    requires Standing(w, rank, {}) && Thinned(w.procs, w'.procs, {})
    requires w' == w.(procs := w'.procs, containers := w'.containers)
    requires ContainerRefs(w'.procs, w'.containers) && (w.tidy ==> Kin(w'.procs))
    ensures Standing(w', rank, {}) && LiveProc(w'.procs) == LiveProc(w.procs)
  {
    hide LiveProc;
    ThinnedHomed(w.procs, w'.procs, w.flows);
    PfIndexedSame(w.pfSet, w.procs, w'.procs);
    LiveProcSame(w.procs, w'.procs);
  }

  /** The file and container caches of a new segment: files with a count and containers that a process
      is in are left, to be declared again; nothing else about them has changed. */
  ghost predicate CachesCleared(x: World, y: World) {
    && y.files == (map k | k in x.files && x.files[k].refs > 0 :: x.files[k].(written := false))
    && (forall c :: c in y.containers <==>
          c in x.containers && exists o :: o in y.procs && y.procs[o].containerId == Some(c))
    && forall c :: c in y.containers ==>
         var d := x.containers[c];
         y.containers[c] == ContainerObj(false, d.incomplete, y.containers[c].refs, d.name, d.image)
  }

  /** The caches are all that matters. */
  lemma CachesClearedFrom(x: World, m: World, y: World)
    requires CachesCleared(m, y) && m.files == x.files && m.containers == x.containers
    ensures CachesCleared(x, y)
  {
  }

  lemma CachesClear(x: World, m: World, y: World)
    requires Recounted(x.containers, m.containers) && m.files == x.files && ContainerRefs(m.procs, m.containers)
    requires y.procs == m.procs
    requires y.containers == map c | c in m.containers && m.containers[c].refs > 0 :: m.containers[c].(written := false)
    requires y.files == map k | k in m.files && m.files[k].refs > 0 :: m.files[k].(written := false)
    ensures CachesCleared(x, y)
  {
    forall c | c in m.containers
      ensures m.containers[c].refs > 0 <==> exists o :: o in m.procs && m.procs[o].containerId == Some(c)
    {
      assert RefsOf(m.containers, c) == |Named(m.procs, c)|;
      assert forall o :: o in m.procs && m.procs[o].containerId == Some(c) ==> o in Named(m.procs, c);
      if m.containers[c].refs > 0 {
        var o :| o in Named(m.procs, c);
      }
    }
  }

  lemma ThinnedHomed(ps: ProcessTable, qs: ProcessTable, flows: FlowHeap)
    requires Homed(ps, flows, {}) && Thinned(ps, qs, {})
    ensures Homed(qs, flows, {})
  {
    forall id | id in flows ensures InTable(qs, flows[id], id) {
      assert InTable(ps, flows[id], id);
    }
  }

  /** The table without `o`, whose parent forgets it. */
  function Orphaned(procs: ProcessTable, o: OID): ProcessTable
    requires o in procs
  {
    var poid := procs[o].poid;
    if poid.Some? && poid.value in procs
    then procs[poid.value := procs[poid.value].(children := procs[poid.value].children - {o})]
    else procs
  }

  /** Dropping an orphaned process whose process flow is gone. */
  lemma OrphanGone(ps: ProcessTable, mid: ProcessTable, o: OID, cs: ContainerTable, ds: ContainerTable,
                   pfSet: seq<Entry<OID>>)
    requires o in ps && ps[o].table == map[] && mid.Keys == ps.Keys && mid[o].pfo.None?
    requires mid[o].containerId == ps[o].containerId
    requires mid == Orphaned(ps, o) || mid == Orphaned(ps, o)[o := Orphaned(ps, o)[o].(pfo := None)]
    requires ContainerRefs(ps, cs) && PfIndexed(pfSet, mid)
    requires forall c :: RefsOf(ds, c) + One(ps[o].containerId, c) == RefsOf(cs, c)
    ensures Shrinks(ps, mid - {o}) && (mid - {o}).Keys == ps.Keys - {o}
    ensures ContainerRefs(mid - {o}, ds) && PfIndexed(pfSet, mid - {o})
    ensures Kin(ps) ==> Kin(mid - {o})
  {
    hide Kin, Shrinks, ContainerRefs, PfIndexed;
    PfIndexedSame(pfSet, mid, mid - {o});
    ContainerRefsSame(ps, mid, cs, cs);
    ContainerRefsDrop(mid, o, cs, ds);
    OrphanShrinks(ps, mid, o);
    OrphanKin(ps, o);
    KinSame(Orphaned(ps, o) - {o}, mid - {o});
  }

  lemma OrphanShrinks(ps: ProcessTable, mid: ProcessTable, o: OID)
    requires o in ps && ps[o].table == map[] && mid.Keys == ps.Keys
    requires mid == Orphaned(ps, o) || mid == Orphaned(ps, o)[o := Orphaned(ps, o)[o].(pfo := None)]
    ensures Shrinks(ps, mid - {o})
  {
    assert forall q :: q in mid && q != o ==> mid[q] == ps[q].(children := mid[q].children);
  }

  /** Only its parent can list a process, so once the parent forgets it, nobody does. */
  lemma OrphanKin(ps: ProcessTable, o: OID)
    requires o in ps
    ensures Kin(ps) ==> Kin(Orphaned(ps, o) - {o})
  {
  }

  /** What deleting a process does to the books. */
  lemma DeleteBooks(w: World, w': World, o: OID, rank: OID -> nat)
    requires Consistent(w, rank, {}) && o in w.procs && w.procs[o].table == map[]
    requires w' == w.(procs := w'.procs, containers := w'.containers, pfSet := w'.pfSet)
    requires w'.procs.Keys == w.procs.Keys - {o} && Shrinks(w.procs, w'.procs)
    requires ContainerRefs(w'.procs, w'.containers) && PfIndexed(w'.pfSet, w'.procs) && (w.tidy ==> Kin(w'.procs))
    ensures Consistent(w', rank, {})
    ensures Plus(PfCount(w.procs[o].pfo), LiveProc(w'.procs)) == LiveProc(w.procs)
  {
    ShrinksKeeps(w, w', rank);
    TakeOutProc(w.procs, o);
    LiveProcSame(w.procs - {o}, w'.procs);
  }

  /** In the order of writing, ranks increase; so a process comes after its parent. */
  ghost predicate AncestorsFirst(emitted: seq<OID>, procs: ProcessTable, rank: OID -> nat) {
    && (forall o :: o in emitted ==> o in procs)
    && (forall i, j | 0 <= i < j < |emitted| :: rank(emitted[i]) < rank(emitted[j]))
    && (forall i, j | 0 <= i < |emitted| && 0 <= j < |emitted| ::
          procs[emitted[i]].poid == Some(emitted[j]) ==> j < i)
  }

  lemma EmittedOrder(batch: seq<OID>, procs: ProcessTable, rank: OID -> nat)
    requires Descending(batch, rank) && Ranked(procs, rank)
    requires forall o :: o in batch ==> o in procs
    ensures AncestorsFirst(Reversed(batch), procs, rank)
  {
    var em := Reversed(batch);
    forall i, j | 0 <= i < j < |em| ensures rank(em[i]) < rank(em[j]) {
      var a, b := |batch| - 1 - j, |batch| - 1 - i;
      assert rank(batch[a]) > rank(batch[b]);
    }
  }

  /** Each process of the line is followed by its parent. */
  ghost predicate Linked(procs: ProcessTable, line: seq<OID>) {
    && (forall q :: q in line ==> q in procs)
    && (forall i :: 0 <= i < |line| - 1 ==> procs[line[i]].poid == Some(line[i + 1]))
  }

  /** `line` is `o` and all its ancestors in the table, up to the first that is missing. */
  ghost predicate Line(procs: ProcessTable, o: OID, line: seq<OID>) {
    && Linked(procs, line) && line != [] && line[0] == o
    && var top := procs[line[|line| - 1]].poid; top.None? || top.value !in procs
  }
}
