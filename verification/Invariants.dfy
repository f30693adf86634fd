/**
  The agreements the collector's tables keep with each other, and how each elementary
  change of one table carries them over.
 */
module Invariants {
  import opened Types
  import opened Trace
  import opened TimeSet

  type ProcessTable = map<OID, ProcessObj>
  type FlowHeap = map<FlowId, DataFlow>
  type FileTable = map<string, FileObj>
  type ContainerTable = map<string, ContainerObj>

  // ------------------------------------------------- flow tables and the heap

  /** No two live flow objects share a process and a key. */
  ghost predicate Unique(flows: FlowHeap) {
    forall a, b | a in flows && b in flows ::
      flows[a].rec.procOID == flows[b].rec.procOID && KeyOf(flows[a]) == KeyOf(flows[b]) ==> a == b
  }

  /** Every table entry is a live flow of that process under its own key. */
  ghost predicate EntriesLive(procs: ProcessTable, flows: FlowHeap, pending: set<FlowId>) {
    forall o, k :: o in procs && k in procs[o].table ==>
      && procs[o].table[k] in flows
      && procs[o].table[k] !in pending
      && flows[procs[o].table[k]].rec.procOID == o
      && KeyOf(flows[procs[o].table[k]]) == k
  }

  /** A live flow sits in the table of its process, under its own key. */
  predicate InTable(procs: ProcessTable, f: DataFlow, id: FlowId) {
    && f.rec.procOID in procs
    && KeyOf(f) in procs[f.rec.procOID].table
    && procs[f.rec.procOID].table[KeyOf(f)] == id
  }

  /** The per-process tables hold exactly the live flows, `pending` ones excepted. */
  ghost predicate Homed(procs: ProcessTable, flows: FlowHeap, pending: set<FlowId>) {
    && Unique(flows)
    && EntriesLive(procs, flows, pending)
    && forall id :: id in flows && id !in pending ==> InTable(procs, flows[id], id)
  }

  function WithTable(procs: ProcessTable, o: OID, t: map<FlowKey, FlowId>): ProcessTable
    requires o in procs
  {
    procs[o := procs[o].(table := t)]
  }

  lemma HomedInsert(procs: ProcessTable, flows: FlowHeap, o: OID, id: FlowId, f: DataFlow)
    requires Homed(procs, flows, {})
    requires o in procs && f.rec.procOID == o && id !in flows && KeyOf(f) !in procs[o].table
    ensures Homed(WithTable(procs, o, procs[o].table[KeyOf(f) := id]), flows[id := f], {})
  {
    hide KeyOf, Unique, EntriesLive, InTable;
    UniqueInsert(procs, flows, o, id, f);
    EntriesInsert(procs, flows, o, id, f);
    InTableInsert(procs, flows, o, id, f, WithTable(procs, o, procs[o].table[KeyOf(f) := id]), flows[id := f]);
  }

  lemma UniqueInsert(procs: ProcessTable, flows: FlowHeap, o: OID, id: FlowId, f: DataFlow)
    requires Homed(procs, flows, {}) && o in procs && f.rec.procOID == o && id !in flows && KeyOf(f) !in procs[o].table
    ensures Unique(flows[id := f])
  {
    hide KeyOf, EntriesLive;
    forall a | a in flows ensures flows[a].rec.procOID != o || KeyOf(flows[a]) != KeyOf(f) {
      assert InTable(procs, flows[a], a);
    }
  }

  lemma EntriesInsert(procs: ProcessTable, flows: FlowHeap, o: OID, id: FlowId, f: DataFlow)
    requires Homed(procs, flows, {}) && o in procs && f.rec.procOID == o && id !in flows
    ensures EntriesLive(WithTable(procs, o, procs[o].table[KeyOf(f) := id]), flows[id := f], {})
  {
    hide KeyOf, Unique;
  }

  lemma InTableInsert(procs: ProcessTable, flows: FlowHeap, o: OID, id: FlowId, f: DataFlow, procs': ProcessTable,
                      flows': FlowHeap)
    requires Homed(procs, flows, {}) && o in procs && f.rec.procOID == o && id !in flows && KeyOf(f) !in procs[o].table
    requires procs' == WithTable(procs, o, procs[o].table[KeyOf(f) := id]) && flows' == flows[id := f]
    ensures forall a :: a in flows' ==> InTable(procs', flows'[a], a)
  {
    hide KeyOf, Unique, EntriesLive;
    forall a | a in flows' ensures InTable(procs', flows'[a], a) {
      if a != id { assert InTable(procs, flows[a], a); }
    }
  }

  lemma HomedUpdate(procs: ProcessTable, flows: FlowHeap, pending: set<FlowId>, id: FlowId, f: DataFlow)
    requires Homed(procs, flows, pending)
    requires id in flows && f.rec.procOID == flows[id].rec.procOID && KeyOf(f) == KeyOf(flows[id])
    ensures Homed(procs, flows[id := f], pending)
  {
    var flows' := flows[id := f];
    forall a | a in flows' && a !in pending ensures InTable(procs, flows'[a], a) {
      assert InTable(procs, flows[a], a);
    }
  }

  /** Taking an entry out of its table leaves its flow pending. */
  lemma HomedUntable(procs: ProcessTable, flows: FlowHeap, pending: set<FlowId>, o: OID, k: FlowKey)
    requires Homed(procs, flows, pending)
    requires o in procs && k in procs[o].table
    ensures Homed(WithTable(procs, o, procs[o].table - {k}), flows, pending + {procs[o].table[k]})
  {
    var procs', pending' := WithTable(procs, o, procs[o].table - {k}), pending + {procs[o].table[k]};
    forall q, j | q in procs' && j in procs'[q].table
      ensures procs'[q].table[j] !in pending' && procs'[q].table[j] in flows
              && flows[procs'[q].table[j]].rec.procOID == q && KeyOf(flows[procs'[q].table[j]]) == j
    {
      assert j in procs[q].table && procs[q].table[j] == procs'[q].table[j];
    }
    forall a | a in flows && a !in pending' ensures InTable(procs', flows[a], a) {
      assert InTable(procs, flows[a], a);
    }
  }

  lemma HomedDelete(procs: ProcessTable, flows: FlowHeap, pending: set<FlowId>, id: FlowId)
    requires Homed(procs, flows, pending) && id in pending
    ensures Homed(procs, flows - {id}, pending - {id})
  {
    var flows' := flows - {id};
    forall a | a in flows' && a !in pending - {id} ensures InTable(procs, flows'[a], a) {
      assert InTable(procs, flows[a], a);
    }
  }

  /** Deleting a flow together with its table entry. */
  lemma HomedRemove(procs: ProcessTable, flows: FlowHeap, o: OID, k: FlowKey)
    requires Homed(procs, flows, {})
    requires o in procs && k in procs[o].table
    ensures Homed(WithTable(procs, o, procs[o].table - {k}), flows - {procs[o].table[k]}, {})
  {
    var id := procs[o].table[k];
    HomedUntable(procs, flows, {}, o, k);
    var procs' := WithTable(procs, o, procs[o].table - {k});
    assert {} + {id} == {id};
    HomedDelete(procs', flows, {id}, id);
    assert {id} - {id} == {};
  }

  /** `qs` has the processes of `ps` with the same tables and flows, and new ones without any. */
  ghost predicate KeepsFlows(ps: ProcessTable, qs: ProcessTable) {
    && (forall o :: o in ps ==> o in qs && qs[o].table == ps[o].table && qs[o].pfo == ps[o].pfo)
    && (forall o :: o in qs && o !in ps ==> qs[o].table == map[] && qs[o].pfo.None?)
  }

  lemma HomedKeeps(ps: ProcessTable, qs: ProcessTable, flows: FlowHeap, pending: set<FlowId>)
    requires Homed(ps, flows, pending) && KeepsFlows(ps, qs)
    ensures Homed(qs, flows, pending)
  {
    forall a | a in flows && a !in pending ensures InTable(qs, flows[a], a) {
      assert InTable(ps, flows[a], a);
    }
  }

  /** Dropping a process keeps every live flow in a table exactly when the process has none.
      This is the condition under which the deferred deletion of a process is safe. */
  lemma DropIsSafeIffFlowless(procs: ProcessTable, flows: FlowHeap, o: OID)
    requires Homed(procs, flows, {}) && o in procs
    ensures Homed(procs - {o}, flows, {}) <==> procs[o].table == map[]
  {
    if procs[o].table == map[] {
      var qs := procs - {o};
      forall a | a in flows ensures InTable(qs, flows[a], a) {
        assert InTable(procs, flows[a], a);
      }
    } else {
      var k :| k in procs[o].table;
      var id := procs[o].table[k];
      assert id in flows && !InTable(procs - {o}, flows[id], id);
    }
  }

  // ------------------------------------------------------ the data flow index

  /** The index holds exactly the live flows, once each, ordered by export time. */
  ghost predicate Indexed(index: seq<Entry<FlowId>>, flows: FlowHeap) {
    && Sorted(index) && Distinct(index) && Ids(index) == flows.Keys
    && forall e :: e in index && e.id in flows ==> e.time == flows[e.id].exportTime
  }

  lemma IndexedInsert(index: seq<Entry<FlowId>>, flows: FlowHeap, id: FlowId, f: DataFlow)
    requires Indexed(index, flows) && id !in flows
    ensures Indexed(Insert(index, Entry(f.exportTime, id)), flows[id := f])
  {
    hide Insert, Sorted, Distinct, Ids;
    var e := Entry(f.exportTime, id);
    InsertKeeps(index, e);
    InsertMembers(index, e);
    forall x | x in Insert(index, e) ensures x.id in flows[id := f] && x.time == flows[id := f][x.id].exportTime {
      if x != e {
        var i :| 0 <= i < |index| && index[i] == x;
        InIds(index, i);
      }
    }
  }

  lemma IndexedErase(index: seq<Entry<FlowId>>, flows: FlowHeap, i: nat)
    requires Indexed(index, flows) && i < |index|
    ensures index[i].id in flows
    ensures Indexed(EraseAt(index, i), flows - {index[i].id})
  {
    EraseKeeps(index, i);
    InIds(index, i);
  }

  lemma IndexedUpdate(index: seq<Entry<FlowId>>, flows: FlowHeap, id: FlowId, f: DataFlow)
    requires Indexed(index, flows) && id in flows && f.exportTime == flows[id].exportTime
    ensures Indexed(index, flows[id := f])
  {
  }

  lemma IndexedAll(index: seq<Entry<FlowId>>, flows: FlowHeap)
    requires Indexed(index, flows)
    ensures forall i :: 0 <= i < |index| ==> index[i].id in flows && index[i].time == flows[index[i].id].exportTime
    ensures forall id :: id in flows ==> exists i :: 0 <= i < |index| && index[i].id == id
  {
    forall i | 0 <= i < |index| ensures index[i].id in flows && index[i].time == flows[index[i].id].exportTime {
      InIds(index, i);
    }
  }

  // ------------------------------------------------------------ counting flows

  /** The live network flows, or the live file flows. */
  ghost function OfKind(flows: FlowHeap, net: bool): set<FlowId> {
    set id | id in flows && flows[id].rec.subject.Net? == net
  }

  /** Those of them whose process is not in `todo`. */
  ghost function Counted(flows: FlowHeap, net: bool, todo: set<OID>): set<FlowId> {
    set id | id in OfKind(flows, net) && flows[id].rec.procOID !in todo
  }

  function KeysOfKind(table: map<FlowKey, FlowId>, net: bool): set<FlowKey> {
    set k | k in table && k.NetKey? == net
  }

  lemma {:induction false} InjectiveSize(m: map<FlowKey, FlowId>, keys: set<FlowKey>, ids: set<FlowId>)
    requires keys <= m.Keys && forall j, k | j in keys && k in keys && m[j] == m[k] :: j == k
    requires forall id :: id in ids <==> exists k :: k in keys && m[k] == id
    ensures |keys| == |ids|
  {
    if keys == {} {
      assert ids == {};
    } else {
      var k :| k in keys;
      forall id | id in ids - {m[k]} ensures exists j :: j in keys - {k} && m[j] == id {
        var j :| j in keys && m[j] == id;
        assert j in keys - {k};
      }
      InjectiveSize(m, keys - {k}, ids - {m[k]});
    }
  }

  lemma CountedStart(procs: ProcessTable, flows: FlowHeap, net: bool)
    requires Homed(procs, flows, {})
    ensures Counted(flows, net, procs.Keys) == {}
  {
    forall id | id in flows ensures flows[id].rec.procOID in procs {
      assert InTable(procs, flows[id], id);
    }
  }

  /** The size of one table is the number of live flows of its process. */
  lemma CountOne(procs: ProcessTable, flows: FlowHeap, net: bool, todo: set<OID>, o: OID)
    requires Homed(procs, flows, {}) && o in procs && o in todo
    ensures |Counted(flows, net, todo - {o})| == |Counted(flows, net, todo)| + |KeysOfKind(procs[o].table, net)|
  {
    hide Unique;
    var t := procs[o].table;
    var own := Counted(flows, net, todo - {o}) - Counted(flows, net, todo);
    assert Counted(flows, net, todo - {o}) == Counted(flows, net, todo) + own;
    forall id ensures id in own <==> exists k :: k in KeysOfKind(t, net) && t[k] == id {
      if id in own {
        assert InTable(procs, flows[id], id);
        assert KeyOf(flows[id]) in KeysOfKind(t, net);
      }
    }
    InjectiveSize(t, KeysOfKind(t, net), own);
  }

  /** The index holds as many entries as there are network and file flows. */
  lemma KindsAreAll(index: seq<Entry<FlowId>>, flows: FlowHeap)
    requires Indexed(index, flows)
    ensures |index| == |OfKind(flows, true)| + |OfKind(flows, false)|
  {
    SizeIsCount(index);
    assert flows.Keys == OfKind(flows, true) + OfKind(flows, false);
  }

  // ------------------------------------------------------- the process index

  ghost predicate PfIndexed(index: seq<Entry<OID>>, procs: ProcessTable) {
    && Sorted(index) && Distinct(index)
    && (forall o :: o in Ids(index) <==> o in procs && procs[o].pfo.Some?)
    && forall e :: e in index && e.id in procs && procs[e.id].pfo.Some? ==>
         e.time == procs[e.id].pfo.value.exportTime
  }

  lemma PfIndexedSame(index: seq<Entry<OID>>, ps: ProcessTable, qs: ProcessTable)
    requires PfIndexed(index, ps)
    requires forall o :: o in ps && ps[o].pfo.Some? ==> o in qs && qs[o].pfo == ps[o].pfo
    requires forall o :: o in qs && qs[o].pfo.Some? ==> o in ps && ps[o].pfo.Some?
    ensures PfIndexed(index, qs)
  {
  }

  lemma PfIndexedInsert(index: seq<Entry<OID>>, procs: ProcessTable, o: OID, pf: ProcFlow)
    requires PfIndexed(index, procs) && o in procs && procs[o].pfo.None?
    ensures PfIndexed(Insert(index, Entry(pf.exportTime, o)), procs[o := procs[o].(pfo := Some(pf))])
  {
    var e := Entry(pf.exportTime, o);
    InsertKeeps(index, e);
    InsertMembers(index, e);
    var qs := procs[o := procs[o].(pfo := Some(pf))];
    forall x | x in Insert(index, e) && x.id in qs && qs[x.id].pfo.Some?
      ensures x.time == qs[x.id].pfo.value.exportTime
    {
      if x != e {
        var i :| 0 <= i < |index| && index[i] == x;
        InIds(index, i);
      }
    }
  }

  /** A process that is not cached, or has no process flow, is not in the index. */
  lemma NotInPfSet(index: seq<Entry<OID>>, procs: ProcessTable, o: OID)
    requires PfIndexed(index, procs)
    ensures o !in procs || procs[o].pfo.None? ==> Without(index, {o}) == index
  {
    if o !in procs || procs[o].pfo.None? {
      assert o !in Ids(index);
      WithoutNone(index, {o});
    }
  }

  lemma PfIndexedErase(index: seq<Entry<OID>>, procs: ProcessTable, i: nat)
    requires PfIndexed(index, procs) && i < |index|
    ensures index[i].id in procs && procs[index[i].id].pfo.Some?
    ensures index[i].time == procs[index[i].id].pfo.value.exportTime
    ensures PfIndexed(EraseAt(index, i), procs[index[i].id := procs[index[i].id].(pfo := None)])
  {
    EraseKeeps(index, i);
    InIds(index, i);
  }

  // ---------------------------------------------------------- file references

  /** The live flows that name file `k`. */
  ghost function FlowsOn(flows: FlowHeap, k: string): set<FlowId> {
    set id | id in flows && flows[id].rec.subject.File? && flows[id].filekey == k
  }

  /** A file's count is never below the number of live flows naming it, so a file named by a
      live flow is cached. */
  ghost predicate FileRefs(files: FileTable, flows: FlowHeap) {
    && (forall id :: id in flows && flows[id].rec.subject.File? ==>
          flows[id].filekey in files && flows[id].rec.subject.fileOID == Sha1(flows[id].filekey))
    && (forall k :: k in files ==> |FlowsOn(flows, k)| <= files[k].refs)
  }

  function WithRefs(files: FileTable, k: string, n: nat): FileTable
    requires k in files
  {
    files[k := files[k].(refs := n)]
  }

  /** The file `key` has been looked up: it is as it was when it is in this segment already, and declared,
      as found again when it was cached and otherwise as created in `state`, with a count of zero. */
  ghost function Fetched(files: FileTable, key: string, state: ObjectState, container: string): FileTable {
    files[key := if key !in files then FileObj(true, 0, state, if container == "" then None else Some(container))
                 else if files[key].written then files[key]
                 else files[key].(state := Reup, written := true)]
  }

  lemma WrittenFile(files: FileTable, log: seq<Record>, key: string)
    requires FilesWritten(files, log) && key in files && files[key].written
    ensures Fil(Sha1(key)) in Declared(log)
  {
    hide Declared;
  }

  lemma FetchedWritten(files: FileTable, log: seq<Record>, log': seq<Record>, key: string, state: ObjectState,
                       container: string)
    requires FilesWritten(files, log) && Declared(log) <= Declared(log') && Fil(Sha1(key)) in Declared(log')
    ensures FilesWritten(Fetched(files, key, state, container), log')
  {
    hide Declared;
  }

  /** The count of the file of `f` has changed by `n`, and no other count. */
  ghost predicate Referred(files: FileTable, files': FileTable, f: DataFlow, n: int) {
    && files'.Keys == files.Keys
    && forall k :: k in files ==>
         files'[k].refs == files[k].refs + if f.rec.subject.File? && k == f.filekey then n else 0
  }

  /** No file goes and no count falls; there may be new files. */
  ghost predicate KeepsRefs(files: FileTable, files': FileTable) {
    && (forall k :: k in files ==> k in files' && files[k].refs <= files'[k].refs)
  }

  lemma FileRefsKeeps(files: FileTable, files': FileTable, flows: FlowHeap)
    requires FileRefs(files, flows) && KeepsRefs(files, files')
    ensures FileRefs(files', flows)
  {
    forall k | k in files' ensures |FlowsOn(flows, k)| <= files'[k].refs {
      if k !in files { assert FlowsOn(flows, k) == {}; }
    }
  }

  lemma FileRefsInsert(files: FileTable, flows: FlowHeap, id: FlowId, f: DataFlow)
    requires FileRefs(files, flows) && id !in flows
    requires f.rec.subject.File? ==> f.filekey in files && f.rec.subject.fileOID == Sha1(f.filekey)
    ensures FileRefs(if f.rec.subject.File? then WithRefs(files, f.filekey, files[f.filekey].refs + 1) else files,
                     flows[id := f])
  {
    hide FlowsOn;
    forall k
      ensures |FlowsOn(flows[id := f], k)|
              == |FlowsOn(flows, k)| + (if f.rec.subject.File? && k == f.filekey then 1 else 0)
    {
      FlowsOnInsert(flows, id, f, k);
    }
  }

  lemma FlowsOnInsert(flows: FlowHeap, id: FlowId, f: DataFlow, k: string)
    requires id !in flows
    ensures |FlowsOn(flows[id := f], k)|
            == |FlowsOn(flows, k)| + (if f.rec.subject.File? && k == f.filekey then 1 else 0)
  {
    if f.rec.subject.File? && k == f.filekey {
      assert FlowsOn(flows[id := f], k) == FlowsOn(flows, k) + {id};
    } else {
      assert FlowsOn(flows[id := f], k) == FlowsOn(flows, k);
    }
  }

  lemma FileRefsUpdate(files: FileTable, flows: FlowHeap, id: FlowId, f: DataFlow)
    requires FileRefs(files, flows) && id in flows
    requires f.filekey == flows[id].filekey && f.rec.subject.File? == flows[id].rec.subject.File?
    requires f.rec.subject.File? ==> f.rec.subject.fileOID == flows[id].rec.subject.fileOID
    ensures FileRefs(files, flows[id := f])
  {
    forall k | k in files ensures |FlowsOn(flows[id := f], k)| <= files[k].refs {
      assert FlowsOn(flows[id := f], k) == FlowsOn(flows, k);
    }
  }

  /** Deleting a flow, with the decrement of its file that some paths do and some do not.
      The decrement never goes below zero. */
  lemma FileRefsDelete(files: FileTable, flows: FlowHeap, id: FlowId)
    requires FileRefs(files, flows) && id in flows
    ensures FileRefs(files, flows - {id})
    ensures flows[id].rec.subject.File? ==>
      var k := flows[id].filekey;
      files[k].refs > 0 && FileRefs(WithRefs(files, k, files[k].refs - 1), flows - {id})
  {
    var flows' := flows - {id};
    var named := flows[id].rec.subject.File?;
    var key := flows[id].filekey;
    forall k | k in files
      ensures |FlowsOn(flows', k)| + (if named && k == key then 1 else 0) <= files[k].refs
    {
      if named && k == key {
        assert FlowsOn(flows, k) == FlowsOn(flows', k) + {id};
      } else {
        assert FlowsOn(flows', k) == FlowsOn(flows, k);
      }
    }
  }

  /** Dropping the files nobody counts on keeps every file that a live flow names. */
  lemma FileRefsClear(files: FileTable, flows: FlowHeap, files': FileTable)
    requires FileRefs(files, flows)
    requires forall k :: k in files && files[k].refs > 0 ==> k in files'
    requires forall k :: k in files' ==> k in files && files'[k].refs == files[k].refs
    ensures FileRefs(files', flows)
  {
    forall id | id in flows && flows[id].rec.subject.File? ensures flows[id].filekey in files' {
      assert id in FlowsOn(flows, flows[id].filekey);
      assert |FlowsOn(flows, flows[id].filekey)| > 0;
    }
  }

  // ----------------------------------------------------- container references

  ghost function Named(procs: ProcessTable, c: string): set<OID> {
    set o | o in procs && procs[o].containerId == Some(c)
  }

  function RefsOf(containers: ContainerTable, c: string): nat {
    if c in containers then containers[c].refs else 0
  }

  /** A container's count is exactly the number of cached processes naming it. */
  ghost predicate ContainerRefs(procs: ProcessTable, containers: ContainerTable) {
    && (forall c :: RefsOf(containers, c) == |Named(procs, c)|)
    && (forall o :: o in procs && procs[o].containerId.Some? ==> procs[o].containerId.value != "")
  }

  /** Only counts have changed. */
  ghost predicate Recounted(cs: ContainerTable, ds: ContainerTable) {
    cs.Keys == ds.Keys && forall c :: c in cs ==> ds[c] == cs[c].(refs := ds[c].refs)
  }

  lemma NamedIsCached(procs: ProcessTable, containers: ContainerTable, o: OID)
    requires ContainerRefs(procs, containers) && o in procs && procs[o].containerId.Some?
    ensures procs[o].containerId.value in containers && containers[procs[o].containerId.value].refs > 0
  {
    var c := procs[o].containerId.value;
    assert o in Named(procs, c);
    assert RefsOf(containers, c) == |Named(procs, c)|;
  }

  lemma ContainerRefsSame(ps: ProcessTable, qs: ProcessTable, cs: ContainerTable, ds: ContainerTable)
    requires ContainerRefs(ps, cs) && ps.Keys == qs.Keys
    requires forall o :: o in ps ==> qs[o].containerId == ps[o].containerId
    requires forall c :: RefsOf(cs, c) == RefsOf(ds, c)
    ensures ContainerRefs(qs, ds)
  {
    forall c ensures RefsOf(ds, c) == |Named(qs, c)| {
      assert Named(qs, c) == Named(ps, c);
      assert RefsOf(ds, c) == RefsOf(cs, c);
    }
  }

  /** The number of references `cid` stands for. */
  function One(cid: Option<string>, c: string): nat { if cid == Some(c) then 1 else 0 }

  /** A new process, counted where it names a container. */
  lemma ContainerRefsAdd(ps: ProcessTable, o: OID, p: ProcessObj, cs: ContainerTable, ds: ContainerTable)
    requires ContainerRefs(ps, cs) && o !in ps && p.containerId != Some("")
    requires forall c :: RefsOf(ds, c) == RefsOf(cs, c) + One(p.containerId, c)
    ensures ContainerRefs(ps[o := p], ds)
  {
    hide Named, RefsOf, One;
    forall c ensures RefsOf(ds, c) == |Named(ps[o := p], c)| {
      assert RefsOf(ds, c) == RefsOf(cs, c) + One(p.containerId, c);
      NamedAdd(ps, o, p, c);
    }
  }

  lemma NamedAdd(ps: ProcessTable, o: OID, p: ProcessObj, c: string)
    requires o !in ps
    ensures |Named(ps[o := p], c)| == |Named(ps, c)| + One(p.containerId, c)
  {
    assert Named(ps[o := p], c) == Named(ps, c) + (if p.containerId == Some(c) then {o} else {});
  }

  lemma NamedDrop(ps: ProcessTable, o: OID, c: string)
    requires o in ps
    ensures |Named(ps, c)| == |Named(ps - {o}, c)| + One(ps[o].containerId, c)
  {
    var rest := Named(ps - {o}, c);
    assert o !in rest;
    assert Named(ps, c) == if ps[o].containerId == Some(c) then rest + {o} else rest;
  }

  /** A dropped process, uncounted where it named a container. */
  lemma ContainerRefsDrop(ps: ProcessTable, o: OID, cs: ContainerTable, ds: ContainerTable)
    requires ContainerRefs(ps, cs) && o in ps
    requires forall c :: RefsOf(ds, c) + One(ps[o].containerId, c) == RefsOf(cs, c)
    ensures ContainerRefs(ps - {o}, ds)
  {
    forall c ensures RefsOf(ds, c) == |Named(ps - {o}, c)| {
      assert RefsOf(ds, c) + One(ps[o].containerId, c) == RefsOf(cs, c);
      assert RefsOf(cs, c) == |Named(ps, c)|;
      NamedDrop(ps, o, c);
    }
  }

  /** A process that changes its container. */
  lemma ContainerRefsMove(ps: ProcessTable, o: OID, p: ProcessObj,
                          cs: ContainerTable, ds: ContainerTable, es: ContainerTable)
    requires ContainerRefs(ps, cs) && o in ps && p.containerId != Some("")
    requires forall c :: RefsOf(ds, c) + One(ps[o].containerId, c) == RefsOf(cs, c)
    requires forall c :: RefsOf(es, c) == RefsOf(ds, c) + One(p.containerId, c)
    ensures ContainerRefs(ps[o := p], es)
  {
    ContainerRefsDrop(ps, o, cs, ds);
    ContainerRefsAdd(ps - {o}, o, p, ds, es);
    assert (ps - {o})[o := p] == ps[o := p];
  }

  lemma UpdateInUnion(ps: ProcessTable, qs: ProcessTable, o: OID, p: ProcessObj)
    requires o in ps && o !in qs
    ensures (ps + qs)[o := p] == ps[o := p] + qs
  {
  }

  lemma UpdateRightOfUnion(ps: ProcessTable, qs: ProcessTable, o: OID, p: ProcessObj)
    ensures (ps + qs)[o := p] == ps + qs[o := p]
  {
  }

  // ------------------------------------------------------------------ writing

  /** A process marked written has its record in the current segment. */
  ghost predicate ProcsWritten(procs: ProcessTable, log: seq<Record>) {
    forall o :: o in procs && procs[o].written ==> Proc(o) in Declared(log)
  }

  ghost predicate FilesWritten(files: FileTable, log: seq<Record>) {
    forall k :: k in files && files[k].written ==> Fil(Sha1(k)) in Declared(log)
  }

  // ----------------------------------------------------------------- counters

  /** A flow the writer would drop has nothing to report. */
  ghost predicate Honest(flows: FlowHeap, procs: ProcessTable) {
    && (forall id :: id in flows && Idle(flows[id].rec.opFlags) ==> flows[id].rec.cnt == ZERO)
    && (forall o :: o in procs && procs[o].pfo.Some? && Idle(procs[o].pfo.value.opFlags) ==>
          procs[o].pfo.value.cnt == ZERO)
  }

  // ----------------------------------------------------------------- ancestry

  /** Stored parents have a smaller rank: the stored chains are acyclic. */
  ghost predicate Ranked(procs: ProcessTable, rank: OID -> nat) {
    forall o :: o in procs && procs[o].poid.Some? ==> rank(procs[o].poid.value) < rank(o)
  }
}
