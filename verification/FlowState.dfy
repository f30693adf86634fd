/**
  The data flows together with their index, as values: the fate of a flow at a scan, and how
  each change carries the agreements and the books over.
 */
module FlowState {
  import opened Types
  import opened Trace
  import opened TimeSet
  import opened Ledger
  import opened Invariants
  import opened Pruning
  import opened ProcessState
  import opened ReadOnlyFiles

  // ------------------------------------------------------------- single flows

  /** A flow takes in one operation: `updateNetFlow` and `updateFileFlow`. */
  function Updated(f: DataFlow, op: Op, ret: int, openFlags: int, now: int): DataFlow {
    var subject := if op.Open? && f.rec.subject.File? then f.rec.subject.(openFlags := openFlags) else f.rec.subject;
    f.(lastUpdate := now,
       rec := f.rec.(opFlags := f.rec.opFlags + {op}, subject := subject,
                     cnt := Plus(f.rec.cnt, DataCharge(op, ret))))
  }

  /** A flow after its periodic export. */
  function Renewed(f: DataFlow, now: int, nowNs: int): DataFlow {
    f.(exportTime := now, rec := f.rec.(ts := nowNs, endTs := 0, opFlags := {}, cnt := ZERO))
  }

  function Ended(f: DataFlow, endTs: int): DataFlow { f.(rec := f.rec.(endTs := endTs)) }

  datatype Fate = Keep | Export | Expire

  predicate Due(f: DataFlow, now: int) { now - f.exportTime >= EXPORT_INTERVAL }

  /** What a scan at `now` does with a flow. */
  function FateOf(f: DataFlow, now: int): Fate {
    if !Due(f, now) then Keep
    else if now - f.lastUpdate >= EXPIRE_INTERVAL then Expire else Export
  }

  /** The records offering `f` leaves, under the read mode, and the flows the mode keeps out. */
  function Offer(mode: ReadMode, f: DataFlow): seq<Record> {
    if Suppressed(mode, f) then [] else Offered(f.rec)
  }

  function Withheld(mode: ReadMode, f: DataFlow): seq<DataFlow> {
    if Suppressed(mode, f) then [f] else []
  }

  /** The counters of the flows `fs`. */
  function Muted(fs: seq<DataFlow>): Tally {
    if fs == [] then ZERO else Plus(Muted(fs[..|fs| - 1]), fs[|fs| - 1].rec.cnt)
  }

  lemma MutedMore(mode: ReadMode, fs: seq<DataFlow>, f: DataFlow)
    ensures Muted(fs + Withheld(mode, f)) == if Suppressed(mode, f) then Plus(Muted(fs), f.rec.cnt) else Muted(fs)
  {
    assert (fs + [f])[..|fs|] == fs && fs + [] == fs;
  }

  // ----------------------------------------------------- the clock and expiry

  /** No time lies in the future, and a flow with recorded operations was updated since its
      last export. */
  ghost predicate Timely(flows: FlowHeap, now: int) {
    forall id :: id in flows ==>
      && flows[id].exportTime <= now && flows[id].lastUpdate <= now
      && (!Idle(flows[id].rec.opFlags) ==> flows[id].exportTime <= flows[id].lastUpdate)
  }

  /** No flow was due at the last scan. */
  ghost predicate Fresh(flows: FlowHeap, lastCheck: int) {
    forall id :: id in flows ==> lastCheck > 0 && lastCheck - flows[id].exportTime < EXPORT_INTERVAL
  }

  /** With scans at most thirty seconds apart, a flow that expires has nothing to report. */
  lemma ExpiryLosesNothing(flows: FlowHeap, procs: ProcessTable, lastCheck: int, now: int, id: FlowId)
    requires Timely(flows, now) && Fresh(flows, lastCheck) && Honest(flows, procs) && id in flows
    requires now - lastCheck <= EXPORT_INTERVAL
    requires FateOf(flows[id], now) == Expire
    ensures Idle(flows[id].rec.opFlags) && flows[id].rec.cnt == ZERO
  {
    assert lastCheck - flows[id].exportTime < EXPORT_INTERVAL;
  }

  /** Whatever happened before a scan that comes `gap` seconds after the last one, the flows it
      discards have nothing to report. */
  ghost predicate SafeGap(gap: int) {
    forall flows: FlowHeap, procs: ProcessTable, lastCheck: int, now: int, id: FlowId |
      && Timely(flows, now) && Fresh(flows, lastCheck) && Honest(flows, procs) && id in flows
      && now - lastCheck == gap && FateOf(flows[id], now) == Expire :: flows[id].rec.cnt == ZERO
  }

  /** The bound is tight: a gap is safe exactly when it is at most thirty seconds. */
  lemma SafeGapIffThirtySeconds(gap: int)
    ensures SafeGap(gap) <==> gap <= EXPORT_INTERVAL
  {
    if gap <= EXPORT_INTERVAL {
      forall flows: FlowHeap, procs: ProcessTable, lastCheck: int, now: int, id: FlowId |
        && Timely(flows, now) && Fresh(flows, lastCheck) && Honest(flows, procs) && id in flows
        && now - lastCheck == gap && FateOf(flows[id], now) == Expire
        ensures flows[id].rec.cnt == ZERO
      {
        ExpiryLosesNothing(flows, procs, lastCheck, now, id);
      }
    } else {
      LongGapLoses(gap);
    }
  }

  /** A flow that sent a byte and was not due at the last scan is discarded by the next one. */
  lemma LongGapLoses(gap: int)
    requires gap > EXPORT_INTERVAL
    ensures !SafeGap(gap)
  {
    var rec := FlowData(OID(1, 1), 1, 3, 0, 0, {WriteSend}, DataCharge(WriteSend, 1), Net(0, 0, 0, 0, 6));
    var f := DataFlow(100, 100, rec, "", "");
    assert I32(1) == 1 && rec.cnt.wBytes == 1;
    var flows: FlowHeap := map[0 := f];
    var procs: ProcessTable := map[];
    var now := 129 + gap;
    assert Timely(flows, now) && Fresh(flows, 129) && Honest(flows, procs) && 0 in flows;
    assert FateOf(flows[0], now) == Expire && flows[0].rec.cnt != ZERO;
  }

  // -------------------------------------------------------- tables and index

  /** A snapshot of the data flows with their index and the counters that left them. */
  datatype Flux = Flux(w: World, index: seq<Entry<FlowId>>, lost: Tally)

  ghost predicate Coherent(x: Flux, rank: OID -> nat, pending: set<FlowId>, now: int) {
    Consistent(x.w, rank, pending) && Indexed(x.index, x.w.flows) && Timely(x.w.flows, now)
  }

  /** All counters ever taken in: written, live, expired, and hidden by the read mode. */
  ghost function Total(x: Flux): Tally {
    Plus(Plus(Written(Behaviors(x.w.log)), Live(x.w.flows)), Plus(x.lost, Muted(x.w.hushed)))
  }

  /** The log of `y` continues that of `x` and its files still cover the flows of `y`. */
  ghost predicate Onward(x: World, y: World) {
    && Closed(y.log) && Continues(x.log, y.log)
    && FilesWritten(y.files, y.log) && FileRefs(y.files, y.flows)
    && y.containers == x.containers && y.pfSet == x.pfSet && y.queue == x.queue && y.tidy == x.tidy
  }

  lemma StandingTables(x: World, y: World, rank: OID -> nat, before: set<FlowId>, after: set<FlowId>, o: OID)
    requires Consistent(x, rank, before) && Onward(x, y) && o in x.procs && o in y.procs
    requires y.procs == WithTable(x.procs, o, y.procs[o].table)
    requires Homed(y.procs, y.flows, after) && Honest(y.flows, x.procs)
    requires forall id :: id in y.flows ==> id < y.nextId
    requires y.procs[o].table == map[] || forall e :: e in x.queue ==> e.oid != o
    ensures Consistent(y, rank, after)
  {
    hide Homed, FileRefs, Closed, Declared, Kin, ContainerRefs, PfIndexed;
    KinSame(x.procs, y.procs);
    PfIndexedSame(x.pfSet, x.procs, y.procs);
    ContainerRefsSame(x.procs, y.procs, x.containers, y.containers);
  }

  /** A new flow enters its table, the heap and the index, and its file gains a reference. */
  lemma InsertFlow(x: Flux, y: Flux, o: OID, f: DataFlow, rank: OID -> nat, now: int)
    requires Coherent(x, rank, {}, now)
    requires o in x.w.procs && f.rec.procOID == o && KeyOf(f) !in x.w.procs[o].table
    requires forall e :: e in x.w.queue ==> e.oid != o
    requires f.exportTime == f.lastUpdate == now && !Idle(f.rec.opFlags)
    requires f.rec.subject.File? ==> f.filekey in x.w.files && f.rec.subject.fileOID == Sha1(f.filekey)
    requires y.w == x.w.(procs := WithTable(x.w.procs, o, x.w.procs[o].table[KeyOf(f) := x.w.nextId]),
                         flows := x.w.flows[x.w.nextId := f], nextId := x.w.nextId + 1,
                         files := if f.rec.subject.File?
                                  then WithRefs(x.w.files, f.filekey, x.w.files[f.filekey].refs + 1)
                                  else x.w.files)
    requires y.index == Insert(x.index, Entry(now, x.w.nextId))
    ensures Coherent(y, rank, {}, now)
  {
    hide Homed, FileRefs, Closed, Declared, Indexed, ContainerRefs, PfIndexed;
    HomedInsert(x.w.procs, x.w.flows, o, x.w.nextId, f);
    FileRefsInsert(x.w.files, x.w.flows, x.w.nextId, f);
    IndexedInsert(x.index, x.w.flows, x.w.nextId, f);
    StandingTables(x.w, y.w, rank, {}, {}, o);
  }

  /** A flow changes in place; its key, its process, its file and its place in the index stay. */
  lemma ChangeFlow(x: Flux, y: Flux, pending: set<FlowId>, id: FlowId, f: DataFlow, rank: OID -> nat, now: int)
    requires Coherent(x, rank, pending, now) && id in x.w.flows
    requires SameIdentity(x.w.flows[id], f) && f.exportTime == x.w.flows[id].exportTime
    requires f.lastUpdate <= now && (!Idle(f.rec.opFlags) ==> f.exportTime <= f.lastUpdate)
    requires Idle(f.rec.opFlags) ==> f.rec.cnt == ZERO
    requires y == x.(w := x.w.(flows := x.w.flows[id := f]))
    ensures Coherent(y, rank, pending, now)
  {
    hide Homed, FileRefs, Closed, Declared, Indexed, ContainerRefs, PfIndexed;
    HomedUpdate(x.w.procs, x.w.flows, pending, id, f);
    FileRefsUpdate(x.w.files, x.w.flows, id, f);
    IndexedUpdate(x.index, x.w.flows, id, f);
  }

  /** The same process, key and file. */
  predicate SameIdentity(f: DataFlow, g: DataFlow) {
    && f.rec.procOID == g.rec.procOID && KeyOf(f) == KeyOf(g) && f.filekey == g.filekey
    && f.rec.subject.File? == g.rec.subject.File?
    && (f.rec.subject.File? ==> f.rec.subject.fileOID == g.rec.subject.fileOID)
  }

  /** A flow leaves its table and waits to be written and deleted. */
  lemma DetachFlow(x: Flux, y: Flux, pending: set<FlowId>, o: OID, k: FlowKey, rank: OID -> nat, now: int)
    requires Coherent(x, rank, pending, now) && o in x.w.procs && k in x.w.procs[o].table
    requires y == x.(w := x.w.(procs := WithTable(x.w.procs, o, x.w.procs[o].table - {k})))
    ensures Coherent(y, rank, pending + {x.w.procs[o].table[k]}, now)
  {
    hide Homed, FileRefs, Closed, Declared, Indexed, ContainerRefs, PfIndexed;
    HomedUntable(x.w.procs, x.w.flows, pending, o, k);
    StandingTables(x.w, y.w, rank, pending, pending + {x.w.procs[o].table[k]}, o);
  }

  /** A pending flow leaves the index and the heap. */
  lemma DeletePending(x: Flux, y: Flux, pending: set<FlowId>, id: FlowId, i: nat, rank: OID -> nat, now: int)
    requires Coherent(x, rank, pending, now) && id in pending
    requires i < |x.index| && x.index[i].id == id && y.index == EraseAt(x.index, i)
    requires y.w == x.w.(flows := x.w.flows - {id}, log := y.w.log, files := y.w.files, hushed := y.w.hushed)
    requires Onward(x.w, y.w)
    ensures Coherent(y, rank, pending - {id}, now)
  {
    hide Homed, FileRefs, Closed, Declared, Indexed, ContainerRefs, PfIndexed;
    HomedDelete(x.w.procs, x.w.flows, pending, id);
    IndexedErase(x.index, x.w.flows, i);
  }

  /** A flow leaves its table, the index and the heap. */
  lemma RemoveFlow(x: Flux, y: Flux, o: OID, k: FlowKey, i: nat, rank: OID -> nat, now: int)
    requires Coherent(x, rank, {}, now) && o in x.w.procs && k in x.w.procs[o].table
    requires i < |x.index| && x.index[i].id == x.w.procs[o].table[k] && y.index == EraseAt(x.index, i)
    requires y.w == x.w.(procs := WithTable(x.w.procs, o, x.w.procs[o].table - {k}),
                         flows := x.w.flows - {x.w.procs[o].table[k]}, log := y.w.log, files := y.w.files,
                         hushed := y.w.hushed)
    requires Onward(x.w, y.w)
    ensures Coherent(y, rank, {}, now)
  {
    hide Homed, FileRefs, Closed, Declared, Indexed, ContainerRefs, PfIndexed;
    HomedRemove(x.w.procs, x.w.flows, o, k);
    IndexedErase(x.index, x.w.flows, i);
    StandingTables(x.w, y.w, rank, {}, {}, o);
  }

  /** A flow is renewed: taken out of the index, given a new export time, and put back. */
  lemma RenewFlow(x: Flux, y: Flux, id: FlowId, i: nat, rank: OID -> nat, now: int, nowNs: int)
    requires Coherent(x, rank, {}, now) && id in x.w.flows
    requires i < |x.index| && x.index[i].id == id
    requires y.index == Insert(EraseAt(x.index, i), Entry(now, id))
    requires y.w == x.w.(flows := x.w.flows[id := Renewed(x.w.flows[id], now, nowNs)])
    ensures Coherent(y, rank, {}, now)
  {
    hide Homed, FileRefs, Closed, Declared, Indexed, ContainerRefs, PfIndexed;
    var f := Renewed(x.w.flows[id], now, nowNs);
    HomedUpdate(x.w.procs, x.w.flows, {}, id, f);
    FileRefsUpdate(x.w.files, x.w.flows, id, f);
    IndexedErase(x.index, x.w.flows, i);
    IndexedInsert(EraseAt(x.index, i), x.w.flows - {id}, id, f);
    assert (x.w.flows - {id})[id := f] == x.w.flows[id := f];
  }

  // -------------------------------------------------------------- the books

  /** Offering a flow and deleting it. */
  lemma TotalOffer(x: Flux, y: Flux, mode: ReadMode, f: DataFlow, id: FlowId)
    requires id in x.w.flows && f.rec.cnt == x.w.flows[id].rec.cnt
    requires Idle(f.rec.opFlags) ==> f.rec.cnt == ZERO
    requires Behaviors(y.w.log) == Behaviors(x.w.log) + Offer(mode, f)
    requires y.w.flows == x.w.flows - {id}
    requires y.lost == x.lost && y.w.hushed == x.w.hushed + Withheld(mode, f)
    ensures Total(y) == Total(x)
  {
    hide Live, Behaviors, Written, Muted;
    var bs, muted := Behaviors(x.w.log), Muted(x.w.hushed);
    MutedMore(mode, x.w.hushed, f);
    if Suppressed(mode, f) {
      LiveSet(x.w.flows, id, f);
      assert bs + [] == bs;
      Moved(Written(bs), Live(y.w.flows), x.lost, muted, f.rec.cnt);
    } else {
      OfferBalances(bs, f.rec, x.w.flows, id);
    }
  }

  lemma Moved(a: Tally, rest: Tally, c: Tally, d: Tally, m: Tally)
    ensures Plus(Plus(a, rest), Plus(c, Plus(d, m))) == Plus(Plus(a, Plus(m, rest)), Plus(c, d))
    ensures Plus(Plus(a, rest), Plus(Plus(c, m), d)) == Plus(Plus(a, Plus(m, rest)), Plus(c, d))
    ensures Plus(Plus(a, Plus(m, rest)), Plus(c, d)) == Plus(Plus(Plus(a, rest), Plus(c, d)), m)
  {
  }

  /** Deleting an expired flow unwritten. */
  lemma TotalExpire(x: Flux, y: Flux, id: FlowId)
    requires id in x.w.flows && Behaviors(y.w.log) == Behaviors(x.w.log)
    requires y.w.flows == x.w.flows - {id}
    requires y.lost == Plus(x.lost, x.w.flows[id].rec.cnt) && y.w.hushed == x.w.hushed
    ensures Total(y) == Total(x)
  {
    hide Live, Behaviors, Written;
    LiveSet(x.w.flows, id, x.w.flows[id]);
    Moved(Written(Behaviors(x.w.log)), Live(y.w.flows), x.lost, Muted(x.w.hushed), x.w.flows[id].rec.cnt);
  }

  /** A flow takes in `c` (a new flow starts from nothing). */
  lemma TotalCharge(x: Flux, y: Flux, id: FlowId, f: DataFlow, c: Tally)
    requires f.rec.cnt == if id in x.w.flows then Plus(x.w.flows[id].rec.cnt, c) else c
    requires Behaviors(y.w.log) == Behaviors(x.w.log) && y.w.flows == x.w.flows[id := f]
    requires y.lost == x.lost && y.w.hushed == x.w.hushed
    ensures Total(y) == Plus(Total(x), c)
  {
    hide Live, Behaviors, Written;
    LiveSet(x.w.flows, id, f);
    var a, rest := Written(Behaviors(x.w.log)), Live(x.w.flows - {id});
    Moved(a, rest, x.lost, Muted(x.w.hushed), f.rec.cnt);
    if id in x.w.flows {
      var m := x.w.flows[id].rec.cnt;
      Moved(a, rest, x.lost, Muted(x.w.hushed), m);
      PlusLaws(Plus(Plus(a, rest), Plus(x.lost, Muted(x.w.hushed))), m, c);
    }
  }

  /** Exporting a flow and starting it afresh. */
  lemma TotalRenew(x: Flux, y: Flux, mode: ReadMode, f: DataFlow, id: FlowId, g: DataFlow)
    requires id in x.w.flows && f.rec.cnt == x.w.flows[id].rec.cnt && g.rec.cnt == ZERO
    requires Idle(f.rec.opFlags) ==> f.rec.cnt == ZERO
    requires Behaviors(y.w.log) == Behaviors(x.w.log) + Offer(mode, f)
    requires y.w.flows == x.w.flows[id := g]
    requires y.lost == x.lost && y.w.hushed == x.w.hushed + Withheld(mode, f)
    ensures Total(y) == Total(x)
  {
    hide Live, Behaviors, Written;
    var mid := y.(w := y.w.(flows := x.w.flows - {id}));
    TotalOffer(x, mid, mode, f, id);
    LiveSet(x.w.flows, id, g);
    PlusLaws(Live(x.w.flows - {id}), ZERO, ZERO);
  }

  /** A flow is marked or ended; it keeps its counters. */
  lemma TouchFlow(x: Flux, y: Flux, pending: set<FlowId>, id: FlowId, f: DataFlow, rank: OID -> nat, now: int)
    requires Coherent(x, rank, pending, now) && id in x.w.flows && y == x.(w := x.w.(flows := x.w.flows[id := f]))
    requires var g := x.w.flows[id];
             && SameIdentity(g, f) && f.exportTime == g.exportTime && f.lastUpdate == g.lastUpdate
             && (Idle(f.rec.opFlags) <==> Idle(g.rec.opFlags)) && f.rec.cnt == g.rec.cnt
    ensures Coherent(y, rank, pending, now) && Total(y) == Total(x)
  {
    hide Coherent, KeyOf, Idle, Total, Plus, Unique, Indexed, InTable, Behaviors;
    FlowFacts(x, pending, id, rank, now);
    ChangeFlow(x, y, pending, id, f, rank, now);
    PlusLaws(f.rec.cnt, ZERO, ZERO);
    PlusLaws(Total(x), ZERO, ZERO);
    TotalCharge(x, y, id, f, ZERO);
  }

  lemma FreshTouch(flows: FlowHeap, id: FlowId, f: DataFlow, lastCheck: int)
    requires Fresh(flows, lastCheck) && id in flows && f.exportTime == flows[id].exportTime
    ensures Fresh(flows[id := f], lastCheck)
  {
  }

  lemma FreshLess(flows: FlowHeap, id: FlowId, lastCheck: int)
    requires Fresh(flows, lastCheck)
    ensures Fresh(flows - {id}, lastCheck)
  {
  }

  /** Before the first scan there are no flows. */
  lemma FreshAtFirst(flows: FlowHeap, now: int)
    requires Fresh(flows, 0)
    ensures Fresh(flows, now)
  {
  }

  // --------------------------------------------------------- related flows

  /** `g` is on the same socket and descriptor, or the same file and descriptor, as `f`, but
      belongs to another thread. */
  predicate Related(g: DataFlow, f: DataFlow) {
    match (KeyOf(g), KeyOf(f))
    case (NetKey(a), NetKey(b)) => a.tid != b.tid && a.(tid := b.tid) == b
    case (FileKey(_), FileKey(_)) =>
      g.rec.tid != f.rec.tid && g.rec.fd == f.rec.fd && g.filekey == f.filekey
    case _ => false
  }

  /** The flow saw its descriptor being opened. */
  predicate Opener(f: DataFlow) {
    if f.rec.subject.Net? then Accept in f.rec.opFlags || Connect in f.rec.opFlags
    else Open in f.rec.opFlags
  }

  /** The records that offering the flows `fs` leaves. */
  function Offers(mode: ReadMode, fs: seq<DataFlow>): seq<Record> {
    if fs == [] then [] else Offers(mode, fs[..|fs| - 1]) + Offer(mode, fs[|fs| - 1])
  }

  /** The flows among `fs` that the read mode keeps out. */
  function Withhelds(mode: ReadMode, fs: seq<DataFlow>): seq<DataFlow> {
    if fs == [] then [] else Withhelds(mode, fs[..|fs| - 1]) + Withheld(mode, fs[|fs| - 1])
  }

  /** The behaviours in the trace, the flows kept out of it, and the processes recorded in it. */
  datatype Trail = Trail(shown: seq<Record>, hushed: seq<DataFlow>, named: seq<Record>)

  ghost function TrailOf(w: World): Trail { Trail(Behaviors(w.log), w.hushed, Recorded(w.log)) }

  /** The trail of `x`, with the processes recorded by the time of `y`. */
  ghost function TrailBy(x: World, y: World): Trail { TrailOf(x).(named := Recorded(y.log)) }

  /** The trail once the flows `fs` have been offered. */
  function Then(tr: Trail, mode: ReadMode, fs: seq<DataFlow>): Trail {
    Trail(tr.shown + Offers(mode, fs), tr.hushed + Withhelds(mode, fs), tr.named)
  }

  lemma ThenNone(tr: Trail, mode: ReadMode)
    ensures Then(tr, mode, []) == tr
  {
  }

  lemma ThenOne(tr: Trail, mode: ReadMode, f: DataFlow)
    ensures Then(tr, mode, [f]) == Trail(tr.shown + Offer(mode, f), tr.hushed + Withheld(mode, f), tr.named)
  {
    hide Offer, Withheld;
    var fs := [f];
    assert fs[..0] == [];
    assert Offers(mode, fs) == Offers(mode, fs[..0]) + Offer(mode, f) == Offer(mode, f);
    assert Withhelds(mode, fs) == Withhelds(mode, fs[..0]) + Withheld(mode, f) == Withheld(mode, f);
  }

  lemma {:induction false} OffersConcat(mode: ReadMode, a: seq<DataFlow>, b: seq<DataFlow>)
    ensures Offers(mode, a + b) == Offers(mode, a) + Offers(mode, b)
  {
    hide Offer;
    if b == [] {
      assert a + b == a;
    } else {
      var n := |b| - 1;
      assert (a + b)[..|a + b| - 1] == a + b[..n] && (a + b)[|a + b| - 1] == b[n];
      OffersConcat(mode, a, b[..n]);
    }
  }

  lemma {:induction false} WithheldsConcat(mode: ReadMode, a: seq<DataFlow>, b: seq<DataFlow>)
    ensures Withhelds(mode, a + b) == Withhelds(mode, a) + Withhelds(mode, b)
  {
    hide Withheld;
    if b == [] {
      assert a + b == a;
    } else {
      var n := |b| - 1;
      assert (a + b)[..|a + b| - 1] == a + b[..n] && (a + b)[|a + b| - 1] == b[n];
      WithheldsConcat(mode, a, b[..n]);
    }
  }

  lemma ThenThen(tr: Trail, mode: ReadMode, a: seq<DataFlow>, b: seq<DataFlow>)
    ensures Then(Then(tr, mode, a), mode, b) == Then(tr, mode, a + b)
  {
    hide Offers, Withhelds;
    OffersConcat(mode, a, b);
    WithheldsConcat(mode, a, b);
  }

  lemma ThenNamed(tr: Trail, mode: ReadMode, fs: seq<DataFlow>, named: seq<Record>)
    ensures Then(tr.(named := named), mode, fs) == Then(tr, mode, fs).(named := named)
  {
  }

  /** One more flow has been offered. */
  lemma ThenAppend(tr: Trail, mode: ReadMode, fs: seq<DataFlow>, f: DataFlow)
    ensures var m := Then(tr, mode, fs);
            Then(tr, mode, fs + [f]) == Trail(m.shown + Offer(mode, f), m.hushed + Withheld(mode, f), m.named)
  {
    hide Then, Offer, Withheld;
    ThenThen(tr, mode, fs, [f]);
    ThenOne(Then(tr, mode, fs), mode, f);
  }

  /** Two flow objects with equal values are the same live object. */
  lemma SameFlowSameObject(flows: FlowHeap, a: FlowId, b: FlowId)
    requires Unique(flows) && a in flows && b in flows && SameFlow(flows[a], flows[b])
    ensures a == b
  {
    assert KeyOf(flows[a]) == KeyOf(flows[b]);
  }

  function Elems(vec: seq<FlowId>): set<FlowId> { set id | id in vec }

  /** Flows that saw their descriptor opened come before those that did not. */
  ghost predicate OpenersFirst(flows: FlowHeap, vec: seq<FlowId>) {
    && (forall id :: id in vec ==> id in flows)
    && (forall i, j | 0 <= i < j < |vec| :: vec[i] != vec[j] && (Opener(flows[vec[j]]) ==> Opener(flows[vec[i]])))
  }

  /** Every entry is a live flow under its own key. */
  ghost predicate OwnKeys(table: map<FlowKey, FlowId>, flows: FlowHeap) {
    forall k :: k in table ==> table[k] in flows && KeyOf(flows[table[k]]) == k
  }

  /** The flow is an entry of the table, related to `f`. */
  ghost predicate RelatedEntry(table: map<FlowKey, FlowId>, flows: FlowHeap, f: DataFlow, id: FlowId)
    ensures RelatedEntry(table, flows, f, id) ==> id in flows
  {
    id in flows && KeyOf(flows[id]) in table && table[KeyOf(flows[id])] == id && Related(flows[id], f)
  }

  /** Of the entries of `table0` not in `todo`, the related ones are in `vec` and gone from `table`. */
  ghost predicate Picked(table0: map<FlowKey, FlowId>, table: map<FlowKey, FlowId>, todo: set<FlowKey>,
                         vec: seq<FlowId>, flows: FlowHeap, f: DataFlow)
  {
    && OwnKeys(table0, flows) && OpenersFirst(flows, vec)
    && (forall k :: k in table <==> k in table0 && (k in todo || !Related(flows[table0[k]], f)))
    && (forall k :: k in table ==> table[k] == table0[k])
    && (forall id :: id in vec <==> RelatedEntry(table0, flows, f, id) && KeyOf(flows[id]) !in todo)
  }

  lemma PickNext(table0: map<FlowKey, FlowId>, table: map<FlowKey, FlowId>, todo: set<FlowKey>,
                 vec: seq<FlowId>, flows: FlowHeap, f: DataFlow, k: FlowKey)
    requires Picked(table0, table, todo, vec, flows, f) && k in todo && k in table0
    ensures k in table && table[k] in flows && table[k] !in vec
    ensures var id := table[k];
            if Related(flows[id], f)
            then Picked(table0, table - {k}, todo - {k},
                        if Opener(flows[id]) then [id] + vec else vec + [id], flows, f)
            else Picked(table0, table, todo - {k}, vec, flows, f)
  {
    hide KeyOf, Related, Opener, RelatedEntry, OwnKeys, OpenersFirst;
    var id := table[k];
    OwnEntry(table0, flows, f, k);
    if Related(flows[id], f) {
      PickOrder(flows, vec, id);
      var vec' := if Opener(flows[id]) then [id] + vec else vec + [id];
      assert forall x :: x in vec' <==> x == id || x in vec;
      forall x ensures x in vec' <==> RelatedEntry(table0, flows, f, x) && KeyOf(flows[x]) !in todo - {k} {
        OnlyEntry(table0, flows, f, x);
      }
    } else {
      forall x ensures x in vec <==> RelatedEntry(table0, flows, f, x) && KeyOf(flows[x]) !in todo - {k} {
        OnlyEntry(table0, flows, f, x);
      }
    }
  }

  lemma OwnEntry(table: map<FlowKey, FlowId>, flows: FlowHeap, f: DataFlow, k: FlowKey)
    requires OwnKeys(table, flows) && k in table
    ensures table[k] in flows && KeyOf(flows[table[k]]) == k
    ensures RelatedEntry(table, flows, f, table[k]) <==> Related(flows[table[k]], f)
  {
  }

  lemma OnlyEntry(table: map<FlowKey, FlowId>, flows: FlowHeap, f: DataFlow, id: FlowId)
    ensures RelatedEntry(table, flows, f, id) ==>
      id in flows && KeyOf(flows[id]) in table && table[KeyOf(flows[id])] == id && Related(flows[id], f)
  {
  }

  lemma PickOrder(flows: FlowHeap, vec: seq<FlowId>, id: FlowId)
    requires OpenersFirst(flows, vec) && id in flows && id !in vec
    ensures OpenersFirst(flows, if Opener(flows[id]) then [id] + vec else vec + [id])
  {
    hide Opener, OpenersFirst;
    if Opener(flows[id]) { OpenerGoesFirst(flows, vec, id); } else { OtherGoesLast(flows, vec, id); }
  }

  lemma OpenerGoesFirst(flows: FlowHeap, vec: seq<FlowId>, id: FlowId)
    requires OpenersFirst(flows, vec) && id in flows && id !in vec && Opener(flows[id])
    ensures OpenersFirst(flows, [id] + vec)
  {
    hide Opener;
    var vec' := [id] + vec;
    forall i, j | 0 <= i < j < |vec'|
      ensures vec'[i] != vec'[j] && (Opener(flows[vec'[j]]) ==> Opener(flows[vec'[i]]))
    {
      assert vec'[j] == vec[j - 1] && vec[j - 1] in vec && (i > 0 ==> vec'[i] == vec[i - 1]);
    }
  }

  lemma OtherGoesLast(flows: FlowHeap, vec: seq<FlowId>, id: FlowId)
    requires OpenersFirst(flows, vec) && id in flows && id !in vec && !Opener(flows[id])
    ensures OpenersFirst(flows, vec + [id])
  {
    hide Opener;
    var vec' := vec + [id];
    forall i, j | 0 <= i < j < |vec'|
      ensures vec'[i] != vec'[j] && (Opener(flows[vec'[j]]) ==> Opener(flows[vec'[i]]))
    {
      assert vec'[i] == vec[i] && vec[i] in vec && (j < |vec| ==> vec'[j] == vec[j]);
    }
  }

  lemma CollectStart(x: Flux, o: OID, f: DataFlow, rank: OID -> nat, now: int)
    requires Coherent(x, rank, {}, now) && o in x.w.procs
    ensures var t := x.w.procs[o].table; Picked(t, t, t.Keys, [], x.w.flows, f)
    ensures Elems([]) == {}
  {
    hide KeyOf, Related, Indexed, Timely, PfIndexed, ContainerRefs, FileRefs, Closed, Declared;
    var t := x.w.procs[o].table;
    assert EntriesLive(x.w.procs, x.w.flows, {});
    assert OwnKeys(t, x.w.flows);
  }

  /** A pending flow has been offered and deleted. */
  lemma CutKeeps(x: Flux, y: Flux, pending: set<FlowId>, id: FlowId, at: nat, f: DataFlow, mode: ReadMode,
                 rank: OID -> nat, now: int)
    requires Coherent(x, rank, pending, now) && id in pending && id in x.w.flows
    requires f.rec.cnt == x.w.flows[id].rec.cnt && (Idle(f.rec.opFlags) ==> f.rec.cnt == ZERO)
    requires at < |x.index| && x.index[at].id == id && y.index == EraseAt(x.index, at)
    requires y.w == x.w.(flows := x.w.flows - {id}, log := y.w.log, files := y.w.files, hushed := y.w.hushed)
    requires Closed(y.w.log) && Continues(x.w.log, y.w.log)
    requires FilesWritten(y.w.files, y.w.log) && KeepsRefs(x.w.files, y.w.files)
    requires Behaviors(y.w.log) == Behaviors(x.w.log) + Offer(mode, f)
    requires y.lost == x.lost && y.w.hushed == x.w.hushed + Withheld(mode, f)
    ensures Coherent(y, rank, pending - {id}, now) && Total(y) == Total(x)
  {
    hide Homed, FileRefs, Closed, Declared, Indexed, ContainerRefs, PfIndexed, Total, Offer, Withheld, Behaviors;
    FileRefsDelete(x.w.files, x.w.flows, id);
    FileRefsKeeps(x.w.files, y.w.files, y.w.flows);
    DeletePending(x, y, pending, id, at, rank, now);
    TotalOffer(x, y, mode, f, id);
  }

  /** Facts about one live flow. */
  lemma FlowFacts(x: Flux, pending: set<FlowId>, id: FlowId, rank: OID -> nat, now: int)
    requires Coherent(x, rank, pending, now) && id in x.w.flows
    ensures Unique(x.w.flows) && Indexed(x.index, x.w.flows)
    ensures var f := x.w.flows[id];
            && f.exportTime <= now && f.lastUpdate <= now
            && (!Idle(f.rec.opFlags) ==> f.exportTime <= f.lastUpdate)
            && (Idle(f.rec.opFlags) ==> f.rec.cnt == ZERO)
            && (f.rec.subject.File? ==> f.filekey in x.w.files && f.rec.subject.fileOID == Sha1(f.filekey))
            && (id !in pending ==> InTable(x.w.procs, f, id))
  {
  }

  lemma SameKey(f: DataFlow, endTs: int)
    ensures KeyOf(Truncated(f, endTs)) == KeyOf(f) && KeyOf(Ended(f, endTs)) == KeyOf(f)
  {
  }

  /** The flows picked from the table of `o` are live and belong to `o`. */
  lemma PickedOwned(x: Flux, o: OID, table: map<FlowKey, FlowId>, vec: seq<FlowId>, f: DataFlow, rank: OID -> nat,
                    now: int)
    requires Coherent(x, rank, {}, now) && o in x.w.procs
    requires Picked(x.w.procs[o].table, table, {}, vec, x.w.flows, f)
    ensures forall id :: id in vec ==> id in x.w.flows && x.w.flows[id].rec.procOID == o
  {
    hide KeyOf, Related, Indexed, Timely, PfIndexed, ContainerRefs, FileRefs, Closed, Declared;
    assert EntriesLive(x.w.procs, x.w.flows, {});
  }

  /** Moving on to the next element of `vec`. */
  lemma NextPending(flows: FlowHeap, vec: seq<FlowId>, i: nat)
    requires i < |vec| && OpenersFirst(flows, vec)
    ensures Elems(vec[i..]) - {vec[i]} == Elems(vec[i + 1..])
    ensures Elems(vec[..i]) + {vec[i]} == Elems(vec[..i + 1])
    ensures vec[i] in Elems(vec[i..]) && vec[i] !in Elems(vec[..i])
  {
    assert vec[i..] == [vec[i]] + vec[i + 1..];
    assert vec[..i + 1] == vec[..i] + [vec[i]];
  }

  lemma PickedOrder(x: Flux, o: OID, table: map<FlowKey, FlowId>, vec: seq<FlowId>, f: DataFlow)
    requires o in x.w.procs && Picked(x.w.procs[o].table, table, {}, vec, x.w.flows, f)
    ensures OpenersFirst(x.w.flows, vec)
  {
  }

  lemma CutBounds(flows: FlowHeap, vec: seq<FlowId>)
    ensures Elems(vec[0..]) == Elems(vec) && Elems(vec[..0]) == {} && flows - Elems(vec[..0]) == flows
    ensures Elems(vec[|vec|..]) == {} && Elems(vec[..|vec|]) == Elems(vec)
  {
    assert vec[0..] == vec && vec[..|vec|] == vec;
  }

  /** The books do not depend on the tables. */
  lemma TotalTables(x: Flux, y: Flux)
    requires y.w.log == x.w.log && y.w.flows == x.w.flows && y.lost == x.lost && y.w.hushed == x.w.hushed
    ensures Total(y) == Total(x)
  {
  }

  lemma RecAssoc(a: seq<Record>, b: seq<Record>, c: seq<Record>)
    ensures a + b + c == a + (b + c)
  {
  }

  /** The file table once a deleted flow has given back its reference. */
  function Dereferenced(files: FileTable, f: DataFlow): FileTable
    requires f.rec.subject.File? ==> f.filekey in files && files[f.filekey].refs > 0
  {
    if f.rec.subject.File? then WithRefs(files, f.filekey, files[f.filekey].refs - 1) else files
  }

  lemma CanDereference(x: Flux, files: FileTable, pending: set<FlowId>, id: FlowId, rank: OID -> nat, now: int)
    requires Coherent(x, rank, pending, now) && id in x.w.flows && KeepsRefs(x.w.files, files)
    ensures var f := x.w.flows[id];
            f.rec.subject.File? ==> f.filekey in files && files[f.filekey].refs > 0
    ensures FileRefs(Dereferenced(files, x.w.flows[id]), x.w.flows - {id})
  {
    hide Homed, Closed, Declared, Indexed, ContainerRefs, PfIndexed;
    FileRefsKeeps(x.w.files, files, x.w.flows);
    FileRefsDelete(files, x.w.flows, id);
  }

  /** A flow has been taken out of its table, the index and the heap; its records, if any, are
      in the trace. */
  lemma RetireKeeps(x: Flux, y: Flux, o: OID, k: FlowKey, at: nat, files: FileTable, rank: OID -> nat, now: int)
    requires Coherent(x, rank, {}, now) && o in x.w.procs && k in x.w.procs[o].table
    requires at < |x.index| && x.index[at].id == x.w.procs[o].table[k] && y.index == EraseAt(x.index, at)
    requires KeepsRefs(x.w.files, files) && FilesWritten(files, y.w.log)
    requires x.w.procs[o].table[k] in x.w.flows
    requires var f := x.w.flows[x.w.procs[o].table[k]];
             f.rec.subject.File? ==> f.filekey in files && files[f.filekey].refs > 0
    requires y.w == x.w.(procs := WithTable(x.w.procs, o, x.w.procs[o].table - {k}),
                         flows := x.w.flows - {x.w.procs[o].table[k]}, log := y.w.log, hushed := y.w.hushed,
                         files := Dereferenced(files, x.w.flows[x.w.procs[o].table[k]]))
    requires Closed(y.w.log) && Continues(x.w.log, y.w.log)
    ensures Coherent(y, rank, {}, now)
  {
    hide Homed, FileRefs, Closed, Declared, Indexed, ContainerRefs, PfIndexed;
    CanDereference(x, files, {}, x.w.procs[o].table[k], rank, now);
    RemoveFlow(x, y, o, k, at, rank, now);
  }

  lemma EntryFacts(x: Flux, o: OID, k: FlowKey, rank: OID -> nat, now: int)
    requires Coherent(x, rank, {}, now) && o in x.w.procs && k in x.w.procs[o].table
    ensures x.w.procs[o].table[k] in x.w.flows
    ensures x.w.flows[x.w.procs[o].table[k]].rec.procOID == o && KeyOf(x.w.flows[x.w.procs[o].table[k]]) == k
  {
  }

  // ------------------------------------------------------------ new operations

  /** A flow as it is populated for its first operation. */
  predicate Populated(f: DataFlow, o: OID, op: Op, now: int) {
    && f.rec.procOID == o && f.rec.opFlags == {op} && f.rec.cnt == ZERO && !op.Truncate?
    && f.exportTime == now && f.lastUpdate == now
  }

  lemma UpdatedFacts(f: DataFlow, op: Op, ret: int, openFlags: int, now: int)
    requires !op.Truncate?
    ensures var g := Updated(f, op, ret, openFlags, now);
            && SameIdentity(f, g) && g.exportTime == f.exportTime && g.lastUpdate == now
            && !Idle(g.rec.opFlags) && g.rec.cnt == Plus(f.rec.cnt, DataCharge(op, ret))
            && g.rec.tid == f.rec.tid && g.rec.fd == f.rec.fd
  {
    assert op in Updated(f, op, ret, openFlags, now).rec.opFlags;
  }

  /** No entry of the table is `f`'s own or related to `f`. */
  ghost predicate ClearOf(table: map<FlowKey, FlowId>, flows: FlowHeap, f: DataFlow) {
    KeyOf(f) !in table && forall k :: k in table ==> table[k] in flows && !Related(flows[table[k]], f)
  }

  lemma PickedClears(x: Flux, y: Flux, o: OID, vec: seq<FlowId>, f: DataFlow, rank: OID -> nat, now: int)
    requires Coherent(y, rank, {}, now) && o in x.w.procs && o in y.w.procs
    requires Picked(x.w.procs[o].table, y.w.procs[o].table, {}, vec, x.w.flows, f)
    requires y.w.flows == x.w.flows - Elems(vec)
    ensures ClearOf(y.w.procs[o].table - {KeyOf(f)}, y.w.flows, f)
    ensures forall k :: k in y.w.procs[o].table ==>
      k in x.w.procs[o].table && x.w.procs[o].table[k] == y.w.procs[o].table[k]
    ensures KeyOf(f) in x.w.procs[o].table && x.w.flows[x.w.procs[o].table[KeyOf(f)]] == f ==>
      KeyOf(f) in y.w.procs[o].table && y.w.procs[o].table[KeyOf(f)] in y.w.flows
      && y.w.flows[y.w.procs[o].table[KeyOf(f)]] == f
  {
    hide KeyOf, Indexed, Timely, PfIndexed, ContainerRefs, FileRefs, Closed, Declared;
    assert EntriesLive(y.w.procs, y.w.flows, {});
    NotRelatedToItself(f);
  }

  lemma NotRelatedToItself(f: DataFlow)
    ensures !Related(f, f)
  {
  }

  /** A record without counters changes no total. */
  lemma TotalNothing(x: Flux, y: Flux, mode: ReadMode, f: DataFlow)
    requires f.rec.cnt == ZERO && y.w.flows == x.w.flows
    requires Behaviors(y.w.log) == Behaviors(x.w.log) + Offer(mode, f)
    requires y.lost == x.lost && y.w.hushed == x.w.hushed + Withheld(mode, f)
    ensures Total(y) == Total(x)
  {
    hide Live, Behaviors, Written, Muted, Plus;
    var bs := Behaviors(x.w.log);
    MutedMore(mode, x.w.hushed, f);
    PlusLaws(Muted(x.w.hushed), ZERO, ZERO);
    PlusLaws(Written(bs), ZERO, ZERO);
    if Offer(mode, f) == [] {
      assert bs + [] == bs;
    } else {
      WrittenOne(bs, FlowRec(f.rec));
    }
  }

  /** Same processes and process flows. */
  ghost predicate PfKept(ps: ProcessTable, qs: ProcessTable) {
    && (forall o :: o in ps ==> o in qs && qs[o].pfo == ps[o].pfo)
    && (forall o :: o in qs && o !in ps ==> qs[o].pfo.None?)
  }

  /** Process flows are untouched, and the only new processes are among the births. */
  ghost predicate Kept(ps: ProcessTable, qs: ProcessTable, births: set<(OID, Option<OID>)>) {
    PfKept(ps, qs) && BornOf(ps, qs, births)
  }

  lemma TableKeeps(ps: ProcessTable, o: OID, t: map<FlowKey, FlowId>)
    requires o in ps
    ensures Kept(ps, WithTable(ps, o, t), {})
  {
  }

  lemma MarkKeepsFlows(ps: ProcessTable, o: OID)
    requires o in ps
    ensures KeepsFlows(ps, ps[o := ps[o].(written := true)]) && BornOf(ps, ps[o := ps[o].(written := true)], {})
  {
  }

  lemma HomedOf(x: Flux, rank: OID -> nat, now: int)
    requires Coherent(x, rank, {}, now)
    ensures Homed(x.w.procs, x.w.flows, {})
  {
  }

  lemma ClosedLog(x: Flux, pending: set<FlowId>, rank: OID -> nat, now: int)
    requires Coherent(x, rank, pending, now)
    ensures Closed(x.w.log) && FilesWritten(x.w.files, x.w.log)
  {
  }

  /** Only the trace has grown. */
  lemma CoherentLog(x: Flux, y: Flux, pending: set<FlowId>, rank: OID -> nat, now: int)
    requires Coherent(x, rank, pending, now)
    requires y.w == x.w.(log := y.w.log, hushed := y.w.hushed) && y.index == x.index
    requires Closed(y.w.log) && Continues(x.w.log, y.w.log)
    ensures Coherent(y, rank, pending, now)
  {
    hide Homed, FileRefs, Closed, Declared, Indexed, ContainerRefs, PfIndexed, Timely;
  }

  /** Once the flow itself is gone too, its table is clear of it. */
  lemma ClearAfter(y: Flux, o: OID, f: DataFlow, id: FlowId, g: DataFlow)
    requires o in y.w.procs && KeyOf(f) in y.w.procs[o].table && y.w.procs[o].table[KeyOf(f)] == id
    requires OwnKeys(y.w.procs[o].table, y.w.flows)
    requires id in y.w.flows && y.w.flows[id] == g
    requires ClearOf(y.w.procs[o].table - {KeyOf(f)}, y.w.flows[id := f], f)
    ensures ClearOf(y.w.procs[o].table - {KeyOf(f)}, y.w.flows - {id}, f)
  {
    hide KeyOf, Related;
  }

  lemma OwnKeysOf(x: Flux, o: OID, rank: OID -> nat, now: int)
    requires Coherent(x, rank, {}, now) && o in x.w.procs
    ensures OwnKeys(x.w.procs[o].table, x.w.flows)
  {
    hide KeyOf, Indexed, Timely, PfIndexed, ContainerRefs, FileRefs, Closed, Declared;
    assert EntriesLive(x.w.procs, x.w.flows, {});
  }

  /** If the entry is a file flow, it is on `file`. */
  predicate OnFile(w: World, o: OID, k: FlowKey, file: string) {
    o in w.procs && k in w.procs[o].table && w.procs[o].table[k] in w.flows
    && (w.flows[w.procs[o].table[k]].rec.subject.File? ==> w.flows[w.procs[o].table[k]].filekey == file)
  }

  // --------------------------------------------------------- flows from events

  /** The table key of a network event, from the descriptor. */
  function NetEventKey(d: FdInfo, tid: int, fd: int): FlowKey
    requires d.Ipv4?
  {
    NetKey(NFKey(U64(tid), U32(d.sip), U16(d.sport), U32(d.dip), U16(d.dport), U32(U64(fd))))
  }

  function NewNetFlow(o: OID, d: FdInfo, tid: int, fd: int, op: Op, ts: int, now: int): DataFlow
    requires d.Ipv4?
  {
    DataFlow(now, now, FlowData(o, tid, I32(fd), ts, 0, {op}, ZERO,
                                Net(I32(d.sip), I32(d.sport), I32(d.dip), I32(d.dport), d.proto)), "", "")
  }

  /** The key rebuilt from a network flow record is the key the flow is stored under. */
  lemma KeyRecovery(o: OID, d: FdInfo, tid: int, fd: int, op: Op, ts: int, now: int)
    requires d.Ipv4?
    ensures KeyOf(NewNetFlow(o, d, tid, fd, op, ts, now)) == NetEventKey(d, tid, fd)
  {
    WidthsRecover(d.sip);
    WidthsRecover(d.sport);
    WidthsRecover(d.dip);
    WidthsRecover(d.dport);
    WidthsRecover(fd);
    WideThenNarrow(fd);
  }

  lemma NetFlowFacts(o: OID, d: FdInfo, tid: int, fd: int, op: Op, ts: int, now: int)
    requires d.Ipv4?
    ensures var f := NewNetFlow(o, d, tid, fd, op, ts, now);
            f.rec.subject.Net? && (!op.Truncate? ==> Populated(f, o, op, now)) && Needs(FlowRec(f.rec)) == {Proc(o)}
  {
  }

  lemma WideThenNarrow(x: int)
    ensures U32(U64(x)) == U32(x)
  {
    var q := x / 0x1_0000_0000_0000_0000;
    assert x == 0x1_0000_0000 * (0x1_0000_0000 * q) + U64(x);
  }

  /** The table key of a file flow: name, container, thread and descriptor, run together. */
  function FileFlowKey(name: string, container: string, tid: int, fd: int): string {
    name + container + Itoa(I32(tid)) + Itoa(I32(fd))
  }

  /** Some listed prefix ends, from some position on, as the container id begins. */
  ghost predicate Completes(container: string) {
    exists i, m :: 0 <= i < |PREFIXES| && 0 <= m < |PREFIXES[i]| && PREFIXES[i][m..] <= container
  }

  /** In the selective read mode, the test on the flow key is the test on the path for every path
      exactly when the container id does not complete a listed prefix; in particular when it has
      no slash. */
  lemma KeyTestIsPathTest(container: string, tid: int, fd: int)
    ensures (forall name :: Listed(FileFlowKey(name, container, tid, fd)) <==> Listed(name)) <==> !Completes(container)
    ensures '/' !in container ==> !Completes(container)
  {
    hide Itoa, Listed, Completes, FileFlowKey;
    if !Completes(container) {
      forall name ensures Listed(FileFlowKey(name, container, tid, fd)) <==> Listed(name) {
        KeyTestAgrees(name, container, tid, fd);
      }
    } else {
      var name := KeyTestDiffers(container, tid, fd);
    }
    if '/' !in container { SlashFreeCompletesNothing(container); }
  }

  /** Everything after the path in a flow key. */
  function KeySuffix(container: string, tid: int, fd: int): string { container + (Itoa(I32(tid)) + Itoa(I32(fd))) }

  lemma KeySplits(name: string, container: string, tid: int, fd: int)
    ensures FileFlowKey(name, container, tid, fd) == name + KeySuffix(container, tid, fd)
    ensures '/' !in Itoa(I32(tid)) + Itoa(I32(fd))
  {
    ItoaHasNoSlash(I32(tid));
    ItoaHasNoSlash(I32(fd));
  }

  lemma KeyTestAgrees(name: string, container: string, tid: int, fd: int)
    requires !Completes(container)
    ensures Listed(FileFlowKey(name, container, tid, fd)) <==> Listed(name)
  {
    hide Itoa;
    KeySplits(name, container, tid, fd);
    var digits := Itoa(I32(tid)) + Itoa(I32(fd));
    forall i | 0 <= i < |PREFIXES| ensures PREFIXES[i] <= name + (container + digits) <==> PREFIXES[i] <= name {
      if PREFIXES[i] <= name + (container + digits) { PrefixInside(PREFIXES[i], name, container, digits); }
      assert |name| < |PREFIXES[i]| ==> !(PREFIXES[i][|name|..] <= container);
    }
  }

  /** A prefix that ends in a slash either lies within the path or is completed by the container id. */
  lemma PrefixInside(p: string, name: string, container: string, digits: string)
    requires p != [] && p[|p| - 1] == '/' && '/' !in digits && p <= name + (container + digits)
    ensures p <= name || (|name| < |p| && p[|name|..] <= container)
  {
    if |p| > |name| {
      var m := |name|;
      assert p[m..] <= container + digits;
      assert p[m..][|p| - m - 1] == '/';
    }
  }

  /** A path on which the two tests disagree: the beginning of the prefix that is completed. */
  lemma KeyTestDiffers(container: string, tid: int, fd: int) returns (name: string)
    requires Completes(container)
    ensures !Listed(name) && Listed(FileFlowKey(name, container, tid, fd))
  {
    hide Itoa, FileFlowKey;
    var i, m :| 0 <= i < |PREFIXES| && 0 <= m < |PREFIXES[i]| && PREFIXES[i][m..] <= container;
    name := PREFIXES[i][..m];
    KeySplits(name, container, tid, fd);
    Completed(PREFIXES[i], m, container, Itoa(I32(tid)) + Itoa(I32(fd)));
    PartNotListed(i, m);
  }

  lemma Completed(p: string, m: nat, container: string, digits: string)
    requires m < |p| && p[m..] <= container
    ensures p <= p[..m] + (container + digits)
  {
    assert p == p[..m] + p[m..];
  }

  lemma PartNotListed(i: nat, m: nat)
    requires i < |PREFIXES| && m < |PREFIXES[i]|
    ensures !Listed(PREFIXES[i][..m])
  {
    forall j | 0 <= j < |PREFIXES| ensures !(PREFIXES[j] <= PREFIXES[i][..m]) {
      if PREFIXES[j] <= PREFIXES[i][..m] { PrefixesApart(i, j); }
    }
  }

  lemma SlashFreeCompletesNothing(container: string)
    requires '/' !in container
    ensures !Completes(container)
  {
    forall i, m | 0 <= i < |PREFIXES| && 0 <= m < |PREFIXES[i]| ensures !(PREFIXES[i][m..] <= container) {
      var rest := PREFIXES[i][m..];
      assert rest[|rest| - 1] == '/';
    }
  }

  function NewFileFlow(o: OID, d: FdInfo, filekey: string, flowkey: string, tid: int, fd: int, op: Op, ts: int,
                       now: int): DataFlow
    requires d.Resource?
  {
    DataFlow(now, now, FlowData(o, tid, I32(fd), ts, 0, {op}, ZERO,
                                File(Sha1(filekey), if op.Open? then d.openFlags else 0)), filekey, flowkey)
  }

  lemma UpdatedNeeds(f: DataFlow, op: Op, ret: int, openFlags: int, now: int)
    ensures Needs(FlowRec(Updated(f, op, ret, openFlags, now).rec)) == Needs(FlowRec(f.rec))
  {
  }

  /** Entries under a network key are network flows. */
  lemma NetEntries(x: Flux, o: OID, key: FlowKey, rank: OID -> nat, now: int)
    requires Coherent(x, rank, {}, now) && o in x.w.procs && key.NetKey?
    ensures key in x.w.procs[o].table ==> OnFile(x.w, o, key, "")
  {
    if key in x.w.procs[o].table { EntryFacts(x, o, key, rank, now); }
  }

  /** The books depend on the behaviours in the trace only. */
  lemma TotalLog(x: Flux, y: Flux)
    requires Behaviors(y.w.log) == Behaviors(x.w.log) && y.w.flows == x.w.flows
    requires y.lost == x.lost && y.w.hushed == x.w.hushed
    ensures Total(y) == Total(x)
  {
  }

  /** A file has been looked up or created: only caches and entity records have changed. */
  lemma CoherentFiles(x: Flux, y: Flux, rank: OID -> nat, now: int)
    requires Coherent(x, rank, {}, now)
    requires y == x.(w := x.w.(log := y.w.log, files := y.w.files, containers := y.w.containers))
    requires KeepsRefs(x.w.files, y.w.files) && FilesWritten(y.w.files, y.w.log)
    requires forall c :: RefsOf(y.w.containers, c) == RefsOf(x.w.containers, c)
    requires AddsEntities(x.w.log, y.w.log)
    ensures Coherent(y, rank, {}, now) && Total(y) == Total(x)
  {
    hide Homed, Closed, Declared, Indexed, PfIndexed, Timely, Behaviors, Live;
    FileRefsKeeps(x.w.files, y.w.files, x.w.flows);
    ContainerRefsSame(x.w.procs, x.w.procs, x.w.containers, y.w.containers);
  }

  /** The descriptor a file event is about, when the collector keeps flows for it. */
  function FileTarget(cfg: Config, op: Op, fd: int, d: Option<FdInfo>, mapped: Option<(int, FdInfo)>)
    : Option<(int, FdInfo)>
  {
    var target := if d.Some? then Some((fd, d.value)) else if op.Mmap? then mapped else None;
    if target.None? || !target.value.1.Resource? then None
    else if cfg.fileOnly && target.value.1.typechar != 'f' then None
    else if target.value.1.typechar in ['f', 'd', 'u', 'p'] then target
    else None
  }

  /** The file an event names. */
  function EventFile(ev: Event, d: FdInfo): string
    requires d.Resource?
  {
    ev.container.id + d.name
  }

  /** If a flow is stored under the key of this event, it is on the file of this event.  The
      key is an unseparated concatenation, so this does not follow from the key itself. */
  predicate KeyNamesFile(w: World, ev: Event, fd: int, d: FdInfo)
    requires d.Resource?
  {
    var o := OidOf(ev.task);
    var key := FileKey(FileFlowKey(d.name, ev.container.id, ev.tid, fd));
    o in w.procs && key in w.procs[o].table ==> OnFile(w, o, key, EventFile(ev, d))
  }

  /** The event makes the collector look its process up. */
  ghost predicate LooksUp(cfg: Config, ev: Event)
    requires ev.call.DataCall?
  {
    !DeedOf(cfg.(consumer := false), ev, 0).Ignore?
  }

  /** The hypotheses about a data event: its ancestry is acyclic, if it operates on a flow it does
      not open one for a process that waits for deletion, and its flow key names its file. */
  ghost predicate DataHypotheses(cfg: Config, w: World, ev: Event, rank: OID -> nat)
    requires ev.call.DataCall?
  {
    && (LooksUp(cfg, ev) ==> Climbable(w.procs, ev.task, rank, w.tidy))
    && (DeedOf(cfg, ev, 0).Operate? ==>
        && !ev.call.op.Truncate?
        && (!ev.call.op.Close? ==> forall e :: e in w.queue ==> e.oid != OidOf(ev.task))
        && var target := FileTarget(cfg, ev.call.op, ev.call.fd, ev.call.fdinfo, ev.call.mapped);
           target.Some? ==> KeyNamesFile(w, ev, target.value.0, target.value.1))
  }

  lemma KeyStillNamesFile(w: World, w': World, ev: Event, fd: int, d: FdInfo)
    requires d.Resource? && KeyNamesFile(w, ev, fd, d)
    requires KeepsFlows(w.procs, w'.procs) && w'.flows == w.flows
    ensures KeyNamesFile(w', ev, fd, d)
  {
  }

  /** Two descriptors of one process whose flows collide although their files differ: the file
      "/a1" in thread 2 and the file "/a" in thread 12, on one descriptor number. */
  lemma FlowKeysCollide(fd: int)
    ensures "/a1" != "/a" && FileFlowKey("/a1", "", 2, fd) == FileFlowKey("/a", "", 12, fd)
  {
    assert I32(2) == 2 && I32(12) == 12;
    assert Digits(0) == "" && Digits(1) == "1" && Digits(2) == "2" && Digits(12) == "12";
    hide Digits;
    assert |"/a1"| != |"/a"|;
    assert "/a1" + "" + "2" == "/a" + "" + "12";
  }

  lemma FileFlowHasKey(f: DataFlow)
    requires f.rec.subject.File?
    ensures KeyOf(f) == FileKey(f.flowkey)
  {
  }

  lemma KeptTrans(a: ProcessTable, b: ProcessTable, c: ProcessTable, births: set<(OID, Option<OID>)>)
    requires Kept(a, b, births) && Kept(b, c, {})
    ensures Kept(a, c, births)
  {
  }

  /** An event record has been written. */
  lemma CoherentEvent(x: Flux, y: Flux, r: Record, rank: OID -> nat, now: int)
    requires Coherent(x, rank, {}, now) && IsBehavior(r) && Cost(r) == ZERO
    requires y == x.(w := x.w.(log := x.w.log + [r])) && Needs(r) <= Declared(x.w.log)
    ensures Coherent(y, rank, {}, now) && Total(y) == Total(x) && Continues(x.w.log, y.w.log)
  {
    hide Homed, Indexed, PfIndexed, Timely, Live, ContainerRefs, FileRefs, Declared, Closed, Behaviors, Written;
    Append(x.w.log, r);
    CoherentLog(x, y, {}, rank, now);
    WrittenOne(Behaviors(x.w.log), r);
    PlusLaws(Written(Behaviors(x.w.log)), ZERO, ZERO);
  }

  /** What a data event adds to the counters of the collector: only operations on flows count. */
  function EventCharge(cfg: Config, ev: Event): Tally {
    if ev.call.DataCall? && DeedOf(cfg, ev, 0).Operate? then DataCharge(ev.call.op, ev.ret) else ZERO
  }

  lemma KeptRefl(a: ProcessTable, births: set<(OID, Option<OID>)>)
    ensures Kept(a, a, births)
  {
  }

  /** `y` has some of the entries of process `o` in `x`, with unchanged flows, and nothing else new. */
  ghost predicate Fewer(x: World, y: World, o: OID) {
    && o in x.procs && o in y.procs && y.procs == WithTable(x.procs, o, y.procs[o].table)
    && (forall k :: k in y.procs[o].table ==> k in x.procs[o].table && y.procs[o].table[k] == x.procs[o].table[k])
    && (forall id :: id in y.flows ==> id in x.flows && y.flows[id] == x.flows[id])
  }

  lemma FewerTrans(x: World, y: World, z: World, o: OID)
    requires Fewer(x, y, o) && Fewer(y, z, o)
    ensures Fewer(x, z, o)
  {
  }

  lemma FewerKeepsPf(x: World, y: World, o: OID)
    requires Fewer(x, y, o)
    ensures Kept(x.procs, y.procs, {})
  {
  }

  /** The flow of `k` was changed, related flows were picked off, and then it went itself. */
  lemma FewerAfter(x: World, m: World, y: World, o: OID, k: FlowKey, vec: seq<FlowId>)
    requires o in x.procs && k in x.procs[o].table && o in m.procs && o in y.procs && k in m.procs[o].table
    requires m.procs == WithTable(x.procs, o, m.procs[o].table)
    requires forall j :: j in m.procs[o].table ==> j in x.procs[o].table && m.procs[o].table[j] == x.procs[o].table[j]
    requires y.procs == WithTable(m.procs, o, m.procs[o].table - {k})
    requires y.flows.Keys == x.flows.Keys - Elems(vec) - {x.procs[o].table[k]}
    requires forall id :: id in y.flows ==> y.flows[id] == x.flows[id]
    ensures Fewer(x, y, o) && o in y.procs && k !in y.procs[o].table
  {
  }

  /** No flow of this kind left of the exiting thread (of any thread for -1), `todo` excepted. */
  ghost predicate ExitDone(w: World, o: OID, net: bool, tid: int, todo: set<FlowKey>) {
    o in w.procs && forall k :: k in w.procs[o].table && k.NetKey? == net && k !in todo ==>
      w.procs[o].table[k] in w.flows && tid != -1 && w.flows[w.procs[o].table[k]].rec.tid != tid
  }

  lemma ExitDoneFewer(x: World, y: World, o: OID, net: bool, tid: int, todo: set<FlowKey>)
    requires ExitDone(x, o, net, tid, todo) && Fewer(x, y, o)
    requires OwnKeys(y.procs[o].table, y.flows)
    ensures ExitDone(y, o, net, tid, todo)
  {
    hide KeyOf;
  }

  /** The entry under `k` is gone, or none of the exiting thread's. */
  lemma ExitDoneBut(w: World, o: OID, net: bool, tid: int, todo: set<FlowKey>, k: FlowKey)
    requires ExitDone(w, o, net, tid, todo)
    requires k in w.procs[o].table && k.NetKey? == net ==>
      w.procs[o].table[k] in w.flows && tid != -1 && w.flows[w.procs[o].table[k]].rec.tid != tid
    ensures ExitDone(w, o, net, tid, todo - {k})
  {
  }

  lemma FewerOwner(x: World, y: World, o: OID)
    requires Fewer(x, y, o)
    ensures o in x.procs && o in y.procs && y.procs == WithTable(x.procs, o, y.procs[o].table)
  {
  }

  lemma ExitStart(x: World, o: OID, net: bool, tid: int)
    requires o in x.procs
    ensures ExitDone(x, o, net, tid, x.procs[o].table.Keys)
  {
  }

  lemma ExitAll(x: World, o: OID, tid: int)
    requires ExitDone(x, o, true, tid, {}) && ExitDone(x, o, false, tid, {})
    ensures tid == -1 ==> x.procs[o].table == map[]
  {
    if tid == -1 { assert x.procs[o].table.Keys == {}; }
  }

  lemma FewerRefl(x: World, o: OID)
    requires o in x.procs
    ensures Fewer(x, x, o)
  {
  }

  // -------------------------------------------------- what an event amounts to

  /** The flows of a process; a process that is not cached has none. */
  ghost function TableOf(procs: ProcessTable, o: OID): map<FlowKey, FlowId> {
    if o in procs then procs[o].table else map[]
  }

  ghost predicate OtherTables(ps: ProcessTable, qs: ProcessTable, o: OID) {
    forall q :: q != o ==> TableOf(qs, q) == TableOf(ps, q)
  }

  ghost predicate SameTables(ps: ProcessTable, qs: ProcessTable) {
    forall q :: TableOf(qs, q) == TableOf(ps, q)
  }

  lemma KeepsTables(ps: ProcessTable, qs: ProcessTable, o: OID)
    requires KeepsFlows(ps, qs)
    ensures SameTables(ps, qs) && OtherTables(ps, qs, o) && TableOf(qs, o) == TableOf(ps, o)
  {
  }

  lemma SameTablesTrans(a: ProcessTable, b: ProcessTable, c: ProcessTable)
    requires SameTables(a, b) && SameTables(b, c)
    ensures SameTables(a, c)
  {
    forall q ensures TableOf(c, q) == TableOf(a, q) {
      assert TableOf(b, q) == TableOf(a, q);
    }
  }

  lemma SameThenOther(a: ProcessTable, b: ProcessTable, c: ProcessTable, o: OID)
    requires SameTables(a, b) && OtherTables(b, c, o)
    ensures OtherTables(a, c, o)
  {
    forall q | q != o ensures TableOf(c, q) == TableOf(a, q) {
      assert TableOf(b, q) == TableOf(a, q);
    }
  }

  lemma OneTable(ps: ProcessTable, qs: ProcessTable, o: OID)
    requires o in ps && o in qs && qs == WithTable(ps, o, qs[o].table)
    ensures OtherTables(ps, qs, o)
  {
  }

  lemma OtherTablesTrans(a: ProcessTable, b: ProcessTable, c: ProcessTable, o: OID)
    requires OtherTables(a, b, o) && OtherTables(b, c, o)
    ensures OtherTables(a, c, o)
  {
    forall q | q != o ensures TableOf(c, q) == TableOf(a, q) {
      assert TableOf(b, q) == TableOf(a, q);
    }
  }

  /** The flows `ids`, cut off at `ts`. */
  ghost function CutAll(flows: FlowHeap, ids: seq<FlowId>, ts: int): seq<DataFlow>
    requires forall id :: id in ids ==> id in flows
  {
    seq(|ids|, i requires 0 <= i < |ids| => Truncated(flows[ids[i]], ts))
  }

  /** What a close of `f` does to the table of its process, the heap and the behaviour records:
      exactly the related flows of other threads go, each offered cut off, those that saw the
      descriptor opened first; then `f` itself is offered and goes. */
  ghost predicate Shut(t: map<FlowKey, FlowId>, flows: FlowHeap, tr: Trail,
                       t': map<FlowKey, FlowId>, flows': FlowHeap, tr': Trail,
                       f: DataFlow, mode: ReadMode, ts: int, vec: seq<FlowId>)
  {
    && OpenersFirst(flows, vec)
    && (forall id :: id in vec <==> RelatedEntry(t, flows, f, id))
    && (forall k :: k in t' <==> k in t && k != KeyOf(f) && t[k] !in vec)
    && (forall k :: k in t' ==> t'[k] == t[k])
    && flows' == flows - Elems(vec) - (if KeyOf(f) in t then {t[KeyOf(f)]} else {})
    && tr' == Then(tr, mode, CutAll(flows, vec, ts) + [Ended(f, ts)])
  }

  /** What an operation does, when `f0` is the flow as it would be populated for it: a close ends
      the flow, any other operation updates it, opening it first if need be. */
  ghost predicate Worked(t: map<FlowKey, FlowId>, flows: FlowHeap, tr: Trail,
                         t': map<FlowKey, FlowId>, flows': FlowHeap, tr': Trail,
                         f0: DataFlow, op: Op, ret: int, openFlags: int, mode: ReadMode, ts: int, now: int,
                         vec: seq<FlowId>)
  {
    var k := KeyOf(f0);
    (k in t ==> t[k] in flows) &&
    var f := Updated(if k in t then flows[t[k]] else f0, op, ret, openFlags, now);
    if op.Close? then Shut(t, flows, tr, t', flows', tr', f, mode, ts, vec)
    else && k in t' && t' == t[k := t'[k]] && flows' == flows[t'[k] := f] && tr' == tr
         && (if k in t then t'[k] == t[k] else t'[k] !in flows)
  }

  /** No process is recorded by an operation. */
  lemma WorkedNamed(t: map<FlowKey, FlowId>, flows: FlowHeap, tr: Trail,
                    t': map<FlowKey, FlowId>, flows': FlowHeap, tr': Trail,
                    f0: DataFlow, op: Op, ret: int, openFlags: int, mode: ReadMode, ts: int, now: int,
                    vec: seq<FlowId>)
    requires Worked(t, flows, tr, t', flows', tr', f0, op, ret, openFlags, mode, ts, now, vec)
    ensures tr'.named == tr.named
  {
    hide KeyOf, Updated;
  }

  /** The related flows were picked from the table, then `f` itself was taken out, if it is there. */
  lemma PickedShuts(t: map<FlowKey, FlowId>, t1: map<FlowKey, FlowId>, flows: FlowHeap, tr: Trail,
                    t': map<FlowKey, FlowId>, flows': FlowHeap, tr': Trail,
                    f: DataFlow, mode: ReadMode, ts: int, vec: seq<FlowId>, gone: seq<DataFlow>)
    requires Picked(t, t1, {}, vec, flows, f)
    requires t' == t1 - {KeyOf(f)}
    requires flows' == flows - Elems(vec) - (if KeyOf(f) in t then {t[KeyOf(f)]} else {})
    requires |gone| == |vec| && forall i :: 0 <= i < |vec| ==> gone[i] == Truncated(flows[vec[i]], ts)
    requires tr' == Then(tr, mode, gone + [Ended(f, ts)])
    ensures Shut(t, flows, tr, t', flows', tr', f, mode, ts, vec)
  {
    hide KeyOf, Related, Then;
    assert gone == CutAll(flows, vec, ts);
  }

  /** What a close takes away. */
  lemma ShutGoes(t: map<FlowKey, FlowId>, flows: FlowHeap, tr': Trail, tr: Trail, t': map<FlowKey, FlowId>,
                 flows': FlowHeap, f: DataFlow, mode: ReadMode, ts: int, vec: seq<FlowId>)
    requires Shut(t, flows, tr, t', flows', tr', f, mode, ts, vec) && (KeyOf(f) in t ==> t[KeyOf(f)] in flows)
    ensures var gone := Elems(vec) + if KeyOf(f) in t then {t[KeyOf(f)]} else {};
            gone <= flows.Keys && flows'.Keys == flows.Keys - gone
  {
    hide KeyOf, Then;
  }

  /** A close first updates the flow it ends; that changes nothing for the others. */
  lemma ShutUpdated(t: map<FlowKey, FlowId>, flows: FlowHeap, tr: Trail,
                    t': map<FlowKey, FlowId>, flows': FlowHeap, tr': Trail,
                    f: DataFlow, mode: ReadMode, ts: int, vec: seq<FlowId>, id: FlowId)
    requires OwnKeys(t, flows) && KeyOf(f) in t && t[KeyOf(f)] == id && id in flows
    requires f.rec.tid == flows[id].rec.tid
    requires Shut(t, flows[id := f], tr, t', flows', tr', f, mode, ts, vec)
    ensures Shut(t, flows, tr, t', flows', tr', f, mode, ts, vec)
  {
    hide Then;
    assert !Related(flows[id], f) && !Related(f, f);
    forall x ensures RelatedEntry(t, flows, f, x) <==> RelatedEntry(t, flows[id := f], f, x) {
    }
    assert id !in vec;
    assert CutAll(flows, vec, ts) == CutAll(flows[id := f], vec, ts);
    assert flows[id := f] - Elems(vec) - {id} == flows - Elems(vec) - {id};
  }

  /** Every flow related to `f0` is also related to the flow that is stored under its key. */
  ghost predicate Reaches(t: map<FlowKey, FlowId>, flows: FlowHeap, f0: DataFlow) {
    var key := KeyOf(f0);
    var g := if key in t && t[key] in flows then flows[t[key]] else f0;
    forall k :: k in t && k != key && t[k] in flows && Related(flows[t[k]], f0) ==> Related(flows[t[k]], g)
  }

  /** A close clears the table of the process of every flow related to the event exactly when the
      flow stored under the key has the same relatives. */
  lemma CloseClearsIff(t: map<FlowKey, FlowId>, flows: FlowHeap, tr: Trail,
                       t': map<FlowKey, FlowId>, flows': FlowHeap, tr': Trail, f0: DataFlow, ret: int,
                       openFlags: int, mode: ReadMode, ts: int, now: int, vec: seq<FlowId>)
    requires OwnKeys(t, flows) && Worked(t, flows, tr, t', flows', tr', f0, Close, ret, openFlags, mode, ts, now, vec)
    ensures ClearOf(t', flows', f0) <==> Reaches(t, flows, f0)
  {
    var key := KeyOf(f0);
    var g := if key in t then flows[t[key]] else f0;
    var f := Updated(g, Close, ret, openFlags, now);
    hide KeyOf, Then, Related, RelatedEntry, Updated, OpenersFirst;
    SameKin(g, Close, ret, openFlags, now);
    forall k | k in t ensures t[k] in vec <==> Related(flows[t[k]], g) {
      OwnEntry(t, flows, f, k);
      SameKinOf(flows[t[k]], g, f);
    }
    forall k | k in t' ensures t'[k] in flows' && flows'[t'[k]] == flows[t[k]] {
      assert KeyOf(flows[t[k]]) == k;
    }
  }

  /** An update changes neither the key nor the relatives of a flow. */
  lemma SameKin(g: DataFlow, op: Op, ret: int, openFlags: int, now: int)
    ensures var f := Updated(g, op, ret, openFlags, now);
            KeyOf(f) == KeyOf(g) && f.rec.tid == g.rec.tid && f.rec.fd == g.rec.fd && f.filekey == g.filekey
  {
  }

  lemma SameKinOf(x: DataFlow, g: DataFlow, f: DataFlow)
    requires KeyOf(f) == KeyOf(g) && f.rec.tid == g.rec.tid && f.rec.fd == g.rec.fd && f.filekey == g.filekey
    ensures Related(x, f) <==> Related(x, g)
  {
  }

  /** A network flow key determines the relatives, so a close of a socket always clears. */
  lemma NetReaches(t: map<FlowKey, FlowId>, flows: FlowHeap, f0: DataFlow)
    requires OwnKeys(t, flows) && f0.rec.subject.Net?
    ensures Reaches(t, flows, f0)
  {
  }

  /** The file "/a" is open as descriptor 23 in thread 1 and as descriptor 3 in thread 5.  Both
      threads 1 and 12 have one flow key for it, so a close of descriptor 3 by thread 12 takes the
      flow of thread 1 for its own and leaves that of thread 5. */
  lemma CloseCanMiss(o: OID)
    ensures exists t: map<FlowKey, FlowId>, flows: FlowHeap, f0: DataFlow ::
      && OwnKeys(t, flows) && f0.flowkey == FileFlowKey("/a", "", 12, 3) == FileFlowKey("/a", "", 1, 23)
      && (forall k :: k in t ==> flows[t[k]].filekey == f0.filekey) && !Reaches(t, flows, f0)
  {
    SmallNumbers();
    hide Itoa, Digits;
    var one := MissFlow(o, 1, 23);
    var five := MissFlow(o, 5, 3);
    var f0 := MissFlow(o, 12, 3);
    assert "/a" + "" + "1" + "23" == "/a123" == "/a" + "" + "12" + "3";
    assert "/a" + "" + "5" + "3" == "/a53" && |"/a53"| != |"/a123"|;
    var flows: FlowHeap := map[0 := one, 1 := five];
    var t: map<FlowKey, FlowId> := map[FileKey("/a123") := 0, FileKey("/a53") := 1];
    assert OwnKeys(t, flows);
    assert FileKey("/a53") in t && Related(flows[t[FileKey("/a53")]], f0) && !Related(flows[t[FileKey("/a53")]], one);
    assert !Reaches(t, flows, f0);
  }

  function MissFlow(o: OID, tid: int, fd: int): DataFlow {
    NewFileFlow(o, Resource("/a", 'f', 0), "/a", FileFlowKey("/a", "", tid, fd), tid, fd, Open, 0, 0)
  }

  lemma SmallNumbers()
    ensures I32(1) == 1 && I32(3) == 3 && I32(5) == 5 && I32(12) == 12 && I32(23) == 23
    ensures Itoa(1) == "1" && Itoa(3) == "3" && Itoa(5) == "5" && Itoa(12) == "12" && Itoa(23) == "23"
  {
    assert Digits(0) == "" && Digits(1) == "1" && Digits(2) == "2";
  }

  /** What a data event asks for. */
  datatype Deed =
    | Ignore
    | Report(rec: Record)
    | Emit(f: DataFlow)
    | Operate(f0: DataFlow, openFlags: int)

  /** The record of a file event: one file, or two for links and renames. */
  function FileEventOf(ev: Event): Record
    requires ev.call.DataCall?
  {
    var c := ev.call;
    var one := c.op.Mkdir? || c.op.Rmdir? || c.op.Unlink?;
    var path := if one && c.fdinfo.Some? && c.fdinfo.value.Resource? then c.fdinfo.value.name else c.path1;
    FileEventRec(c.op, OidOf(ev.task), ev.tid, ev.ret, ev.ts, Sha1(ev.container.id + path),
                 if one then None else Some(Sha1(ev.container.id + c.path2)))
  }

  /** The flow an operation on a file would be populated with. */
  function FileFlowOf(ev: Event, fd: int, d: FdInfo, op: Op, now: int): DataFlow
    requires d.Resource?
  {
    NewFileFlow(OidOf(ev.task), d, EventFile(ev, d), FileFlowKey(d.name, ev.container.id, ev.tid, fd), ev.tid, fd, op,
                ev.ts, now)
  }

  /** The flow that is reported at once in consumer mode. */
  function ConsumerFlow(ev: Event, fd: int, d: FdInfo, now: int): DataFlow
    requires d.Resource?
  {
    Ended(NewFileFlow(OidOf(ev.task), d, EventFile(ev, d), "", ev.tid, fd, Open, ev.ts, now).(filekey := ""), ev.ts)
  }

  function FileDeed(cfg: Config, ev: Event, target: Option<(int, FdInfo)>, op: Op, now: int): Deed
    requires target.Some? ==> target.value.1.Resource?
  {
    if target.None? then Ignore
    else
      var (fd, d) := target.value;
      if !cfg.consumer then Operate(FileFlowOf(ev, fd, d, op, now), d.openFlags)
      else if op.Open? then Emit(ConsumerFlow(ev, fd, d, now)) else Ignore
  }

  function DeedOf(cfg: Config, ev: Event, now: int): Deed
    requires ev.call.DataCall?
  {
    var c := ev.call;
    if c.fdinfo.Some? && c.fdinfo.value.Ipv4? then
      Operate(NewNetFlow(OidOf(ev.task), c.fdinfo.value, ev.tid, c.fd, c.op, ev.ts, now), 0)
    else if cfg.noFiles || (c.fdinfo.Some? && c.fdinfo.value.Ipv6?) then Ignore
    else if IsFileEvent(c.op) then Report(FileEventOf(ev))
    else if c.fdinfo.None? && !c.op.Mmap? then Ignore
    else FileDeed(cfg, ev, FileTarget(cfg, c.op, c.fd, c.fdinfo, c.mapped), c.op, now)
  }

  /** What an event asks for depends on the clock only through the times in a new flow. */
  lemma DeedAnyTime(cfg: Config, ev: Event, now: int)
    requires ev.call.DataCall?
    ensures DeedOf(cfg, ev, now).Operate? == DeedOf(cfg, ev, 0).Operate?
    ensures DeedOf(cfg, ev, now).Operate? ==>
      DeedOf(cfg, ev, now) == Operate(DeedOf(cfg, ev, 0).f0.(exportTime := now, lastUpdate := now),
                                      DeedOf(cfg, ev, 0).openFlags)
  {
  }

  /** What a deed does to the flows and the behaviour records. */
  ghost predicate Did(deed: Deed, x: World, y: World, ev: Event, op: Op, mode: ReadMode, now: int, vec: seq<FlowId>) {
    var o := OidOf(ev.task);
    var t, t' := TableOf(x.procs, o), TableOf(y.procs, o);
    var tr, tr' := TrailBy(x, y), TrailOf(y);
    && OtherTables(x.procs, y.procs, o)
    && (!deed.Operate? ==> t' == t && y.flows == x.flows)
    && match deed
       case Ignore => tr' == tr
       case Report(r) => tr' == tr.(shown := tr.shown + [r])
       case Emit(f) => tr' == Then(tr, mode, [f])
       case Operate(f0, openFlags) =>
         Worked(t, x.flows, tr, t', y.flows, tr', f0, op, ev.ret, openFlags, mode, ev.ts, now, vec)
  }

  /** The close was complete. */
  ghost predicate ClosedFully(deed: Deed, x: World, y: World, o: OID) {
    deed.Operate? ==>
      (ClearOf(TableOf(y.procs, o), y.flows, deed.f0) <==> Reaches(TableOf(x.procs, o), x.flows, deed.f0))
  }

  lemma DidClose(deed: Deed, x: Flux, y: World, ev: Event, mode: ReadMode, rank: OID -> nat, now: int, vec: seq<FlowId>)
    requires Coherent(x, rank, {}, now) && Did(deed, x.w, y, ev, Close, mode, now, vec)
    ensures ClosedFully(deed, x.w, y, OidOf(ev.task))
  {
    hide Coherent, Worked, ClearOf, Reaches;
    var o := OidOf(ev.task);
    if o in x.w.procs { OwnKeysOf(x, o, rank, now); }
    match deed
    case Operate(f0, openFlags) =>
      CloseClearsIff(TableOf(x.w.procs, o), x.w.flows, TrailBy(x.w, y), TableOf(y.procs, o), y.flows, TrailOf(y),
                     f0, ev.ret, openFlags, mode, ev.ts, now, vec);
    case _ =>
  }

  lemma DidNothing(x: World, ev: Event, op: Op, mode: ReadMode, now: int, vec: seq<FlowId>)
    ensures Did(Ignore, x, x, ev, op, mode, now, vec)
  {
  }

  /** The process and its file were looked up before the operation. */
  lemma DidAfter(x: World, m: World, y: World, ev: Event, f0: DataFlow, op: Op, openFlags: int, mode: ReadMode,
                 now: int, vec: seq<FlowId>)
    requires KeepsFlows(x.procs, m.procs) && m.flows == x.flows && TrailOf(m) == TrailBy(x, y)
    requires var o := OidOf(ev.task);
             && o in m.procs && o in y.procs && y.procs == WithTable(m.procs, o, y.procs[o].table)
             && Worked(m.procs[o].table, m.flows, TrailOf(m), y.procs[o].table, y.flows, TrailOf(y),
                       f0, op, ev.ret, openFlags, mode, ev.ts, now, vec)
    ensures Did(Operate(f0, openFlags), x, y, ev, op, mode, now, vec)
  {
    hide Worked, KeepsFlows;
    var o := OidOf(ev.task);
    KeepsTables(x.procs, m.procs, o);
    OneTable(m.procs, y.procs, o);
    OtherTablesTrans(x.procs, m.procs, y.procs, o);
  }

  /** Only records were written. */
  lemma DidWrite(deed: Deed, x: World, y: World, ev: Event, op: Op, mode: ReadMode, now: int, vec: seq<FlowId>)
    requires !deed.Operate? && KeepsFlows(x.procs, y.procs) && y.flows == x.flows
    requires TrailOf(y) == match deed {
                             case Report(r) => TrailBy(x, y).(shown := TrailOf(x).shown + [r])
                             case Emit(f) => Then(TrailBy(x, y), mode, [f])
                             case _ => TrailBy(x, y)
                           }
    ensures Did(deed, x, y, ev, op, mode, now, vec)
  {
    KeepsTables(x.procs, y.procs, OidOf(ev.task));
  }

  /** The flow `id` of the process is related to its flow `j`, which belongs to thread `tid`. */
  ghost predicate KinOf(flows: FlowHeap, o: OID, tid: int, id: FlowId, j: FlowId) {
    && id in flows && j in flows && flows[id].rec.procOID == o && flows[j].rec.procOID == o
    && flows[j].rec.tid == tid && Related(flows[id], flows[j])
  }

  /** The flow ends with the exit of thread `tid` of the process, or of the process (`tid == -1`):
      it belongs to the thread, or is related to a flow that does. */
  ghost predicate Leaves(flows: FlowHeap, o: OID, tid: int, id: FlowId) {
    && id in flows && flows[id].rec.procOID == o
    && (tid == -1 || flows[id].rec.tid == tid || exists j :: KinOf(flows, o, tid, id, j))
  }

  /** Only flows that end with the thread are among `gone`, and its own flows with all their kin. */
  ghost predicate Took(flows: FlowHeap, o: OID, tid: int, gone: seq<FlowId>) {
    && (forall id :: id in gone ==> Leaves(flows, o, tid, id))
    && (tid != -1 ==> forall id, j :: j in gone && KinOf(flows, o, tid, id, j) ==> id in gone)
  }

  lemma TookNone(flows: FlowHeap, o: OID, tid: int)
    ensures Took(flows, o, tid, [])
  {
  }

  /** A flow of the thread goes, after its relatives `vec`. */
  lemma TookOne(flows: FlowHeap, o: OID, tid: int, vec: seq<FlowId>, id: FlowId)
    requires id in flows && flows[id].rec.procOID == o && (tid == -1 || flows[id].rec.tid == tid)
    requires if tid == -1 then vec == []
             else forall j :: j in vec <==> j in flows && flows[j].rec.procOID == o && Related(flows[j], flows[id])
    ensures Took(flows, o, tid, vec + [id])
  {
    hide Related;
    forall j | j in vec ensures Leaves(flows, o, tid, j) {
      assert KinOf(flows, o, tid, j, id);
    }
    forall i, j | tid != -1 && j in vec + [id] && KinOf(flows, o, tid, i, j) ensures i in vec + [id] {
      if j in vec { OtherThread(flows[j], flows[id]); }
    }
  }

  lemma OtherThread(g: DataFlow, f: DataFlow)
    requires Related(g, f)
    ensures g.rec.tid != f.rec.tid
  {
  }

  lemma TookTrans(x: FlowHeap, y: FlowHeap, o: OID, tid: int, a: seq<FlowId>, b: seq<FlowId>)
    requires Took(x, o, tid, a) && Took(y, o, tid, b)
    requires forall id :: id in a <==> id in x && id !in y
    requires forall id :: id in y ==> id in x && y[id] == x[id]
    ensures Took(x, o, tid, a + b)
  {
    hide Related;
    forall id | id in b ensures Leaves(x, o, tid, id) {
      if tid != -1 && y[id].rec.tid != tid {
        var j :| KinOf(y, o, tid, id, j);
        assert KinOf(x, o, tid, id, j);
      }
    }
    forall id, j | tid != -1 && j in a + b && KinOf(x, o, tid, id, j) ensures id in a + b {
      if j in b && id !in a { assert KinOf(y, o, tid, id, j); }
    }
  }

  /** Once no flow of the thread is left, exactly the flows that end with it are gone. */
  lemma TookAll(x: World, y: Flux, o: OID, tid: int, gone: seq<FlowId>, rank: OID -> nat, now: int)
    requires Took(x.flows, o, tid, gone) && Coherent(y, rank, {}, now)
    requires ExitDone(y.w, o, true, tid, {}) && ExitDone(y.w, o, false, tid, {})
    requires forall id :: id in gone <==> id in x.flows && id !in y.w.flows
    requires forall id :: id in y.w.flows ==> id in x.flows && y.w.flows[id] == x.flows[id]
    ensures forall id :: id in gone <==> Leaves(x.flows, o, tid, id)
  {
    hide Related, KeyOf, Coherent, ExitDone;
    forall id | Leaves(x.flows, o, tid, id) ensures id in gone {
      if id in y.w.flows { NoneLeft(y, o, tid, id, rank, now); }
      if tid != -1 && x.flows[id].rec.tid != tid {
        var j :| KinOf(x.flows, o, tid, id, j);
        if j in y.w.flows { NoneLeft(y, o, tid, j, rank, now); }
      }
    }
  }

  lemma NoneLeft(y: Flux, o: OID, tid: int, id: FlowId, rank: OID -> nat, now: int)
    requires Coherent(y, rank, {}, now) && id in y.w.flows && y.w.flows[id].rec.procOID == o
    requires ExitDone(y.w, o, true, tid, {}) && ExitDone(y.w, o, false, tid, {})
    ensures tid != -1 && y.w.flows[id].rec.tid != tid
  {
    hide KeyOf, Indexed, Timely, PfIndexed, ContainerRefs, FileRefs, Closed, Declared;
    assert InTable(y.w.procs, y.w.flows[id], id);
  }

  /** The flows picked from the table of a process are all its flows related to `f`. */
  lemma PickedKin(x: Flux, o: OID, table: map<FlowKey, FlowId>, vec: seq<FlowId>, f: DataFlow, rank: OID -> nat,
                  now: int)
    requires Coherent(x, rank, {}, now) && o in x.w.procs
    requires Picked(x.w.procs[o].table, table, {}, vec, x.w.flows, f)
    ensures forall j :: j in vec <==> j in x.w.flows && x.w.flows[j].rec.procOID == o && Related(x.w.flows[j], f)
  {
    hide KeyOf, Related, Indexed, Timely, PfIndexed, ContainerRefs, FileRefs, Closed, Declared, OpenersFirst, OwnKeys;
    forall j ensures j in vec <==> j in x.w.flows && x.w.flows[j].rec.procOID == o && Related(x.w.flows[j], f) {
      if j in x.w.flows { assert InTable(x.w.procs, x.w.flows[j], j); }
    }
    assert EntriesLive(x.w.procs, x.w.flows, {});
  }

  /** Marking the end of a flow changes nothing for its relatives. */
  lemma KinOfEnded(flows: FlowHeap, o: OID, vec: seq<FlowId>, id: FlowId, ts: int)
    requires id in flows
    requires var m := flows[id := Ended(flows[id], ts)];
             forall j :: j in vec <==> j in m && m[j].rec.procOID == o && Related(m[j], m[id])
    ensures forall j :: j in vec <==> j in flows && flows[j].rec.procOID == o && Related(flows[j], flows[id])
  {
    hide Related;
    var f := flows[id];
    SameKey(f, ts);
    NotRelatedToItself(f);
    NotRelatedToItself(Ended(f, ts));
    forall j | j in flows && j != id ensures Related(flows[j], Ended(f, ts)) <==> Related(flows[j], f) {
      SameKinOf(flows[j], f, Ended(f, ts));
    }
  }

  /** Exit: exactly the flows `gone` were offered, in this order, cut off. */
  ghost predicate Departed(x: World, y: World, gone: seq<FlowId>, mode: ReadMode, ts: int) {
    && NoDup(gone)
    && (forall id :: id in gone <==> id in x.flows && id !in y.flows)
    && (forall id :: id in y.flows ==> id in x.flows && y.flows[id] == x.flows[id])
    && TrailOf(y) == Then(TrailOf(x), mode, CutAll(x.flows, gone, ts))
  }

  /** The flow `id` goes after its relatives `vec`. */
  lemma DepartedOne(x: World, y: World, vec: seq<FlowId>, id: FlowId, g: DataFlow, mode: ReadMode, ts: int)
    requires id in x.flows && id !in vec && (forall j :: j in vec ==> j in x.flows)
    requires NoDup(vec)
    requires y.flows.Keys == x.flows.Keys - Elems(vec) - {id} && forall j :: j in y.flows ==> y.flows[j] == x.flows[j]
    requires TrailOf(y) == Then(TrailOf(x), mode, CutAll(x.flows[id := g], vec, ts) + [Truncated(x.flows[id], ts)])
    ensures Departed(x, y, vec + [id], mode, ts)
  {
    hide Behaviors, Then;
    assert CutAll(x.flows, vec + [id], ts) == CutAll(x.flows[id := g], vec, ts) + [Truncated(x.flows[id], ts)];
  }

  /** The relatives `vec` of a flow have gone, then the flow itself. */
  lemma Retired(x: World, m: World, y: World, o: OID, k: FlowKey, vec: seq<FlowId>, mode: ReadMode, ts: int)
    requires o in x.procs && k in x.procs[o].table && x.procs[o].table[k] in x.flows
    requires o in m.procs && k in m.procs[o].table && m.procs == WithTable(x.procs, o, m.procs[o].table)
    requires forall j :: j in m.procs[o].table ==> j in x.procs[o].table && m.procs[o].table[j] == x.procs[o].table[j]
    requires var id := x.procs[o].table[k];
             var marked := x.flows[id := Ended(x.flows[id], ts)];
             && NoDup(vec) && id !in vec && (forall j :: j in vec ==> j in x.flows) && m.flows == marked - Elems(vec)
             && TrailOf(m) == Then(TrailOf(x), mode, CutAll(marked, vec, ts)) && y.flows == m.flows - {id}
             && TrailOf(y) == Then(TrailOf(m), mode, [Truncated(x.flows[id], ts)])
    requires o in y.procs && y.procs == WithTable(m.procs, o, m.procs[o].table - {k})
    ensures Fewer(x, y, o) && k !in y.procs[o].table && Departed(x, y, vec + [x.procs[o].table[k]], mode, ts)
  {
    hide Fewer, Departed, Then, Behaviors, Recorded, NoDup;
    var id := x.procs[o].table[k];
    var g := Ended(x.flows[id], ts);
    assert y.flows.Keys == x.flows.Keys - Elems(vec) - {id};
    ThenThen(TrailOf(x), mode, CutAll(x.flows[id := g], vec, ts), [Truncated(x.flows[id], ts)]);
    FewerAfter(x, m, y, o, k, vec);
    DepartedOne(x, y, vec, id, g, mode, ts);
  }

  lemma NoOffers(mode: ReadMode, flows: FlowHeap, ts: int, tr: Trail)
    ensures Then(tr, mode, CutAll(flows, [], ts)) == tr
  {
    assert CutAll(flows, [], ts) == [];
  }

  lemma DepartedMeans(x: World, y: World, gone: seq<FlowId>, mode: ReadMode, ts: int)
    requires Departed(x, y, gone, mode, ts)
    ensures forall id :: id in gone <==> id in x.flows && id !in y.flows
    ensures forall id :: id in y.flows ==> id in x.flows && y.flows[id] == x.flows[id]
    ensures y.flows == x.flows - Elems(gone) && NoDup(gone)
    ensures TrailOf(y) == Then(TrailOf(x), mode, CutAll(x.flows, gone, ts)) && Recorded(y.log) == Recorded(x.log)
  {
  }

  lemma ExitDoneSame(x: World, y: World, o: OID, tid: int)
    requires y.procs == x.procs && y.flows == x.flows
    ensures ExitDone(x, o, true, tid, {}) ==> ExitDone(y, o, true, tid, {})
    ensures ExitDone(x, o, false, tid, {}) ==> ExitDone(y, o, false, tid, {})
  {
  }

  lemma DepartedRefl(x: World, mode: ReadMode, ts: int)
    ensures Departed(x, x, [], mode, ts)
  {
    NoOffers(mode, x.flows, ts, TrailOf(x));
  }

  lemma DepartedTrans(x: World, y: World, z: World, a: seq<FlowId>, b: seq<FlowId>, mode: ReadMode, ts: int)
    requires Departed(x, y, a, mode, ts) && Departed(y, z, b, mode, ts)
    ensures Departed(x, z, a + b, mode, ts)
  {
    hide Behaviors, Then;
    assert CutAll(x.flows, a + b, ts) == CutAll(x.flows, a, ts) + CutAll(y.flows, b, ts);
    ThenThen(TrailOf(x), mode, CutAll(x.flows, a, ts), CutAll(y.flows, b, ts));
  }

  // ---------------------------------------------------- the index of the flows

  /** The index follows the heap: entries of flows that went are gone, the others keep their order,
      and a new flow goes in by its time, behind those of the same time. */
  ghost predicate Reindexed(x: FlowHeap, i: seq<Entry<FlowId>>, y: FlowHeap, j: seq<Entry<FlowId>>) {
    if y.Keys <= x.Keys then j == Without(i, x.Keys - y.Keys)
    else exists id :: id in y && id !in x && j == Insert(i, Entry(y[id].exportTime, id))
  }

  lemma ReindexedBy(x: FlowHeap, i: seq<Entry<FlowId>>, y: FlowHeap, j: seq<Entry<FlowId>>, gone: set<FlowId>)
    requires gone <= x.Keys && y.Keys == x.Keys - gone && j == Without(i, gone)
    ensures Reindexed(x, i, y, j)
  {
    assert x.Keys - y.Keys == gone;
  }

  lemma ReindexedSame(x: FlowHeap, y: FlowHeap, i: seq<Entry<FlowId>>)
    requires y.Keys == x.Keys
    ensures Reindexed(x, i, y, i)
  {
    WithoutNone(i, {});
    ReindexedBy(x, i, y, i, {});
  }

  lemma ReindexedNew(x: FlowHeap, i: seq<Entry<FlowId>>, id: FlowId, f: DataFlow)
    requires id !in x
    ensures Reindexed(x, i, x[id := f], Insert(i, Entry(f.exportTime, id)))
  {
    hide Insert;
    var y := x[id := f];
    assert id in y && id !in x && y[id] == f && !(y.Keys <= x.Keys);
  }

  lemma ElemsConcat(a: seq<FlowId>, b: seq<FlowId>)
    ensures Elems(a + b) == Elems(a) + Elems(b)
  {
  }

  lemma IndexDistinct(index: seq<Entry<FlowId>>, flows: FlowHeap)
    requires Indexed(index, flows)
    ensures Distinct(index)
  {
  }

  /** The entries a scan puts back, in the order of the index. */
  function Renewals(index: seq<Entry<FlowId>>, flows: FlowHeap, now: int): seq<Entry<FlowId>>
    requires forall e :: e in index ==> e.id in flows
  {
    if index == [] then []
    else
      var e := index[|index| - 1];
      Renewals(index[..|index| - 1], flows, now) + if FateOf(flows[e.id], now) == Export then [Entry(now, e.id)] else []
  }

  /** The entries a scan leaves alone, in the order of the index. */
  function Staying(index: seq<Entry<FlowId>>, flows: FlowHeap, now: int): seq<Entry<FlowId>>
    requires forall e :: e in index ==> e.id in flows
  {
    if index == [] then []
    else
      var e := index[|index| - 1];
      Staying(index[..|index| - 1], flows, now) + if FateOf(flows[e.id], now) == Keep then [e] else []
  }

  lemma RenewalsAppend(index: seq<Entry<FlowId>>, flows: FlowHeap, n: nat, now: int)
    requires n < |index| && forall e :: e in index ==> e.id in flows
    ensures Renewals(index[..n + 1], flows, now)
            == Renewals(index[..n], flows, now)
               + if FateOf(flows[index[n].id], now) == Export then [Entry(now, index[n].id)] else []
  {
    assert index[..n + 1][..n] == index[..n];
  }

  /** When exactly the first `n` are due, they are what goes to the end. */
  lemma {:induction false} StayingIs(index: seq<Entry<FlowId>>, flows: FlowHeap, n: nat, now: int)
    requires n <= |index| && forall e :: e in index ==> e.id in flows
    requires forall i :: 0 <= i < |index| ==> (FateOf(flows[index[i].id], now) == Keep <==> n <= i)
    ensures Staying(index, flows, now) == index[n..]
    ensures Renewals(index, flows, now) == Renewals(index[..n], flows, now)
    decreases |index|
  {
    var m := |index| - 1;
    if n == |index| {
      assert index[..n] == index && index[n..] == [];
      if index != [] { NoneStay(index, flows, now); }
    } else {
      StayingIs(index[..m], flows, n, now);
      assert index[..m][..n] == index[..n] && index[..m][n..] + [index[m]] == index[n..];
    }
  }

  lemma {:induction false} NoneStay(index: seq<Entry<FlowId>>, flows: FlowHeap, now: int)
    requires forall e :: e in index ==> e.id in flows && FateOf(flows[e.id], now) != Keep
    ensures Staying(index, flows, now) == []
  {
    if index != [] { NoneStay(index[..|index| - 1], flows, now); }
  }

  // --------------------------------------------------------------- the scan

  /** The heap once the flows `done` have met their fate. */
  ghost function Scanned(flows: FlowHeap, done: set<FlowId>, now: int, nowNs: int): FlowHeap {
    map id | id in flows && (id in done ==> FateOf(flows[id], now) != Expire) ::
      if id in done then Renewed(flows[id], now, nowNs) else flows[id]
  }

  ghost function DueSet(flows: FlowHeap, now: int): set<FlowId> {
    set id | id in flows && Due(flows[id], now)
  }

  /** The flows a scan exports, in the order of the index, as they are offered. */
  function Exported(index: seq<Entry<FlowId>>, flows: FlowHeap, now: int, nowNs: int): seq<DataFlow>
    requires forall e :: e in index ==> e.id in flows
  {
    if index == [] then []
    else
      var f := flows[index[|index| - 1].id];
      Exported(index[..|index| - 1], flows, now, nowNs)
      + (if FateOf(f, now) == Export then [Ended(f, nowNs)] else [])
  }

  lemma ExportedAppend(index: seq<Entry<FlowId>>, flows: FlowHeap, i: nat, now: int, nowNs: int)
    requires i < |index| && forall e :: e in index ==> e.id in flows
    ensures Exported(index[..i + 1], flows, now, nowNs)
            == Exported(index[..i], flows, now, nowNs)
               + (if FateOf(flows[index[i].id], now) == Export then [Ended(flows[index[i].id], nowNs)] else [])
  {
    assert index[..i + 1][..i] == index[..i];
  }

  /** The index after `n` due flows have been handled: what is left of it, then renewed flows. */
  ghost predicate HeadsOff(index0: seq<Entry<FlowId>>, index: seq<Entry<FlowId>>, n: nat, now: int) {
    && n <= |index0| && |index0| - n <= |index|
    && index[..|index0| - n] == index0[n..]
    && (forall i :: |index0| - n <= i < |index| ==> index[i].time == now)
  }

  /** When the head is not due, every due flow has been handled: stopping early is a full scan. */
  lemma EarlyStopIsFull(index0: seq<Entry<FlowId>>, index: seq<Entry<FlowId>>, flows: FlowHeap, n: nat, now: int)
    requires Indexed(index0, flows) && HeadsOff(index0, index, n, now)
    requires forall i :: 0 <= i < n ==> now - index0[i].time >= EXPORT_INTERVAL
    requires index == [] || now - index[0].time < EXPORT_INTERVAL
    ensures Ids(index0[..n]) == DueSet(flows, now) && n == |DueSet(flows, now)|
    ensures forall i :: n <= i < |index0| ==> FateOf(flows[index0[i].id], now) == Keep
  {
    hide Ids, DueSet, Due;
    IndexedAll(index0, flows);
    RestNotDue(index0, index, n, now);
    FirstAreDue(index0, flows, n, now);
    SizeIsCount(index0[..n]);
  }

  /** When the times of the first `n` entries are due and the others are not, so are the flows. */
  lemma FirstAreDue(index: seq<Entry<FlowId>>, flows: FlowHeap, n: nat, now: int)
    requires n <= |index|
    requires forall i :: 0 <= i < |index| ==> index[i].id in flows && index[i].time == flows[index[i].id].exportTime
    requires forall id :: id in flows ==> exists i :: 0 <= i < |index| && index[i].id == id
    requires forall i :: 0 <= i < n ==> now - index[i].time >= EXPORT_INTERVAL
    requires forall i :: n <= i < |index| ==> now - index[i].time < EXPORT_INTERVAL
    ensures Ids(index[..n]) == DueSet(flows, now)
    ensures forall i :: n <= i < |index| ==> FateOf(flows[index[i].id], now) == Keep
  {
    forall id | id in DueSet(flows, now) ensures id in Ids(index[..n]) {
      var i :| 0 <= i < |index| && index[i].id == id;
      assert index[..n][i] == index[i];
    }
  }

  lemma RestNotDue(index0: seq<Entry<FlowId>>, index: seq<Entry<FlowId>>, n: nat, now: int)
    requires Sorted(index0) && HeadsOff(index0, index, n, now)
    requires index == [] || now - index[0].time < EXPORT_INTERVAL
    ensures forall i :: n <= i < |index0| ==> now - index0[i].time < EXPORT_INTERVAL
  {
    if n < |index0| { assert index[0] == index0[n]; }
  }

  /** A full scan: due flows expire or are renewed, the others are untouched. */
  ghost function FullScan(flows: FlowHeap, now: int, nowNs: int): FlowHeap {
    map id | id in flows && FateOf(flows[id], now) != Expire ::
      if FateOf(flows[id], now) == Export then Renewed(flows[id], now, nowNs) else flows[id]
  }

  lemma ScannedAll(flows: FlowHeap, now: int, nowNs: int)
    ensures Scanned(flows, DueSet(flows, now), now, nowNs) == FullScan(flows, now, nowNs)
  {
  }

  lemma ScannedStep(flows: FlowHeap, done: set<FlowId>, id: FlowId, now: int, nowNs: int)
    requires id in flows && id !in done && Due(flows[id], now)
    ensures var cur := Scanned(flows, done, now, nowNs);
            && id in cur && cur[id] == flows[id]
            && Scanned(flows, done + {id}, now, nowNs)
               == if FateOf(flows[id], now) == Expire then cur - {id} else cur[id := Renewed(flows[id], now, nowNs)]
  {
  }

  /** After a full scan nothing is due. */
  lemma ScanRefreshes(flows: FlowHeap, now: int, nowNs: int)
    requires now > 0
    ensures Fresh(FullScan(flows, now, nowNs), now)
  {
  }

  /** The progress of a scan over `x`: the first `n` entries of the index are done. */
  ghost predicate Progress(x: Flux, y: Flux, n: nat, mode: ReadMode, now: int, nowNs: int)
    requires Indexed(x.index, x.w.flows)
  {
    IndexedAll(x.index, x.w.flows);
    && HeadsOff(x.index, y.index, n, now)
    && y.index == x.index[n..] + Renewals(x.index[..n], x.w.flows, now)
    && (forall i :: 0 <= i < n ==> now - x.index[i].time >= EXPORT_INTERVAL)
    && y.w.flows == Scanned(x.w.flows, Ids(x.index[..n]), now, nowNs)
    && Continues(x.w.log, y.w.log)
    && TrailOf(y.w) == Then(TrailBy(x.w, y.w), mode, Exported(x.index[..n], x.w.flows, now, nowNs))
  }

  /** The head of the index is the next flow to be handled, untouched so far. */
  lemma NextHead(x: Flux, y: Flux, n: nat, mode: ReadMode, now: int, nowNs: int)
    requires Indexed(x.index, x.w.flows) && Progress(x, y, n, mode, now, nowNs)
    requires y.index != [] && now - y.index[0].time >= EXPORT_INTERVAL
    ensures n < |x.index| && y.index[0] == x.index[n]
    ensures var id := x.index[n].id;
            && id in x.w.flows && id in y.w.flows && y.w.flows[id] == x.w.flows[id]
            && Due(x.w.flows[id], now)
            && Ids(x.index[..n + 1]) == Ids(x.index[..n]) + {id}
            && Scanned(x.w.flows, Ids(x.index[..n + 1]), now, nowNs)
               == if FateOf(x.w.flows[id], now) == Expire then y.w.flows - {id}
                  else y.w.flows[id := Renewed(x.w.flows[id], now, nowNs)]
  {
    hide Behaviors, Then, Exported, Declared, Scanned;
    IndexedAll(x.index, x.w.flows);
    assert y.index[0].time != now;
    assert y.index[0] == x.index[n..][0];
    var id := x.index[n].id;
    assert x.index[..n + 1] == x.index[..n] + [x.index[n]];
    IdsSnoc(x.index[..n], x.index[n]);
    assert id !in Ids(x.index[..n]);
    ScannedStep(x.w.flows, Ids(x.index[..n]), id, now, nowNs);
  }

  /** Renewing the head appends it: no entry is later than now. */
  lemma RenewedGoesLast<T>(index: seq<Entry<T>>, id: T, now: int)
    requires index != [] && forall i :: 0 <= i < |index| ==> index[i].time <= now
    ensures Insert(index[1..], Entry(now, id)) == index[1..] + [Entry(now, id)]
  {
  }

  lemma HeadsOffNext(index0: seq<Entry<FlowId>>, index: seq<Entry<FlowId>>, n: nat, now: int, id: FlowId)
    requires HeadsOff(index0, index, n, now) && n < |index0|
    ensures HeadsOff(index0, index[1..], n + 1, now)
    ensures HeadsOff(index0, index[1..] + [Entry(now, id)], n + 1, now)
  {
    var m := |index0| - n;
    assert index[..m][1..] == index[1..m];
    assert index[1..][..m - 1] == index[1..m] == index0[n + 1..];
    assert (index[1..] + [Entry(now, id)])[..m - 1] == index[1..][..m - 1];
  }

  lemma KeepsFlowsKeepsPf(ps: ProcessTable, qs: ProcessTable)
    requires KeepsFlows(ps, qs)
    ensures PfKept(ps, qs)
  {
  }

  lemma HonestWorld(x: Flux, rank: OID -> nat, now: int)
    requires Coherent(x, rank, {}, now)
    ensures Honest(x.w.flows, x.w.procs) && Timely(x.w.flows, now)
  {
  }

  lemma OneOff(index: seq<Entry<FlowId>>, n: nat, rest: seq<Entry<FlowId>>, e: Entry<FlowId>)
    requires n < |index|
    ensures (index[n..] + rest)[1..] == index[n + 1..] + rest
    ensures (index[n..] + rest)[1..] + [e] == index[n + 1..] + (rest + [e]) && rest + [] == rest
  {
  }

  /** Handling the head of the index, as its fate says, is one more step of the scan. */
  lemma ProgressNext(x: Flux, y: Flux, z: Flux, n: nat, mode: ReadMode, now: int, nowNs: int)
    requires Indexed(x.index, x.w.flows) && Progress(x, y, n, mode, now, nowNs) && Continues(y.w.log, z.w.log)
    requires y.index != [] && now - y.index[0].time >= EXPORT_INTERVAL && y.index[0].id in y.w.flows
    requires forall i :: 0 <= i < |y.index| ==> y.index[i].time <= now
    requires var id, f := y.index[0].id, y.w.flows[y.index[0].id];
             if now - f.lastUpdate >= EXPIRE_INTERVAL
             then && z.w.flows == y.w.flows - {id} && z.index == y.index[1..]
                  && TrailOf(z.w) == TrailBy(y.w, z.w)
             else && z.w.flows == y.w.flows[id := Renewed(f, now, nowNs)]
                  && z.index == Insert(y.index[1..], Entry(now, id))
                  && TrailOf(z.w) == Then(TrailBy(y.w, z.w), mode, [Ended(f, nowNs)])
    ensures Progress(x, z, n + 1, mode, now, nowNs)
  {
    hide Behaviors, Then, Exported, Declared, Scanned, HeadsOff, Insert, Indexed, Renewals;
    NextHead(x, y, n, mode, now, nowNs);
    IndexedAll(x.index, x.w.flows);
    var id := y.index[0].id;
    var f := y.w.flows[id];
    ExportedAppend(x.index, x.w.flows, n, now, nowNs);
    HeadsOffNext(x.index, y.index, n, now, id);
    RenewedGoesLast(y.index, id, now);
    RenewalsAppend(x.index, x.w.flows, n, now);
    OneOff(x.index, n, Renewals(x.index[..n], x.w.flows, now), Entry(now, id));
    var done := Exported(x.index[..n], x.w.flows, now, nowNs);
    assert done + [] == done;
    ThenNamed(TrailBy(x.w, y.w), mode, done, Recorded(z.w.log));
    ThenThen(TrailBy(x.w, z.w), mode, done, [Ended(f, nowNs)]);
  }

  /** No entry of the index is later than now. */
  lemma IndexPast(x: Flux, rank: OID -> nat, now: int)
    requires Coherent(x, rank, {}, now)
    ensures forall i :: 0 <= i < |x.index| ==> x.index[i].time <= now
  {
    hide Consistent;
    IndexedAll(x.index, x.w.flows);
  }

  /** The records of a scan: the exported flows in the order of the index. */
  ghost predicate FlowsOfScan(x: Flux, y: Flux, mode: ReadMode, now: int, nowNs: int)
    requires forall e :: e in x.index ==> e.id in x.w.flows
  {
    && TrailOf(y.w) == Then(TrailBy(x.w, y.w), mode, Exported(x.index, x.w.flows, now, nowNs))
    && y.index == Staying(x.index, x.w.flows, now) + Renewals(x.index, x.w.flows, now)
  }

  lemma ScanStart(x: Flux, mode: ReadMode, now: int, nowNs: int)
    requires Indexed(x.index, x.w.flows)
    ensures Progress(x, x, 0, mode, now, nowNs)
  {
    hide Behaviors, Declared;
    assert x.index[..0] == [] && x.index[0..] == x.index && x.index[..|x.index|] == x.index;
    assert Scanned(x.w.flows, {}, now, nowNs) == x.w.flows;
  }

  /** Flows that are kept add nothing to the exported ones. */
  lemma {:induction false} RestNotExported(index: seq<Entry<FlowId>>, flows: FlowHeap, n: nat, now: int, nowNs: int)
    requires n <= |index| && forall e :: e in index ==> e.id in flows
    requires forall i :: n <= i < |index| ==> FateOf(flows[index[i].id], now) == Keep
    ensures Exported(index, flows, now, nowNs) == Exported(index[..n], flows, now, nowNs)
    decreases |index|
  {
    if n == |index| {
      assert index[..n] == index;
    } else {
      var m := |index| - 1;
      RestNotExported(index[..m], flows, n, now, nowNs);
      assert index[..m][..n] == index[..n];
    }
  }

  lemma ScanEnd(x: Flux, y: Flux, n: nat, mode: ReadMode, now: int, nowNs: int)
    requires Indexed(x.index, x.w.flows) && Progress(x, y, n, mode, now, nowNs)
    requires y.index == [] || now - y.index[0].time < EXPORT_INTERVAL
    ensures y.w.flows == FullScan(x.w.flows, now, nowNs) && n == |DueSet(x.w.flows, now)|
    ensures (forall e :: e in x.index ==> e.id in x.w.flows) && FlowsOfScan(x, y, mode, now, nowNs)
    ensures Continues(x.w.log, y.w.log)
  {
    hide Behaviors, Declared, Exported, Then, Scanned, FullScan, DueSet, Staying, Renewals;
    IndexedAll(x.index, x.w.flows);
    EarlyStopIsFull(x.index, y.index, x.w.flows, n, now);
    ScannedAll(x.w.flows, now, nowNs);
    RestNotExported(x.index, x.w.flows, n, now, nowNs);
    forall i | 0 <= i < |x.index| ensures FateOf(x.w.flows[x.index[i].id], now) == Keep <==> n <= i {
    }
    StayingIs(x.index, x.w.flows, n, now);
  }
}
