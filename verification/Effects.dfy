/**
  What data events, scans and the flush at shutdown do, field by field: a second account of the
  specification, in terms of the fields of events, flows and records alone.
 */
module Effects {
  import opened Types
  import opened Trace
  import opened TimeSet
  import opened Invariants
  import opened Pruning
  import opened ProcessState
  import opened ReadOnlyFiles
  import opened Shutdown
  import opened FlowState

  // ------------------------------------------------------------ what is recorded

  /** The elements of `s` that are in `keep`, in order. */
  function Only<T(==)>(s: seq<T>, keep: set<T>): seq<T> {
    if s == [] then []
    else
      var last := s[|s| - 1];
      Only(s[..|s| - 1], keep) + if last in keep then [last] else []
  }

  lemma {:induction false} OnlyIs<T(!new)>(s: seq<T>, keep: set<T>)
    ensures forall x :: x in Only(s, keep) <==> x in s && x in keep
    ensures NoDup(s) ==> NoDup(Only(s, keep))
  {
    if s != [] {
      var front := s[..|s| - 1];
      OnlyIs(front, keep);
      assert s == front + [s[|s| - 1]];
      assert NoDup(s) ==> NoDup(front) && s[|s| - 1] !in front;
    }
  }

  /** Something happened besides the cut. */
  ghost predicate Busy(opFlags: set<Op>) { exists op :: op in opFlags && op != Truncate }

  lemma BusyOrIdle(opFlags: set<Op>)
    ensures Busy(opFlags) <==> !Idle(opFlags)
    ensures Busy(opFlags + {Truncate}) <==> Busy(opFlags)
  {
    if !Busy(opFlags) { assert forall op :: op in opFlags ==> op == Truncate; }
    if Busy(opFlags) {
      var op :| op in opFlags && op != Truncate;
      assert op in opFlags + {Truncate};
    }
  }

  /** Kept out of the trace: a file flow that was opened read-only or only read from, and in the
      selective mode only below one of the system directories. */
  predicate KeptOut(mode: ReadMode, f: DataFlow) {
    && mode != ReadsEnabled && f.rec.subject.File?
    && (f.rec.subject.openFlags % 2 == 1
        || (ReadRecv in f.rec.opFlags && WriteSend !in f.rec.opFlags && Mmap !in f.rec.opFlags))
    && (mode == ReadsSelect ==>
          || "/proc/" <= f.flowkey || "/dev/" <= f.flowkey || "/sys/" <= f.flowkey || "//sys/" <= f.flowkey
          || "/lib/" <= f.flowkey || "/lib64/" <= f.flowkey || "/usr/lib/" <= f.flowkey || "/usr/lib64/" <= f.flowkey)
  }

  lemma KeptOutIff(mode: ReadMode, f: DataFlow)
    ensures Suppressed(mode, f) <==> KeptOut(mode, f)
  {
    assert PREFIXES[0] == "/proc/" && PREFIXES[1] == "/dev/" && PREFIXES[2] == "/sys/" && PREFIXES[3] == "//sys/";
    assert PREFIXES[4] == "/lib/" && PREFIXES[5] == "/lib64/" && PREFIXES[6] == "/usr/lib/"
           && PREFIXES[7] == "/usr/lib64/" && |PREFIXES| == 8;
  }

  /** The flows that leave a record when they are offered. */
  ghost function Reporting(mode: ReadMode, flows: FlowHeap): set<FlowId> {
    set id | id in flows && Busy(flows[id].rec.opFlags) && !KeptOut(mode, flows[id])
  }

  /** One record for each of the flows `ids`, ending at `endTs`, with the flags `mark` added. */
  ghost function RecordsAt(flows: FlowHeap, ids: seq<FlowId>, endTs: int, mark: set<Op>): seq<Record>
    requires forall id :: id in ids ==> id in flows
  {
    seq(|ids|, i requires 0 <= i < |ids| =>
      var r := flows[ids[i]].rec;
      FlowRec(FlowData(r.procOID, r.tid, r.fd, r.ts, endTs, r.opFlags + mark, r.cnt, r.subject)))
  }

  lemma RecordsMore(flows: FlowHeap, ids: seq<FlowId>, id: FlowId, endTs: int, mark: set<Op>)
    requires id in flows && forall j :: j in ids ==> j in flows
    ensures var r := flows[id].rec;
            RecordsAt(flows, ids + [id], endTs, mark)
            == RecordsAt(flows, ids, endTs, mark)
               + [FlowRec(FlowData(r.procOID, r.tid, r.fd, r.ts, endTs, r.opFlags + mark, r.cnt, r.subject))]
  {
  }

  lemma NoRecords(flows: FlowHeap, endTs: int, mark: set<Op>)
    ensures RecordsAt(flows, [], endTs, mark) == []
  {
  }

  lemma OffersNone(mode: ReadMode)
    ensures Offers(mode, []) == []
  {
  }

  lemma OffersMore(mode: ReadMode, done: seq<DataFlow>, f: DataFlow)
    ensures Offers(mode, done + [f]) == Offers(mode, done) + Offer(mode, f)
  {
    assert (done + [f])[..|done|] == done;
  }

  /** The records of flows that are cut off: one for each that has something to report. */
  lemma {:induction false} CutRecords(mode: ReadMode, flows: FlowHeap, ids: seq<FlowId>, ts: int)
    requires forall id :: id in ids ==> id in flows
    ensures forall id :: id in Only(ids, Reporting(mode, flows)) ==> id in flows
    ensures Offers(mode, CutAll(flows, ids, ts))
            == RecordsAt(flows, Only(ids, Reporting(mode, flows)), ts, {Truncate})
  {
    hide KeptOut, Offer, Offers, RecordsAt, Reporting, Truncated;
    var all := Reporting(mode, flows);
    OnlyIs(ids, all);
    if ids == [] {
      NoRecords(flows, ts, {Truncate});
      OffersNone(mode);
    } else {
      var n := |ids| - 1;
      var front, id := ids[..n], ids[n];
      CutRecords(mode, flows, front, ts);
      OnlyIs(front, all);
      assert CutAll(flows, ids, ts) == CutAll(flows, front, ts) + [Truncated(flows[id], ts)];
      CutOne(mode, CutAll(flows, front, ts), flows, id, ts);
      RecordsMore(flows, Only(front, all), id, ts, {Truncate});
      assert Only(ids, all) == if id in all then Only(front, all) + [id] else Only(front, all);
    }
  }

  lemma CutOne(mode: ReadMode, done: seq<DataFlow>, flows: FlowHeap, id: FlowId, ts: int)
    requires id in flows
    ensures var r := flows[id].rec;
            Offers(mode, done + [Truncated(flows[id], ts)])
            == Offers(mode, done)
               + if id in Reporting(mode, flows)
                 then [FlowRec(FlowData(r.procOID, r.tid, r.fd, r.ts, ts, r.opFlags + {Truncate}, r.cnt, r.subject))]
                 else []
  {
    hide KeptOut, Offer, Offers, Truncated, Busy;
    CutRecord(mode, flows[id], ts);
    OffersMore(mode, done, Truncated(flows[id], ts));
  }

  lemma CutRecord(mode: ReadMode, f: DataFlow, ts: int)
    ensures var r := f.rec;
            Offer(mode, Truncated(f, ts))
            == if Busy(r.opFlags) && !KeptOut(mode, f)
               then [FlowRec(FlowData(r.procOID, r.tid, r.fd, r.ts, ts, r.opFlags + {Truncate}, r.cnt, r.subject))]
               else []
  {
    KeptOutIff(mode, Truncated(f, ts));
    BusyOrIdle(f.rec.opFlags);
    BusyOrIdle(f.rec.opFlags + {Truncate});
  }

  // ----------------------------------------------------------------- data events

  /** The event operates, through a flow, on descriptor `fd`, which is `d`: an IPv4 socket, or a file,
      directory, unix socket or pipe when files are kept.  A mapping may name its descriptor itself. */
  ghost predicate Through(cfg: Config, ev: Event, fd: int, d: FdInfo)
    ensures Through(cfg, ev, fd, d) ==> ev.call.DataCall? && (d.Ipv4? || d.Resource?)
  {
    && ev.call.DataCall?
    && var c := ev.call;
    if d.Ipv4? then c.fdinfo == Some(d) && c.fd == fd
    else
      && d.Resource? && !cfg.noFiles && !cfg.consumer
      && c.op !in {Mkdir, Rmdir, Link, Unlink, Symlink, Rename}
      && (if c.op == Mmap && c.fdinfo == None then c.mapped == Some((fd, d)) else c.fdinfo == Some(d) && c.fd == fd)
      && d.typechar in {'f', 'd', 'u', 'p'} && (cfg.fileOnly ==> d.typechar == 'f')
  }

  /** The process of the event. */
  function ProcessOf(ev: Event): OID { OID(ev.task.cloneTs, ev.task.pid) }

  /** The table key of the flow on a descriptor. */
  function KeyAt(ev: Event, fd: int, d: FdInfo): FlowKey
    requires d.Ipv4? || d.Resource?
  {
    match d
    case Ipv4(sip, sport, dip, dport, _) =>
      NetKey(NFKey(U64(ev.tid), U32(sip), U16(sport), U32(dip), U16(dport), U32(fd)))
    case Resource(name, _, _) => FileKey(name + ev.container.id + Itoa(I32(ev.tid)) + Itoa(I32(fd)))
  }

  /** The flow as its first operation finds it. */
  function Begun(ev: Event, fd: int, d: FdInfo, now: int): DataFlow
    requires ev.call.DataCall? && (d.Ipv4? || d.Resource?)
  {
    var op := ev.call.op;
    match d
    case Ipv4(sip, sport, dip, dport, proto) =>
      DataFlow(now, now, FlowData(ProcessOf(ev), ev.tid, I32(fd), ev.ts, 0, {op}, Tally(0, 0, 0, 0, 0, 0, 0),
                                  Net(I32(sip), I32(sport), I32(dip), I32(dport), proto)), "", "")
    case Resource(name, _, flags) =>
      var file := ev.container.id + name;
      DataFlow(now, now, FlowData(ProcessOf(ev), ev.tid, I32(fd), ev.ts, 0, {op}, Tally(0, 0, 0, 0, 0, 0, 0),
                                  File(Sha1(file), if op == Open then flags else 0)),
               file, name + ev.container.id + Itoa(I32(ev.tid)) + Itoa(I32(fd)))
  }

  /** `g` is `f` after an operation: it counts a send or a receive with its bytes, and nothing else. */
  predicate TookIn(f: DataFlow, g: DataFlow, op: Op, ret: int, d: FdInfo, now: int) {
    var a, b, bytes := f.rec.cnt, g.rec.cnt, if I32(ret) > 0 then I32(ret) else 0;
    && g.exportTime == f.exportTime && g.lastUpdate == now && g.filekey == f.filekey && g.flowkey == f.flowkey
    && g.rec.procOID == f.rec.procOID && g.rec.tid == f.rec.tid && g.rec.fd == f.rec.fd
    && g.rec.ts == f.rec.ts && g.rec.endTs == f.rec.endTs && g.rec.opFlags == f.rec.opFlags + {op}
    && (op == WriteSend ==>
          b.wOps == a.wOps + 1 && b.wBytes == a.wBytes + bytes && b.rOps == a.rOps && b.rBytes == a.rBytes)
    && (op == ReadRecv ==>
          b.rOps == a.rOps + 1 && b.rBytes == a.rBytes + bytes && b.wOps == a.wOps && b.wBytes == a.wBytes)
    && (op != WriteSend && op != ReadRecv ==>
          b.wOps == a.wOps && b.wBytes == a.wBytes && b.rOps == a.rOps && b.rBytes == a.rBytes)
    && b.cloned == a.cloned && b.exited == a.exited && b.errors == a.errors
    && (g.rec.subject == if op == Open && f.rec.subject.File? && d.Resource?
                         then File(f.rec.subject.fileOID, d.openFlags) else f.rec.subject)
  }

  /** Operates, other than by a close: the flow under the key of the event takes the operation in, as a
      new flow if need be, and nothing else changes or is written. */
  ghost predicate Operated(ev: Event, fd: int, d: FdInfo, x: World, y: World, now: int)
    requires ev.call.DataCall? && (d.Ipv4? || d.Resource?)
  {
    var t, t', k := TableOf(x.procs, ProcessOf(ev)), TableOf(y.procs, ProcessOf(ev)), KeyAt(ev, fd, d);
    && Behaviors(y.log) == Behaviors(x.log) && y.hushed == x.hushed
    && k in t' && t'[k] in y.flows && t' == t[k := t'[k]] && y.flows == x.flows[t'[k] := y.flows[t'[k]]]
    && (if k in t then t'[k] == t[k] && t[k] in x.flows else t'[k] !in x.flows)
    && TookIn(if k in t then x.flows[t[k]] else Begun(ev, fd, d, now), y.flows[t'[k]], ev.call.op, ev.ret, d, now)
  }

  /** Another thread's flow on the same socket and descriptor, or the same file and descriptor. */
  predicate Akin(g: DataFlow, f: DataFlow) {
    match (g.rec.subject, f.rec.subject)
    case (Net(a, b, c, d, _), Net(a', b', c', d', _)) =>
      && U64(g.rec.tid) != U64(f.rec.tid) && U32(g.rec.fd) == U32(f.rec.fd)
      && U32(a) == U32(a') && U16(b) == U16(b') && U32(c) == U32(c') && U16(d) == U16(d')
    case (File(_, _), File(_, _)) =>
      g.rec.tid != f.rec.tid && g.rec.fd == f.rec.fd && g.filekey == f.filekey
    case _ => false
  }

  /** The flow saw its descriptor being opened. */
  predicate SawOpening(f: DataFlow) {
    var ops := f.rec.opFlags;
    if f.rec.subject.File? then Open in ops else Accept in ops || Connect in ops
  }

  /** The flow under `k` has gone, if there was one, and with it exactly the flows `vec`, those akin to
      `f`; all others are as they were. */
  ghost predicate Cleared(t: map<FlowKey, FlowId>, flows: FlowHeap, t': map<FlowKey, FlowId>, flows': FlowHeap,
                          k: FlowKey, f: DataFlow, vec: seq<FlowId>)
  {
    && NoDup(vec) && (forall id :: id in vec <==> id in t.Values && id in flows && Akin(flows[id], f))
    && (forall i, j :: 0 <= i < j < |vec| && SawOpening(flows[vec[j]]) ==> SawOpening(flows[vec[i]]))
    && (forall l :: l in t' <==> l in t && l != k && t[l] !in vec) && (forall l :: l in t' ==> t'[l] == t[l])
    && (forall id :: id in flows' <==> id in flows && id !in vec && !(k in t && id == t[k]))
    && (forall id :: id in flows' ==> flows'[id] == flows[id])
  }

  /** A close ends the flow under the key of the event, and before it all flows `vec` akin to it, cut
      off, those that saw the opening first.  Each that has something to report leaves one record. */
  ghost predicate ClosedOff(mode: ReadMode, ev: Event, fd: int, d: FdInfo, x: World, y: World, now: int,
                            vec: seq<FlowId>)
    requires ev.call.DataCall? && (d.Ipv4? || d.Resource?)
  {
    var t, k := TableOf(x.procs, ProcessOf(ev)), KeyAt(ev, fd, d);
    && t.Values <= x.flows.Keys
    && var f := if k in t then x.flows[t[k]] else Begun(ev, fd, d, now);
    && var (r, kin) := (f.rec, Only(vec, Reporting(mode, x.flows)));
    && Cleared(t, x.flows, TableOf(y.procs, ProcessOf(ev)), y.flows, k, f, vec)
    && (forall id :: id in kin ==> id in x.flows)
    && Behaviors(y.log)
       == Behaviors(x.log) + RecordsAt(x.flows, kin, ev.ts, {Truncate})
          + if KeptOut(mode, f) then []
            else [FlowRec(FlowData(r.procOID, r.tid, r.fd, r.ts, ev.ts, r.opFlags + {Close}, r.cnt, r.subject))]
  }

  /** The record of a data event that operates on no flow: that of a file event, or in consumer mode
      that of an open. */
  function Said(cfg: Config, ev: Event): seq<Record>
    requires ev.call.DataCall?
  {
    var c, home := ev.call, ev.container.id;
    if cfg.noFiles || (c.fdinfo.Some? && !c.fdinfo.value.Resource?) then []
    else if c.op in {Mkdir, Rmdir, Unlink} then
      var path := if c.fdinfo.Some? then c.fdinfo.value.name else c.path1;
      [FileEventRec(c.op, ProcessOf(ev), ev.tid, ev.ret, ev.ts, Sha1(home + path), None)]
    else if c.op in {Link, Symlink, Rename} then
      [FileEventRec(c.op, ProcessOf(ev), ev.tid, ev.ret, ev.ts, Sha1(home + c.path1), Some(Sha1(home + c.path2)))]
    else if cfg.consumer && c.op == Open && c.fdinfo.Some? then
      var d := c.fdinfo.value;
      if d.typechar in {'f', 'd', 'u', 'p'} && (cfg.fileOnly ==> d.typechar == 'f')
         && !(cfg.readMode == ReadsDisabled && d.openFlags % 2 == 1)
      then [FlowRec(FlowData(ProcessOf(ev), ev.tid, I32(c.fd), ev.ts, ev.ts, {Open}, Tally(0, 0, 0, 0, 0, 0, 0),
                             File(Sha1(home + d.name), d.openFlags)))]
      else []
    else []
  }

  /** What a data event does. */
  ghost predicate Acted(cfg: Config, ev: Event, x: World, y: World, now: int, vec: seq<FlowId>)
    requires ev.call.DataCall?
  {
    && (forall q :: q != ProcessOf(ev) ==> TableOf(y.procs, q) == TableOf(x.procs, q))
    && (forall fd, d :: Through(cfg, ev, fd, d) ==>
          if ev.call.op == Close then ClosedOff(cfg.readMode, ev, fd, d, x, y, now, vec)
          else Operated(ev, fd, d, x, y, now))
    && ((forall fd, d :: !Through(cfg, ev, fd, d)) ==>
          && y.flows == x.flows && TableOf(y.procs, ProcessOf(ev)) == TableOf(x.procs, ProcessOf(ev))
          && Behaviors(y.log) == Behaviors(x.log) + Said(cfg, ev))
  }

  lemma KeyOfBegun(ev: Event, fd: int, d: FdInfo, now: int)
    requires ev.call.DataCall? && (d.Ipv4? || d.Resource?)
    ensures KeyOf(Begun(ev, fd, d, now)) == KeyAt(ev, fd, d)
  {
    if d.Ipv4? {
      WidthsRecover(d.sip);
      WidthsRecover(d.sport);
      WidthsRecover(d.dip);
      WidthsRecover(d.dport);
      WidthsRecover(fd);
    }
  }

  /** The deed of an event through a flow. */
  lemma ThroughOperates(cfg: Config, ev: Event, fd: int, d: FdInfo, now: int)
    requires Through(cfg, ev, fd, d)
    ensures DeedOf(cfg, ev, now) == Operate(Begun(ev, fd, d, now), if d.Ipv4? then 0 else d.openFlags)
  {
  }

  /** An event operates on a flow exactly when it goes through a descriptor. */
  lemma OperatesIff(cfg: Config, ev: Event, now: int)
    requires ev.call.DataCall?
    ensures DeedOf(cfg, ev, now).Operate? <==> exists fd, d :: Through(cfg, ev, fd, d)
  {
    hide NewNetFlow, FileFlowOf, ConsumerFlow, FileEventOf;
    if DeedOf(cfg, ev, now).Operate? {
      var c := ev.call;
      if c.fdinfo.Some? {
        assert Through(cfg, ev, c.fd, c.fdinfo.value);
      } else {
        assert Through(cfg, ev, c.mapped.value.0, c.mapped.value.1);
      }
    }
    if fd, d :| Through(cfg, ev, fd, d) { ThroughOperates(cfg, ev, fd, d, now); }
  }

  lemma UpdatedTookIn(f: DataFlow, op: Op, ret: int, d: FdInfo, now: int)
    requires d.Ipv4? ==> f.rec.subject.Net?
    requires d.Ipv4? || d.Resource?
    ensures TookIn(f, Updated(f, op, ret, if d.Ipv4? then 0 else d.openFlags, now), op, ret, d, now)
  {
  }

  lemma AkinIff(g: DataFlow, f: DataFlow, ret: int, openFlags: int, now: int)
    ensures Related(g, Updated(f, Close, ret, openFlags, now)) <==> Akin(g, f)
    ensures Opener(g) <==> SawOpening(g)
  {
  }

  lemma RelatedIsAkin(g: DataFlow, f: DataFlow)
    ensures Related(g, f) <==> Akin(g, f)
  {
  }

  /** Operating on a flow. */
  lemma WorkActs(ev: Event, fd: int, d: FdInfo, x: World, y: World, mode: ReadMode, now: int, vec: seq<FlowId>)
    requires ev.call.DataCall? && (d.Ipv4? || d.Resource?) && ev.call.op != Close
    requires var o, f0 := ProcessOf(ev), Begun(ev, fd, d, now);
             && (KeyOf(f0) in TableOf(x.procs, o) && TableOf(x.procs, o)[KeyOf(f0)] in x.flows && d.Ipv4? ==>
                   x.flows[TableOf(x.procs, o)[KeyOf(f0)]].rec.subject.Net?)
             && Worked(TableOf(x.procs, o), x.flows, TrailBy(x, y), TableOf(y.procs, o), y.flows, TrailOf(y), f0,
                       ev.call.op, ev.ret, if d.Ipv4? then 0 else d.openFlags, mode, ev.ts, now, vec)
    ensures Operated(ev, fd, d, x, y, now)
  {
    hide KeyOf, TookIn, Updated, Behaviors, KeyAt;
    KeyOfBegun(ev, fd, d, now);
    var t, k := TableOf(x.procs, ProcessOf(ev)), KeyAt(ev, fd, d);
    UpdatedTookIn(if k in t then x.flows[t[k]] else Begun(ev, fd, d, now), ev.call.op, ev.ret, d, now);
  }

  /** The record of the closing flow itself. */
  lemma CloseRecord(mode: ReadMode, f: DataFlow, ret: int, openFlags: int, now: int, ts: int)
    ensures var r := f.rec;
            Offer(mode, Ended(Updated(f, Close, ret, openFlags, now), ts))
            == if KeptOut(mode, f) then []
               else [FlowRec(FlowData(r.procOID, r.tid, r.fd, r.ts, ts, r.opFlags + {Close}, r.cnt, r.subject))]
  {
    var g := Ended(Updated(f, Close, ret, openFlags, now), ts);
    KeptOutIff(mode, g);
    assert Close in g.rec.opFlags;
  }

  /** Closing a flow. */
  lemma ShutActs(ev: Event, fd: int, d: FdInfo, x: World, y: World, mode: ReadMode, now: int, vec: seq<FlowId>)
    requires ev.call.DataCall? && (d.Ipv4? || d.Resource?) && ev.call.op == Close
    requires var o, f0 := ProcessOf(ev), Begun(ev, fd, d, now);
             && OwnKeys(TableOf(x.procs, o), x.flows)
             && Worked(TableOf(x.procs, o), x.flows, TrailBy(x, y), TableOf(y.procs, o), y.flows, TrailOf(y), f0,
                       ev.call.op, ev.ret, if d.Ipv4? then 0 else d.openFlags, mode, ev.ts, now, vec)
    ensures ClosedOff(mode, ev, fd, d, x, y, now, vec)
  {
    hide KeyOf, Updated, Behaviors, KeyAt, Related, Akin, Opener, SawOpening, Offers, RecordsAt, CutAll, Only,
         KeptOut, Offer, Reporting, Begun, OwnKeys, RelatedEntry, Then, Ended, Cleared, Shut;
    KeyOfBegun(ev, fd, d, now);
    var t, k, flags := TableOf(x.procs, ProcessOf(ev)), KeyAt(ev, fd, d), if d.Ipv4? then 0 else d.openFlags;
    var f := if k in t then x.flows[t[k]] else Begun(ev, fd, d, now);
    OwnValues(t, x.flows);
    ShutClears(t, x.flows, TrailBy(x, y), TableOf(y.procs, ProcessOf(ev)), y.flows, TrailOf(y), f, mode, ev.ret, flags,
               now, ev.ts, vec);
    OnlyIs(vec, Reporting(mode, x.flows));
    CloseTrail(mode, x.flows, TrailBy(x, y), TrailOf(y), f, vec, ev.ret, flags, now, ev.ts);
  }

  lemma ShutClears(t: map<FlowKey, FlowId>, flows: FlowHeap, tr: Trail, t': map<FlowKey, FlowId>, flows': FlowHeap,
                   tr': Trail, f: DataFlow, mode: ReadMode, ret: int, openFlags: int, now: int, ts: int,
                   vec: seq<FlowId>)
    requires OwnKeys(t, flows)
    requires Shut(t, flows, tr, t', flows', tr', Updated(f, Close, ret, openFlags, now), mode, ts, vec)
    ensures Cleared(t, flows, t', flows', KeyOf(f), f, vec) && forall id :: id in vec ==> id in flows
    ensures tr' == Then(tr, mode, CutAll(flows, vec, ts) + [Ended(Updated(f, Close, ret, openFlags, now), ts)])
  {
    hide KeyOf, Updated, Related, Akin, Opener, SawOpening, CutAll, OwnKeys, RelatedEntry, Then, Ended;
    SameKin(f, Close, ret, openFlags, now);
    OwnValues(t, flows);
    forall id ensures id in vec <==> id in t.Values && id in flows && Akin(flows[id], f) {
      KinIsAkin(t, flows, id, f, ret, openFlags, now);
    }
    forall id | id in flows ensures Opener(flows[id]) <==> SawOpening(flows[id]) {
      AkinIff(flows[id], f, ret, openFlags, now);
    }
  }

  lemma OwnValues(t: map<FlowKey, FlowId>, flows: FlowHeap)
    requires OwnKeys(t, flows)
    ensures t.Values <= flows.Keys && forall k :: k in t ==> KeyOf(flows[t[k]]) == k
  {
  }

  lemma KinIsAkin(t: map<FlowKey, FlowId>, flows: FlowHeap, id: FlowId, f: DataFlow, ret: int, openFlags: int, now: int)
    requires OwnKeys(t, flows)
    ensures id in t.Values ==> id in flows
    ensures RelatedEntry(t, flows, Updated(f, Close, ret, openFlags, now), id) <==> id in t.Values && Akin(flows[id], f)
  {
    hide KeyOf, Related, Akin, Updated;
    if id in flows { AkinIff(flows[id], f, ret, openFlags, now); }
  }

  /** The records of a close. */
  lemma CloseTrail(mode: ReadMode, flows: FlowHeap, tr: Trail, tr': Trail, f: DataFlow, vec: seq<FlowId>, ret: int,
                   openFlags: int, now: int, ts: int)
    requires forall id :: id in vec ==> id in flows
    requires tr' == Then(tr, mode, CutAll(flows, vec, ts) + [Ended(Updated(f, Close, ret, openFlags, now), ts)])
    ensures forall id :: id in Only(vec, Reporting(mode, flows)) ==> id in flows
    ensures var r := f.rec;
            tr'.shown == tr.shown + RecordsAt(flows, Only(vec, Reporting(mode, flows)), ts, {Truncate})
              + if KeptOut(mode, f) then []
                else [FlowRec(FlowData(r.procOID, r.tid, r.fd, r.ts, ts, r.opFlags + {Close}, r.cnt, r.subject))]
  {
    hide RecordsAt, Only, KeptOut, Offer, Reporting, Updated, Ended, Offers, Withheld;
    var last := Ended(Updated(f, Close, ret, openFlags, now), ts);
    CutRecords(mode, flows, vec, ts);
    CloseRecord(mode, f, ret, openFlags, now, ts);
    ThenAppend(tr, mode, CutAll(flows, vec, ts), last);
  }

  /** The specified deed of an event is what its fields say. */
  lemma DidActs(cfg: Config, ev: Event, x: Flux, y: World, rank: OID -> nat, now: int, vec: seq<FlowId>)
    requires ev.call.DataCall? && Coherent(x, rank, {}, now)
    requires Did(DeedOf(cfg, ev, now), x.w, y, ev, ev.call.op, cfg.readMode, now, vec)
    ensures Acted(cfg, ev, x.w, y, now, vec)
  {
    hide Coherent, Worked, DeedOf, Through, Operated, ClosedOff, Behaviors, Said, Begun, Offer;
    OperatesIff(cfg, ev, now);
    var o := ProcessOf(ev);
    forall fd, d | Through(cfg, ev, fd, d)
      ensures if ev.call.op == Close then ClosedOff(cfg.readMode, ev, fd, d, x.w, y, now, vec)
              else Operated(ev, fd, d, x.w, y, now)
    {
      ThroughOperates(cfg, ev, fd, d, now);
      if o in x.w.procs { OwnKeysOf(x, o, rank, now); }
      if ev.call.op == Close {
        ShutActs(ev, fd, d, x.w, y, cfg.readMode, now, vec);
      } else {
        NetStays(x, ev, fd, d, rank, now);
        WorkActs(ev, fd, d, x.w, y, cfg.readMode, now, vec);
      }
    }
    if !DeedOf(cfg, ev, now).Operate? { DeedSays(cfg, ev, x.w, y, now, vec); }
  }

  /** The flow stored under the key of a socket is a network flow. */
  lemma NetStays(x: Flux, ev: Event, fd: int, d: FdInfo, rank: OID -> nat, now: int)
    requires ev.call.DataCall? && (d.Ipv4? || d.Resource?) && Coherent(x, rank, {}, now)
    ensures var t, k := TableOf(x.w.procs, ProcessOf(ev)), KeyOf(Begun(ev, fd, d, now));
            k in t && t[k] in x.w.flows && d.Ipv4? ==> x.w.flows[t[k]].rec.subject.Net?
  {
    hide Coherent;
    KeyOfBegun(ev, fd, d, now);
    var o, k := ProcessOf(ev), KeyAt(ev, fd, d);
    if k in TableOf(x.w.procs, o) { EntryFacts(x, o, k, rank, now); }
  }

  /** An event that operates on no flow. */
  lemma DeedSays(cfg: Config, ev: Event, x: World, y: World, now: int, vec: seq<FlowId>)
    requires ev.call.DataCall? && !DeedOf(cfg, ev, now).Operate?
    requires Did(DeedOf(cfg, ev, now), x, y, ev, ev.call.op, cfg.readMode, now, vec)
    ensures Behaviors(y.log) == Behaviors(x.log) + Said(cfg, ev)
  {
    hide Behaviors, DeedOf, Said, Then;
    DeedIsSaid(cfg, ev, now);
    match DeedOf(cfg, ev, now)
    case Emit(f) => ThenOne(TrailBy(x, y), cfg.readMode, f);
    case _ =>
  }

  lemma DeedIsSaid(cfg: Config, ev: Event, now: int)
    requires ev.call.DataCall?
    ensures Said(cfg, ev) == match DeedOf(cfg, ev, now)
                             case Report(r) => [r]
                             case Emit(f) => Offer(cfg.readMode, f)
                             case _ => []
  {
  }

  // ----------------------------------------------------------------------- scans

  /** What a scan makes of the live flows: those that are due and saw no operation for sixty seconds are
      gone, the others that are due start afresh, at `nowNs`, and the rest are as they were. */
  ghost predicate Swept(flows: FlowHeap, flows': FlowHeap, now: int, nowNs: int) {
    && (forall id :: id in flows' <==>
          id in flows && !(now - flows[id].exportTime >= 30 && now - flows[id].lastUpdate >= 60))
    && (forall id :: id in flows' ==>
          var f := flows[id];
          flows'[id] == if now - f.exportTime < 30 then f
                        else DataFlow(now, f.lastUpdate,
                                      FlowData(f.rec.procOID, f.rec.tid, f.rec.fd, nowNs, 0, {},
                                               Tally(0, 0, 0, 0, 0, 0, 0), f.rec.subject),
                                      f.filekey, f.flowkey))
  }

  lemma ScanSweeps(flows: FlowHeap, now: int, nowNs: int)
    ensures Swept(flows, FullScan(flows, now, nowNs), now, nowNs)
  {
  }

  function IdsIn(index: seq<Entry<FlowId>>): seq<FlowId> { seq(|index|, i requires 0 <= i < |index| => index[i].id) }

  /** The flows a scan writes: due, and operated on in the last sixty seconds. */
  ghost function Exporting(mode: ReadMode, flows: FlowHeap, now: int): set<FlowId> {
    set id | id in Reporting(mode, flows) && now - flows[id].exportTime >= 30 && now - flows[id].lastUpdate < 60
  }

  lemma ScanRecord(mode: ReadMode, f: DataFlow, ts: int)
    ensures var r := f.rec;
            Offer(mode, Ended(f, ts))
            == if Busy(r.opFlags) && !KeptOut(mode, f)
               then [FlowRec(FlowData(r.procOID, r.tid, r.fd, r.ts, ts, r.opFlags + {}, r.cnt, r.subject))]
               else []
  {
    assert f.rec.opFlags + {} == f.rec.opFlags;
    KeptOutIff(mode, Ended(f, ts));
    BusyOrIdle(f.rec.opFlags);
  }

  /** The records of a scan: one for each flow it writes, in the order of the index. */
  lemma {:induction false} ScanRecords(mode: ReadMode, index: seq<Entry<FlowId>>, flows: FlowHeap, now: int, nowNs: int)
    requires forall e :: e in index ==> e.id in flows
    ensures forall id :: id in Only(IdsIn(index), Exporting(mode, flows, now)) ==> id in flows
    ensures Offers(mode, Exported(index, flows, now, nowNs))
            == RecordsAt(flows, Only(IdsIn(index), Exporting(mode, flows, now)), nowNs, {})
  {
    hide KeptOut, Offer, Offers, RecordsAt, Exporting;
    OnlyIs(IdsIn(index), Exporting(mode, flows, now));
    if index != [] {
      var n := |index| - 1;
      var front, id, all := index[..n], index[n].id, Exporting(mode, flows, now);
      ScanRecords(mode, front, flows, now, nowNs);
      OnlyIs(IdsIn(front), all);
      assert IdsIn(index)[..n] == IdsIn(front);
      ScanOne(mode, Exported(front, flows, now, nowNs), flows, id, now, nowNs);
      RecordsMore(flows, Only(IdsIn(front), all), id, nowNs, {});
      assert Only(IdsIn(index), all) == if id in all then Only(IdsIn(front), all) + [id] else Only(IdsIn(front), all);
    } else {
      NoRecords(flows, nowNs, {});
      OffersNone(mode);
    }
  }

  lemma ScanOne(mode: ReadMode, done: seq<DataFlow>, flows: FlowHeap, id: FlowId, now: int, nowNs: int)
    requires id in flows
    ensures var (f, r) := (flows[id], flows[id].rec);
            Offers(mode, done + if FateOf(f, now) == Export then [Ended(f, nowNs)] else [])
            == Offers(mode, done)
               + if id in Exporting(mode, flows, now)
                 then [FlowRec(FlowData(r.procOID, r.tid, r.fd, r.ts, nowNs, r.opFlags + {}, r.cnt, r.subject))]
                 else []
  {
    hide KeptOut, Offer, Offers, Ended;
    if FateOf(flows[id], now) == Export {
      ScanRecord(mode, flows[id], nowNs);
      OffersMore(mode, done, Ended(flows[id], nowNs));
    } else {
      assert done + [] == done;
    }
  }

  // ------------------------------------------------------------------- the flush

  /** The live flows and process flows that have something to report. */
  ghost function Unreported(w: World): set<Item> {
    (set id | id in w.flows && Busy(w.flows[id].rec.opFlags) :: OfFlow(id))
    + (set o | o in w.procs && w.procs[o].pfo.Some? && Busy(w.procs[o].pfo.value.opFlags) :: OfProc(o))
  }

  /** The record that ends a flow or process flow at `endTs`, cut off. */
  ghost function LastRecord(w: World, x: Item, endTs: int): Record
    requires x in Unreported(w)
  {
    match x
    case OfFlow(id) =>
      var r := w.flows[id].rec;
      FlowRec(FlowData(r.procOID, r.tid, r.fd, r.ts, endTs, r.opFlags + {Truncate}, r.cnt, r.subject))
    case OfProc(o) =>
      var f := w.procs[o].pfo.value;
      ProcFlowRec(o, f.ts, endTs, f.opFlags + {Truncate}, f.cnt)
  }

  /** One record for each of the items. */
  ghost function LastRecords(w: World, items: seq<Item>, endTs: int): seq<Record>
    requires forall x :: x in items ==> x in Unreported(w)
  {
    seq(|items|, i requires 0 <= i < |items| => LastRecord(w, items[i], endTs))
  }

  /** The flush leaves one record for each item with something to report, and no other. */
  lemma {:induction false} FlushRecords(w: World, order: seq<Item>, endTs: int)
    ensures forall x :: x in Only(order, Unreported(w)) ==> x in Unreported(w)
    ensures Flushed(w, order, endTs) == LastRecords(w, Only(order, Unreported(w)), endTs)
  {
    hide LastRecords, Unreported;
    var all := Unreported(w);
    OnlyIs(order, all);
    NoLastRecords(w, endTs);
    if order != [] {
      var n := |order| - 1;
      var front, x := order[..n], order[n];
      FlushRecords(w, front, endTs);
      OnlyIs(front, all);
      FlushRecord(w, x, endTs);
      if x in all { LastRecordsMore(w, Only(front, all), x, endTs); }
      assert Only(order, all) == if x in all then Only(front, all) + [x] else Only(front, all);
    }
  }

  lemma FlushRecord(w: World, x: Item, endTs: int)
    ensures RecordsOf(w, x, endTs) == if x in Unreported(w) then [LastRecord(w, x, endTs)] else []
  {
    hide Idle, Busy;
    match x
    case OfFlow(id) =>
      if id in w.flows {
        BusyOrIdle(w.flows[id].rec.opFlags);
        BusyOrIdle(w.flows[id].rec.opFlags + {Truncate});
      }
    case OfProc(o) =>
      if HasProcFlow(w.procs, o) {
        BusyOrIdle(w.procs[o].pfo.value.opFlags);
        BusyOrIdle(w.procs[o].pfo.value.opFlags + {Truncate});
      }
  }

  lemma NoLastRecords(w: World, endTs: int)
    ensures LastRecords(w, [], endTs) == []
  {
  }

  lemma LastRecordsMore(w: World, items: seq<Item>, x: Item, endTs: int)
    requires x in Unreported(w) && forall y :: y in items ==> y in Unreported(w)
    ensures LastRecords(w, items + [x], endTs) == LastRecords(w, items, endTs) + [LastRecord(w, x, endTs)]
  {
    hide Unreported;
  }

  /** The flush of `w` has left the trace `log`: each live flow and process flow was offered, once, and
      one record was added for each of them that has something to report. */
  ghost predicate FlushedTo(w: World, log: seq<Record>, order: seq<Item>, endTs: int) {
    && NoDup(order) && (forall id :: OfFlow(id) in order <==> id in w.flows)
    && (forall o :: OfProc(o) in order <==> o in w.procs && w.procs[o].pfo.Some?)
    && (forall x :: x in Only(order, Unreported(w)) ==> x in Unreported(w))
    && Behaviors(log) == Behaviors(w.log) + LastRecords(w, Only(order, Unreported(w)), endTs)
  }

  lemma FlushIs(w: World, log: seq<Record>, order: seq<Item>, endTs: int)
    requires NoDup(order) && (forall id :: OfFlow(id) in order <==> id in w.flows)
    requires forall o :: OfProc(o) in order <==> HasProcFlow(w.procs, o)
    requires Behaviors(log) == Behaviors(w.log) + Flushed(w, order, endTs)
    ensures FlushedTo(w, log, order, endTs)
  {
    hide Behaviors, Flushed, Only, Unreported, LastRecords;
    FlushRecords(w, order, endTs);
  }

  /** The trace `to` continues `from` with the records of a scan of the flows. */
  ghost predicate SweepWrote(mode: ReadMode, index: seq<Entry<FlowId>>, flows: FlowHeap, from: seq<Record>,
                             to: seq<Record>, now: int, nowNs: int)
  {
    && (forall id :: id in Only(IdsIn(index), Exporting(mode, flows, now)) ==> id in flows)
    && Behaviors(to) == Behaviors(from) + RecordsAt(flows, Only(IdsIn(index), Exporting(mode, flows, now)), nowNs, {})
  }

  lemma ScanWrites(mode: ReadMode, index: seq<Entry<FlowId>>, x: World, y: World, now: int, nowNs: int)
    requires forall e :: e in index ==> e.id in x.flows
    requires TrailOf(y) == Then(TrailBy(x, y), mode, Exported(index, x.flows, now, nowNs))
    ensures SweepWrote(mode, index, x.flows, x.log, y.log, now, nowNs)
  {
    hide Behaviors, Exported, Offers, Exporting, IdsIn, Only, RecordsAt;
    ScanRecords(mode, index, x.flows, now, nowNs);
  }

  lemma ScanMeans(x: Flux, y: Flux, mode: ReadMode, now: int, nowNs: int)
    requires (forall e :: e in x.index ==> e.id in x.w.flows) && FlowsOfScan(x, y, mode, now, nowNs)
    requires y.w.flows == FullScan(x.w.flows, now, nowNs)
    ensures Swept(x.w.flows, y.w.flows, now, nowNs)
    ensures SweepWrote(mode, x.index, x.w.flows, x.w.log, y.w.log, now, nowNs)
  {
    hide Behaviors, SweepWrote, Swept, FullScan, Exported, Then, Staying, Renewals;
    ScanSweeps(x.w.flows, now, nowNs);
    ScanWrites(mode, x.index, x.w, y.w, now, nowNs);
  }
}
