/**
  The values the collector passes around: object ids, flow keys, flow objects,
  cached entities, the records of a trace, and the system events it consumes.
 */
module Types {

  datatype Option<+T> = None | Some(value: T)

  ghost predicate NoDup<T(!new)>(s: seq<T>) { forall i, j :: 0 <= i < j < |s| ==> s[i] != s[j] }

  // ---------------------------------------------------------------- integers

  /** The unsigned conversions of a wider integer. */
  function U16(x: int): int { x % 0x1_0000 }
  function U32(x: int): int { x % 0x1_0000_0000 }
  function U64(x: int): int { x % 0x1_0000_0000_0000_0000 }

  /** The conversion to a 32-bit signed integer (two's complement). */
  function I32(x: int): int {
    if U32(x) < 0x8000_0000 then U32(x) else U32(x) - 0x1_0000_0000
  }

  /** What a conversion yields: the number in the range of its type that differs by a multiple of its size. */
  lemma Conversions(x: int)
    ensures 0 <= U16(x) < 65536 && (x - U16(x)) % 65536 == 0
    ensures 0 <= U32(x) < 4294967296 && (x - U32(x)) % 4294967296 == 0
    ensures 0 <= U64(x) < 18446744073709551616 && (x - U64(x)) % 18446744073709551616 == 0
    ensures -2147483648 <= I32(x) < 2147483648 && (x - I32(x)) % 4294967296 == 0
  {
  }

  /** Reading a signed 32-bit field back as unsigned loses nothing. */
  lemma WidthsRecover(x: int)
    ensures U32(I32(x)) == U32(x)
    ensures U16(I32(x)) == U16(x)
  {
    var q := x / 0x1_0000_0000;
    assert x == 0x1_0000_0000 * q + U32(x);
    assert x == 0x1_0000 * (0x1_0000 * q) + U32(x);
  }

  // ----------------------------------------------------------------- decimals

  function Digit(d: nat): char
    requires d < 10
  {
    '0' + d as char
  }

  function Digits(n: nat): string {
    if n == 0 then "" else Digits(n / 10) + [Digit(n % 10)]
  }

  /** What `itoa` prints in base ten: nothing at all for zero. */
  function Itoa(val: int): string {
    if val < 0 then "-" + Digits(-val) else Digits(val)
  }

  // ---------------------------------------------------------------- identity

  /** A process is named by its creation time and host pid. */
  datatype OID = OID(createTS: int, hpid: int)

  /** A file id is the SHA1 digest of its key, kept symbolic here. */
  datatype FOID = Sha1(key: string)

  /** The operation flags; a bit mask of them is a set of operations. */
  datatype Op =
    | Clone | Exec | Exit | SetUid | SetNs | Accept | Connect | Open | ReadRecv | WriteSend
    | Close | Truncate | Shutdown | Mmap | Mkdir | Rmdir | Link | Unlink | Symlink | Rename

  predicate IsFileEvent(op: Op) {
    op.Mkdir? || op.Rmdir? || op.Link? || op.Unlink? || op.Symlink? || op.Rename?
  }

  datatype ObjectState = Created | Modified | Reup

  // ---------------------------------------------------------------- counters

  /** The counters of a flow record: four of data flows, three of process flows. */
  datatype Tally = Tally(rOps: int, wOps: int, rBytes: int, wBytes: int,
                         cloned: int, exited: int, errors: int)

  const ZERO := Tally(0, 0, 0, 0, 0, 0, 0)

  function Plus(a: Tally, b: Tally): Tally {
    Tally(a.rOps + b.rOps, a.wOps + b.wOps, a.rBytes + b.rBytes, a.wBytes + b.wBytes,
          a.cloned + b.cloned, a.exited + b.exited, a.errors + b.errors)
  }

  /** The same counts of threads. */
  predicate SameThreads(a: Tally, b: Tally) {
    a.cloned == b.cloned && a.exited == b.exited && a.errors == b.errors
  }

  /** What one data operation with result `ret` adds to the counters of its flow. */
  function DataCharge(op: Op, ret: int): Tally {
    var bytes := if I32(ret) > 0 then I32(ret) else 0;
    match op
    case WriteSend => ZERO.(wOps := 1, wBytes := bytes)
    case ReadRecv => ZERO.(rOps := 1, rBytes := bytes)
    case _ => ZERO
  }

  /** What one thread operation with result `ret` adds to the counters of its process flow. */
  function ThreadCharge(op: Op, ret: int): Tally {
    match op
    case Clone =>
      if I32(ret) == 0 then ZERO.(cloned := 1)
      else if I32(ret) == -1 then ZERO.(errors := 1) else ZERO
    case Exit => ZERO.(exited := 1)
    case _ => ZERO
  }

  // ------------------------------------------------------------------- flows

  datatype NFKey = NFKey(tid: int, ip1: int, port1: int, ip2: int, port2: int, fd: int)

  /** A process keeps its network flows by tuple and its file flows by string. */
  datatype FlowKey = NetKey(nf: NFKey) | FileKey(name: string)

  datatype Subject =
    | Net(sip: int, sport: int, dip: int, dport: int, proto: int)
    | File(fileOID: FOID, openFlags: int)

  /** A NetworkFlow or FileFlow record as it is written to the trace. */
  datatype FlowData = FlowData(procOID: OID, tid: int, fd: int, ts: int, endTs: int,
                               opFlags: set<Op>, cnt: Tally, subject: Subject)

  /** The identity (address) of a flow object on the heap. */
  type FlowId = nat

  /** NetFlowObj and FileFlowObj; the two strings are those of a file flow. */
  datatype DataFlow = DataFlow(exportTime: int, lastUpdate: int, rec: FlowData,
                               filekey: string, flowkey: string)

  /** The table key rebuilt from a flow object. */
  function KeyOf(f: DataFlow): FlowKey {
    match f.rec.subject
    case Net(sip, sport, dip, dport, _) =>
      NetKey(NFKey(U64(f.rec.tid), U32(sip), U16(sport), U32(dip), U16(dport), U32(f.rec.fd)))
    case File(_, _) => FileKey(f.flowkey)
  }

  /** Value equality of two flow objects, the test used when one is erased from the index. */
  predicate SameFlow(f: DataFlow, g: DataFlow) {
    && f.exportTime == g.exportTime
    && f.rec.procOID == g.rec.procOID
    && f.rec.ts == g.rec.ts && f.rec.tid == g.rec.tid && f.rec.fd == g.rec.fd
    && f.rec.opFlags == g.rec.opFlags
    && match (f.rec.subject, g.rec.subject)
       case (Net(_, _, _, _, _), Net(_, _, _, _, _)) => f.rec.subject == g.rec.subject
       case (File(_, a), File(_, b)) => a == b && f.flowkey == g.flowkey
       case _ => false
  }

  /** The writer drops a flow that recorded no operation since its last export. */
  predicate Idle(opFlags: set<Op>) { opFlags == {} || opFlags == {Truncate} }

  /** A flow cut off at `endTs`. */
  function Truncated(f: DataFlow, endTs: int): DataFlow {
    f.(rec := f.rec.(endTs := endTs, opFlags := f.rec.opFlags + {Truncate}))
  }

  lemma TruncatedIdle(f: DataFlow, endTs: int)
    ensures Idle(Truncated(f, endTs).rec.opFlags) <==> Idle(f.rec.opFlags)
  {
  }

  /** A process flow, with the counters it shares with its records. */
  datatype ProcFlow = ProcFlow(exportTime: int, lastUpdate: int, ts: int, endTs: int,
                               opFlags: set<Op>, cnt: Tally)

  // ---------------------------------------------------------------- entities

  datatype ProcessObj = ProcessObj(written: bool, poid: Option<OID>, containerId: Option<string>,
                                   state: ObjectState, ts: int, table: map<FlowKey, FlowId>,
                                   children: set<OID>, pfo: Option<ProcFlow>)

  datatype FileObj = FileObj(written: bool, refs: nat, state: ObjectState,
                             containerId: Option<string>)

  datatype ContainerObj = ContainerObj(written: bool, incomplete: bool, refs: nat,
                                       name: string, image: string)

  /** A process waiting for its deferred deletion. */
  datatype OIDObj = OIDObj(oid: OID, exportTime: int)

  // ------------------------------------------------------------------- trace

  datatype Record =
    | HeaderRec
    | ContainerRec(id: string, name: string, image: string)
    | ProcessRec(oid: OID, poid: Option<OID>, containerId: Option<string>, state: ObjectState, ts: int)
    | FileRec(foid: FOID, fstate: ObjectState)
    | FlowRec(flow: FlowData)
    | ProcFlowRec(procOID: OID, pts: int, endTs: int, opFlags: set<Op>, cnt: Tally)
    | ProcEventRec(op: Op, procOID: OID, tid: int, ret: int, ets: int)
    | FileEventRec(op: Op, procOID: OID, tid: int, ret: int, ets: int,
                   fileOID: FOID, newFileOID: Option<FOID>)

  // ------------------------------------------------------------------ events

  /** What the container manager knows about a container id. */
  datatype ContainerInfo = ContainerInfo(name: string, image: string, tag: string)

  /** A container id together with the answer of the container manager for it. */
  datatype ContainerRef = ContainerRef(id: string, info: Option<ContainerInfo>)

  /** A thread resolved to its main thread, with its (resolved) parent.  `tid` is that of
      the thread the parent pointer named.  The type makes the parent relation acyclic. */
  datatype Task = Task(tid: int, pid: int, cloneTs: int, ptid: int, container: ContainerRef,
                       parent: Option<Task>)

  function OidOf(t: Task): OID { OID(t.cloneTs, t.pid) }

  datatype FdInfo =
    | Ipv4(sip: int, sport: int, dip: int, dport: int, proto: int)
    | Ipv6
    | Resource(name: string, typechar: char, openFlags: int)

  datatype Call =
    | DataCall(op: Op, fd: int, fdinfo: Option<FdInfo>, mapped: Option<(int, FdInfo)>,
               path1: string, path2: string)
    | ProcCall(op: Op, cloneThread: bool)
    | OtherCall

  datatype Event = Event(ts: int, tid: int, isMain: bool, ret: int, container: ContainerRef,
                         task: Task, call: Call)

  // ----------------------------------------------------------- configuration

  datatype ReadMode = ReadsEnabled | ReadsDisabled | ReadsSelect

  datatype Config = Config(readMode: ReadMode, fileOnly: bool, noFiles: bool, consumer: bool,
                           processFlow: bool, filterContainers: bool, rotateInterval: int)

  const EXPORT_INTERVAL := 30
  const EXPIRE_INTERVAL := 60
}
