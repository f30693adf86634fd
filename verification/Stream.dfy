/**
  The input of the collector as a stream: the clock, what the events add up to, and the
  hypotheses about the events, all stated on the stream itself; and what the tables of the
  collector owe to the stream so far.
 */
module Stream {
  import opened Types
  import opened Trace
  import opened Ledger
  import opened Invariants
  import opened Pruning
  import opened ProcessState
  import opened FlowState
  import opened ControlFlows

  /** What the event source delivers: nothing for a while, an event the source filters out, or
      an event; with the clock readings of the turn, and whether the sink wants a new file. */
  datatype Input =
    | Timeout(now: int, nowNs: int, reset: bool)
    | Filtered
    | Observed(now: int, nowNs: int, reset: bool, ev: Event)

  // ---------------------------------------------------------------- the clock

  /** The clock is positive and never goes backwards. */
  predicate Clocked(inputs: seq<Input>, now: int) {
    inputs == [] ||
    if inputs[0].Filtered? then Clocked(inputs[1..], now)
    else now <= inputs[0].now && 0 < inputs[0].now && Clocked(inputs[1..], inputs[0].now)
  }

  /** Turns of the loop are at most thirty seconds apart. */
  predicate Punctual(inputs: seq<Input>, last: int) {
    inputs == [] ||
    if inputs[0].Filtered? then Punctual(inputs[1..], last)
    else (last == 0 || inputs[0].now - last <= EXPORT_INTERVAL) && Punctual(inputs[1..], inputs[0].now)
  }

  // -------------------------------------------------------------- the charges

  /** The bytes, operations and threads of an event that is handled. */
  function HandlerCharge(cfg: Config, ev: Event): Tally {
    match ev.call
    case DataCall(_, _, _, _, _, _) => EventCharge(cfg, ev)
    case ProcCall(_, _) => ProcCharge(cfg, ev)
    case OtherCall => ZERO
  }

  /** An event from outside any container may be left unhandled. */
  predicate Skipped(cfg: Config, ev: Event) { cfg.filterContainers && ev.container.id == "" }

  predicate Handled(cfg: Config, input: Input) { input.Observed? && !Skipped(cfg, input.ev) }

  function Charge(cfg: Config, input: Input): Tally {
    if Handled(cfg, input) then HandlerCharge(cfg, input.ev) else ZERO
  }

  /** The bytes, operations and threads of a run. */
  function Charges(cfg: Config, inputs: seq<Input>): Tally {
    if inputs == [] then ZERO
    else Plus(Charges(cfg, inputs[..|inputs| - 1]), Charge(cfg, inputs[|inputs| - 1]))
  }

  // ------------------------------------------------- what the stream has brought

  /** The event makes the collector look its process up. */
  ghost predicate Walks(cfg: Config, ev: Event) {
    match ev.call
    case DataCall(_, _, _, _, _, _) => LooksUp(cfg, ev)
    case ProcCall(op, _) => Supported(op)
    case OtherCall => false
  }

  /** The processes the stream may have made the collector cache, with the parents it may have
      given them. */
  ghost function Kinfolk(cfg: Config, inputs: seq<Input>): set<(OID, Option<OID>)> {
    if inputs == [] then {}
    else
      var before, i := Kinfolk(cfg, inputs[..|inputs| - 1]), inputs[|inputs| - 1];
      before + (if Handled(cfg, i) && Walks(cfg, i.ev) then Births(i.ev.task, Names(before)) else {})
  }

  ghost function Names(kin: set<(OID, Option<OID>)>): set<OID> { set b | b in kin :: b.0 }

  predicate MainExit(ev: Event) { ev.call.ProcCall? && ev.call.op.Exit? && ev.isMain }

  /** The time of the last round of deletions, when it was `delTime` before. */
  function DelTime(inputs: seq<Input>, delTime: int): int {
    if inputs == [] then delTime
    else
      var d, i := DelTime(inputs[..|inputs| - 1], delTime), inputs[|inputs| - 1];
      if !i.Filtered? && i.now - d > 1 then i.now else d
  }

  /** A round of deletions at `now` may make the queue `q'` of `q`, when the last round was at `d`. */
  ghost predicate Drains(q: seq<OIDObj>, q': seq<OIDObj>, d: int, now: int) {
    if now - d > 1 then exists taken :: Passes(q, q', taken, now) else q' == q
  }

  /** What a turn adds to the queue: a process whose main thread exits. */
  function Queued(cfg: Config, i: Input): seq<OIDObj> {
    if Handled(cfg, i) && MainExit(i.ev) then [OIDObj(OidOf(i.ev.task), i.now)] else []
  }

  /** The stream may have led to the deletion queue `q`. */
  ghost predicate Waits(cfg: Config, inputs: seq<Input>, delTime: int, q: seq<OIDObj>)
    decreases |inputs|, 0
  {
    if inputs == [] then q == []
    else
      var before, i := inputs[..|inputs| - 1], inputs[|inputs| - 1];
      if i.Filtered? then Waits(cfg, before, delTime, q)
      else exists mid :: WaitsNow(cfg, before, delTime, i.now, mid) && q == mid + Queued(cfg, i)
  }

  /** The same after the round of deletions of a further turn, at `now`. */
  ghost predicate WaitsNow(cfg: Config, before: seq<Input>, delTime: int, now: int, q: seq<OIDObj>)
    decreases |before|, 1
  {
    exists q0 :: Waits(cfg, before, delTime, q0) && Drains(q0, q, DelTime(before, delTime), now)
  }

  /** The process may still wait for its deletion when the turn at `now` comes to its event. */
  ghost predicate MayWait(cfg: Config, before: seq<Input>, delTime: int, now: int, o: OID) {
    exists q: seq<OIDObj>, e: OIDObj :: WaitsNow(cfg, before, delTime, now, q) && e in q && e.oid == o
  }

  /** The process, flow key and file of a file flow. */
  function FileTriple(f: DataFlow): (OID, string, string) { (f.rec.procOID, f.flowkey, f.filekey) }

  /** The event operates on a file flow. */
  ghost predicate OnFileFlow(cfg: Config, ev: Event) {
    ev.call.DataCall? && DeedOf(cfg, ev, 0).Operate? && DeedOf(cfg, ev, 0).f0.rec.subject.File?
  }

  /** The file flows the stream has asked for. */
  ghost function Openings(cfg: Config, inputs: seq<Input>): set<(OID, string, string)> {
    if inputs == [] then {}
    else
      var before, i := Openings(cfg, inputs[..|inputs| - 1]), inputs[|inputs| - 1];
      before + (if Handled(cfg, i) && OnFileFlow(cfg, i.ev) then {FileTriple(DeedOf(cfg, i.ev, 0).f0)} else {})
  }

  // ------------------------------------------------------------ the hypotheses

  /** Every task of the chain has the parent it always had, none is a child of pid zero, and no
      parent can be guessed by its pid. */
  ghost predicate SteadyChain(t: Task, kin: set<(OID, Option<OID>)>)
    decreases t
  {
    match t.parent
    case Some(p) =>
      && !(p.cloneTs == 0 && p.pid == 0)
      && (forall b :: b in kin && b.0 == OidOf(t) ==> b.1 == Some(OidOf(p)))
      && SteadyChain(p, kin)
    case None =>
      && (forall b :: b in kin && b.0 == OidOf(t) ==> b.1 == None)
      && (t.ptid != -1 ==> forall b :: b in kin ==> b.0.hpid != t.ptid)
  }

  /** The hypotheses about an event that comes after `before`: its ancestry is acyclic; it opens no
      flow for a process that waits for its deletion; and its file flow key names no other file of
      the process than it did before.  With `tidy`, parents are steady, too. */
  ghost predicate Proper(cfg: Config, before: seq<Input>, delTime: int, i: Input, rank: OID -> nat, tidy: bool)
    requires i.Observed?
  {
    var kin, ev := Kinfolk(cfg, before), i.ev;
    && (Walks(cfg, ev) ==> Sane(ev.task, rank, Names(kin)) && (tidy ==> SteadyChain(ev.task, kin)))
    && (ev.call.DataCall? && DeedOf(cfg, ev, 0).Operate? ==>
        !ev.call.op.Truncate? && (!ev.call.op.Close? ==> !MayWait(cfg, before, delTime, i.now, OidOf(ev.task))))
    && (OnFileFlow(cfg, ev) ==>
        var f := FileTriple(DeedOf(cfg, ev, 0).f0);
        forall g :: g in Openings(cfg, before) && g.0 == f.0 && g.1 == f.1 ==> g.2 == f.2)
    && (CountsThread(cfg, ev) ==> !MayWait(cfg, before, delTime, i.now, OidOf(ev.task)))
  }

  ghost predicate Lawful(cfg: Config, inputs: seq<Input>, delTime: int, rank: OID -> nat, tidy: bool) {
    forall i :: 0 <= i < |inputs| && Handled(cfg, inputs[i]) ==>
      Proper(cfg, inputs[..i], delTime, inputs[i], rank, tidy)
  }

  // ------------------------------------------- what the tables owe to the stream

  /** Cached processes and file flows stem from the stream so far. */
  ghost predicate Known(cfg: Config, before: seq<Input>, w: World) {
    && (forall o :: o in w.procs ==> (o, w.procs[o].poid) in Kinfolk(cfg, before))
    && (forall id :: id in w.flows && w.flows[id].rec.subject.File? ==>
          FileTriple(w.flows[id]) in Openings(cfg, before))
  }

  /** So does the queue, between two turns. */
  ghost predicate Recalled(cfg: Config, before: seq<Input>, delTime: int, w: World) {
    Known(cfg, before, w) && Waits(cfg, before, delTime, w.queue)
  }

  /** So does the queue, when the turn at `now` comes to its event. */
  ghost predicate Ready(cfg: Config, before: seq<Input>, delTime: int, now: int, w: World) {
    Known(cfg, before, w) && WaitsNow(cfg, before, delTime, now, w.queue)
  }

  /** The hypotheses about an event in the state in which its handler begins. */
  ghost predicate Hypotheses(cfg: Config, w: World, ev: Event, rank: OID -> nat) {
    && (ev.call.DataCall? ==> DataHypotheses(cfg, w, ev, rank))
    && (ev.call.ProcCall? ==>
        (Supported(ev.call.op) ==> Climbable(w.procs, ev.task, rank, w.tidy)) && !Late(cfg, ev, w.queue))
  }

  lemma {:induction false} SaneAmongFewer(t: Task, rank: OID -> nat, cached: set<OID>, all: set<OID>)
    requires Sane(t, rank, all) && cached <= all
    ensures Sane(t, rank, cached)
    decreases t
  {
    if t.parent.Some? { SaneAmongFewer(t.parent.value, rank, cached, all); }
  }

  lemma {:induction false} SteadyIsStable(t: Task, kin: set<(OID, Option<OID>)>, procs: ProcessTable)
    requires SteadyChain(t, kin) && forall o :: o in procs ==> (o, procs[o].poid) in kin
    ensures Stable(t, procs)
    decreases t
  {
    if t.parent.Some? {
      SteadyIsStable(t.parent.value, kin, procs);
    } else if t.ptid != -1 {
      forall q | q in procs ensures q.hpid != t.ptid {
        var b := (q, procs[q].poid);
        assert b in kin && b.0.hpid != t.ptid;
      }
    }
  }

  /** What holds of the stream holds of the tables: a lawful event finds them prepared for it. */
  lemma ProperIsEnough(cfg: Config, before: seq<Input>, delTime: int, x: Flux, i: Input, rank: OID -> nat)
    requires i.Observed? && Proper(cfg, before, delTime, i, rank, x.w.tidy)
    requires Ready(cfg, before, delTime, i.now, x.w) && Coherent(x, rank, {}, i.now)
    ensures Hypotheses(cfg, x.w, i.ev, rank)
  {
    hide Coherent, Sane, Stable, SteadyChain, DeedOf, Kinfolk, WaitsNow, Openings;
    var kin, ev := Kinfolk(cfg, before), i.ev;
    if Walks(cfg, ev) {
      assert x.w.procs.Keys <= Names(kin) by {
        forall o | o in x.w.procs ensures o in Names(kin) {
          assert (o, x.w.procs[o].poid) in kin;
        }
      }
      SaneAmongFewer(ev.task, rank, x.w.procs.Keys, Names(kin));
      if x.w.tidy { SteadyIsStable(ev.task, kin, x.w.procs); }
    }
    if ev.call.DataCall? && DeedOf(cfg, ev, 0).Operate? {
      KeyNamed(cfg, before, delTime, x, i, rank);
    }
  }

  /** The flow stored under the key of a lawful event is on the file of the event. */
  lemma KeyNamed(cfg: Config, before: seq<Input>, delTime: int, x: Flux, i: Input, rank: OID -> nat)
    requires i.Observed? && i.ev.call.DataCall? && DeedOf(cfg, i.ev, 0).Operate?
    requires Proper(cfg, before, delTime, i, rank, x.w.tidy) && Known(cfg, before, x.w) && Coherent(x, rank, {}, i.now)
    ensures var c := i.ev.call;
            var target := FileTarget(cfg, c.op, c.fd, c.fdinfo, c.mapped);
            target.Some? ==> KeyNamesFile(x.w, i.ev, target.value.0, target.value.1)
  {
    hide Coherent, Sane, SteadyChain, Kinfolk, MayWait, Openings;
    var ev, now := i.ev, i.now;
    var target := FileTarget(cfg, ev.call.op, ev.call.fd, ev.call.fdinfo, ev.call.mapped);
    if target.Some? {
      var (fd, d) := target.value;
      var o, f0 := OidOf(ev.task), DeedOf(cfg, ev, 0).f0;
      assert f0 == FileFlowOf(ev, fd, d, ev.call.op, 0);
      var key := FileKey(f0.flowkey);
      if o in x.w.procs && key in x.w.procs[o].table {
        EntryFacts(x, o, key, rank, now);
        var g := x.w.flows[x.w.procs[o].table[key]];
        assert FileTriple(g).0 == o && (g.rec.subject.File? ==> FileTriple(g).1 == f0.flowkey);
      }
    }
  }

  // --------------------------------------------------- how the memory is kept up

  lemma Longer(cfg: Config, before: seq<Input>, i: Input)
    ensures Kinfolk(cfg, before) <= Kinfolk(cfg, before + [i])
    ensures Openings(cfg, before) <= Openings(cfg, before + [i])
    ensures Handled(cfg, i) && Walks(cfg, i.ev) ==>
      Births(i.ev.task, Names(Kinfolk(cfg, before))) <= Kinfolk(cfg, before + [i])
    ensures Handled(cfg, i) && OnFileFlow(cfg, i.ev) ==>
      FileTriple(DeedOf(cfg, i.ev, 0).f0) in Openings(cfg, before + [i])
  {
    hide DeedOf, Births, Walks, OnFileFlow;
    assert (before + [i])[..|before|] == before;
  }

  lemma KnownLonger(cfg: Config, before: seq<Input>, i: Input, w: World)
    requires Known(cfg, before, w)
    ensures Known(cfg, before + [i], w)
  {
    hide Kinfolk, Openings;
    Longer(cfg, before, i);
  }

  /** A turn that is filtered out. */
  lemma RecalledFiltered(cfg: Config, before: seq<Input>, delTime: int, w: World)
    requires Recalled(cfg, before, delTime, w)
    ensures Recalled(cfg, before + [Filtered], delTime, w)
  {
    hide Known, WaitsNow;
    KnownLonger(cfg, before, Filtered, w);
    assert (before + [Filtered])[..|before|] == before;
  }

  /** The event of a turn has been handled. */
  lemma Remembered(cfg: Config, before: seq<Input>, delTime: int, i: Input, x: World, y: World)
    requires !i.Filtered? && Ready(cfg, before, delTime, i.now, x) && Known(cfg, before + [i], y)
    requires y.queue == x.queue + Queued(cfg, i)
    ensures Recalled(cfg, before + [i], delTime, y)
  {
    hide Known, WaitsNow;
    assert (before + [i])[..|before|] == before;
  }

  /** There was nothing to handle. */
  lemma RecalledIdle(cfg: Config, before: seq<Input>, delTime: int, i: Input, x: World)
    requires !i.Filtered? && Ready(cfg, before, delTime, i.now, x) && Queued(cfg, i) == []
    ensures Recalled(cfg, before + [i], delTime, x)
  {
    hide Known, WaitsNow;
    KnownLonger(cfg, before, i, x);
    assert x.queue + [] == x.queue;
    Remembered(cfg, before, delTime, i, x, x);
  }

  lemma DelTimeNext(inputs: seq<Input>, delTime: int, i: Input)
    ensures DelTime(inputs + [i], delTime)
            == var d := DelTime(inputs, delTime); if !i.Filtered? && i.now - d > 1 then i.now else d
  {
    assert (inputs + [i])[..|inputs|] == inputs;
  }

  /** Nothing new has been cached or opened. */
  ghost predicate NothingNew(x: World, y: World) {
    && BornOf(x.procs, y.procs, {})
    && (forall id :: id in y.flows ==>
          && id in x.flows && FileTriple(y.flows[id]) == FileTriple(x.flows[id])
          && y.flows[id].rec.subject.File? == x.flows[id].rec.subject.File?)
  }

  /** The queue has been drained, and nothing new has come. */
  lemma ReadyAfter(cfg: Config, before: seq<Input>, delTime: int, now: int, x: World, y: World)
    requires Recalled(cfg, before, delTime, x) && NothingNew(x, y)
    requires Drains(x.queue, y.queue, DelTime(before, delTime), now)
    ensures Ready(cfg, before, delTime, now, y)
  {
    hide Kinfolk, Waits, Drains, Openings;
  }

  lemma NothingNewTrans(x: World, y: World, z: World)
    requires NothingNew(x, y) && NothingNew(y, z)
    ensures NothingNew(x, z)
  {
    hide FileTriple;
  }

  lemma {:induction false} BirthsAmongMore(t: Task, cached: set<OID>, all: set<OID>)
    requires cached <= all
    ensures Births(t, cached) <= Births(t, all)
    decreases t
  {
    if t.parent.Some? { BirthsAmongMore(t.parent.value, cached, all); }
  }

  /** The new processes of an event are among its births. */
  lemma BornRecalled(cfg: Config, before: seq<Input>, i: Input, x: World, qs: ProcessTable)
    requires Known(cfg, before, x) && Handled(cfg, i)
    requires BornOf(x.procs, qs, if Walks(cfg, i.ev) then Born(x.procs, i.ev.task) else {})
    ensures forall o :: o in qs ==> (o, qs[o].poid) in Kinfolk(cfg, before + [i])
  {
    hide Kinfolk, Openings, Births, Walks;
    Longer(cfg, before, i);
    var kin := Kinfolk(cfg, before);
    assert x.procs.Keys <= Names(kin) by {
      forall o | o in x.procs ensures o in Names(kin) {
        assert (o, x.procs[o].poid) in kin;
      }
    }
    BirthsAmongMore(i.ev.task, x.procs.Keys, Names(kin));
  }

  /** The flows of a process after a data event: known ones, or the one the event asked for. */
  lemma DidRecalls(cfg: Config, before: seq<Input>, delTime: int, i: Input, x: World, y: World, vec: seq<FlowId>)
    requires Handled(cfg, i) && i.ev.call.DataCall? && Ready(cfg, before, delTime, i.now, x) && y.queue == x.queue
    requires BornOf(x.procs, y.procs, if LooksUp(cfg, i.ev) then Born(x.procs, i.ev.task) else {})
    requires Did(DeedOf(cfg, i.ev, i.now), x, y, i.ev, i.ev.call.op, cfg.readMode, i.now, vec)
    ensures Recalled(cfg, before + [i], delTime, y)
  {
    hide Kinfolk, WaitsNow, Waits, Openings, DeedOf, LooksUp, Behaviors, Born, Did;
    var now := i.now;
    assert x.queue + [] == x.queue;
    BornRecalled(cfg, before, i, x, y.procs);
    Longer(cfg, before, i);
    DeedAnyTime(cfg, i.ev, now);
    forall id | id in y.flows && y.flows[id].rec.subject.File?
      ensures FileTriple(y.flows[id]) in Openings(cfg, before + [i])
    {
      DidTriple(DeedOf(cfg, i.ev, now), x, y, i.ev, i.ev.call.op, cfg.readMode, now, vec, id);
    }
    Remembered(cfg, before, delTime, i, x, y);
  }

  lemma DidTriple(deed: Deed, x: World, y: World, ev: Event, op: Op, mode: ReadMode, now: int, vec: seq<FlowId>,
                  id: FlowId)
    requires Did(deed, x, y, ev, op, mode, now, vec) && id in y.flows
    ensures if id in x.flows
            then FileTriple(y.flows[id]) == FileTriple(x.flows[id])
                 && y.flows[id].rec.subject.File? == x.flows[id].rec.subject.File?
            else deed.Operate? && FileTriple(y.flows[id]) == FileTriple(deed.f0)
                 && y.flows[id].rec.subject.File? == deed.f0.rec.subject.File?
  {
    hide Behaviors, KeyOf, Offers, OpenersFirst, RelatedEntry, OtherTables;
  }

  /** The same for a process event; a main thread's exit is remembered. */
  lemma ProcDidRecalls(cfg: Config, before: seq<Input>, delTime: int, i: Input, x: World, y: World, gone: seq<FlowId>)
    requires Handled(cfg, i) && i.ev.call.ProcCall? && Ready(cfg, before, delTime, i.now, x)
    requires BornOf(x.procs, y.procs, if Supported(i.ev.call.op) then Born(x.procs, i.ev.task) else {})
    requires ProcDid(cfg, x, y, i.ev, i.now, i.nowNs, gone)
    ensures Recalled(cfg, before + [i], delTime, y)
  {
    hide Kinfolk, WaitsNow, Waits, Openings, Behaviors, Born, Offers, ExitDone, OtherTables, SameTables,
         ThreadCounted, PfKept, PfKeptBut, LastProcFlow, Homed, Leaves;
    BornRecalled(cfg, before, i, x, y.procs);
    Longer(cfg, before, i);
    Remembered(cfg, before, delTime, i, x, y);
  }
}
