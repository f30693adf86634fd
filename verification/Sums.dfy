/**
  Conservation column by column: what the events of a stream come to, told from their fields alone,
  and what the records of a trace come to.
 */
module Sums {
  import opened Types
  import opened Trace
  import opened Ledger
  import opened ReadOnlyFiles
  import opened FlowState
  import opened Effects
  import opened ControlFlows
  import opened Stream
  import opened Chronicle

  datatype Column = Sends | BytesSent | Receives | BytesReceived | Clones | Exits | Failures

  function In(c: Tally, col: Column): int {
    match col
    case Sends => c.wOps
    case BytesSent => c.wBytes
    case Receives => c.rOps
    case BytesReceived => c.rBytes
    case Clones => c.cloned
    case Exits => c.exited
    case Failures => c.errors
  }

  /** The event of the input is handled. */
  predicate Heard(cfg: Config, i: Input) { i.Observed? && !(cfg.filterContainers && i.ev.container.id == "") }

  /** The event operates on a flow with `op`. */
  ghost predicate Does(cfg: Config, i: Input, op: Op) {
    Heard(cfg, i) && i.ev.call.DataCall? && i.ev.call.op == op && exists fd, d :: Through(cfg, i.ev, fd, d)
  }

  /** The event is the clone of a thread, or one that failed, and counted as such. */
  predicate ClonesThread(cfg: Config, i: Input) {
    && Heard(cfg, i) && cfg.processFlow && i.ev.call.ProcCall? && i.ev.call.op == Clone
    && !(i.ev.isMain && I32(i.ev.ret) == 0) && !(I32(i.ev.ret) > 0 && !i.ev.call.cloneThread)
  }

  /** What an input adds to a column. */
  ghost function Amount(cfg: Config, i: Input, col: Column): int {
    match col
    case Sends => if Does(cfg, i, WriteSend) then 1 else 0
    case BytesSent => if Does(cfg, i, WriteSend) && I32(i.ev.ret) > 0 then I32(i.ev.ret) else 0
    case Receives => if Does(cfg, i, ReadRecv) then 1 else 0
    case BytesReceived => if Does(cfg, i, ReadRecv) && I32(i.ev.ret) > 0 then I32(i.ev.ret) else 0
    case Clones => if ClonesThread(cfg, i) && I32(i.ev.ret) == 0 then 1 else 0
    case Exits =>
      if Heard(cfg, i) && cfg.processFlow && i.ev.call.ProcCall? && i.ev.call.op == Exit && !i.ev.isMain then 1 else 0
    case Failures => if ClonesThread(cfg, i) && I32(i.ev.ret) == -1 then 1 else 0
  }

  ghost function InputTotal(cfg: Config, inputs: seq<Input>, col: Column): int {
    if inputs == [] then 0
    else InputTotal(cfg, inputs[..|inputs| - 1], col) + Amount(cfg, inputs[|inputs| - 1], col)
  }

  function RecordTotal(rs: seq<Record>, col: Column): int {
    if rs == [] then 0
    else
      var r := rs[|rs| - 1];
      RecordTotal(rs[..|rs| - 1], col)
      + if r.FlowRec? then In(r.flow.cnt, col) else if r.ProcFlowRec? then In(r.cnt, col) else 0
  }

  function FlowTotal(fs: seq<DataFlow>, col: Column): int {
    if fs == [] then 0 else FlowTotal(fs[..|fs| - 1], col) + In(fs[|fs| - 1].rec.cnt, col)
  }

  lemma PlusIn(a: Tally, b: Tally, col: Column)
    ensures In(Plus(a, b), col) == In(a, col) + In(b, col) && In(ZERO, col) == 0
  {
  }

  lemma ChargeIn(cfg: Config, i: Input, col: Column)
    ensures In(Charge(cfg, i), col) == Amount(cfg, i, col)
  {
    hide DeedOf, Through;
    if i.Observed? && i.ev.call.DataCall? { OperatesIff(cfg, i.ev, 0); }
  }

  lemma {:induction false} ChargesIn(cfg: Config, inputs: seq<Input>, col: Column)
    ensures In(Charges(cfg, inputs), col) == InputTotal(cfg, inputs, col)
  {
    hide Charge, Amount, Plus, In;
    PlusIn(ZERO, ZERO, col);
    if inputs != [] {
      var n := |inputs| - 1;
      ChargesIn(cfg, inputs[..n], col);
      ChargeIn(cfg, inputs[n], col);
      PlusIn(Charges(cfg, inputs[..n]), Charge(cfg, inputs[n]), col);
    }
  }

  lemma {:induction false} WrittenIn(rs: seq<Record>, col: Column)
    ensures In(Written(rs), col) == RecordTotal(rs, col)
  {
    hide Plus, In;
    PlusIn(ZERO, ZERO, col);
    if rs != [] {
      var n := |rs| - 1;
      WrittenIn(rs[..n], col);
      PlusIn(Written(rs[..n]), Cost(rs[n]), col);
    }
  }

  lemma {:induction false} MutedIn(fs: seq<DataFlow>, col: Column)
    ensures In(Muted(fs), col) == FlowTotal(fs, col)
  {
    hide Plus, In;
    PlusIn(ZERO, ZERO, col);
    if fs != [] {
      var n := |fs| - 1;
      MutedIn(fs[..n], col);
      PlusIn(Muted(fs[..n]), fs[n].rec.cnt, col);
    }
  }

  /** In every column, the records `rs` and the flows `hushed` come to what the inputs do; in the columns of
      threads the records alone do, and in all columns when reads are enabled. */
  ghost predicate Conserved(cfg: Config, inputs: seq<Input>, rs: seq<Record>, hushed: seq<DataFlow>) {
    forall col: Column ::
      && RecordTotal(rs, col) + FlowTotal(hushed, col) == InputTotal(cfg, inputs, col)
      && (cfg.readMode == ReadsEnabled || col in {Clones, Exits, Failures} ==>
            RecordTotal(rs, col) == InputTotal(cfg, inputs, col))
  }

  lemma ConservedIf(cfg: Config, inputs: seq<Input>, rs: seq<Record>, hushed: seq<DataFlow>)
    requires Plus(Written(rs), Muted(hushed)) == Charges(cfg, inputs)
    requires forall f :: f in hushed ==> SameThreads(f.rec.cnt, ZERO) && Suppressed(cfg.readMode, f)
    ensures Conserved(cfg, inputs, rs, hushed)
  {
    hide Plus, In, Suppressed, SameThreads;
    HushedColumns(cfg.readMode, Written(rs), hushed, Charges(cfg, inputs));
    forall col: Column
      ensures RecordTotal(rs, col) + FlowTotal(hushed, col) == InputTotal(cfg, inputs, col)
      ensures cfg.readMode == ReadsEnabled || col in {Clones, Exits, Failures} ==>
        RecordTotal(rs, col) == InputTotal(cfg, inputs, col)
    {
      PlusIn(Written(rs), Muted(hushed), col);
      WrittenIn(rs, col);
      MutedIn(hushed, col);
      ChargesIn(cfg, inputs, col);
      ThreadColumns(Written(rs), Charges(cfg, inputs), col);
    }
  }

  lemma ThreadColumns(a: Tally, b: Tally, col: Column)
    ensures SameThreads(a, b) && col in {Clones, Exits, Failures} ==> In(a, col) == In(b, col)
  {
  }
}
