/**
  Sums of counters: over the records of a trace and over the live objects of a table.
 */
module Ledger {
  import opened Types
  import opened Trace

  function Cost(r: Record): Tally {
    match r
    case FlowRec(f) => f.cnt
    case ProcFlowRec(_, _, _, _, cnt) => cnt
    case _ => ZERO
  }

  /** The counters of all written records. */
  function Written(rs: seq<Record>): Tally {
    if rs == [] then ZERO else Plus(Written(rs[..|rs| - 1]), Cost(rs[|rs| - 1]))
  }

  lemma PlusLaws(a: Tally, b: Tally, c: Tally)
    ensures Plus(a, b) == Plus(b, a)
    ensures Plus(Plus(a, b), c) == Plus(a, Plus(b, c))
    ensures Plus(a, Plus(b, c)) == Plus(b, Plus(a, c))
    ensures Plus(a, ZERO) == a
  {
  }

  /** What leaves one column enters another. */
  lemma Transfer(rest: Tally, column: Tally, moved: Tally, all: Tally)
    requires Plus(moved, rest) == all
    ensures Plus(rest, Plus(column, moved)) == Plus(all, column)
  {
  }

  lemma {:induction false} WrittenConcat(a: seq<Record>, b: seq<Record>)
    ensures Written(a + b) == Plus(Written(a), Written(b))
  {
    if b == [] {
      assert a + b == a;
      PlusLaws(Written(a), ZERO, ZERO);
    } else {
      var n := |b| - 1;
      var front, last := b[..n], b[n];
      assert (a + b)[..|a + b| - 1] == a + front;
      assert (a + b)[|a + b| - 1] == last;
      WrittenConcat(a, front);
      PlusLaws(Written(a), Written(front), Cost(last));
    }
  }

  lemma WrittenOne(a: seq<Record>, r: Record)
    ensures Written(a + [r]) == Plus(Written(a), Cost(r))
  {
    assert (a + [r])[..|a|] == a;
  }

  /** The sum over a table, taken in some order. */
  ghost function Sum<K(!new)>(m: map<K, Tally>): Tally {
    if m == map[] then ZERO
    else
      var k :| k in m;
      Plus(m[k], Sum(m - {k}))
  }

  /** The order does not matter. */
  lemma {:induction false} SumTakeOut<K(!new)>(m: map<K, Tally>, k: K)
    requires k in m
    ensures Sum(m) == Plus(m[k], Sum(m - {k}))
    decreases |m|
  {
    var j :| j in m && Sum(m) == Plus(m[j], Sum(m - {j}));
    if j != k {
      var a, b := m - {j}, m - {k};
      SumTakeOut(a, k);
      SumTakeOut(b, j);
      var rest := a - {k};
      assert b - {j} == rest;
      PlusLaws(m[j], m[k], Sum(rest));
    }
  }

  lemma SumSet<K(!new)>(m: map<K, Tally>, k: K, t: Tally)
    ensures Sum(m[k := t]) == Plus(t, Sum(m - {k}))
  {
    SumTakeOut(m[k := t], k);
    assert m[k := t] - {k} == m - {k};
  }

  ghost function Counters(flows: map<FlowId, DataFlow>): map<FlowId, Tally> {
    map id | id in flows :: flows[id].rec.cnt
  }

  /** The counters of the live data flows. */
  ghost function Live(flows: map<FlowId, DataFlow>): Tally { Sum(Counters(flows)) }

  ghost function ProcCounters(procs: map<OID, ProcessObj>): map<OID, Tally> {
    map o | o in procs && procs[o].pfo.Some? :: procs[o].pfo.value.cnt
  }

  /** The counters of the live process flows. */
  ghost function LiveProc(procs: map<OID, ProcessObj>): Tally { Sum(ProcCounters(procs)) }

  lemma LiveSet(flows: map<FlowId, DataFlow>, id: FlowId, f: DataFlow)
    ensures Live(flows[id := f]) == Plus(f.rec.cnt, Live(flows - {id}))
    ensures id in flows ==> Live(flows) == Plus(flows[id].rec.cnt, Live(flows - {id}))
    ensures id !in flows ==> flows - {id} == flows
  {
    var m := Counters(flows);
    assert Counters(flows[id := f]) == m[id := f.rec.cnt];
    assert Counters(flows - {id}) == m - {id};
    SumSet(m, id, f.rec.cnt);
    if id in flows { SumTakeOut(m, id); }
  }

  lemma LiveProcSame(ps: map<OID, ProcessObj>, qs: map<OID, ProcessObj>)
    requires forall o :: o in ps && ps[o].pfo.Some? ==> o in qs && qs[o].pfo == ps[o].pfo
    requires forall o :: o in qs && qs[o].pfo.Some? ==> o in ps && ps[o].pfo.Some?
    ensures LiveProc(ps) == LiveProc(qs)
  {
    assert ProcCounters(ps) == ProcCounters(qs);
  }

  /** Replacing one process flow (None counts nothing). */
  lemma LiveProcSet(procs: map<OID, ProcessObj>, o: OID, p: ProcessObj)
    requires o in procs
    ensures LiveProc(procs) == Plus(PfCount(procs[o].pfo), LiveProc(procs - {o}))
    ensures LiveProc(procs[o := p]) == Plus(PfCount(p.pfo), LiveProc(procs - {o}))
  {
    var qs := procs[o := p];
    assert qs - {o} == procs - {o};
    TakeOutProc(qs, o);
    TakeOutProc(procs, o);
  }

  function PfCount(pf: Option<ProcFlow>): Tally {
    if pf.Some? then pf.value.cnt else ZERO
  }

  lemma TakeOutProc(procs: map<OID, ProcessObj>, o: OID)
    requires o in procs
    ensures LiveProc(procs) == Plus(PfCount(procs[o].pfo), LiveProc(procs - {o}))
  {
    var m := ProcCounters(procs);
    assert ProcCounters(procs - {o}) == m - {o};
    if o in m { SumTakeOut(m, o); } else { assert m - {o} == m; }
  }

  /** Offering a flow to the writer and deleting it moves its counters from the live flows to
      the trace; nothing is lost when the writer drops it, because it then has none. */
  lemma OfferBalances(bs: seq<Record>, f: FlowData, flows: map<FlowId, DataFlow>, id: FlowId)
    requires id in flows && f.cnt == flows[id].rec.cnt && (Idle(f.opFlags) ==> f.cnt == ZERO)
    ensures Plus(Written(bs + Offered(f)), Live(flows - {id})) == Plus(Written(bs), Live(flows))
  {
    hide Live, Plus, Written;
    LiveSet(flows, id, flows[id]);
    var rest := Live(flows - {id});
    PlusLaws(rest, ZERO, ZERO);
    if Idle(f.opFlags) {
      assert bs + [] == bs;
    } else {
      PlusLaws(Written(bs), f.cnt, rest);
      WrittenOne(bs, FlowRec(f));
    }
  }

  lemma OfferProcBalances(bs: seq<Record>, o: OID, f: ProcFlow, procs: map<OID, ProcessObj>, p: ProcessObj)
    requires o in procs && procs[o].pfo.Some? && f.cnt == procs[o].pfo.value.cnt
    requires (Idle(f.opFlags) ==> f.cnt == ZERO) && PfCount(p.pfo) == ZERO
    ensures Plus(Written(bs + OfferedProc(o, f)), LiveProc(procs[o := p])) == Plus(Written(bs), LiveProc(procs))
  {
    hide LiveProc, Plus, Written;
    LiveProcSet(procs, o, p);
    var rest := LiveProc(procs - {o});
    PlusLaws(rest, ZERO, ZERO);
    if Idle(f.opFlags) {
      assert bs + [] == bs;
    } else {
      PlusLaws(Written(bs), f.cnt, rest);
      WrittenOne(bs, ProcFlowRec(o, f.ts, f.endTs, f.opFlags, f.cnt));
    }
  }
}
