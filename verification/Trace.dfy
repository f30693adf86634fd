/**
  The trace as an append-only sequence of records.  A segment runs from one header to
  the next; the rule for a segment is that every flow and event comes after the entities
  it names.
 */
module Trace {
  import opened Types

  datatype Entity = Proc(oid: OID) | Fil(foid: FOID)

  predicate IsBehavior(r: Record) {
    r.FlowRec? || r.ProcFlowRec? || r.ProcEventRec? || r.FileEventRec?
  }

  /** The entities a record refers to. */
  function Needs(r: Record): set<Entity> {
    match r
    case FlowRec(f) =>
      {Proc(f.procOID)} + (if f.subject.File? then {Fil(f.subject.fileOID)} else {})
    case ProcFlowRec(o, _, _, _, _) => {Proc(o)}
    case ProcEventRec(_, o, _, _, _) => {Proc(o)}
    case FileEventRec(_, o, _, _, _, f, g) =>
      {Proc(o), Fil(f)} + (if g.Some? then {Fil(g.value)} else {})
    case _ => {}
  }

  /** The entities recorded since the last header. */
  function Declared(log: seq<Record>): set<Entity> {
    if log == [] then {}
    else
      var r := log[|log| - 1];
      var before := Declared(log[..|log| - 1]);
      match r
      case HeaderRec => {}
      case ProcessRec(o, _, _, _, _) => before + {Proc(o)}
      case FileRec(f, _) => before + {Fil(f)}
      case _ => before
  }

  /** Every record finds what it needs declared in its own segment. */
  predicate Closed(log: seq<Record>) {
    log == [] ||
    (Closed(log[..|log| - 1]) && Needs(log[|log| - 1]) <= Declared(log[..|log| - 1]))
  }

  /** The flow and event records of the trace, in order. */
  function Behaviors(log: seq<Record>): seq<Record> {
    if log == [] then []
    else
      var r := log[|log| - 1];
      Behaviors(log[..|log| - 1]) + (if IsBehavior(r) then [r] else [])
  }

  /** The process records of the trace, in order. */
  function Recorded(log: seq<Record>): seq<Record> {
    if log == [] then []
    else
      var r := log[|log| - 1];
      Recorded(log[..|log| - 1]) + (if r.ProcessRec? then [r] else [])
  }

  /** The number of segments: each starts with a header. */
  function Segments(log: seq<Record>): nat {
    if log == [] then 0 else Segments(log[..|log| - 1]) + if log[|log| - 1].HeaderRec? then 1 else 0
  }

  /** The records that offering a flow to the writer leaves in the trace. */
  function Offered(f: FlowData): seq<Record> {
    if Idle(f.opFlags) then [] else [FlowRec(f)]
  }

  function OfferedProc(o: OID, f: ProcFlow): seq<Record> {
    if Idle(f.opFlags) then [] else [ProcFlowRec(o, f.ts, f.endTs, f.opFlags, f.cnt)]
  }

  /** The definitions, unfolded for one appended record. */
  lemma Append(log: seq<Record>, r: Record)
    ensures Declared(log + [r]) ==
            (if r.HeaderRec? then {}
             else if r.ProcessRec? then Declared(log) + {Proc(r.oid)}
             else if r.FileRec? then Declared(log) + {Fil(r.foid)}
             else Declared(log))
    ensures Closed(log + [r]) <==> Closed(log) && Needs(r) <= Declared(log)
    ensures Behaviors(log + [r]) == Behaviors(log) + (if IsBehavior(r) then [r] else [])
    ensures Recorded(log + [r]) == Recorded(log) + (if r.ProcessRec? then [r] else [])
    ensures Segments(log + [r]) == Segments(log) + if r.HeaderRec? then 1 else 0
  {
    assert (log + [r])[..|log|] == log;
  }

  /** `to` continues the current segment of `from`. */
  predicate Continues(from: seq<Record>, to: seq<Record>) {
    from <= to && Declared(from) <= Declared(to) && Segments(to) == Segments(from)
  }

  /** Continuing a segment adds no header. */
  lemma {:induction false} NoHeaderAdded(from: seq<Record>, to: seq<Record>)
    requires from <= to
    ensures Segments(from) <= Segments(to)
    ensures Segments(to) == Segments(from) <==> forall i :: |from| <= i < |to| ==> !to[i].HeaderRec?
  {
    if |to| > |from| {
      var most := to[..|to| - 1];
      NoHeaderAdded(from, most);
      assert forall i :: |from| <= i < |most| ==> most[i] == to[i];
    } else {
      assert from == to;
    }
  }

  /** `to` continues the current segment of `from` with entity records only. */
  predicate AddsEntities(from: seq<Record>, to: seq<Record>) {
    && Continues(from, to)
    && Behaviors(to) == Behaviors(from)
    && (Closed(from) ==> Closed(to))
  }

  predicate EndsWith(log: seq<Record>, r: Record) { log != [] && log[|log| - 1] == r }

  /** An entity's declaration: the record at `j` and no header between it and `i`. */
  predicate DeclaresAt(log: seq<Record>, i: nat, j: nat, e: Entity)
    requires i <= |log|
  {
    && j < i
    && (match e
        case Proc(o) => log[j].ProcessRec? && log[j].oid == o
        case Fil(f) => log[j].FileRec? && log[j].foid == f)
    && forall h :: j < h < i ==> !log[h].HeaderRec?
  }

  /** The self-containment rule in terms of positions: every entity named by the record at
      `i` is written before `i` and after the last header before `i`. */
  ghost predicate SelfContained(log: seq<Record>) {
    forall i, e :: 0 <= i < |log| && e in Needs(log[i]) ==> exists j: nat :: DeclaresAt(log, i, j, e)
  }

  lemma {:induction false} DeclaredMeans(log: seq<Record>, e: Entity)
    ensures e in Declared(log) <==> exists j: nat :: DeclaresAt(log, |log|, j, e)
  {
    if log != [] {
      var n := |log| - 1;
      var front, r := log[..n], log[n];
      DeclaredMeans(front, e);
      if e in Declared(log) {
        if DeclaresAt(log, |log|, n, e) {
        } else {
          assert e in Declared(front);
          var j: nat :| DeclaresAt(front, n, j, e);
          assert DeclaresAt(log, |log|, j, e);
        }
      }
      if j: nat :| DeclaresAt(log, |log|, j, e) {
        if j < n {
          assert DeclaresAt(front, n, j, e);
          assert !log[n].HeaderRec?;
        }
      }
    }
  }

  /** The recursive definition says exactly the positional rule. */
  lemma {:induction false} ClosedIffSelfContained(log: seq<Record>)
    ensures Closed(log) <==> SelfContained(log)
  {
    if log != [] {
      var n := |log| - 1;
      var front := log[..n];
      ClosedIffSelfContained(front);
      forall i, j: nat, e | 0 <= i <= n
        ensures DeclaresAt(log, i, j, e) <==> DeclaresAt(front, i, j, e)
      {
      }
      forall e ensures e in Declared(front) <==> exists j: nat :: DeclaresAt(log, n, j, e) {
        DeclaredMeans(front, e);
        if j: nat :| DeclaresAt(front, n, j, e) { assert DeclaresAt(log, n, j, e); }
        if j: nat :| DeclaresAt(log, n, j, e) { assert DeclaresAt(front, n, j, e); }
      }
      if Closed(log) {
        forall i, e | 0 <= i < |log| && e in Needs(log[i])
          ensures exists j: nat :: DeclaresAt(log, i, j, e)
        {
          if i < n {
            assert front[i] == log[i];
            var j: nat :| DeclaresAt(front, i, j, e);
            assert DeclaresAt(log, i, j, e);
          }
        }
      }
      if SelfContained(log) {
        forall i, e | 0 <= i < |front| && e in Needs(front[i])
          ensures exists j: nat :: DeclaresAt(front, i, j, e)
        {
          assert front[i] == log[i];
          var j: nat :| DeclaresAt(log, i, j, e);
          assert DeclaresAt(front, i, j, e);
        }
        assert forall e :: e in Needs(log[n]) ==> e in Declared(front);
      }
    }
  }
}
