/**
  The theory behind the pruning of the process table at a rotation: which processes a
  rotation has to keep, and why the in-place algorithm keeps exactly those, whatever the
  order in which the hash table is iterated.
 */
module Pruning {
  import opened Types
  import opened Invariants

  /** A process with flows of its own. */
  predicate Active(p: ProcessObj) { p.table != map[] || p.pfo.Some? }

  /** A process the pruning may erase: no flows and no listed children. */
  predicate IdleLeaf(p: ProcessObj) { !Active(p) && p.children == {} }

  /** Every listed child is cached and has the listing process as its parent. */
  ghost predicate Kin(procs: ProcessTable) {
    forall p, c :: p in procs && c in procs[p].children ==> c in procs && procs[c].poid == Some(p)
  }

  /** `a` is `d`, or lists an ancestor-or-self of `d` as its child. */
  ghost predicate Above(procs: ProcessTable, a: OID, d: OID, rank: OID -> nat)
    requires Ranked(procs, rank) && d in procs
    decreases rank(d)
  {
    a == d ||
    var p := procs[d].poid;
    p.Some? && p.value in procs && d in procs[p.value].children && Above(procs, a, p.value, rank)
  }

  /** Some active process is at or below `a` along the listed children. */
  ghost predicate Needed(procs: ProcessTable, a: OID, rank: OID -> nat)
    requires Ranked(procs, rank)
  {
    exists d :: d in procs && Active(procs[d]) && Above(procs, a, d, rank)
  }

  ghost function NeededSet(procs: ProcessTable, rank: OID -> nat): set<OID>
    requires Ranked(procs, rank)
  {
    set a | a in procs && Needed(procs, a, rank)
  }

  /** The table a rotation leaves: the needed processes, unwritten, listing needed children. */
  ghost function Pruned(procs: ProcessTable, rank: OID -> nat): ProcessTable
    requires Ranked(procs, rank)
  {
    map o | o in NeededSet(procs, rank) ::
      procs[o].(written := false, children := procs[o].children * NeededSet(procs, rank))
  }

  // -------------------------------------------------------- facts about need

  /** The parent of a needed listed child is needed. */
  lemma {:induction false} AboveParent(procs: ProcessTable, p: OID, c: OID, d: OID, rank: OID -> nat)
    requires Ranked(procs, rank) && Kin(procs) && p in procs && c in procs[p].children
    requires d in procs && Above(procs, c, d, rank)
    ensures Above(procs, p, d, rank)
    decreases rank(d)
  {
    if c == d {
      assert Above(procs, p, p, rank);
    } else {
      AboveParent(procs, p, c, procs[d].poid.value, rank);
    }
  }

  lemma NeededParent(procs: ProcessTable, p: OID, c: OID, rank: OID -> nat)
    requires Ranked(procs, rank) && Kin(procs) && p in procs && c in procs[p].children
    requires Needed(procs, c, rank)
    ensures Needed(procs, p, rank)
  {
    var d :| d in procs && Active(procs[d]) && Above(procs, c, d, rank);
    AboveParent(procs, p, c, d, rank);
  }

  /** Walking down one step: below `a` there is a listed child on the way to `d`. */
  lemma {:induction false} AboveChild(procs: ProcessTable, a: OID, d: OID, rank: OID -> nat) returns (c: OID)
    requires Ranked(procs, rank) && a in procs && d in procs && a != d && Above(procs, a, d, rank)
    ensures c in procs && c in procs[a].children && Above(procs, c, d, rank)
    decreases rank(d)
  {
    var p := procs[d].poid.value;
    if p == a {
      c := d;
    } else {
      c := AboveChild(procs, a, p, rank);
    }
  }

  /** An idle process without needed children is not needed. */
  lemma NotNeeded(procs: ProcessTable, a: OID, rank: OID -> nat)
    requires Ranked(procs, rank) && a in procs && !Active(procs[a])
    requires forall c :: c in procs[a].children && c in procs ==> !Needed(procs, c, rank)
    ensures !Needed(procs, a, rank)
  {
    forall d | d in procs && Active(procs[d]) ensures !Above(procs, a, d, rank) {
      if Above(procs, a, d, rank) {
        var c := AboveChild(procs, a, d, rank);
        assert Needed(procs, c, rank);
      }
    }
  }

  // ------------------------------------------------------ the state of a pass

  /** `ps` is `ps0` with some processes and children gone; those visited (not in `todo`) are
      unwritten.  Nothing with flows is gone. */
  ghost predicate Thinned(ps0: ProcessTable, ps: ProcessTable, todo: set<OID>) {
    && (forall o :: o in ps ==>
          && o in ps0 && ps[o].children <= ps0[o].children
          && ps[o] == ps0[o].(children := ps[o].children, written := o in todo && ps0[o].written))
    && (forall o :: o in ps0 && o !in ps ==> !Active(ps0[o]))
  }

  lemma ThinnedMark(ps0: ProcessTable, ps: ProcessTable, todo: set<OID>, o: OID)
    requires Thinned(ps0, ps, todo) && o in ps
    ensures Thinned(ps0, ps[o := ps[o].(written := false)], todo - {o})
  {
    hide Active;
  }

  lemma ThinnedRank(ps0: ProcessTable, ps: ProcessTable, todo: set<OID>, o: OID, rank: OID -> nat)
    requires Thinned(ps0, ps, todo) && Ranked(ps0, rank) && o in ps && ps[o].poid.Some?
    ensures rank(ps[o].poid.value) < rank(o)
  {
    hide Active;
  }

  lemma ThinnedTell(ps0: ProcessTable, ps: ProcessTable, todo: set<OID>, cur: OID, k: OID)
    requires Thinned(ps0, ps, todo) && k in ps
    ensures Thinned(ps0, ps[k := ps[k].(children := ps[k].children - {cur})], todo)
  {
    hide Active;
  }

  lemma ThinnedErase(ps0: ProcessTable, ps: ProcessTable, todo: set<OID>, o: OID)
    requires Thinned(ps0, ps, todo) && o in ps && IdleLeaf(ps[o])
    ensures Thinned(ps0, ps - {o}, todo - {o})
  {
  }

  /** `ps` is `ps1` without the idle leaves outside `todo`. */
  ghost predicate Leafless(ps1: ProcessTable, ps: ProcessTable, todo: set<OID>) {
    && (forall o :: o in ps <==> o in ps1 && (o in todo || !IdleLeaf(ps1[o])))
    && (forall o :: o in ps ==> ps[o] == ps1[o])
  }

  lemma LeaflessEnd(ps0: ProcessTable, ps1: ProcessTable, ps: ProcessTable)
    requires Thinned(ps0, ps1, {}) && Leafless(ps1, ps, {})
    ensures Thinned(ps0, ps, {}) && ps == map o | o in ps1 && !IdleLeaf(ps1[o]) :: ps1[o]
  {
  }

  /** Nobody lists `o` as a child. */
  ghost predicate Unlisted(ps: ProcessTable, o: OID) {
    forall p :: p in ps ==> o !in ps[p].children
  }

  /** The first pass: only unneeded processes and children are gone, listed children are
      present, and a visited idle leaf is unlisted, except `cur` whose parents are being told. */
  ghost predicate Passing(ps0: ProcessTable, ps: ProcessTable, todo: set<OID>, cur: Option<OID>, rank: OID -> nat)
    requires Ranked(ps0, rank)
  {
    && Kin(ps0) && Thinned(ps0, ps, todo)
    && (forall o :: o in ps0 && o !in ps ==> !Needed(ps0, o, rank))
    && (forall o, c :: o in ps && c in ps0[o].children && c !in ps[o].children ==> !Needed(ps0, c, rank))
    && (forall o, c :: o in ps && c in ps[o].children ==> c in ps)
    && (forall o :: o in ps && o !in todo && IdleLeaf(ps[o]) && cur != Some(o) ==> Unlisted(ps, o))
    && (cur.Some? ==> cur.value in ps && IdleLeaf(ps[cur.value]))
  }

  /** An idle leaf of the current table is not needed. */
  lemma LeafNotNeeded(ps0: ProcessTable, ps: ProcessTable, todo: set<OID>, cur: Option<OID>, rank: OID -> nat, o: OID)
    requires Ranked(ps0, rank) && Passing(ps0, ps, todo, cur, rank)
    requires o in ps && IdleLeaf(ps[o])
    ensures !Needed(ps0, o, rank)
  {
    NotNeeded(ps0, o, rank);
  }

  lemma OpenLeaf(ps0: ProcessTable, ps: ProcessTable, todo: set<OID>, o: OID, rank: OID -> nat)
    requires Ranked(ps0, rank) && Passing(ps0, ps, todo, None, rank) && o in ps && IdleLeaf(ps[o])
    ensures Passing(ps0, ps, todo, Some(o), rank)
  {
  }

  lemma StayUnlisted(ps: ProcessTable, qs: ProcessTable, o: OID)
    requires ps.Keys == qs.Keys && forall p :: p in ps ==> qs[p].children <= ps[p].children
    ensures Unlisted(ps, o) ==> Unlisted(qs, o)
  {
  }

  /** Telling the parent of `cur`: it forgets `cur` and may become the next idle leaf. */
  lemma TellParent(ps0: ProcessTable, ps: ProcessTable, todo: set<OID>, cur: OID, k: OID, rank: OID -> nat)
    requires Ranked(ps0, rank) && Passing(ps0, ps, todo, Some(cur), rank)
    requires k in ps && ps[cur].poid == Some(k)
    ensures var qs := ps[k := ps[k].(children := ps[k].children - {cur})];
            Passing(ps0, qs, todo, if IdleLeaf(qs[k]) then Some(k) else None, rank)
            && Unlisted(qs, cur)
  {
    LeafNotNeeded(ps0, ps, todo, Some(cur), rank, cur);
    var qs := ps[k := ps[k].(children := ps[k].children - {cur})];
    forall p | p in qs ensures cur !in qs[p].children {
      assert cur in ps0 && ps0[cur].poid == Some(k);
    }
    forall o | o in qs && o !in todo && IdleLeaf(qs[o]) && o != k ensures Unlisted(qs, o) {
      if o != cur { assert Unlisted(ps, o); }
    }
  }

  /** When `cur` has no cached parent, nobody lists it. */
  lemma NoParent(ps0: ProcessTable, ps: ProcessTable, todo: set<OID>, cur: OID, rank: OID -> nat)
    requires Ranked(ps0, rank) && Passing(ps0, ps, todo, Some(cur), rank)
    requires ps[cur].poid.None? || ps[cur].poid.value !in ps
    ensures Passing(ps0, ps, todo, None, rank) && Unlisted(ps, cur)
  {
    assert ps0[cur].poid == ps[cur].poid;
  }

  /** Erasing an unlisted idle leaf. */
  lemma EraseLeaf(ps0: ProcessTable, ps: ProcessTable, todo: set<OID>, o: OID, rank: OID -> nat)
    requires Ranked(ps0, rank) && Passing(ps0, ps, todo, None, rank)
    requires o in ps && IdleLeaf(ps[o]) && Unlisted(ps, o)
    ensures Passing(ps0, ps - {o}, todo - {o}, None, rank)
  {
    LeafNotNeeded(ps0, ps, todo, None, rank, o);
    var qs := ps - {o};
    forall q | q in qs && q !in todo - {o} && IdleLeaf(qs[q]) ensures Unlisted(qs, q) {
      assert Unlisted(ps, q);
    }
  }

  /** Keeping a process that is no idle leaf. */
  lemma KeepVisited(ps0: ProcessTable, ps: ProcessTable, todo: set<OID>, o: OID, rank: OID -> nat)
    requires Ranked(ps0, rank) && Passing(ps0, ps, todo, None, rank)
    requires o in ps && !IdleLeaf(ps[o])
    ensures Passing(ps0, ps[o := ps[o].(written := false)], todo - {o}, None, rank)
  {
    var qs := ps[o := ps[o].(written := false)];
    forall q | q in qs && q !in todo - {o} && IdleLeaf(qs[q]) ensures Unlisted(qs, q) {
      assert Unlisted(ps, q);
    }
  }

  // -------------------------------------------------------------- the result

  /** After the first pass, everything but the idle leaves is needed. */
  lemma {:induction false} RestNeeded(ps0: ProcessTable, ps: ProcessTable, rank: OID -> nat, o: OID, bound: nat)
    requires Ranked(ps0, rank) && Passing(ps0, ps, {}, None, rank)
    requires o in ps && !IdleLeaf(ps[o])
    requires forall q :: q in ps ==> rank(q) < bound
    ensures Needed(ps0, o, rank)
    decreases bound - rank(o)
  {
    if Active(ps[o]) {
      assert Above(ps0, o, o, rank);
    } else {
      var c :| c in ps[o].children;
      assert c in ps0[o].children && ps0[c].poid == Some(o);
      assert IdleLeaf(ps[c]) ==> Unlisted(ps, c);
      RestNeeded(ps0, ps, rank, c, bound);
      NeededParent(ps0, o, c, rank);
    }
  }

  lemma {:induction false} RankBound(s: set<OID>, rank: OID -> nat) returns (bound: nat)
    ensures forall q :: q in s ==> rank(q) < bound
  {
    if s == {} {
      bound := 0;
    } else {
      var q :| q in s;
      var b := RankBound(s - {q}, rank);
      bound := if b > rank(q) then b else rank(q) + 1;
      forall x | x in s ensures rank(x) < bound {
        if x != q { assert x in s - {q}; }
      }
    }
  }

  /** Erasing the idle leaves after the first pass gives exactly the pruned table, which again
      lists only cached children under their parents. */
  lemma SweepIsPruned(ps0: ProcessTable, ps: ProcessTable, qs: ProcessTable, rank: OID -> nat)
    requires Ranked(ps0, rank) && Passing(ps0, ps, {}, None, rank)
    requires qs == map o | o in ps && !IdleLeaf(ps[o]) :: ps[o]
    ensures qs == Pruned(ps0, rank) && Kin(qs)
  {
    SweptKeys(ps0, ps, qs, rank);
    SweptChildren(ps0, ps, qs, rank);
    forall o | o in qs ensures qs[o] == ps0[o].(written := false, children := ps0[o].children * qs.Keys) {
      hide Needed, IdleLeaf;
      assert qs[o].children == ps0[o].children * qs.Keys;
    }
    PrunedIs(ps0, qs, rank);
  }

  lemma SweptKeys(ps0: ProcessTable, ps: ProcessTable, qs: ProcessTable, rank: OID -> nat)
    requires Ranked(ps0, rank) && Passing(ps0, ps, {}, None, rank)
    requires qs == map o | o in ps && !IdleLeaf(ps[o]) :: ps[o]
    ensures qs.Keys == NeededSet(ps0, rank)
  {
    var bound := RankBound(ps.Keys, rank);
    forall o | o in ps0 ensures o in NeededSet(ps0, rank) <==> o in qs {
      if o in ps {
        if IdleLeaf(ps[o]) { LeafNotNeeded(ps0, ps, {}, None, rank, o); }
        else { RestNeeded(ps0, ps, rank, o, bound); }
      }
    }
  }

  lemma PrunedIs(ps0: ProcessTable, qs: ProcessTable, rank: OID -> nat)
    requires Ranked(ps0, rank) && qs.Keys == NeededSet(ps0, rank)
    requires forall o :: o in qs ==> qs[o] == ps0[o].(written := false, children := ps0[o].children * qs.Keys)
    ensures qs == Pruned(ps0, rank)
  {
    hide Needed;
  }

  lemma SweptChildren(ps0: ProcessTable, ps: ProcessTable, qs: ProcessTable, rank: OID -> nat)
    requires Ranked(ps0, rank) && Passing(ps0, ps, {}, None, rank)
    requires qs == map o | o in ps && !IdleLeaf(ps[o]) :: ps[o]
    ensures Kin(qs)
    ensures forall o, c :: o in qs && c in qs[o].children ==> c in qs
    ensures forall o, c :: o in qs && c in ps0[o].children && c !in qs[o].children ==> !Needed(ps0, c, rank)
  {
    forall o, c | o in qs && c in qs[o].children ensures c in qs && qs[c].poid == Some(o) {
      assert c in ps && c in ps0[o].children;
      assert IdleLeaf(ps[c]) ==> Unlisted(ps, c);
    }
  }

  // ------------------------------------------------------- need, told from lines

  /** Each process of the line lists the next one as its child. */
  ghost predicate LineDown(procs: ProcessTable, line: seq<OID>) {
    && line != []
    && forall i :: 0 <= i < |line| ==>
         line[i] in procs && (i + 1 < |line| ==> line[i + 1] in procs[line[i]].children)
  }

  /** A line of listed children leads from `o` to a process with data flows or a process flow. */
  ghost predicate Serves(procs: ProcessTable, o: OID) {
    exists line :: && LineDown(procs, line) && line[0] == o
                   && var p := procs[line[|line| - 1]];
                      p.table != map[] || p.pfo.Some?
  }

  lemma {:induction false} LineTo(procs: ProcessTable, a: OID, d: OID, rank: OID -> nat) returns (line: seq<OID>)
    requires Ranked(procs, rank) && d in procs && Above(procs, a, d, rank)
    ensures LineDown(procs, line) && line[0] == a && line[|line| - 1] == d
    decreases rank(d)
  {
    if a == d {
      line := [a];
    } else {
      var up := LineTo(procs, a, procs[d].poid.value, rank);
      line := up + [d];
    }
  }

  lemma {:induction false} LineNeeds(procs: ProcessTable, line: seq<OID>, rank: OID -> nat)
    requires Ranked(procs, rank) && Kin(procs) && LineDown(procs, line)
    requires var p := procs[line[|line| - 1]]; p.table != map[] || p.pfo.Some?
    ensures Needed(procs, line[0], rank)
    decreases |line|
  {
    if |line| == 1 {
      assert Above(procs, line[0], line[0], rank);
    } else {
      LineNeeds(procs, line[1..], rank);
      NeededParent(procs, line[0], line[1], rank);
    }
  }

  lemma NeededIffServes(procs: ProcessTable, o: OID, rank: OID -> nat)
    requires Ranked(procs, rank) && Kin(procs)
    ensures o in procs && Needed(procs, o, rank) <==> Serves(procs, o)
  {
    if o in procs && Needed(procs, o, rank) {
      var d :| d in procs && Active(procs[d]) && Above(procs, o, d, rank);
      var line := LineTo(procs, o, d, rank);
    }
    if Serves(procs, o) {
      var line :| LineDown(procs, line) && line[0] == o
                  && (procs[line[|line| - 1]].table != map[] || procs[line[|line| - 1]].pfo.Some?);
      LineNeeds(procs, line, rank);
    }
  }

  /** Exactly the processes that lead to something live are left, unwritten, with those of their
      children that do; nothing else about them has changed. */
  ghost predicate PrunedTo(ps: ProcessTable, qs: ProcessTable) {
    && (forall o :: o in qs <==> o in ps && Serves(ps, o))
    && forall o :: o in qs ==>
         var p := ps[o];
         && (forall c :: c in qs[o].children <==> c in p.children && Serves(ps, c))
         && qs[o] == ProcessObj(false, p.poid, p.containerId, p.state, p.ts, p.table, qs[o].children, p.pfo)
  }

  lemma PrunedMeans(ps: ProcessTable, rank: OID -> nat)
    requires Ranked(ps, rank) && Kin(ps)
    ensures PrunedTo(ps, Pruned(ps, rank))
  {
    hide Needed, Serves, Active;
    forall o ensures o in NeededSet(ps, rank) <==> Serves(ps, o) {
      NeededIffServes(ps, o, rank);
    }
    assert forall o, c :: o in ps && c in ps[o].children ==> c in ps;
    forall o | Serves(ps, o) ensures o in ps { NeededIffServes(ps, o, rank); }
  }
}
