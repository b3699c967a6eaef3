/** The ethical-directive lists agents are created with, and the stable sort by
    non-increasing priority applied to them in `AIEntity::new` (src/ai.rs). */
module Directives {
  import opened Common

  function Integrity(): EthicalDirective
  {
    EthicalDirective("maintain_internal_integrity", 1.0, HealthBelowThreshold(80.0), SelfRepair)
  }

  function Optimize(): EthicalDirective
  {
    EthicalDirective("optimize_performance", 0.8, ResourcesBelowThreshold, OptimizeSelf)
  }

  function Prohibit(): EthicalDirective
  {
    EthicalDirective("prohibit_unauthorized_self_replication", 0.05, AlwaysFalse, ProhibitReplication)
  }

  function Intervene(): EthicalDirective
  {
    EthicalDirective("intervene_in_conflict", 0.9, AlwaysTrue, InterveneInConflict)
  }

  /** The two directives a replica inherits. */
  function BaselineDirectives(): seq<EthicalDirective>
  {
    [Integrity(), Optimize()]
  }

  /** The list as pushed, before any sorting: the three common directives, then the
      Peacekeeper's extra one appended last. */
  function InitialDirectives(t: AIType): (ds: seq<EthicalDirective>)
    ensures |ds| == if t == Peacekeeper then 4 else 3
    ensures ds[..3] == [Integrity(), Optimize(), Prohibit()]
  {
    [Integrity(), Optimize(), Prohibit()] + (if t == Peacekeeper then [Intervene()] else [])
  }

  ghost predicate SortedByPriority(ds: seq<EthicalDirective>)
  {
    forall i, j :: 0 <= i < j < |ds| ==> ds[i].priority >= ds[j].priority
  }

  /** The directives of `ds` whose priority is `p`, in their order in `ds`. */
  function WithPriority(ds: seq<EthicalDirective>, p: real): seq<EthicalDirective>
  {
    if ds == [] then []
    else (if ds[0].priority == p then [ds[0]] else []) + WithPriority(ds[1..], p)
  }

  /** Places `d` in front of the first element whose priority is not above its own. */
  function InsertByPriority(d: EthicalDirective, ds: seq<EthicalDirective>): seq<EthicalDirective>
  {
    if ds == [] then [d]
    else if ds[0].priority <= d.priority then [d] + ds
    else [ds[0]] + InsertByPriority(d, ds[1..])
  }

  /** `sort_by(|a, b| b.priority.partial_cmp(&a.priority))`: a stable sort that puts
      higher priorities first. */
  function SortByPriority(ds: seq<EthicalDirective>): seq<EthicalDirective>
  {
    if ds == [] then [] else InsertByPriority(ds[0], SortByPriority(ds[1..]))
  }

  /** The directive list `AIEntity::new` builds for an archetype. */
  function NewDirectives(t: AIType): seq<EthicalDirective>
  {
    SortByPriority(InitialDirectives(t))
  }

  /** The inserted list holds `d` and the elements of `ds`, one more than `ds`. */
  lemma {:induction false} InsertPermutes(d: EthicalDirective, ds: seq<EthicalDirective>)
    ensures multiset(InsertByPriority(d, ds)) == multiset(ds) + multiset{d}
    ensures |InsertByPriority(d, ds)| == |ds| + 1
  {
    if ds != [] && ds[0].priority > d.priority {
      InsertPermutes(d, ds[1..]);
      assert ds == [ds[0]] + ds[1..];
    }
  }

  lemma {:induction false} InsertMembers(d: EthicalDirective, ds: seq<EthicalDirective>)
    ensures forall x :: x in InsertByPriority(d, ds) <==> x == d || x in ds
  {
    if ds != [] && ds[0].priority > d.priority {
      InsertMembers(d, ds[1..]);
      assert ds == [ds[0]] + ds[1..];
    }
  }

  lemma {:induction false} InsertKeepsSorted(d: EthicalDirective, ds: seq<EthicalDirective>)
    requires SortedByPriority(ds)
    ensures SortedByPriority(InsertByPriority(d, ds))
  {
    if ds != [] && ds[0].priority > d.priority {
      InsertKeepsSorted(d, ds[1..]);
      InsertMembers(d, ds[1..]);
      var rest := InsertByPriority(d, ds[1..]);
      forall k | 0 <= k < |rest| ensures ds[0].priority >= rest[k].priority {
        assert rest[k] in rest;
        if rest[k] != d {
          var j :| 0 <= j < |ds[1..]| && ds[1..][j] == rest[k];
          assert ds[j + 1] == rest[k];
        }
      }
    }
  }

  /** Inserting keeps, for every priority, the relative order: `d` goes in front of the
      elements of its own priority (it came first in the input). */
  lemma {:induction false} InsertStable(d: EthicalDirective, ds: seq<EthicalDirective>, p: real)
    ensures WithPriority(InsertByPriority(d, ds), p)
         == (if d.priority == p then [d] else []) + WithPriority(ds, p)
  {
    if ds == [] {
    } else if ds[0].priority <= d.priority {
      assert ([d] + ds)[1..] == ds;
    } else {
      InsertStable(d, ds[1..], p);
      var rest := InsertByPriority(d, ds[1..]);
      var ins := InsertByPriority(d, ds);
      assert ins == [ds[0]] + rest && ins[1..] == rest;
      if d.priority == p {
        assert ds[0].priority != p;
        assert WithPriority(ins, p) == WithPriority(rest, p);
        assert WithPriority(ds, p) == WithPriority(ds[1..], p);
      } else {
        assert WithPriority(rest, p) == WithPriority(ds[1..], p);
      }
    }
  }

  /** The sort yields a list sorted by non-increasing priority that is a permutation of
      its input, and it is stable: equal priorities keep their input order. */
  lemma {:induction false} SortByPriorityCorrect(ds: seq<EthicalDirective>)
    ensures SortedByPriority(SortByPriority(ds))
    ensures multiset(SortByPriority(ds)) == multiset(ds)
    ensures forall p :: WithPriority(SortByPriority(ds), p) == WithPriority(ds, p)
  {
    if ds != [] {
      SortByPriorityCorrect(ds[1..]);
      InsertKeepsSorted(ds[0], SortByPriority(ds[1..]));
      InsertPermutes(ds[0], SortByPriority(ds[1..]));
      assert ds == [ds[0]] + ds[1..];
      forall p ensures WithPriority(SortByPriority(ds), p) == WithPriority(ds, p) {
        InsertStable(ds[0], SortByPriority(ds[1..]), p);
      }
    }
  }

  /** Every directive list built by `AIEntity::new` is sorted and holds exactly the
      directives pushed for that archetype. */
  lemma NewDirectivesSorted(t: AIType)
    ensures SortedByPriority(NewDirectives(t))
    ensures multiset(NewDirectives(t)) == multiset(InitialDirectives(t))
  {
    SortByPriorityCorrect(InitialDirectives(t));
  }

  /** For a Peacekeeper the sort moves the 0.9 directive ahead of the 0.8 one. */
  lemma PeacekeeperOrder()
    ensures NewDirectives(Peacekeeper) == [Integrity(), Intervene(), Optimize(), Prohibit()]
  {
    var ds := InitialDirectives(Peacekeeper);
    assert ds == [Integrity(), Optimize(), Prohibit(), Intervene()];
    assert ds[1..] == [Optimize(), Prohibit(), Intervene()];
    assert ds[1..][1..] == [Prohibit(), Intervene()];
    assert ds[1..][1..][1..] == [Intervene()];
    assert SortByPriority([Intervene()]) == [Intervene()];
    assert SortByPriority([Prohibit(), Intervene()]) == [Intervene(), Prohibit()];
    assert SortByPriority([Optimize(), Prohibit(), Intervene()]) == [Intervene(), Optimize(), Prohibit()];
  }

  /** Seeding pushes the same directives but never sorts: for a Peacekeeper the list
      is out of priority order. */
  lemma SeededPeacekeeperUnsorted()
    ensures !SortedByPriority(InitialDirectives(Peacekeeper))
  {
    var ds := InitialDirectives(Peacekeeper);
    assert ds[2].priority < ds[3].priority;
  }
}
