/**
  A run after a start of the node in which the maxima of own blocks decrease: the block before the first own
  one comes back, and after it the first own block. By then all of its links are known, and its max is recorded
  again, far lower.
 */
module RestartedEcho {
  import opened Ids
  import opened Interpreter
  import opened Runs
  import opened Consensus
  import opened TenRounds
  import opened Consumption
  import opened Echoes
  import Delivery
  import Feed

  const CFG := Config([1, 2, 3, 4], 49)

  const ZERO := BlockID([], 0, 0)

  function Own(h: Hash, round: nat): BlockID {
    BlockID(h, 1, round)
  }

  function First(h: Hash): BlockGraph {
    BlockGraph(Own(h, 2), [], Own(h, 1))
  }

  function Second(h: Hash): BlockGraph {
    BlockGraph(Own(h, 3), [Dep(Own(h, 1), [], ZERO), Dep(Own(h, 2), [], Own(h, 1))], Own(h, 2))
  }

  function Inputs(h: Hash): seq<BlockGraph> {
    [First(h), Second(h)]
  }

  lemma InputEntries(h: Hash)
    ensures
      AllEntries(Inputs(h)) ==
      [Entry(Own(h, 2), [Own(h, 1)], Own(h, 1)), Entry(Own(h, 1), [], ZERO), Entry(Own(h, 2), [Own(h, 1)], Own(h, 1)),
       Entry(Own(h, 3), [Own(h, 2), Own(h, 1), Own(h, 2)], Own(h, 2))]
  {
    var inputs := Inputs(h);
    assert inputs[..1] == [First(h)] && [First(h)][..0] == [] && AllEntries([]) == [];
    assert Entries(First(h)) == [Entry(Own(h, 2), [Own(h, 1)], Own(h, 1))] by {
      assert [Own(h, 1)] + Blocks([]) == [Own(h, 1)];
    }
    assert Blocks(Second(h).deps) == [Own(h, 1), Own(h, 2)];
    assert AllEntries([First(h)]) == Entries(First(h));
    assert [Own(h, 1)] + [] == [Own(h, 1)];
    assert [Own(h, 2)] + [Own(h, 1), Own(h, 2)] == [Own(h, 2), Own(h, 1), Own(h, 2)];
  }

  lemma InputDeps(h: Hash)
    ensures Feed.AllDeps(Inputs(h)) == Second(h).deps
  {
    var inputs := Inputs(h);
    assert inputs[..1] == [First(h)] && [First(h)][..0] == [] && Feed.AllDeps([]) == [];
    assert Feed.AllDeps([First(h)]) == [];
  }

  /** The scheduler and genBlocks can make these block graphs. */
  lemma InputsAreFed(h: Hash)
    ensures FedWell(Inputs(h)) && Feed.PrevBetween(Inputs(h))
  {
    var inputs := Inputs(h);
    InputDeps(h);
    hide Feed.AllDeps;
    assert Feed.PrevBetween(inputs) by {
      assert Feed.AllDeps(inputs)[0].block == inputs[0].prev && Feed.AllDeps(inputs)[1].block == inputs[0].block;
    }
    hide Feed.PrevBetween;
    assert Blocks(First(h).deps) == [];
  }

  /** The first own block comes back after the one before it, which has no links. */
  lemma InputsAreWhole(h: Hash)
    ensures Whole(Inputs(h), 1)
  {
    var inputs := Inputs(h);
    assert Echo(inputs, 0, 1, 1) && Given(inputs, 1, 0);
    assert Links(inputs[1].deps[0]) == [] && Links(inputs[1].deps[1]) == [Own(h, 1)] by {
      assert [Own(h, 1)] + [] == [Own(h, 1)];
    }
    hide Links;
    assert inputs[1].deps[0].block == Own(h, 1) && Before(1, 0, 1, 1);
    assert GivenBefore(inputs, 1, 1, Own(h, 1));
  }

  lemma InputsAreWellFormed(h: Hash)
    requires h != []
    ensures WellFormed(CFG, Inputs(h))
  {
    assert Nodes(CFG) == {1, 2, 3, 4};
    assert InputOk(CFG, First(h)) && InputOk(CFG, Second(h));
  }

  /** It is interpreted to its end. */
  lemma RunGoesOn(h: Hash) returns (g: Graph, hist: seq<Record>)
    requires h != []
    ensures Reaches(CFG, Inputs(h), g, hist) && RecordsEarly(Calendar([1, 1, 1, 1], 10), hist)
  {
    hide RunAll, WellFormed, RecordsEarly;
    var all := AllEntries(Inputs(h));
    InputEntries(h);
    hide AllEntries;
    InputsAreWellFormed(h);
    assert AllInTime(Calendar([1, 1, 1, 1], 10), all);
    forall x | x in Nodes(CFG) ensures Tolerated(CFG, all, {1}, x) {
    }
    EarlyRuns(CFG, Inputs(h), {1}, Calendar([1, 1, 1, 1], 10));
    g, hist := RunAll(CFG, Inputs(h)).value.0, RunAll(CFG, Inputs(h)).value.1;
  }

  /** The maxima of its own blocks fall. */
  lemma OneFalls(h: Hash) returns (g: Graph, hist: seq<Record>)
    requires h != []
    ensures Reaches(CFG, Inputs(h), g, hist) && FedWell(Inputs(h)) && Feed.PrevBetween(Inputs(h))
    ensures Whole(Inputs(h), 1) && !Delivery.Rising(g.blocks)
  {
    hide RecordsEarly, RunAll, WellFormed, FedWell, Feed.PrevBetween, Whole, Inputs;
    g, hist := RunGoesOn(h);
    InputsAreFed(h);
    InputsAreWhole(h);
    LowRounds(h);
    MaximaFall(CFG, Inputs(h), g, hist);
  }

  lemma LowRounds(h: Hash)
    ensures TopRound(Inputs(h)) <= 49
  {
    var inputs := Inputs(h);
    assert inputs[..1] == [First(h)] && [First(h)][..0] == [] && TopRound([]) == 0;
    assert TopRound([First(h)]) <= 49;
  }
}
