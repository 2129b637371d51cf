/** The kernel's laws over whole runs: any interleaving, with crashes anywhere. `Reachable` runs may
    contain human repair; `CleanlyReachable` ones do not. Two points of one run are a reachable
    world and a continuation of it. */
module RunTheorems {
  import opened Types
  import opened Invariants
  import opened WorkProofs
  import opened StrictRows
  import opened Kernel
  import opened RunProofs

  ghost predicate Reachable(w: World) { exists labels :: w == Run(BOOT, labels) }

  ghost predicate CleanlyReachable(w: World) { exists labels :: RepairFree(labels) && w == Run(BOOT, labels) }

  lemma {:induction false} RunKeeps(w: World, labels: seq<Label>)
    requires WorldOk(w)
    ensures WorldOk(Run(w, labels)) && Evolves(w.db, Run(w, labels).db)
    decreases |labels|
  {
    hide Inv, StartsOk, EffectsOk, WorkersOk, Next, Evolves;
    if labels == [] {
      EvolvesReflexive(w.db);
    } else {
      var before := Run(w, labels[..|labels| - 1]);
      RunKeeps(w, labels[..|labels| - 1]);
      StepKeepsWorld(before, labels[|labels| - 1]);
      EvolvesTransitive(w.db, before.db, Run(w, labels).db);
    }
  }

  lemma {:induction false} RunStrict(w: World, labels: seq<Label>)
    requires StrictWorld(w) && RepairFree(labels)
    ensures StrictWorld(Run(w, labels)) && Strictly(w.db, Run(w, labels).db) && Evolves(w.db, Run(w, labels).db)
    decreases |labels|
  {
    hide WorldOk, Strict, StartedOnce, Next, Evolves, StrictEvolves;
    if labels == [] {
      WorldSound(w);
      Reflexive(w.db);
    } else {
      var before := Run(w, labels[..|labels| - 1]);
      RunStrict(w, labels[..|labels| - 1]);
      StepKeepsStrict(before, labels[|labels| - 1]);
      StepKeepsWorld(before, labels[|labels| - 1]);
      EvolvesTransitive(w.db, before.db, Run(w, labels).db);
      StrictlyTransitive(w.db, before.db, Run(w, labels).db);
    }
  }

  lemma WorldSound(w: World)
    requires WorldOk(w)
    ensures Inv(w.db) && StartsOk(w.starts, w.db) && EffectsOk(w.starts, w.effects)
  {
  }

  lemma Reflexive(d: Db)
    ensures Evolves(d, d) && StrictEvolves(d, d)
  {
    EvolvesReflexive(d);
  }

  lemma BootOk()
    ensures StrictWorld(BOOT)
  {
    ClausesOf(EMPTY_DB);
    EmptyGraphAcyclic();
    assert Links(map[]) == map[];
  }

  lemma ReachableOk(w: World)
    requires Reachable(w)
    ensures Inv(w.db) && StartsOk(w.starts, w.db) && EffectsOk(w.starts, w.effects) && WorldOk(w)
  {
    hide Inv, StartsOk, EffectsOk, WorkersOk, Run;
    var labels :| w == Run(BOOT, labels);
    BootOk();
    RunKeeps(BOOT, labels);
  }

  lemma CleanOk(w: World)
    requires CleanlyReachable(w)
    ensures Reachable(w) && StrictWorld(w) && Inv(w.db) && Strict(w.db)
  {
    hide Inv, Strict, StartsOk, EffectsOk, WorkersOk, StartedOnce, Run;
    var labels :| RepairFree(labels) && w == Run(BOOT, labels);
    BootOk();
    RunStrict(BOOT, labels);
  }
}
