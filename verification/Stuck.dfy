/**
  A deployment that can never be finished: a first run of deploy.sh cut right behind its first step
  without a guard, counted command by command.
 */
module Stuck {
  import opened Cluster
  import opened Steps
  import opened Queries
  import opened Reconciler
  import opened Convergence
  import opened Labels
  import opened WholeTale

  /** The steps whose commands are counted here: no service, and volumes made automatically. */
  predicate Counted(s: Setup, step: Step) {
    match step
    case StartedService(_, _) => false
    case Volume(name) => "volume-" + name !in s.manifests && s.autoVolume == "local"
    case _ => true
  }

  ghost predicate CanCount(s: Setup, u: set<Key>, w: World, step: Step) {
    && Counted(s, step) && CanRun(s, u, w, step) && Owned(s, step) !! w.cluster.Keys
    && !w.halted && w.tmpDir && w.left >= Cost(step)
  }

  lemma VolumeCount(s: Setup, u: set<Key>, w: World, cont: bool, step: Step)
    requires step.Volume? && CanCount(s, u, w, step)
    ensures !RunStep(s, w, cont, step).halted && RunStep(s, w, cont, step).left == w.left - 5
  {
    var name := step.name;
    var pv, pvc := FileKey(s, VolumeFile(s, name), name), FileKey(s, "volume-claim", name);
    assert pv in Owned(s, step) && pvc in Owned(s, step);
    SeesIff(u, w, PersistentVolume, VolumeNameOf(name), pv);
    YamlEffect(s, Run(w, External), VolumeFile(s, name), ".volume-" + name, name);
    var w1 := MakeVolume(s, w, name);
    assert w1.cluster.Keys == w.cluster.Keys + {pv};
    SeesIff(u, w1, PersistentVolumeClaim, ClaimNameOf(name), pvc);
    YamlEffect(s, w1, "volume-claim", ".volume-claim-" + name, name);
    hide Sees, Identifies;
  }

  lemma StepCount(s: Setup, u: set<Key>, w: World, cont: bool, step: Step)
    requires CanCount(s, u, w, step)
    ensures !RunStep(s, w, cont, step).halted && RunStep(s, w, cont, step).left == w.left - Cost(step)
  {
    match step
    case Volume(_) => VolumeCount(s, u, w, cont, step);
    case TLSSecret(name, key, crt) =>
      assert Key(Secret, name) in Owned(s, step);
      SeesIff(u, w, Secret, name, Key(Secret, name));
      TLSMade(w, Key(Secret, name), Res(false, [key, crt]));
      hide Sees, Identifies, Run;
    case GuardedYaml(kind, pattern, file) =>
      assert FileKey(s, file, "") in Owned(s, step);
      SeesIff(u, w, kind, pattern, FileKey(s, file, ""));
      YamlEffect(s, w, file, "." + file, "");
      hide Sees, Identifies, Run;
    case Unguarded(file) =>
      assert FileKey(s, file, "") in Owned(s, step);
      YamlEffect(s, w, file, "." + file, "");
    case _ =>
  }

  /** The commands of the first `i` steps. */
  function CostTo(steps: seq<Step>, i: nat): nat
    requires i <= |steps|
  {
    if i == 0 then 0 else CostTo(steps, i - 1) + Cost(steps[i - 1])
  }

  ghost predicate Untouched(s: Setup, steps: seq<Step>, c: Resources, i: nat) {
    forall j :: i <= j < |steps| ==> Owned(s, steps[j]) !! c.Keys
  }

  lemma UntouchedOn(s: Setup, base: Resources, steps: seq<Step>, c: Resources, c': Resources, i: nat)
    requires GoodPlan(s, base, steps) && i < |steps| && Untouched(s, steps, c, i)
    requires SameOutside(c, c', Owned(s, steps[i]))
    ensures Untouched(s, steps, c', i + 1)
  {
    hide Owned, GoodStep;
    forall j | i + 1 <= j < |steps| ensures Owned(s, steps[j]) !! c'.Keys {
      forall k | k in Owned(s, steps[j]) ensures k !in c' {
        assert k !in c && k !in Owned(s, steps[i]);
      }
    }
  }

  /** From a cluster without any of their resources, the first `i` steps take exactly their commands. */
  lemma {:induction false} ReachCount(s: Setup, base: Resources, steps: seq<Step>, w: World, cont: bool, i: nat)
    requires GoodPlan(s, base, steps) && Inv(s, base, steps, w) && i <= |steps| && Untouched(s, steps, w.cluster, 0)
    requires (forall j :: 0 <= j < i ==> Counted(s, steps[j])) && !w.halted && w.tmpDir && w.left >= CostTo(steps, i)
    ensures var m := Reach(s, w, cont, steps, i);
            && Inv(s, base, steps, m) && Untouched(s, steps, m.cluster, i)
            && !m.halted && m.tmpDir && m.left == w.left - CostTo(steps, i)
            && (i > 0 ==> Done(s, steps[i - 1], m.cluster))
  {
    hide GoodPlan, Inv, RunStep, Done, Owned, Cost, Counted;
    if i > 0 {
      ReachCount(s, base, steps, w, cont, i - 1);
      var m := Reach(s, w, cont, steps, i - 1);
      CountOne(s, base, steps, m, cont, i - 1);
    }
  }

  lemma CountOne(s: Setup, base: Resources, steps: seq<Step>, m: World, cont: bool, i: nat)
    requires GoodPlan(s, base, steps) && Inv(s, base, steps, m) && i < |steps| && Untouched(s, steps, m.cluster, i)
    requires Counted(s, steps[i]) && !m.halted && m.tmpDir && m.left >= Cost(steps[i])
    ensures var m' := RunStep(s, m, cont, steps[i]);
            && Inv(s, base, steps, m') && Untouched(s, steps, m'.cluster, i + 1)
            && !m'.halted && m'.tmpDir && m'.left == m.left - Cost(steps[i]) && Done(s, steps[i], m'.cluster)
  {
    hide *;
    CanRunStep(s, base, steps, m, i);
    var u := Universe(s, base, steps);
    CanCountStep(s, u, steps, m, i);
    StepCount(s, u, m, cont, steps[i]);
    StepKeeps(s, base, steps, m, cont, i);
    StepMakes(s, u, m, RunStep(s, m, cont, steps[i]), cont, steps[i]);
    UntouchedOn(s, base, steps, m.cluster, RunStep(s, m, cont, steps[i]).cluster, i);
  }

  lemma CanCountStep(s: Setup, u: set<Key>, steps: seq<Step>, m: World, i: nat)
    requires i < |steps| && CanRun(s, u, m, steps[i]) && Untouched(s, steps, m.cluster, i)
    requires Counted(s, steps[i]) && !m.halted && m.tmpDir && m.left >= Cost(steps[i])
    ensures CanCount(s, u, m, steps[i]) && !Harms(s, m, steps[i])
  {
    hide CanRun, Owned, Cost;
  }

  lemma StepMakes(s: Setup, u: set<Key>, m: World, m': World, cont: bool, step: Step)
    requires StepResult(s, u, m, m', cont, step)
    ensures m'.tmpDir == m.tmpDir && SameOutside(m.cluster, m'.cluster, Owned(s, step))
    ensures !m'.halted ==> Done(s, step, m'.cluster)
  {
    hide Sound, Ordered, Owned, SameOutside, AllLabelled, Blocked;
  }

  /** With no command left the next step creates nothing. */
  lemma NothingLeft(s: Setup, w: World, cont: bool, step: Step)
    requires !w.halted && w.left == 0 && step.Unguarded?
    ensures RunStep(s, w, cont, step).halted && RunStep(s, w, cont, step).cluster == w.cluster
  {
  }

  lemma CutBehind(s: Setup, base: Resources, steps: seq<Step>, w: World, cont: bool, i: nat)
    requires GoodPlan(s, base, steps) && Inv(s, base, steps, w) && Untouched(s, steps, w.cluster, 0)
    requires 0 < i < |steps| && (forall j :: 0 <= j < i ==> Counted(s, steps[j])) && steps[i].Unguarded?
    requires !w.halted && w.tmpDir && w.left == CostTo(steps, i)
    ensures var c := RunSteps(s, w, cont, steps, 0).cluster;
            Done(s, steps[i - 1], c) && Untouched(s, steps, c, i)
  {
    ReachCount(s, base, steps, w, cont, i);
    ReachesOn(s, w, cont, steps, i);
    var m := Reach(s, w, cont, steps, i);
    NothingLeft(s, m, cont, steps[i]);
    hide GoodPlan, Inv, RunStep, Done, Untouched, Reach;
    HaltedStays(s, RunStep(s, m, cont, steps[i]), cont, steps, i + 1);
  }

  lemma OneRun(s: Setup, w0: World, steps: seq<Step>, cut: nat)
    requires cut >= 3
    ensures var w1 := Prologue(Fresh(w0, cut));
            && !w1.halted && w1.tmpDir && w1.left == cut - 3 && w1.cluster == w0.cluster
            && Replay(s, w0, steps, [Deploy(true, cut)]).cluster == RunSteps(s, w1, true, steps, 0).cluster
  {
    var w1, history := Prologue(Fresh(w0, cut)), [Deploy(true, cut)];
    EpilogueKeepsCluster(RunSteps(s, w1, true, steps, 0));
    assert history[..0] == [] && Replay(s, w0, steps, []) == w0;
    assert Replay(s, w0, steps, history) == Invoke(s, w0, steps, history[0]);
    hide Epilogue, RunSteps, Replay;
  }

  lemma FirstIsAllowed(s: Setup, w0: World, steps: seq<Step>, cut: nat)
    ensures Allowed(s, w0, steps, [Deploy(true, cut)])
    ensures Harmless(s, Prologue(Fresh(w0, cut)), true, steps, 0)
  {
    SightedIsAllowed(s, w0, steps, [Deploy(true, cut)]);
    Sighted(s, w0, steps, Deploy(true, cut));
    hide Harmless, Prologue, Allowed;
  }

  lemma StartsUntouched(s: Setup, w0: World, steps: seq<Step>)
    requires Starts(s, w0, steps)
    ensures Untouched(s, steps, w0.cluster, 0)
  {
    hide Owned, GoodStep;
  }

  /** The first run of a history, cut behind the commands of its first `i` steps. */
  lemma FirstCut(s: Setup, w0: World, steps: seq<Step>, i: nat)
    requires Starts(s, w0, steps) && 0 < i < |steps|
    requires (forall j :: 0 <= j < i ==> Counted(s, steps[j])) && steps[i].Unguarded?
    ensures var w := Replay(s, w0, steps, [Deploy(true, 3 + CostTo(steps, i))]);
            && Done(s, steps[i - 1], w.cluster) && Untouched(s, steps, w.cluster, i)
            && Inv(s, w0.cluster, steps, w)
  {
    hide *;
    var cut := 3 + CostTo(steps, i);
    FirstIsAllowed(s, w0, steps, cut);
    StartInv(s, w0, steps);
    StartsUntouched(s, w0, steps);
    StartsGood(s, w0, steps);
    OneRun(s, w0, steps, cut);
    PrologueKeepsInv(s, w0.cluster, steps, w0, cut, {});
    CutBehind(s, w0.cluster, steps, Prologue(Fresh(w0, cut)), true, i);
    ReplayKeeps(s, w0, steps, [Deploy(true, cut)]);
  }

  // ----- the real steps -----

  lemma RealCosts()
    ensures |STEPS| == 15 && STEPS[7].Unguarded?
    ensures Cost(STEPS[0]) == 2 && Cost(STEPS[1]) == 2 && Cost(STEPS[2]) == 2 && Cost(STEPS[6]) == 2
    ensures Cost(STEPS[3]) == 5 && Cost(STEPS[4]) == 5 && Cost(STEPS[5]) == 5
  {
  }

  lemma RealCount()
    ensures CostTo(STEPS, 7) == 23
  {
    RealCosts();
    hide STEPS, Cost;
    assert CostTo(STEPS, 1) == 2;
    assert CostTo(STEPS, 2) == 4;
    assert CostTo(STEPS, 3) == 6;
    assert CostTo(STEPS, 4) == 11;
    assert CostTo(STEPS, 5) == 16;
    assert CostTo(STEPS, 6) == 21;
  }

  lemma RealCounted()
    ensures forall j :: 0 <= j < 7 ==> Counted(SETUP, STEPS[j])
  {
    assert "volume-" + "mongo" == "volume-mongo" && "volume-" + "registry-storage" == "volume-registry-storage";
    assert "volume-" + "girder-ps" == "volume-girder-ps";
  }

  /**
    A first run cut behind its 26th command has made the gwvolman-dev claim and nothing of any service,
    and then no service, deployment or ingress is ever created by running deploy.sh again.
   */
  lemma NeverFinished(w0: World, more: seq<Event>, k: Key)
    requires FreshStart(w0) && (forall e :: e in more ==> e.Deploy?)
    requires (k.kind == Service || k.kind == Deployment || k.kind == Ingress) && k !in w0.cluster
    ensures k !in Replay(SETUP, w0, STEPS, [Deploy(true, 26)] + more).cluster
  {
    CutAt26(w0, k);
    hide Replay, FreshStart, STEPS, MANIFESTS;
    RealDeployStuck(w0, [Deploy(true, 26)], more, k);
  }

  lemma CutAt26(w0: World, k: Key)
    requires FreshStart(w0) && k !in w0.cluster
    requires k.kind == Service || k.kind == Deployment || k.kind == Ingress
    ensures var c := Replay(SETUP, w0, STEPS, [Deploy(true, 26)]).cluster;
            PVC_KEY in c && k !in c
  {
    hide *;
    FreshStartStarts(w0);
    RealCosts();
    RealCount();
    RealCounted();
    FirstCut(SETUP, w0, STEPS, 7);
    LateIsUntouched(w0.cluster, Replay(SETUP, w0, STEPS, [Deploy(true, 26)]), k);
  }

  lemma FreshStartStarts(w0: World)
    requires FreshStart(w0)
    ensures Starts(SETUP, w0, STEPS)
  {
    RealPlanIsGood(w0.cluster);
    hide GoodPlan, STEPS, MANIFESTS, NoClash;
  }

  lemma LateIsUntouched(base: Resources, w: World, k: Key)
    requires Inv(SETUP, base, STEPS, w) && |STEPS| == 15 && Untouched(SETUP, STEPS, w.cluster, 7)
    requires Done(SETUP, STEPS[6], w.cluster) && k !in base
    requires k.kind == Service || k.kind == Deployment || k.kind == Ingress
    ensures PVC_KEY in w.cluster && k !in w.cluster
  {
    UnguardedKeys();
    LateKinds(k);
    hide STEPS, MANIFESTS, Owned, StepOf;
    if k in w.cluster {
      var j := OwnerExists(base, w, k);
      OwnerIs(j, k);
    }
  }
}
