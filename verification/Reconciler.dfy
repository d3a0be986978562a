/**
  deploy.sh as a reconciler: whatever mixture of cut and uncut runs of deploy.sh and clean.sh came
  before, what state can be left, and where the next run of deploy.sh arrives.
 */
module Reconciler {
  import opened ArgGroups
  import opened Cluster
  import opened Steps
  import opened Queries

  function AllOwned(s: Setup, steps: seq<Step>): set<Key> {
    set i, k | 0 <= i < |steps| && k in Owned(s, steps[i]) :: k
  }

  function Universe(s: Setup, base: Resources, steps: seq<Step>): set<Key> {
    base.Keys + AllOwned(s, steps)
  }

  /**
    No two steps make the same resource, none of them is there beforehand, and no name that a guard
    looks for occurs in another name of its kind.
   */
  ghost predicate GoodPlan(s: Setup, base: Resources, steps: seq<Step>) {
    && (forall i :: 0 <= i < |steps| ==> GoodStep(s, Universe(s, base, steps), steps[i]))
    && (forall i :: 0 <= i < |steps| ==> Owned(s, steps[i]) !! base.Keys)
    && (forall i, j :: 0 <= i < j < |steps| ==> Owned(s, steps[i]) !! Owned(s, steps[j]))
  }

  ghost predicate Preserves(base: Resources, c: Resources) {
    forall k :: k in base ==> k in c && c[k] == base[k]
  }

  ghost predicate TidyTmp(tmp: set<string>) {
    forall f :: f in tmp ==> IsDotYaml(f)
  }

  /** What holds between any two invocations. */
  ghost predicate Inv(s: Setup, base: Resources, steps: seq<Step>, w: World) {
    && w.cluster.Keys <= Universe(s, base, steps) && Preserves(base, w.cluster) && TidyTmp(w.tmp)
    && forall i :: 0 <= i < |steps| ==> Sound(s, steps[i], w.cluster)
  }

  // ----- steps do not disturb each other -----

  lemma CanRunStep(s: Setup, base: Resources, steps: seq<Step>, w: World, i: nat)
    requires GoodPlan(s, base, steps) && Inv(s, base, steps, w) && i < |steps|
    ensures CanRun(s, Universe(s, base, steps), w, steps[i])
  {
    assert forall k :: k in Owned(s, steps[i]) ==> k in AllOwned(s, steps);
  }

  lemma Undisturbed(s: Setup, u: set<Key>, c: Resources, c': Resources, keys: set<Key>, step: Step)
    requires SameOutside(c, c', keys) && keys !! Owned(s, step) && GoodStep(s, u, step)
    ensures Done(s, step, c) <==> Done(s, step, c')
    ensures Sound(s, step, c) ==> Sound(s, step, c')
    ensures Ordered(s, step, c) ==> Ordered(s, step, c')
    ensures AllLabelled(s, step, c) <==> AllLabelled(s, step, c')
  {
    assert forall k :: k in Owned(s, step) ==> k !in keys;
    if step.StartedService? {
      UndisturbedService(s, c, c', step);
    }
  }

  lemma UndisturbedService(s: Setup, c: Resources, c': Resources, step: Step)
    requires step.StartedService?
    requires forall k :: k in Owned(s, step) ==> (k in c <==> k in c') && (k in c && k in c' ==> c[k] == c'[k])
    ensures Sound(s, step, c) ==> Sound(s, step, c')
  {
    var name, groups := step.name, ParseGroups(step.args).groups;
    if Sound(s, step, c) {
      forall k | k in ConfigKeys(name, groups) && k in c' ensures FromGroup(c'[k], name, groups, k) {
        assert k in Owned(s, step);
      }
      if FileKey(s, "deployment-" + name, "") in c' {
        assert Configured(c, name, groups);
        forall g | g in groups
          ensures ConfigKey(name, g.flag) in c' && c'[ConfigKey(name, g.flag)] == Res(true, LastFiles(groups, g.flag))
        {
          assert ConfigKey(name, g.flag) in ConfigKeys(name, groups);
        }
      }
    }
  }

  /** The resources of a finished step, labels included, are the same before and after. */
  ghost predicate Kept(s: Setup, step: Step, c: Resources, c': Resources) {
    forall k :: k in Owned(s, step) ==> k in c && k in c' && c[k] == c'[k]
  }

  /** One step keeps the invariant of the whole plan and leaves every other step as it was. */
  lemma StepKeeps(s: Setup, base: Resources, steps: seq<Step>, w: World, cont: bool, i: nat)
    requires GoodPlan(s, base, steps) && i < |steps| && Inv(s, base, steps, w) && !Harms(s, w, steps[i])
    ensures var w' := RunStep(s, w, cont, steps[i]);
            && Inv(s, base, steps, w')
            && StepResult(s, Universe(s, base, steps), w, w', cont, steps[i])
            && (forall j :: 0 <= j < |steps| && j != i ==>
                  && (Done(s, steps[j], w.cluster) <==> Done(s, steps[j], w'.cluster))
                  && (Ordered(s, steps[j], w.cluster) ==> Ordered(s, steps[j], w'.cluster))
                  && (AllLabelled(s, steps[j], w.cluster) <==> AllLabelled(s, steps[j], w'.cluster))
                  && (Done(s, steps[j], w.cluster) ==> Kept(s, steps[j], w.cluster, w'.cluster)))
  {
    var u := Universe(s, base, steps);
    assert Owned(s, steps[i]) <= u;
    AnyStep(s, u, w, cont, steps[i]);
    var w' := RunStep(s, w, cont, steps[i]);
    assert Preserves(base, w'.cluster) by {
      assert forall k :: k in base ==> k !in Owned(s, steps[i]);
    }
    forall j | 0 <= j < |steps| && j != i
      ensures (Done(s, steps[j], w.cluster) <==> Done(s, steps[j], w'.cluster))
              && Sound(s, steps[j], w'.cluster)
              && (Ordered(s, steps[j], w.cluster) ==> Ordered(s, steps[j], w'.cluster))
              && (AllLabelled(s, steps[j], w.cluster) <==> AllLabelled(s, steps[j], w'.cluster))
              && (Done(s, steps[j], w.cluster) ==> Kept(s, steps[j], w.cluster, w'.cluster))
    {
      assert Owned(s, steps[i]) !! Owned(s, steps[j]) by {
        if i < j {} else { assert Owned(s, steps[j]) !! Owned(s, steps[i]); }
      }
      Undisturbed(s, u, w.cluster, w'.cluster, Owned(s, steps[i]), steps[j]);
    }
  }

  // ----- a run of the steps from number i on -----

  function CostFrom(steps: seq<Step>, i: nat): nat
    requires i <= |steps|
    decreases |steps| - i
  {
    if i == |steps| then 0 else Cost(steps[i]) + CostFrom(steps, i + 1)
  }

  ghost predicate AnyBlocked(s: Setup, c: Resources, cont: bool, steps: seq<Step>, i: nat) {
    exists j :: i <= j < |steps| && Blocked(s, c, cont, steps[j])
  }

  lemma HaltedStays(s: Setup, w: World, cont: bool, steps: seq<Step>, i: nat)
    requires i <= |steps| && w.halted
    ensures RunSteps(s, w, cont, steps, i) == w
    decreases |steps| - i
  {
    if i < |steps| {
      HaltedStays(s, w, cont, steps, i + 1);
    }
  }

  /** None of the steps from number `i` on does harm. */
  ghost predicate Harmless(s: Setup, w: World, cont: bool, steps: seq<Step>, i: nat)
    requires i <= |steps|
    decreases |steps| - i
  {
    i == |steps| || (!Harms(s, w, steps[i]) && Harmless(s, RunStep(s, w, cont, steps[i]), cont, steps, i + 1))
  }

  lemma YamlKeepsFailing(s: Setup, w: World, src: string, dest: string, vol: string)
    ensures CreateFromYaml(s, w, src, dest, vol).failing == w.failing
  {
  }

  lemma {:induction false} ConfiguringKeepsFailing(w: World, name: string, groups: seq<Group>)
    ensures ConfigureAll(w, name, groups).failing == w.failing
  {
    if groups != [] {
      ConfiguringKeepsFailing(w, name, groups[..|groups| - 1]);
      GroupKeepsFailing(ConfigureAll(w, name, groups[..|groups| - 1]), name, groups[|groups| - 1]);
      hide ConfigureGroup;
    }
  }

  lemma GroupKeepsFailing(w: World, name: string, g: Group)
    ensures ConfigureGroup(w, name, g).failing == w.failing
  {
    hide Sees, Succeeds;
  }

  lemma ServiceKeepsFailing(s: Setup, w: World, name: string, args: seq<string>)
    ensures StartService(s, w, name, args).failing == w.failing
  {
    YamlKeepsFailing(s, w, "service-" + name, ".service-" + name, "");
    var w1 := ServiceStep1(s, w, name);
    var groups := ParseGroups(args).groups;
    ConfiguringKeepsFailing(w1, name, groups);
    YamlKeepsFailing(s, ConfigureAll(w1, name, groups), "deployment-" + name, ".deployment-" + name, "");
    hide CreateFromYaml, ConfigureAll, Sees, ParseGroups;
  }

  lemma VolumeKeepsFailing(s: Setup, w: World, name: string)
    ensures CreateVolume(s, w, name).failing == w.failing
  {
    var prepared := if "volume-" + name !in s.manifests && s.autoVolume == "local" then Run(w, External) else w;
    YamlKeepsFailing(s, prepared, VolumeFile(s, name), ".volume-" + name, name);
    YamlKeepsFailing(s, VolumeStep1(s, w, name), "volume-claim", ".volume-claim-" + name, name);
    hide CreateFromYaml, Sees, VolumeFile;
  }

  lemma StepKeepsFailing(s: Setup, w: World, cont: bool, step: Step)
    ensures RunStep(s, w, cont, step).failing == w.failing
  {
    match step
    case TLSSecret(_, _, _) => hide Sees;
    case GuardedYaml(_, _, file) => YamlKeepsFailing(s, w, file, "." + file, ""); hide Sees;
    case Unguarded(file) => YamlKeepsFailing(s, w, file, "." + file, "");
    case Volume(name) => VolumeKeepsFailing(s, w, name);
    case StartedService(name, args) =>
      hide StartService;
      ServiceKeepsFailing(s, w, name, args);
  }

  /** It takes a failing query for a deployment. */
  lemma {:induction false} NothingHarmed(s: Setup, w: World, cont: bool, steps: seq<Step>, i: nat)
    requires i <= |steps| && forall q :: q in w.failing ==> q.kind != Deployment
    ensures Harmless(s, w, cont, steps, i)
    decreases |steps| - i
  {
    hide RunStep;
    if i < |steps| {
      StepKeepsFailing(s, w, cont, steps[i]);
      NothingHarmed(s, RunStep(s, w, cont, steps[i]), cont, steps, i + 1);
    }
  }

  ghost predicate StepsResult(s: Setup, w: World, w': World, cont: bool, steps: seq<Step>, i: nat)
    requires i <= |steps|
  {
    && w'.tmpDir == w.tmpDir
    && (!w'.halted ==> forall j :: i <= j < |steps| ==> Done(s, steps[j], w'.cluster))
    && (AnyBlocked(s, w.cluster, cont, steps, i) ==> w'.halted)
    && (!w.halted && w.tmpDir && w.left >= CostFrom(steps, i) && !AnyBlocked(s, w.cluster, cont, steps, i)
        && w.failing == {} ==>
          !w'.halted && w'.left >= w.left - CostFrom(steps, i))
  }

  lemma BlockedSplit(s: Setup, c: Resources, m: Resources, cont: bool, steps: seq<Step>, i: nat)
    requires i < |steps|
    requires forall j :: i < j < |steps| ==> (Done(s, steps[j], c) <==> Done(s, steps[j], m))
    ensures AnyBlocked(s, c, cont, steps, i) <==>
              Blocked(s, c, cont, steps[i]) || AnyBlocked(s, m, cont, steps, i + 1)
  {
    assert forall j :: i < j < |steps| ==> (Blocked(s, c, cont, steps[j]) <==> Blocked(s, m, cont, steps[j]));
  }

  lemma {:induction false} StepsKeep(s: Setup, base: Resources, steps: seq<Step>, w: World, cont: bool, i: nat)
    requires GoodPlan(s, base, steps) && i <= |steps| && Inv(s, base, steps, w) && Harmless(s, w, cont, steps, i)
    ensures Inv(s, base, steps, RunSteps(s, w, cont, steps, i))
    decreases |steps| - i
  {
    hide GoodPlan, Inv, RunStep, StepResult, Harms, Done, Ordered, AllLabelled, Kept, Universe;
    if i < |steps| {
      StepKeeps(s, base, steps, w, cont, i);
      StepsKeep(s, base, steps, RunStep(s, w, cont, steps[i]), cont, i + 1);
    }
  }

  /** The part of a step's result that the fold over the steps needs. */
  ghost predicate Advance(s: Setup, w: World, w': World, cont: bool, steps: seq<Step>, i: nat)
    requires i < |steps|
  {
    && w'.tmpDir == w.tmpDir && w'.failing == w.failing
    && (forall j :: 0 <= j < |steps| && j != i ==> (Done(s, steps[j], w.cluster) <==> Done(s, steps[j], w'.cluster)))
    && (!w'.halted ==> !w.halted && Done(s, steps[i], w'.cluster))
    && (Blocked(s, w.cluster, cont, steps[i]) ==> w'.halted)
    && (!w.halted && w.tmpDir && w.left >= Cost(steps[i]) && !Blocked(s, w.cluster, cont, steps[i])
        && w.failing == {} ==>
          !w'.halted && w'.left >= w.left - Cost(steps[i]))
  }

  lemma StepAdvances(s: Setup, base: Resources, steps: seq<Step>, w: World, cont: bool, i: nat)
    requires GoodPlan(s, base, steps) && i < |steps| && Inv(s, base, steps, w) && !Harms(s, w, steps[i])
    ensures Inv(s, base, steps, RunStep(s, w, cont, steps[i]))
    ensures Advance(s, w, RunStep(s, w, cont, steps[i]), cont, steps, i)
  {
    StepKeeps(s, base, steps, w, cont, i);
  }

  lemma AdvanceThen(s: Setup, w: World, mid: World, w': World, cont: bool, steps: seq<Step>, i: nat)
    requires i < |steps| && Advance(s, w, mid, cont, steps, i)
    requires StepsResult(s, mid, w', cont, steps, i + 1)
    requires mid.halted ==> w' == mid
    requires Done(s, steps[i], mid.cluster) <==> Done(s, steps[i], w'.cluster)
    ensures StepsResult(s, w, w', cont, steps, i)
  {
    BlockedSplit(s, w.cluster, mid.cluster, cont, steps, i);
  }

  lemma {:induction false} StepsEffect(
    s: Setup, base: Resources, steps: seq<Step>, w: World, cont: bool, i: nat)
    requires GoodPlan(s, base, steps) && i <= |steps| && Inv(s, base, steps, w) && Harmless(s, w, cont, steps, i)
    ensures StepsResult(s, w, RunSteps(s, w, cont, steps, i), cont, steps, i)
    ensures forall j :: 0 <= j < i ==>
              (Done(s, steps[j], w.cluster) <==> Done(s, steps[j], RunSteps(s, w, cont, steps, i).cluster))
    decreases |steps| - i
  {
    hide GoodPlan, Inv, RunStep, Advance;
    if i < |steps| {
      var mid := RunStep(s, w, cont, steps[i]);
      StepAdvances(s, base, steps, w, cont, i);
      StepsEffect(s, base, steps, mid, cont, i + 1);
      if mid.halted {
        HaltedStays(s, mid, cont, steps, i + 1);
      }
      AdvanceThen(s, w, mid, RunSteps(s, w, cont, steps, i), cont, steps, i);
    }
  }

  /** What the run means for one step: finished ones stay as they are, the others end up labelled. */
  ghost predicate Fate(s: Setup, step: Step, w: World, w': World, reached: bool) {
    && (Done(s, step, w.cluster) ==> Kept(s, step, w.cluster, w'.cluster))
    && (!w'.halted && reached && !Done(s, step, w.cluster) ==> AllLabelled(s, step, w'.cluster))
    && (AllLabelled(s, step, w.cluster) ==> AllLabelled(s, step, w'.cluster))
  }

  lemma StepFate(s: Setup, base: Resources, steps: seq<Step>, w: World, cont: bool, i: nat, j: nat)
    requires GoodPlan(s, base, steps) && i < |steps| && j < |steps| && Inv(s, base, steps, w)
    requires !Harms(s, w, steps[i])
    ensures var mid := RunStep(s, w, cont, steps[i]);
            && Inv(s, base, steps, mid)
            && Fate(s, steps[j], w, mid, i == j)
            && (j != i ==> (Done(s, steps[j], w.cluster) <==> Done(s, steps[j], mid.cluster)))
            && (mid.halted ==> RunSteps(s, mid, cont, steps, i + 1) == mid)
  {
    hide GoodPlan, Inv, RunStep, Owned, Sound, Ordered;
    StepKeeps(s, base, steps, w, cont, i);
    var mid := RunStep(s, w, cont, steps[i]);
    if mid.halted {
      HaltedStays(s, mid, cont, steps, i + 1);
    }
  }

  lemma FateAtEnd(s: Setup, step: Step, w: World)
    ensures Fate(s, step, w, w, false)
  {
  }

  lemma FateThen(s: Setup, step: Step, w: World, mid: World, w': World, now: bool, later: bool)
    requires Fate(s, step, w, mid, now) && Fate(s, step, mid, w', later)
    requires !now ==> (Done(s, step, w.cluster) <==> Done(s, step, mid.cluster))
    requires mid.halted ==> w' == mid
    ensures Fate(s, step, w, w', now || later)
  {
  }

  lemma {:induction false} StepsFate(
    s: Setup, base: Resources, steps: seq<Step>, w: World, cont: bool, i: nat, j: nat)
    requires GoodPlan(s, base, steps) && i <= |steps| && j < |steps| && Inv(s, base, steps, w)
    requires Harmless(s, w, cont, steps, i)
    ensures Fate(s, steps[j], w, RunSteps(s, w, cont, steps, i), i <= j)
    decreases |steps| - i
  {
    hide GoodPlan, Inv, RunStep, Fate, Done;
    if i == |steps| {
      FateAtEnd(s, steps[j], w);
    } else {
      var mid := RunStep(s, w, cont, steps[i]);
      StepFate(s, base, steps, w, cont, i, j);
      StepsFate(s, base, steps, mid, cont, i + 1, j);
      FateThen(s, steps[j], w, mid, RunSteps(s, w, cont, steps, i), i == j, i + 1 <= j);
    }
  }

  // ----- a whole run of deploy.sh -----

  function TotalCost(steps: seq<Step>): nat { CostFrom(steps, 0) + 6 }

  ghost predicate DeployResult(s: Setup, w: World, w': World, cont: bool, steps: seq<Step>) {
    && (!w'.halted ==> !w'.tmpDir && w'.tmp == {} && forall j :: 0 <= j < |steps| ==> Done(s, steps[j], w'.cluster))
    && (forall j :: 0 <= j < |steps| ==> Fate(s, steps[j], w, w', true))
    && (AnyBlocked(s, w.cluster, cont, steps, 0) ==> w'.halted)
    && (w.left >= TotalCost(steps) && !AnyBlocked(s, w.cluster, cont, steps, 0) && w.failing == {} ==> !w'.halted)
  }

  lemma EpilogueKeepsCluster(w: World)
    ensures Epilogue(w).cluster == w.cluster
    ensures Prologue(w).cluster == w.cluster && Prologue(w).tmp == w.tmp && Prologue(w).failing == w.failing
  {
  }

  lemma PrologueKeepsInv(s: Setup, base: Resources, steps: seq<Step>, w: World, cut: nat, failing: set<Query>)
    requires Inv(s, base, steps, w)
    ensures Inv(s, base, steps, Fresh(w, cut, failing)) && Inv(s, base, steps, Prologue(Fresh(w, cut, failing)))
  {
    EpilogueKeepsCluster(Fresh(w, cut, failing));
  }

  lemma EpilogueEffect(w: World)
    requires TidyTmp(w.tmp)
    ensures var w' := Epilogue(w);
            && w'.cluster == w.cluster && TidyTmp(w'.tmp)
            && (!w'.halted ==> !w.halted && !w'.tmpDir && w'.tmp == {})
            && (!w.halted && w.tmpDir && w.left >= 3 ==> !w'.halted)
  {
    var w2 := Run(Run(w, External), RemoveTmps);
    assert TidyTmp(w2.tmp);
    assert !w2.halted ==> w2.tmp == {};
  }

  lemma DeployEffect(s: Setup, base: Resources, steps: seq<Step>, w: World, cont: bool)
    requires GoodPlan(s, base, steps) && Inv(s, base, steps, w) && !w.halted
    requires Harmless(s, Prologue(w), cont, steps, 0)
    ensures var w' := DeployScript(s, w, cont, steps);
            Inv(s, base, steps, w') && DeployResult(s, w, w', cont, steps)
  {
    var w1 := Prologue(w);
    var w2 := RunSteps(s, w1, cont, steps, 0);
    PrologueOf(s, base, steps, w);
    StepsKeep(s, base, steps, w1, cont, 0);
    StepsEffect(s, base, steps, w1, cont, 0);
    InvTidy(s, base, steps, w2, Epilogue(w2));
    EpilogueEffect(w2);
    forall j | 0 <= j < |steps| ensures Fate(s, steps[j], w, DeployScript(s, w, cont, steps), true) {
      StepsFate(s, base, steps, w1, cont, 0, j);
      FateAround(s, steps[j], w, w1, w2, Epilogue(w2));
    }
    if w1.halted {
      HaltedStays(s, w1, cont, steps, 0);
    }
    hide GoodPlan, Inv, Harmless, Prologue, Epilogue, RunSteps, Done, AllLabelled, AnyBlocked, Fate, TidyTmp;
  }

  lemma PrologueOf(s: Setup, base: Resources, steps: seq<Step>, w: World)
    requires Inv(s, base, steps, w) && !w.halted
    ensures var w1 := Prologue(w);
            && Inv(s, base, steps, w1) && w1.cluster == w.cluster && w1.failing == w.failing
            && (w.left >= 3 ==> !w1.halted && w1.tmpDir && w1.left == w.left - 3)
  {
  }

  /** A run ends well only if it removes tmp, which it does if nothing else is in it. */
  lemma EpilogueEnds(w: World)
    ensures !Epilogue(w).halted
       <==> !w.halted && w.left >= 3 && w.tmpDir && forall f :: f in w.tmp ==> exists name :: f == "." + name + ".yaml"
  {
    forall f ensures IsDotYaml(f) <==> exists name :: f == "." + name + ".yaml" {
      DotYamlIs(f);
    }
    hide IsDotYaml;
    var left := set f | f in w.tmp && !IsDotYaml(f);
    assert left == {} <==> forall f :: f in w.tmp ==> IsDotYaml(f) by {
      assert forall f :: f in w.tmp && !IsDotYaml(f) ==> f in left;
    }
  }

  /** Cut at its beginning a run has made tmp from the first command on, and goes on from the third. */
  lemma PrologueCut(w: World)
    requires !w.halted
    ensures Prologue(w).tmpDir <==> w.tmpDir || w.left >= 1
    ensures Prologue(w).halted <==> w.left < 3
  {
  }

  /** Cut at its end it has removed the files from the second command on, and tmp itself with the third. */
  lemma EpilogueCut(w: World)
    requires !w.halted
    ensures w.left < 2 ==> Epilogue(w).tmp == w.tmp
    ensures w.left >= 2 ==> forall f :: f in Epilogue(w).tmp <==> f in w.tmp && !IsDotYaml(f)
    ensures w.left < 3 ==> Epilogue(w).tmpDir == w.tmpDir
  {
    hide IsDotYaml;
  }

  lemma FateAround(s: Setup, step: Step, w: World, w1: World, w2: World, w': World)
    requires Fate(s, step, w1, w2, true) && w1.cluster == w.cluster && w'.cluster == w2.cluster
    requires !w'.halted ==> !w2.halted
    ensures Fate(s, step, w, w', true)
  {
  }

  lemma InvTidy(s: Setup, base: Resources, steps: seq<Step>, w: World, w': World)
    requires Inv(s, base, steps, w)
    ensures TidyTmp(w.tmp)
    ensures w'.cluster == w.cluster && TidyTmp(w'.tmp) ==> Inv(s, base, steps, w')
  {
  }
}
