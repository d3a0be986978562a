/**
  When no failing query does harm. In a plan whose services all come behind a step without a guard, a
  run never gets as far as a deployment that is there: that step stops it first.
 */
module Shield {
  import opened ArgGroups
  import opened Cluster
  import opened Steps
  import opened Queries
  import opened Reconciler
  import opened Convergence

  /** The deployment of a started service is there. */
  ghost predicate Up(s: Setup, step: Step, c: Resources) {
    step.StartedService? && FileKey(s, "deployment-" + step.name, "") in c
  }

  ghost predicate Shields(steps: seq<Step>, b: nat) {
    b < |steps| && steps[b].Unguarded? && forall j :: 0 <= j < |steps| && steps[j].StartedService? ==> b < j
  }

  /** If any deployment of a service is there, then so is what step `b` makes. */
  ghost predicate Shielded(s: Setup, steps: seq<Step>, c: Resources, b: nat)
    requires b < |steps|
  {
    forall j :: 0 <= j < |steps| && Up(s, steps[j], c) ==> Done(s, steps[b], c)
  }

  ghost predicate NoneUp(s: Setup, steps: seq<Step>, c: Resources, i: nat) {
    forall j :: i <= j < |steps| ==> !Up(s, steps[j], c)
  }

  lemma UpElsewhere(s: Setup, base: Resources, steps: seq<Step>, c: Resources, c': Resources, i: nat)
    requires GoodPlan(s, base, steps) && i < |steps| && SameOutside(c, c', Owned(s, steps[i]))
    ensures forall j :: 0 <= j < |steps| && j != i ==> (Up(s, steps[j], c) <==> Up(s, steps[j], c'))
  {
    forall j | 0 <= j < |steps| && j != i && steps[j].StartedService?
      ensures Up(s, steps[j], c) <==> Up(s, steps[j], c')
    {
      var dep := FileKey(s, "deployment-" + steps[j].name, "");
      assert dep in Owned(s, steps[j]);
      assert Owned(s, steps[i]) !! Owned(s, steps[j]) by {
        if j < i {
          assert Owned(s, steps[j]) !! Owned(s, steps[i]);
        }
      }
      assert dep !in Owned(s, steps[i]);
    }
  }

  /** Behind step `b` a run that goes on has nothing of a later deployment before it. */
  lemma StepShields(s: Setup, base: Resources, steps: seq<Step>, w: World, cont: bool, i: nat, b: nat)
    requires GoodPlan(s, base, steps) && Inv(s, base, steps, w) && Shields(steps, b) && i < |steps|
    requires Shielded(s, steps, w.cluster, b)
    requires i > b && !w.halted ==> Done(s, steps[b], w.cluster) && NoneUp(s, steps, w.cluster, i)
    ensures var w' := RunStep(s, w, cont, steps[i]);
            && !Harms(s, w, steps[i]) && Inv(s, base, steps, w') && Shielded(s, steps, w'.cluster, b)
            && (i >= b && !w'.halted ==> Done(s, steps[b], w'.cluster) && NoneUp(s, steps, w'.cluster, i + 1))
  {
    assert !Misread(s, w, steps[i]) by {
      assert i > b && !w.halted ==> !Up(s, steps[i], w.cluster);
    }
    StepKeeps(s, base, steps, w, cont, i);
    var w' := RunStep(s, w, cont, steps[i]);
    UpElsewhere(s, base, steps, w.cluster, w'.cluster, i);
    hide GoodPlan, Inv, RunStep, Harms, Done, Up, Sound, Ordered, AllLabelled, Kept, Universe, SameOutside, TmpGrows;
    hide Owned;
    ShieldsOn(s, steps, w, w', cont, i, b);
  }

  lemma ShieldsOn(s: Setup, steps: seq<Step>, w: World, w': World, cont: bool, i: nat, b: nat)
    requires Shields(steps, b) && i < |steps| && Shielded(s, steps, w.cluster, b)
    requires i > b && !w.halted ==> Done(s, steps[b], w.cluster) && NoneUp(s, steps, w.cluster, i)
    requires i != b ==> (Done(s, steps[b], w.cluster) <==> Done(s, steps[b], w'.cluster))
    requires forall j :: 0 <= j < |steps| && j != i ==> (Up(s, steps[j], w.cluster) <==> Up(s, steps[j], w'.cluster))
    requires w.halted ==> w' == w
    requires !w'.halted ==> Done(s, steps[i], w'.cluster)
    requires Done(s, steps[i], w.cluster) ==> w'.cluster == w.cluster
    requires Blocked(s, w.cluster, cont, steps[i]) ==> w'.halted
    ensures Shielded(s, steps, w'.cluster, b)
    ensures i >= b && !w'.halted ==> Done(s, steps[b], w'.cluster) && NoneUp(s, steps, w'.cluster, i + 1)
  {
    hide Done;
    assert !Up(s, steps[b], w'.cluster) && (i < b ==> !Up(s, steps[i], w'.cluster));
    if w.halted {
    } else if i <= b {
    } else {
      assert Done(s, steps[b], w'.cluster);
    }
  }

  lemma {:induction false} StepsShield(
    s: Setup, base: Resources, steps: seq<Step>, w: World, cont: bool, i: nat, b: nat)
    requires GoodPlan(s, base, steps) && Inv(s, base, steps, w) && Shields(steps, b) && i <= |steps|
    requires Shielded(s, steps, w.cluster, b)
    requires i > b && !w.halted ==> Done(s, steps[b], w.cluster) && NoneUp(s, steps, w.cluster, i)
    ensures Harmless(s, w, cont, steps, i)
    ensures Shielded(s, steps, RunSteps(s, w, cont, steps, i).cluster, b)
    decreases |steps| - i
  {
    hide GoodPlan, Inv, RunStep, Harms, Done, Shielded, NoneUp;
    if i < |steps| {
      StepShields(s, base, steps, w, cont, i, b);
      StepsShield(s, base, steps, RunStep(s, w, cont, steps[i]), cont, i + 1, b);
    }
  }

  lemma CleanShields(s: Setup, base: Resources, steps: seq<Step>, w: World, cut: nat, b: nat)
    requires GoodPlan(s, base, steps) && Inv(s, base, steps, w) && b < |steps| && Shielded(s, steps, w.cluster, b)
    ensures Shielded(s, steps, Invoke(s, w, steps, Clean(cut)).cluster, b)
  {
    var kinds := CleanEffect(Fresh(w, cut));
    var c' := WithoutLabelled(w.cluster, kinds);
    forall j | 0 <= j < |steps| && Up(s, steps[j], c') ensures Done(s, steps[b], c') {
      UpSurvives(s, Universe(s, base, steps), steps[j], w.cluster, kinds);
    }
    hide CleanScript, Done, Up, Sound, GoodStep, Universe, WithoutLabelled, CLEAN_COMMANDS;
  }

  /** clean.sh deletes deployments first: where one is left, nothing has been deleted. */
  lemma UpSurvives(s: Setup, u: set<Key>, step: Step, c: Resources, kinds: set<Kind>)
    requires GoodStep(s, u, step) && Sound(s, step, c) && (kinds != {} ==> Deployment in kinds)
    requires Up(s, step, WithoutLabelled(c, kinds))
    ensures Up(s, step, c) && WithoutLabelled(c, kinds) == c
  {
    assert FileKey(s, "deployment-" + step.name, "").kind == Deployment;
    hide Configured, FromGroup;
  }

  /** Whatever queries fail, in whatever runs of both scripts, no run does harm. */
  lemma {:induction false} ShieldedIsAllowed(s: Setup, w0: World, steps: seq<Step>, history: seq<Event>, b: nat)
    requires Starts(s, w0, steps) && MayClean(w0.cluster, history) && Shields(steps, b)
    ensures Allowed(s, w0, steps, history)
    ensures Shielded(s, steps, Replay(s, w0, steps, history).cluster, b)
    decreases |history|
  {
    hide *;
    if history == [] {
      StartsShielded(s, w0, steps, b);
    } else {
      var front, e := history[..|history| - 1], history[|history| - 1];
      assert history == front + [e];
      MayCleanFront(w0.cluster, front, e);
      ShieldedIsAllowed(s, w0, steps, front, b);
      ReplayKeeps(s, w0, steps, front);
      StartsGood(s, w0, steps);
      InvokeShields(s, w0.cluster, steps, Replay(s, w0, steps, front), e, b);
      AllowedFront(s, w0, steps, front, e);
      ReplayOn(s, w0, steps, front, e);
    }
  }

  lemma MayCleanFront(base: Resources, front: seq<Event>, e: Event)
    requires MayClean(base, front + [e])
    ensures MayClean(base, front) && MayClean(base, [e])
  {
    hide NothingLabelled;
    assert forall d :: d in front + [e] <==> d in front || d in [e];
  }

  lemma StartsShielded(s: Setup, w0: World, steps: seq<Step>, b: nat)
    requires Starts(s, w0, steps) && Shields(steps, b)
    ensures Allowed(s, w0, steps, []) && Shielded(s, steps, Replay(s, w0, steps, []).cluster, b)
  {
    StartInv(s, w0, steps);
    ReplayNothing(s, w0, steps);
    hide Starts, Inv, Done, Harmful, ParseGroups, Replay;
    forall j | 0 <= j < |steps| && steps[j].StartedService? ensures !Up(s, steps[j], w0.cluster) {
      assert FileKey(s, "deployment-" + steps[j].name, "") in Owned(s, steps[j]);
    }
  }

  lemma InvokeShields(s: Setup, base: Resources, steps: seq<Step>, w: World, e: Event, b: nat)
    requires GoodPlan(s, base, steps) && Inv(s, base, steps, w) && Shields(steps, b) && Shielded(s, steps, w.cluster, b)
    ensures !Harmful(s, steps, w, e) && Shielded(s, steps, Invoke(s, w, steps, e).cluster, b)
  {
    match e
    case Clean(cut) =>
      hide *;
      CleanShields(s, base, steps, w, cut, b);
      CleanIsNoRun(s, steps, w, cut);
    case Deploy(cont, cut, failing) =>
      var w1 := Fresh(w, cut, failing);
      PrologueKeepsInv(s, base, steps, w, cut, failing);
      EpilogueKeepsCluster(w1);
      StepsShield(s, base, steps, Prologue(w1), cont, 0, b);
      EpilogueKeepsCluster(RunSteps(s, Prologue(w1), cont, steps, 0));
      hide GoodPlan, Inv, Shielded, Prologue, Epilogue, RunSteps, Harmless;
  }

  lemma CleanIsNoRun(s: Setup, steps: seq<Step>, w: World, cut: nat)
    ensures !Harmful(s, steps, w, Clean(cut))
  {
  }
}
