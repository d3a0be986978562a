/** The order in which runs of deploy.sh advance, as long as nothing is deleted in between. */
module Order {
  import opened Cluster
  import opened Steps
  import opened Queries
  import opened Reconciler
  import opened Convergence
  import opened Labels

  /** Steps before number `f` are finished, step `f` is somewhere inside, the later ones have nothing yet. */
  ghost predicate Frontier(s: Setup, steps: seq<Step>, c: Resources, f: nat) {
    && f <= |steps|
    && (forall j :: 0 <= j < f ==> Done(s, steps[j], c))
    && (forall j :: f < j < |steps| ==> Owned(s, steps[j]) !! c.Keys)
    && (f < |steps| ==> Ordered(s, steps[f], c))
  }

  lemma EmptyIsOrdered(s: Setup, step: Step, c: Resources)
    requires Owned(s, step) !! c.Keys
    ensures Ordered(s, step, c)
  {
    assert forall k :: k in Owned(s, step) ==> k !in c;
  }

  lemma StepFrontier(s: Setup, base: Resources, steps: seq<Step>, w: World, cont: bool, i: nat, f: nat)
    requires GoodPlan(s, base, steps) && Inv(s, base, steps, w) && Frontier(s, steps, w.cluster, f)
    requires i <= f && i < |steps| && !Harms(s, w, steps[i])
    ensures var w' := RunStep(s, w, cont, steps[i]);
            && (i < f ==> w'.cluster == w.cluster)
            && Frontier(s, steps, w'.cluster, f)
            && (i == f && !w'.halted ==> Frontier(s, steps, w'.cluster, f + 1))
  {
    StepKeeps(s, base, steps, w, cont, i);
    var w' := RunStep(s, w, cont, steps[i]);
    if i == f {
      forall j | f < j < |steps| ensures Owned(s, steps[j]) !! w'.cluster.Keys {
        forall k | k in Owned(s, steps[j]) ensures k !in w'.cluster {
          assert k !in w.cluster && k !in Owned(s, steps[f]);
        }
      }
      if f + 1 < |steps| {
        EmptyIsOrdered(s, steps[f + 1], w'.cluster);
      }
    }
  }

  lemma {:induction false} StepsFrontier(
    s: Setup, base: Resources, steps: seq<Step>, w: World, cont: bool, i: nat, f: nat) returns (f': nat)
    requires GoodPlan(s, base, steps) && Inv(s, base, steps, w) && Frontier(s, steps, w.cluster, f)
    requires i <= f && i <= |steps| && Harmless(s, w, cont, steps, i)
    ensures f <= f' && Frontier(s, steps, RunSteps(s, w, cont, steps, i).cluster, f')
    decreases |steps| - i
  {
    hide GoodPlan, Inv, RunStep;
    f' := f;
    if i < |steps| {
      StepFrontier(s, base, steps, w, cont, i, f);
      StepAdvances(s, base, steps, w, cont, i);
      var mid := RunStep(s, w, cont, steps[i]);
      if mid.halted {
        HaltedStays(s, mid, cont, steps, i + 1);
      } else {
        f' := StepsFrontier(s, base, steps, mid, cont, i + 1, if i == f then f + 1 else f);
      }
    }
  }

  lemma InvokeFrontier(s: Setup, base: Resources, steps: seq<Step>, w: World, e: Event, f: nat) returns (f': nat)
    requires GoodPlan(s, base, steps) && Inv(s, base, steps, w) && Frontier(s, steps, w.cluster, f)
    requires e.Deploy? && !Harmful(s, steps, w, e)
    ensures Frontier(s, steps, Invoke(s, w, steps, e).cluster, f')
  {
    var w1 := Fresh(w, e.cut, e.failing);
    PrologueKeepsInv(s, base, steps, w, e.cut, e.failing);
    EpilogueKeepsCluster(w1);
    hide GoodPlan, Inv, Prologue, Epilogue, RunSteps;
    f' := StepsFrontier(s, base, steps, Prologue(w1), e.cont, 0, f);
    EpilogueKeepsCluster(RunSteps(s, Prologue(w1), e.cont, steps, 0));
  }

  /** After any history of cut and uncut runs of deploy.sh, the state is described by one frontier. */
  lemma {:induction false} ReplayFrontier(s: Setup, w0: World, steps: seq<Step>, history: seq<Event>) returns (f: nat)
    requires Starts(s, w0, steps) && Allowed(s, w0, steps, history) && forall e :: e in history ==> e.Deploy?
    ensures Frontier(s, steps, Replay(s, w0, steps, history).cluster, f)
    decreases |history|
  {
    hide *;
    if history == [] {
      StartFrontier(s, w0, steps);
      f := 0;
    } else {
      var front, e := history[..|history| - 1], history[|history| - 1];
      assert history == front + [e] && e in history;
      AllowedFront(s, w0, steps, front, e);
      StartsGood(s, w0, steps);
      f := ReplayFrontier(s, w0, steps, front);
      ReplayKeeps(s, w0, steps, front);
      f := InvokeFrontier(s, w0.cluster, steps, Replay(s, w0, steps, front), e, f);
      ReplayOn(s, w0, steps, front, e);
    }
  }

  lemma StartFrontier(s: Setup, w0: World, steps: seq<Step>)
    requires Starts(s, w0, steps)
    ensures Frontier(s, steps, Replay(s, w0, steps, []).cluster, 0)
  {
    StartInv(s, w0, steps);
    if |steps| > 0 {
      EmptyIsOrdered(s, steps[0], w0.cluster);
    }
  }

  /** If anything of a later step exists, every earlier step is complete. */
  lemma StepsInOrder(s: Setup, w0: World, steps: seq<Step>, history: seq<Event>, i: nat, j: nat, k: Key)
    requires Starts(s, w0, steps) && Allowed(s, w0, steps, history) && forall e :: e in history ==> e.Deploy?
    requires i < j < |steps| && k in Owned(s, steps[j])
    ensures var c := Replay(s, w0, steps, history).cluster;
            k in c ==> Done(s, steps[i], c)
  {
    var f := ReplayFrontier(s, w0, steps, history);
  }

  /**
    What lacks the label after any runs of deploy.sh: the TLS secrets that were cut between creation
    and label, and secrets or configmaps of one single service, that of the step at the frontier.
   */
  lemma UnlabelledTail(s: Setup, w0: World, steps: seq<Step>, history: seq<Event>) returns (f: nat)
    requires Starts(s, w0, steps) && Allowed(s, w0, steps, history) && forall e :: e in history ==> e.Deploy?
    ensures var c := Replay(s, w0, steps, history).cluster;
            && Frontier(s, steps, c, f)
            && forall k :: Lacks(c, k) && k !in w0.cluster ==>
                 IsCutSecret(s, w0, steps, history, k) || (f < |steps| && PendingIn(s, steps[f], c, k))
  {
    f := ReplayFrontier(s, w0, steps, history);
    ReplayKeeps(s, w0, steps, history);
    var c := Replay(s, w0, steps, history).cluster;
    hide Frontier, GoodPlan, PendingIn, Replay, IsCutSecret, Starts;
    forall k | Lacks(c, k) && k !in w0.cluster
      ensures IsCutSecret(s, w0, steps, history, k) || (f < |steps| && PendingIn(s, steps[f], c, k))
    {
      if IsTLS(steps, k) {
        LabelInvariant(s, w0, steps, history, k);
      } else {
        var i :| 0 <= i < |steps| && k in Owned(s, steps[i]);
        PendingAtFrontier(s, steps, c, f, i, k);
      }
    }
  }

  lemma PendingAtFrontier(s: Setup, steps: seq<Step>, c: Resources, f: nat, i: nat, k: Key)
    requires i < |steps| && Frontier(s, steps, c, f) && Sound(s, steps[i], c)
    requires k in Owned(s, steps[i]) && k in c && !c[k].labelled && !IsTLS(steps, k)
    ensures i == f && PendingIn(s, steps[f], c, k)
  {
    hide Sound;
    UnlabelledIn(s, steps[i], c, k);
    assert FileKey(s, "deployment-" + steps[i].name, "") in Owned(s, steps[i]);
  }

  // ----- a step without a guard ends everything behind it -----

  lemma {:induction false} BlockedStops(
    s: Setup, base: Resources, steps: seq<Step>, w: World, cont: bool, i: nat, b: nat, j: nat, k: Key)
    requires GoodPlan(s, base, steps) && Inv(s, base, steps, w) && i <= b < j < |steps|
    requires Blocked(s, w.cluster, cont, steps[b]) && k in Owned(s, steps[j]) && Harmless(s, w, cont, steps, i)
    ensures k in RunSteps(s, w, cont, steps, i).cluster <==> k in w.cluster
    decreases |steps| - i
  {
    assert Owned(s, steps[i]) !! Owned(s, steps[j]);
    StepAdvances(s, base, steps, w, cont, i);
    StepKeeps(s, base, steps, w, cont, i);
    hide GoodPlan, Inv, RunStep;
    var mid := RunStep(s, w, cont, steps[i]);
    if mid.halted {
      HaltedStays(s, mid, cont, steps, i + 1);
    } else {
      BlockedStops(s, base, steps, mid, cont, i + 1, b, j, k);
    }
  }

  lemma InvokeBlocked(s: Setup, base: Resources, steps: seq<Step>, w: World, e: Event, b: nat, j: nat, k: Key)
    requires GoodPlan(s, base, steps) && Inv(s, base, steps, w) && e.Deploy? && b < j < |steps|
    requires steps[b].Unguarded? && Done(s, steps[b], w.cluster) && k in Owned(s, steps[j])
    requires !Harmful(s, steps, w, e)
    ensures var w' := Invoke(s, w, steps, e);
            && w'.halted && Done(s, steps[b], w'.cluster) && (k in w'.cluster <==> k in w.cluster)
  {
    var w1 := Fresh(w, e.cut, e.failing);
    PrologueKeepsInv(s, base, steps, w, e.cut, e.failing);
    hide GoodPlan, Inv;
    DeployEffect(s, base, steps, w1, e.cont);
    assert Fate(s, steps[b], w1, Invoke(s, w, steps, e), true);
    assert Blocked(s, w.cluster, e.cont, steps[b]);
    EpilogueKeepsCluster(w1);
    BlockedStops(s, base, steps, Prologue(w1), e.cont, 0, b, j, k);
    EpilogueKeepsCluster(RunSteps(s, Prologue(w1), e.cont, steps, 0));
  }

  /**
    Once an unguarded step has run, no further sequence of runs of deploy.sh, with or without -c,
    ever creates anything of a later step.
   */
  lemma {:induction false} StuckForever(
    s: Setup, w0: World, steps: seq<Step>, history: seq<Event>, more: seq<Event>, b: nat, j: nat, k: Key)
    requires Starts(s, w0, steps) && Allowed(s, w0, steps, history + more) && forall e :: e in more ==> e.Deploy?
    requires b < j < |steps| && steps[b].Unguarded? && k in Owned(s, steps[j])
    ensures var w, w' := Replay(s, w0, steps, history), Replay(s, w0, steps, history + more);
            Done(s, steps[b], w.cluster) ==>
              (k in w'.cluster <==> k in w.cluster) && Done(s, steps[b], w'.cluster) && (more != [] ==> w'.halted)
    decreases |more|
  {
    hide Starts, Inv, Allowed, Done, Owned, Invoke, GoodPlan, Harmful, Replay, MayClean;
    if more == [] {
      assert history + more == history;
    } else if Done(s, steps[b], Replay(s, w0, steps, history).cluster) {
      var front, e := more[..|more| - 1], more[|more| - 1];
      assert e in more && more == front + [e];
      assert history + more == (history + front) + [e];
      AllowedFront(s, w0, steps, history + front, e);
      StuckForever(s, w0, steps, history, front, b, j, k);
      ReplayOn(s, w0, steps, history + front, e);
      ReplayKeeps(s, w0, steps, history + front);
      StartsGood(s, w0, steps);
      InvokeBlocked(s, w0.cluster, steps, Replay(s, w0, steps, history + front), e, b, j, k);
    }
  }

  /** An uncut first run completes, and if a step before the last has no guard, every rerun fails. */
  lemma RerunsFail(s: Setup, w0: World, steps: seq<Step>, more: seq<Event>, b: nat)
    requires Starts(s, w0, steps) && Allowed(s, w0, steps, [Deploy(true, TotalCost(steps))] + more)
    requires more != [] && forall e :: e in more ==> e.Deploy?
    requires b < |steps| - 1 && steps[b].Unguarded?
    ensures var first := [Deploy(true, TotalCost(steps))];
            !Replay(s, w0, steps, first).halted && Replay(s, w0, steps, first + more).halted
  {
    var first := [Deploy(true, TotalCost(steps))];
    ReplayNothing(s, w0, steps);
    ReplayOn(s, w0, steps, [], Deploy(true, TotalCost(steps)));
    assert [] + first == first;
    assert Replay(s, w0, steps, first) == Ideal(s, w0, steps);
    hide Replay, Ideal, Starts, Allowed, Done, Owned, TotalCost;
    IdealIsComplete(s, w0, steps);
    OwnedNonempty(s, steps[b + 1]);
    var k :| k in Owned(s, steps[b + 1]);
    StuckForever(s, w0, steps, first, more, b, b + 1, k);
  }
}
