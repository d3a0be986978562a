/** What deploy.sh makes, written out: every resource with its files, line by line and in order. */
module Deployed {
  import opened ArgGroups
  import opened Cluster
  import opened Steps
  import opened Reconciler
  import opened Convergence
  import opened Order
  import opened WholeTale

  datatype Made = Made(key: Key, files: seq<string>)

  /** For each line of deploy.sh:85-109 the resources it makes, in the order it makes them. */
  const LINES: seq<seq<Made>> := [
    [Made(Key(Secret, "dev-cert-secret"), ["./certs/dev.key", "./certs/dev.crt"])],
    [Made(Key(Secret, "site-cert-secret"), ["./certs/ssl.key", "./certs/ssl.crt"])],
    [Made(Key(Secret, "registry-secret"), ["secret-registry"])],
    [Made(Key(PersistentVolume, "mongo-volume"), ["volume-auto-local"]),
     Made(Key(PersistentVolumeClaim, "mongo-volume-claim"), ["volume-claim"])],
    [Made(Key(PersistentVolume, "registry-storage-volume"), ["volume-auto-local"]),
     Made(Key(PersistentVolumeClaim, "registry-storage-volume-claim"), ["volume-claim"])],
    [Made(Key(PersistentVolume, "girder-ps-volume"), ["volume-auto-local"]),
     Made(Key(PersistentVolumeClaim, "girder-ps-volume-claim"), ["volume-claim"])],
    [Made(Key(PersistentVolumeClaim, "gwvolman-dev-pvc"), ["volume-claim-gwvolman-dev"])],
    [Made(Key(PersistentVolume, "gwvolman-dev-pv"), ["volume-gwvolman-dev"])],
    [Made(Key(Service, "mongo"), ["service-mongo"]), Made(Key(Deployment, "mongo"), ["deployment-mongo"])],
    [Made(Key(Service, "redis"), ["service-redis"]), Made(Key(Deployment, "redis"), ["deployment-redis"])],
    [Made(Key(Service, "registry"), ["service-registry"]),
     Made(Key(Deployment, "registry"), ["deployment-registry"])],
    [Made(Key(Service, "girder"), ["service-girder"]),
     Made(Key(ConfigMap, "girder-configmap"), ["./girder/girder.local.cfg", "./girder/start"]),
     Made(Key(Deployment, "girder"), ["deployment-girder"])],
    [Made(Key(Service, "dashboard"), ["service-dashboard"]),
     Made(Key(Deployment, "dashboard"), ["deployment-dashboard"])],
    [Made(Key(Service, "worker"), ["service-worker"]),
     Made(Key(ConfigMap, "worker-configmap"), ["./gwvolman/kubetest.py"]),
     Made(Key(Deployment, "celery-worker"), ["deployment-worker"])],
    [Made(Key(Ingress, "ingress"), ["ingress"])]
  ]

  function Keys(line: seq<Made>): set<Key> {
    set m | m in line :: m.key
  }

  /** All of the line is there, labelled, and made from these files. */
  ghost predicate Holds(c: Resources, line: seq<Made>) {
    forall i :: 0 <= i < |line| ==> line[i].key in c && c[line[i].key] == Res(true, line[i].files)
  }

  // ----- the steps make the lines -----

  /** Step and line agree on what is made and from what; a deployment comes with all of its line. */
  ghost predicate Makes(step: Step, line: seq<Made>) {
    && Owned(SETUP, step) == Keys(line)
    && forall c :: Sound(SETUP, step, c) && AllLabelled(SETUP, step, c) ==> Holds(c, line)
  }

  lemma TLSLine(name: string, key: string, crt: string)
    ensures Makes(TLSSecret(name, key, crt), [Made(Key(Secret, name), [key, crt])])
  {
    assert forall m :: m in [Made(Key(Secret, name), [key, crt])] <==> m == Made(Key(Secret, name), [key, crt]);
  }

  lemma YamlLine(step: Step, file: string, key: Key)
    requires (step.GuardedYaml? && step.file == file) || (step.Unguarded? && step.file == file)
    requires FileKey(SETUP, file, "") == key
    ensures Makes(step, [Made(key, [file])])
  {
    hide MANIFESTS;
  }

  lemma VolumeLine(name: string, pv: string, pvc: string)
    requires name in VOLUMES && pv == name + "-volume" && pvc == name + "-volume-claim"
    ensures Makes(Volume(name), [Made(Key(PersistentVolume, pv), ["volume-auto-local"]),
                                 Made(Key(PersistentVolumeClaim, pvc), ["volume-claim"])])
  {
    VolumeManifests(name);
    assert MANIFESTS["volume-auto-local"] == Manifest(PersistentVolume, VolumeName, true);
    assert MANIFESTS["volume-claim"] == Manifest(PersistentVolumeClaim, ClaimName, true);
    hide MANIFESTS, VolumeFile;
  }

  lemma BareLine(name: string, dep: string, svcFile: string, depFile: string)
    requires name in SERVICES && dep == DeploymentName(name)
    requires svcFile == "service-" + name && depFile == "deployment-" + name
    ensures Makes(StartedService(name, []),
                  [Made(Key(Service, name), [svcFile]), Made(Key(Deployment, dep), [depFile])])
  {
    ServiceKeys(name);
    ArgsParse();
    hide MANIFESTS, ParseGroups, DeploymentName, FileKey;
  }

  lemma ServiceKeys(name: string)
    requires name in SERVICES
    ensures FileKey(SETUP, "service-" + name, "") == Key(Service, name)
    ensures FileKey(SETUP, "deployment-" + name, "") == Key(Deployment, DeploymentName(name))
  {
    ServiceManifests(name);
    DeploymentManifests(name);
    hide MANIFESTS, DeploymentName;
  }

  lemma ConfiguredLine(
    name: string, args: seq<string>, files: seq<string>, dep: string, svcFile: string, depFile: string, config: string)
    requires name in SERVICES && dep == DeploymentName(name)
    requires svcFile == "service-" + name && depFile == "deployment-" + name && config == name + "-configmap"
    requires ParseGroups(args).groups == [Group(ConfigFlag, files)]
    ensures Makes(StartedService(name, args),
                  [Made(Key(Service, name), [svcFile]), Made(Key(ConfigMap, config), files),
                   Made(Key(Deployment, dep), [depFile])])
  {
    ServiceKeys(name);
    hide MANIFESTS, ParseGroups, DeploymentName, FileKey;
    var g := Group(ConfigFlag, files);
    assert forall h :: h in [g] <==> h == g;
    assert LastFiles([g], ConfigFlag) == files;
    assert ConfigKey(name, ConfigFlag) == Key(ConfigMap, config);
    assert ConfigKeys(name, [g]) == {Key(ConfigMap, config)};
  }

  lemma FixedKeys()
    ensures FileKey(SETUP, "secret-registry", "") == Key(Secret, "registry-secret")
    ensures FileKey(SETUP, "volume-claim-gwvolman-dev", "") == Key(PersistentVolumeClaim, "gwvolman-dev-pvc")
    ensures FileKey(SETUP, "volume-gwvolman-dev", "") == Key(PersistentVolume, "gwvolman-dev-pv")
    ensures FileKey(SETUP, "ingress", "") == Key(Ingress, "ingress")
  {
  }

  lemma FixedLines(i: nat)
    requires i < 3 || i == 6 || i == 7 || i == 14
    ensures Makes(STEPS[i], LINES[i])
  {
    FixedKeys();
    hide MANIFESTS, Makes, FileKey;
    match i
    case 0 => TLSLine("dev-cert-secret", "./certs/dev.key", "./certs/dev.crt");
    case 1 => TLSLine("site-cert-secret", "./certs/ssl.key", "./certs/ssl.crt");
    case 2 => YamlLine(STEPS[2], "secret-registry", Key(Secret, "registry-secret"));
    case 6 => YamlLine(STEPS[6], "volume-claim-gwvolman-dev", Key(PersistentVolumeClaim, "gwvolman-dev-pvc"));
    case 7 => YamlLine(STEPS[7], "volume-gwvolman-dev", Key(PersistentVolume, "gwvolman-dev-pv"));
    case _ => YamlLine(STEPS[14], "ingress", Key(Ingress, "ingress"));
  }

  lemma VolumeLines(i: nat)
    requires 3 <= i < 6
    ensures Makes(STEPS[i], LINES[i])
  {
    hide MANIFESTS, Makes;
    match i
    case 3 => VolumeLine("mongo", "mongo-volume", "mongo-volume-claim");
    case 4 => VolumeLine("registry-storage", "registry-storage-volume", "registry-storage-volume-claim");
    case _ => VolumeLine("girder-ps", "girder-ps-volume", "girder-ps-volume-claim");
  }

  lemma BareLines(i: nat)
    requires 8 <= i < 11 || i == 12
    ensures Makes(STEPS[i], LINES[i])
  {
    hide MANIFESTS, Makes, ParseGroups;
    match i
    case 8 => BareLine("mongo", "mongo", "service-mongo", "deployment-mongo");
    case 9 => BareLine("redis", "redis", "service-redis", "deployment-redis");
    case 10 => BareLine("registry", "registry", "service-registry", "deployment-registry");
    case _ => BareLine("dashboard", "dashboard", "service-dashboard", "deployment-dashboard");
  }

  lemma ConfiguredLines(i: nat)
    requires i == 11 || i == 13
    ensures Makes(STEPS[i], LINES[i])
  {
    ArgsParse();
    hide MANIFESTS, Makes, ParseGroups;
    if i == 11 {
      ConfiguredLine("girder", GIRDER_ARGS, ["./girder/girder.local.cfg", "./girder/start"], "girder",
                     "service-girder", "deployment-girder", "girder-configmap");
    } else {
      ConfiguredLine("worker", WORKER_ARGS, ["./gwvolman/kubetest.py"], "celery-worker",
                     "service-worker", "deployment-worker", "worker-configmap");
    }
  }

  lemma StepsMakeLines(i: nat)
    requires i < 15
    ensures |STEPS| == |LINES| == 15 && Makes(STEPS[i], LINES[i])
  {
    hide MANIFESTS, Makes;
    if 3 <= i < 6 {
      VolumeLines(i);
    } else if i == 11 || i == 13 {
      ConfiguredLines(i);
    } else if 8 <= i < 13 {
      BareLines(i);
    } else {
      FixedLines(i);
    }
  }

  // ----- the complete deployment -----

  function AllKeys(): set<Key> {
    set i, k | 0 <= i < |LINES| && k in Keys(LINES[i]) :: k
  }

  /** After one uncut run: the initial resources as they were, all the lines, and nothing else. */
  lemma RealIdeal(w0: World)
    requires FreshStart(w0)
    ensures var c := Ideal(SETUP, w0, STEPS).cluster;
            && Preserves(w0.cluster, c) && c.Keys == w0.cluster.Keys + AllKeys()
            && (forall i :: 0 <= i < |LINES| ==> Holds(c, LINES[i]))
  {
    hide *;
    NothingCleaned(w0.cluster);
    RealIsAllowed(w0, []);
    StepsMakeLines(0);
    var w := Ideal(SETUP, w0, STEPS);
    IdealIsComplete(SETUP, w0, STEPS);
    CompleteKeys(SETUP, w0.cluster, STEPS, w);
    InvKeepsBase(SETUP, w0.cluster, STEPS, w);
    UniverseIs(w0.cluster);
    forall i | 0 <= i < |LINES| ensures Holds(w.cluster, LINES[i]) {
      StepsMakeLines(i);
      SoundAt(SETUP, w0.cluster, STEPS, w, i);
      MadeHolds(STEPS[i], LINES[i], w.cluster);
    }
  }

  lemma NothingCleaned(base: Resources)
    ensures MayClean(base, [])
  {
  }

  lemma InvKeepsBase(s: Setup, base: Resources, steps: seq<Step>, w: World)
    requires Inv(s, base, steps, w)
    ensures Preserves(base, w.cluster)
  {
  }

  lemma MadeHolds(step: Step, line: seq<Made>, c: Resources)
    requires Makes(step, line) && Sound(SETUP, step, c) && AllLabelled(SETUP, step, c)
    ensures Holds(c, line)
  {
    hide Holds, Sound, AllLabelled, Owned;
  }

  lemma UniverseIs(base: Resources)
    ensures Universe(SETUP, base, STEPS) == base.Keys + AllKeys()
  {
    forall i: nat | i < 15 ensures |STEPS| == |LINES| == 15 && Owned(SETUP, STEPS[i]) == Keys(LINES[i]) {
      StepsMakeLines(i);
      hide Holds, Owned, STEPS, LINES, Keys, MANIFESTS, Sound;
    }
    hide STEPS, LINES, Owned, Keys, MANIFESTS;
    StepsMakeLines(0);
    assert AllOwned(SETUP, STEPS) == AllKeys();
  }

  // ----- on the way there -----

  /** Of a line only a front part is there. */
  ghost predicate Fronted(c: Resources, line: seq<Made>) {
    forall i, j :: 0 <= i < j < |line| && line[j].key in c ==> line[i].key in c
  }

  lemma FixedFront(c: Resources, line: seq<Made>)
    requires |line| == 1
    ensures Fronted(c, line)
  {
  }

  lemma VolumeFront(c: Resources, name: string, pv: string, pvc: string)
    requires name in VOLUMES && pv == name + "-volume" && pvc == name + "-volume-claim"
    requires Ordered(SETUP, Volume(name), c)
    ensures Fronted(c, [Made(Key(PersistentVolume, pv), ["volume-auto-local"]),
                        Made(Key(PersistentVolumeClaim, pvc), ["volume-claim"])])
  {
    VolumeManifests(name);
    assert MANIFESTS["volume-auto-local"] == Manifest(PersistentVolume, VolumeName, true);
    assert MANIFESTS["volume-claim"] == Manifest(PersistentVolumeClaim, ClaimName, true);
    hide MANIFESTS, VolumeFile;
  }

  lemma ServiceFirst(c: Resources, name: string, args: seq<string>)
    requires name in SERVICES
    requires Ordered(SETUP, StartedService(name, args), c) && Sound(SETUP, StartedService(name, args), c)
    ensures var svc, dep := Key(Service, name), Key(Deployment, DeploymentName(name));
            && (dep in c ==> svc in c)
            && forall g :: g in ParseGroups(args).groups ==>
                 && (ConfigKey(name, g.flag) in c ==> svc in c)
                 && (dep in c ==> ConfigKey(name, g.flag) in c)
  {
    ServiceKeys(name);
    hide MANIFESTS, ParseGroups, DeploymentName, FileKey, ConfigKey, FromGroup;
    forall g | g in ParseGroups(args).groups
      ensures ConfigKey(name, g.flag) in Owned(SETUP, StartedService(name, args))
    {
    }
  }

  lemma BareFront(c: Resources, name: string, svc: Made, dep: Made)
    requires name in SERVICES && svc.key == Key(Service, name) && dep.key == Key(Deployment, DeploymentName(name))
    requires Ordered(SETUP, StartedService(name, []), c) && Sound(SETUP, StartedService(name, []), c)
    ensures Fronted(c, [svc, dep])
  {
    ServiceFirst(c, name, []);
    hide Ordered, Sound, DeploymentName;
  }

  lemma ConfiguredFront(
    c: Resources, name: string, args: seq<string>, files: seq<string>, svc: Made, config: Made, dep: Made)
    requires name in SERVICES && svc.key == Key(Service, name) && dep.key == Key(Deployment, DeploymentName(name))
    requires ParseGroups(args).groups == [Group(ConfigFlag, files)] && config.key == ConfigKey(name, ConfigFlag)
    requires Ordered(SETUP, StartedService(name, args), c) && Sound(SETUP, StartedService(name, args), c)
    ensures Fronted(c, [svc, config, dep])
  {
    ServiceFirst(c, name, args);
    assert Group(ConfigFlag, files) in [Group(ConfigFlag, files)];
    hide Ordered, Sound, DeploymentName, ConfigKey, ParseGroups;
  }

  lemma BareFronts(c: Resources, i: nat)
    requires (8 <= i < 11 || i == 12) && Ordered(SETUP, STEPS[i], c) && Sound(SETUP, STEPS[i], c)
    ensures Fronted(c, LINES[i])
  {
    hide MANIFESTS, Ordered, Sound, Fronted;
    match i
    case 8 => BareFront(c, "mongo", LINES[8][0], LINES[8][1]);
    case 9 => BareFront(c, "redis", LINES[9][0], LINES[9][1]);
    case 10 => BareFront(c, "registry", LINES[10][0], LINES[10][1]);
    case _ => BareFront(c, "dashboard", LINES[12][0], LINES[12][1]);
  }

  lemma ConfiguredFronts(c: Resources, i: nat)
    requires (i == 11 || i == 13) && Ordered(SETUP, STEPS[i], c) && Sound(SETUP, STEPS[i], c)
    ensures Fronted(c, LINES[i])
  {
    ArgsParse();
    hide MANIFESTS, Ordered, Sound, Fronted, ParseGroups;
    if i == 11 {
      assert ConfigKey("girder", ConfigFlag) == Key(ConfigMap, "girder-configmap");
      ConfiguredFront(c, "girder", GIRDER_ARGS, GIRDER_GROUPS[0].files, LINES[11][0], LINES[11][1], LINES[11][2]);
    } else {
      assert ConfigKey("worker", ConfigFlag) == Key(ConfigMap, "worker-configmap");
      ConfiguredFront(c, "worker", WORKER_ARGS, WORKER_GROUPS[0].files, LINES[13][0], LINES[13][1], LINES[13][2]);
    }
  }

  lemma FixedFronts(c: Resources, i: nat)
    requires i < 3 || i == 6 || i == 7 || i == 14
    ensures Fronted(c, LINES[i])
  {
    FixedFront(c, LINES[i]);
  }

  lemma StepFront(c: Resources, i: nat)
    requires i < 15 && |STEPS| == |LINES| == 15 && Ordered(SETUP, STEPS[i], c) && Sound(SETUP, STEPS[i], c)
    ensures Fronted(c, LINES[i])
  {
    hide *;
    if 3 <= i < 6 {
      VolumeFronts(c, i);
    } else if i == 11 || i == 13 {
      ConfiguredFronts(c, i);
    } else if 8 <= i < 13 {
      BareFronts(c, i);
    } else {
      FixedFronts(c, i);
    }
  }

  lemma VolumeFronts(c: Resources, i: nat)
    requires 3 <= i < 6 && Ordered(SETUP, STEPS[i], c)
    ensures Fronted(c, LINES[i])
  {
    hide MANIFESTS, Ordered, Fronted;
    match i
    case 3 => VolumeFront(c, "mongo", "mongo-volume", "mongo-volume-claim");
    case 4 => VolumeFront(c, "registry-storage", "registry-storage-volume", "registry-storage-volume-claim");
    case _ => VolumeFront(c, "girder-ps", "girder-ps-volume", "girder-ps-volume-claim");
  }

  /** The first `i` lines are there, the first `j` resources of line `i`, and nothing of the others. */
  ghost predicate Reached(c: Resources, i: nat, j: nat) {
    forall a, b :: 0 <= a < |LINES| && 0 <= b < |LINES[a]| ==> (LINES[a][b].key in c <==> a < i || (a == i && b < j))
  }

  /** How much of a line is there. */
  function Part(c: Resources, line: seq<Made>): (j: nat)
    ensures j <= |line| && (forall b :: 0 <= b < j ==> line[b].key in c) && (j < |line| ==> line[j].key !in c)
  {
    if line == [] || line[0].key !in c then 0 else 1 + Part(c, line[1..])
  }

  /**
    After any sequence of runs of deploy.sh, cut anywhere, with any options and any failing queries, what
    has been created is a front part of the list, resource by resource in the order of the script.
   */
  lemma RealPrefix(w0: World, history: seq<Event>) returns (i: nat, j: nat)
    requires FreshStart(w0) && forall e :: e in history ==> e.Deploy?
    ensures Reached(Replay(SETUP, w0, STEPS, history).cluster, i, j)
  {
    OnlyDeploys(w0.cluster, history);
    hide *;
    RealIsAllowed(w0, history);
    StepsMakeLines(0);
    var w := Replay(SETUP, w0, STEPS, history);
    i := ReplayFrontier(SETUP, w0, STEPS, history);
    ReplayKeeps(SETUP, w0, STEPS, history);
    FrontierIs(SETUP, STEPS, w.cluster, i);
    j := 0;
    if i < 15 {
      SoundAt(SETUP, w0.cluster, STEPS, w, i);
      StepFront(w.cluster, i);
      j := Part(w.cluster, LINES[i]);
    }
    forall a | 0 <= a < 15 ensures LineAt(w.cluster, a, i, j) {
      StepsMakeLines(a);
      LineReached(w.cluster, a, i, j);
    }
    LinesReached(w.cluster, i, j);
  }

  lemma OnlyDeploys(base: Resources, history: seq<Event>)
    requires forall e :: e in history ==> e.Deploy?
    ensures MayClean(base, history)
  {
  }

  lemma FrontierIs(s: Setup, steps: seq<Step>, c: Resources, f: nat)
    requires Frontier(s, steps, c, f)
    ensures f <= |steps| && (f < |steps| ==> Ordered(s, steps[f], c))
    ensures forall j :: 0 <= j < f ==> Owned(s, steps[j]) <= c.Keys
    ensures forall j :: f < j < |steps| ==> Owned(s, steps[j]) !! c.Keys
  {
    hide Owned, Ordered;
  }

  ghost predicate LineAt(c: Resources, a: nat, i: nat, j: nat)
    requires a < |LINES|
  {
    forall b :: 0 <= b < |LINES[a]| ==> (LINES[a][b].key in c <==> a < i || (a == i && b < j))
  }

  lemma LineReached(c: Resources, a: nat, i: nat, j: nat)
    requires a < |LINES| == |STEPS| && Makes(STEPS[a], LINES[a])
    requires a < i ==> Owned(SETUP, STEPS[a]) <= c.Keys
    requires a > i ==> Owned(SETUP, STEPS[a]) !! c.Keys
    requires a == i ==> Fronted(c, LINES[a]) && j == Part(c, LINES[a])
    ensures LineAt(c, a, i, j)
  {
    hide Owned, STEPS, LINES, Holds, Sound, AllLabelled;
    assert forall b :: 0 <= b < |LINES[a]| ==> LINES[a][b].key in Keys(LINES[a]);
  }

  lemma LinesReached(c: Resources, i: nat, j: nat)
    requires |LINES| == 15 && forall a :: 0 <= a < 15 ==> LineAt(c, a, i, j)
    ensures Reached(c, i, j)
  {
    hide LINES;
    forall a, b | 0 <= a < |LINES| && 0 <= b < |LINES[a]|
      ensures LINES[a][b].key in c <==> a < i || (a == i && b < j)
    {
      assert LineAt(c, a, i, j);
    }
  }
}
