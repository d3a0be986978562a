/** The steps and manifests deploy.sh is run with, and what the general results say about them. */
module WholeTale {
  import opened Text
  import opened ArgGroups
  import opened Cluster
  import opened Steps
  import opened Reconciler
  import opened Convergence
  import opened Labels
  import opened Order
  import opened Shield

  const MANIFESTS: map<string, Manifest> := map[
    "secret-registry" := Manifest(Secret, Fixed("registry-secret"), true),
    "volume-auto-local" := Manifest(PersistentVolume, VolumeName, true),
    "volume-claim" := Manifest(PersistentVolumeClaim, ClaimName, true),
    "volume-gwvolman-dev" := Manifest(PersistentVolume, Fixed("gwvolman-dev-pv"), true),
    "volume-claim-gwvolman-dev" := Manifest(PersistentVolumeClaim, Fixed("gwvolman-dev-pvc"), true),
    "service-mongo" := Manifest(Service, Fixed("mongo"), true),
    "service-redis" := Manifest(Service, Fixed("redis"), true),
    "service-registry" := Manifest(Service, Fixed("registry"), true),
    "service-girder" := Manifest(Service, Fixed("girder"), true),
    "service-dashboard" := Manifest(Service, Fixed("dashboard"), true),
    "service-worker" := Manifest(Service, Fixed("worker"), true),
    "deployment-mongo" := Manifest(Deployment, Fixed("mongo"), true),
    "deployment-redis" := Manifest(Deployment, Fixed("redis"), true),
    "deployment-registry" := Manifest(Deployment, Fixed("registry"), true),
    "deployment-girder" := Manifest(Deployment, Fixed("girder"), true),
    "deployment-dashboard" := Manifest(Deployment, Fixed("dashboard"), true),
    "deployment-worker" := Manifest(Deployment, Fixed("celery-worker"), true),
    "ingress" := Manifest(Ingress, Fixed("ingress"), true),
    "rolebinding-default" := Manifest(ClusterRoleBinding, Fixed("default-view"), false)
  ]

  /** `settings` picks local volumes. */
  const SETUP: Setup := Setup(MANIFESTS, "local")

  const GIRDER_ARGS: seq<string> := ["-c", "./girder/girder.local.cfg", "./girder/start"]
  const WORKER_ARGS: seq<string> := ["-c", "./gwvolman/kubetest.py"]

  /** deploy.sh:85-109, in order; numbers 6 and 7 have no guard. */
  const STEPS: seq<Step> := [
    TLSSecret("dev-cert-secret", "./certs/dev.key", "./certs/dev.crt"),
    TLSSecret("site-cert-secret", "./certs/ssl.key", "./certs/ssl.crt"),
    GuardedYaml(Secret, "registry-secret", "secret-registry"),
    Volume("mongo"),
    Volume("registry-storage"),
    Volume("girder-ps"),
    Unguarded("volume-claim-gwvolman-dev"),
    Unguarded("volume-gwvolman-dev"),
    StartedService("mongo", []),
    StartedService("redis", []),
    StartedService("registry", []),
    StartedService("girder", GIRDER_ARGS),
    StartedService("dashboard", []),
    StartedService("worker", WORKER_ARGS),
    GuardedYaml(Ingress, "ingress", "ingress")
  ]

  // ----- what each step owns -----

  const GIRDER_GROUPS: seq<Group> := [Group(ConfigFlag, ["./girder/girder.local.cfg", "./girder/start"])]
  const WORKER_GROUPS: seq<Group> := [Group(ConfigFlag, ["./gwvolman/kubetest.py"])]

  lemma ArgsParse()
    ensures ParseGroups([]) == Parse([], true)
    ensures ParseGroups(GIRDER_ARGS) == Parse(GIRDER_GROUPS, true)
    ensures ParseGroups(WORKER_ARGS) == Parse(WORKER_GROUPS, true)
  {
    assert Flatten(GIRDER_GROUPS) + [] == GIRDER_ARGS;
    assert Flatten(WORKER_GROUPS) + [] == WORKER_ARGS;
    ParseFlatten(GIRDER_GROUPS, []);
    ParseFlatten(WORKER_GROUPS, []);
  }

  function DeploymentName(service: string): string {
    if service == "worker" then "celery-worker" else service
  }

  const SERVICES: set<string> := {"mongo", "redis", "registry", "girder", "dashboard", "worker"}

  lemma ServiceManifests(name: string)
    requires name in SERVICES
    ensures "service-" + name in MANIFESTS
    ensures MANIFESTS["service-" + name] == Manifest(Service, Fixed(name), true)
  {
    if name == "mongo" {
      assert "service-" + name == "service-mongo";
    } else if name == "redis" {
      assert "service-" + name == "service-redis";
    } else if name == "registry" {
      assert "service-" + name == "service-registry";
    } else if name == "girder" {
      assert "service-" + name == "service-girder";
    } else if name == "dashboard" {
      assert "service-" + name == "service-dashboard";
    } else if name == "worker" {
      assert "service-" + name == "service-worker";
    }
  }

  lemma DeploymentManifests(name: string)
    requires name in SERVICES
    ensures "deployment-" + name in MANIFESTS
    ensures MANIFESTS["deployment-" + name] == Manifest(Deployment, Fixed(DeploymentName(name)), true)
  {
    if name == "mongo" {
      assert "deployment-" + name == "deployment-mongo";
    } else if name == "redis" {
      assert "deployment-" + name == "deployment-redis";
    } else if name == "registry" {
      assert "deployment-" + name == "deployment-registry";
    } else if name == "girder" {
      assert "deployment-" + name == "deployment-girder";
    } else if name == "dashboard" {
      assert "deployment-" + name == "deployment-dashboard";
    } else if name == "worker" {
      assert "deployment-" + name == "deployment-worker";
    }
  }

  const VOLUMES: set<string> := {"mongo", "registry-storage", "girder-ps"}

  lemma VolumeManifests(name: string)
    requires name in VOLUMES
    ensures VolumeFile(SETUP, name) == "volume-auto-local"
  {
    assert "volume-auto-" + "local" == "volume-auto-local";
    if name == "mongo" {
      assert "volume-" + name == "volume-mongo";
    } else if name == "registry-storage" {
      assert "volume-" + name == "volume-registry-storage";
    } else {
      assert "volume-" + name == "volume-girder-ps";
    }
  }

  // Which step owns a resource, by kind and name; -1 if none does.

  function SecretStep(name: string): int {
    if name == "dev-cert-secret" then 0 else if name == "site-cert-secret" then 1
    else if name == "registry-secret" then 2 else -1
  }

  function VolumeIndex(name: string): int {
    if name == VolumeNameOf("mongo") then 3 else if name == VolumeNameOf("registry-storage") then 4
    else if name == VolumeNameOf("girder-ps") then 5 else if name == "gwvolman-dev-pv" then 7 else -1
  }

  function ClaimIndex(name: string): int {
    if name == ClaimNameOf("mongo") then 3 else if name == ClaimNameOf("registry-storage") then 4
    else if name == ClaimNameOf("girder-ps") then 5 else if name == "gwvolman-dev-pvc" then 6 else -1
  }

  function ServiceIndex(name: string): int {
    if name == "mongo" then 8 else if name == "redis" then 9 else if name == "registry" then 10
    else if name == "girder" then 11 else if name == "dashboard" then 12 else if name == "worker" then 13 else -1
  }

  function StepOf(k: Key): int {
    match k.kind
    case Secret => SecretStep(k.name)
    case PersistentVolume => VolumeIndex(k.name)
    case PersistentVolumeClaim => ClaimIndex(k.name)
    case Service => ServiceIndex(k.name)
    case Deployment =>
      if k.name == "celery-worker" then 13 else if k.name == "worker" then -1 else ServiceIndex(k.name)
    case ConfigMap =>
      if k == ConfigKey("girder", ConfigFlag) then 11 else if k == ConfigKey("worker", ConfigFlag) then 13 else -1
    case Ingress => if k.name == "ingress" then 14 else -1
    case _ => -1
  }

  lemma OwnerOfService(name: string, args: seq<string>, k: Key)
    requires name in SERVICES && k in Owned(SETUP, StartedService(name, args))
    ensures StepOf(k) == ServiceIndex(name) || k in ConfigKeys(name, ParseGroups(args).groups)
  {
    ServiceManifests(name);
    DeploymentManifests(name);
    hide MANIFESTS;
  }

  lemma OwnerOfBare(name: string, k: Key)
    requires name in SERVICES && k in Owned(SETUP, StartedService(name, []))
    ensures StepOf(k) == ServiceIndex(name)
  {
    hide StepOf, ServiceIndex, Owned;
    OwnerOfService(name, [], k);
  }

  lemma OwnerOfConfigured(name: string, args: seq<string>, files: seq<string>, k: Key)
    requires name in SERVICES && k in Owned(SETUP, StartedService(name, args))
    requires ParseGroups(args).groups == [Group(ConfigFlag, files)]
    ensures StepOf(k) == ServiceIndex(name) || k == ConfigKey(name, ConfigFlag)
  {
    hide StepOf, ServiceIndex, Owned, ConfigKey, ParseGroups;
    OwnerOfService(name, args, k);
  }

  lemma OwnerOfVolume(name: string, k: Key)
    requires name in VOLUMES && k in Owned(SETUP, Volume(name))
    ensures k == Key(PersistentVolume, VolumeNameOf(name)) || k == Key(PersistentVolumeClaim, ClaimNameOf(name))
  {
    VolumeManifests(name);
  }

  lemma OwnerOfFixed(k: Key)
    ensures k in Owned(SETUP, GuardedYaml(Secret, "registry-secret", "secret-registry")) ==> StepOf(k) == 2
    ensures k in Owned(SETUP, Unguarded("volume-claim-gwvolman-dev")) ==> StepOf(k) == 6
    ensures k in Owned(SETUP, Unguarded("volume-gwvolman-dev")) ==> StepOf(k) == 7
    ensures k in Owned(SETUP, GuardedYaml(Ingress, "ingress", "ingress")) ==> StepOf(k) == 14
  {
  }

  lemma VolumeIndexes()
    ensures VolumeIndex(VolumeNameOf("mongo")) == ClaimIndex(ClaimNameOf("mongo")) == 3
    ensures VolumeIndex(VolumeNameOf("registry-storage")) == ClaimIndex(ClaimNameOf("registry-storage")) == 4
    ensures VolumeIndex(VolumeNameOf("girder-ps")) == ClaimIndex(ClaimNameOf("girder-ps")) == 5
  {
    assert VolumeNameOf("mongo") == "mongo-volume" && VolumeNameOf("girder-ps") == "girder-ps-volume";
    assert VolumeNameOf("registry-storage") == "registry-storage-volume";
    assert ClaimNameOf("mongo") == "mongo-volume-claim" && ClaimNameOf("girder-ps") == "girder-ps-volume-claim";
    assert ClaimNameOf("registry-storage") == "registry-storage-volume-claim";
  }

  lemma ConfigIndexes()
    ensures StepOf(ConfigKey("girder", ConfigFlag)) == 11 && StepOf(ConfigKey("worker", ConfigFlag)) == 13
  {
    assert ConfigKey("girder", ConfigFlag).name[0] == 'g' && ConfigKey("worker", ConfigFlag).name[0] == 'w';
  }

  lemma OwnerOfStarted(i: nat, k: Key)
    requires 8 <= i < 14 && k in Owned(SETUP, STEPS[i])
    ensures StepOf(k) == i
  {
    ConfigIndexes();
    ArgsParse();
    hide Owned, MANIFESTS, ParseGroups, StepOf;
    match i
    case 8 => OwnerOfBare("mongo", k);
    case 9 => OwnerOfBare("redis", k);
    case 10 => OwnerOfBare("registry", k);
    case 11 => OwnerOfConfigured("girder", GIRDER_ARGS, GIRDER_GROUPS[0].files, k);
    case 12 => OwnerOfBare("dashboard", k);
    case _ => OwnerOfConfigured("worker", WORKER_ARGS, WORKER_GROUPS[0].files, k);
  }

  lemma OwnerIs(i: nat, k: Key)
    requires i < |STEPS| && k in Owned(SETUP, STEPS[i])
    ensures StepOf(k) == i
  {
    if 8 <= i < 14 {
      hide Owned, MANIFESTS, StepOf;
      OwnerOfStarted(i, k);
    } else if i >= 2 {
      hide Owned, MANIFESTS, ParseGroups, VolumeNameOf, ClaimNameOf, VolumeIndex, ClaimIndex;
      match i
      case 3 => OwnerOfVolume("mongo", k); VolumeIndexes();
      case 4 => OwnerOfVolume("registry-storage", k); VolumeIndexes();
      case 5 => OwnerOfVolume("girder-ps", k); VolumeIndexes();
      case _ => OwnerOfFixed(k);
    }
  }

  // ----- guards find only their own resource -----

  /** The patterns deploy.sh greps for, by kind. */
  function Patterns(kind: Kind): set<string> {
    match kind
    case Secret => {"dev-cert-secret", "site-cert-secret", "registry-secret"}
    case PersistentVolume => {"mongo-volume", "registry-storage-volume", "girder-ps-volume"}
    case PersistentVolumeClaim => {"mongo-volume-claim", "registry-storage-volume-claim", "girder-ps-volume-claim"}
    case Service => SERVICES
    case Deployment => SERVICES
    case ConfigMap => {"girder-configmap", "worker-configmap"}
    case Ingress => {"ingress"}
    case _ => {}
  }

  /** The initial cluster has no resource of the plan, and none whose name contains a pattern of its kind. */
  ghost predicate NoClash(base: Resources) {
    forall k :: k in base ==> StepOf(k) == -1 && forall p :: p in Patterns(k.kind) ==> !Contains(k.name, p)
  }

  lemma SecretNames(name: string, p: string)
    requires SecretStep(name) >= 0 && p in Patterns(Secret) && Contains(name, p)
    ensures name == p
  {
    hide Contains;
    if p == "dev-cert-secret" {
      Shares(name, p, p[0]);
    } else if p == "site-cert-secret" {
      Shares(name, p, p[1]);
    } else {
      Shares(name, p, p[2]);
    }
  }

  lemma NamesOfVolumes()
    ensures VolumeNameOf("mongo") == "mongo-volume" && VolumeNameOf("girder-ps") == "girder-ps-volume"
    ensures VolumeNameOf("registry-storage") == "registry-storage-volume"
    ensures ClaimNameOf("mongo") == "mongo-volume-claim" && ClaimNameOf("girder-ps") == "girder-ps-volume-claim"
    ensures ClaimNameOf("registry-storage") == "registry-storage-volume-claim"
  {
  }

  lemma Shares(name: string, p: string, c: char)
    requires Contains(name, p) && c in p
    ensures c in name && |p| <= |name|
  {
    ContainsChars(name, p);
  }

  lemma VolumeNames(name: string, p: string)
    requires VolumeIndex(name) >= 0 && p in Patterns(PersistentVolume) && Contains(name, p)
    ensures name == p
  {
    NamesOfVolumes();
    hide VolumeNameOf, Contains;
    if p == "mongo-volume" {
      assert p[2] == 'n' && p[9] == 'u';
      Shares(name, p, 'n');
      Shares(name, p, 'u');
    } else {
      assert p[3] == if p == "girder-ps-volume" then 'd' else 'i';
      Shares(name, p, p[3]);
    }
  }

  lemma ClaimNames(name: string, p: string)
    requires ClaimIndex(name) >= 0 && p in Patterns(PersistentVolumeClaim) && Contains(name, p)
    ensures name == p
  {
    NamesOfVolumes();
    hide ClaimNameOf, Contains;
    if p == "mongo-volume-claim" {
      MongoClaim(name);
    } else {
      Shares(name, p, p[3]);
    }
  }

  lemma MongoClaim(name: string)
    requires ClaimIndex(name) >= 0 && Contains(name, "mongo-volume-claim")
    ensures name == "mongo-volume-claim"
  {
    NamesOfVolumes();
    hide ClaimNameOf, Contains;
    var p := "mongo-volume-claim";
    Shares(name, p, p[2]);
    Shares(name, p, p[9]);
  }

  /** Each service name has letters that no other service or deployment name has all of. */
  function Telling(p: string): seq<char> {
    if p == "mongo" then ['m'] else if p == "redis" then ['s', 'd', 'i'] else if p == "registry" then ['y', 'g']
    else if p == "girder" then ['g', 'd', 'i'] else if p == "dashboard" then ['b'] else ['k']
  }

  lemma TellingLetters(p: string)
    requires p in SERVICES
    ensures forall i :: 0 <= i < |Telling(p)| ==> Telling(p)[i] in p
  {
  }

  /** `name` has every telling letter of `p`. */
  predicate Told(name: string, p: string) {
    forall i :: 0 <= i < |Telling(p)| ==> Telling(p)[i] in name
  }

  lemma ToldApart(name: string, p: string)
    requires (name in SERVICES || name == "celery-worker") && p in SERVICES && Told(name, p)
    ensures name == p || (p == "worker" && name == "celery-worker")
  {
    var t := Telling(p);
    assert t[0] in name;
    if |t| > 1 {
      assert t[1] in name;
    }
    if |t| > 2 {
      assert t[2] in name;
    }
    hide Told;
  }

  lemma ServiceNames(name: string, p: string)
    requires (name in SERVICES || name == "celery-worker") && p in SERVICES && Contains(name, p)
    ensures name == p || (p == "worker" && name == "celery-worker")
  {
    TellingLetters(p);
    forall i | 0 <= i < |Telling(p)| ensures Telling(p)[i] in name {
      Shares(name, p, Telling(p)[i]);
    }
    ToldApart(name, p);
  }

  lemma DeploymentNames(k: Key, p: string)
    requires k.kind == Deployment && StepOf(k) >= 0 && p in SERVICES && Contains(k.name, p)
    ensures k.name == DeploymentName(p)
  {
    ServiceNames(k.name, p);
  }

  lemma ConfigNames(k: Key, p: string)
    requires k.kind == ConfigMap && StepOf(k) >= 0 && p in Patterns(ConfigMap) && Contains(k.name, p)
    ensures k.name == p
  {
    assert "girder" + "-configmap" == "girder-configmap" && "worker" + "-configmap" == "worker-configmap";
    ContainsChars(k.name, p);
    assert p == "girder-configmap" ==> p[3] in p;  // 'd'
    assert p == "worker-configmap" ==> p[0] in p;  // 'w'
  }

  lemma Alone(k: Key, p: string)
    requires StepOf(k) >= 0 && p in Patterns(k.kind) && Contains(k.name, p)
    ensures k.name == if k.kind == Deployment then DeploymentName(p) else p
  {
    match k.kind
    case Secret => SecretNames(k.name, p);
    case PersistentVolume => VolumeNames(k.name, p);
    case PersistentVolumeClaim => ClaimNames(k.name, p);
    case Service =>
      assert k.name in SERVICES;
      ServiceNames(k.name, p);
    case Deployment => DeploymentNames(k, p);
    case ConfigMap => ConfigNames(k, p);
    case _ =>
  }

  // ----- the plan is good -----

  function KeyOfPattern(kind: Kind, p: string): Key {
    Key(kind, if kind == Deployment then DeploymentName(p) else p)
  }

  lemma PatternInName(kind: Kind, p: string)
    ensures Contains(KeyOfPattern(kind, p).name, p)
  {
    ContainsItself(p);
    if p == "worker" {
      assert "celery-worker" == "celery-" + "worker";
      ContainsSuffix("celery-", "worker");
    }
  }

  lemma Finds(base: Resources, kind: Kind, p: string)
    requires NoClash(base) && p in Patterns(kind)
    ensures Identifies(Universe(SETUP, base, STEPS), kind, p, KeyOfPattern(kind, p))
  {
    PatternInName(kind, p);
    hide Owned, StepOf, STEPS, Contains, Patterns;
    forall k | k in Universe(SETUP, base, STEPS) && k.kind == kind && Contains(k.name, p)
      ensures k == KeyOfPattern(kind, p)
    {
      assert k !in base;
      var i :| 0 <= i < |STEPS| && k in Owned(SETUP, STEPS[i]);
      OwnerIs(i, k);
      Alone(k, p);
    }
  }

  lemma GoodSecrets(base: Resources)
    requires NoClash(base)
    ensures forall i :: 0 <= i < 3 ==> GoodStep(SETUP, Universe(SETUP, base, STEPS), STEPS[i])
  {
    hide NoClash, Identifies, Universe;
    Finds(base, Secret, "dev-cert-secret");
    Finds(base, Secret, "site-cert-secret");
    Finds(base, Secret, "registry-secret");
  }

  lemma GoodVolume(base: Resources, name: string)
    requires NoClash(base) && name in VOLUMES
    ensures GoodStep(SETUP, Universe(SETUP, base, STEPS), Volume(name))
  {
    hide NoClash, Identifies, Universe, Owned;
    NamesOfVolumes();
    VolumeManifests(name);
    Finds(base, PersistentVolume, VolumeNameOf(name));
    Finds(base, PersistentVolumeClaim, ClaimNameOf(name));
  }

  lemma GoodFixed(base: Resources)
    requires NoClash(base)
    ensures var u := Universe(SETUP, base, STEPS);
            GoodStep(SETUP, u, STEPS[6]) && GoodStep(SETUP, u, STEPS[7]) && GoodStep(SETUP, u, STEPS[14])
  {
    hide NoClash, Identifies, Universe;
    Finds(base, Ingress, "ingress");
  }

  lemma ServiceFiles(name: string)
    requires name in SERVICES
    ensures HasManifest(SETUP, "service-" + name, Service) && HasManifest(SETUP, "deployment-" + name, Deployment)
    ensures FileKey(SETUP, "service-" + name, "") == KeyOfPattern(Service, name)
    ensures FileKey(SETUP, "deployment-" + name, "") == KeyOfPattern(Deployment, name)
  {
    ServiceManifests(name);
    DeploymentManifests(name);
    hide MANIFESTS;
  }

  lemma GoodService(base: Resources, name: string, args: seq<string>)
    requires NoClash(base) && name in SERVICES && ParseGroups(args).ok
    requires GoodConfigs(Universe(SETUP, base, STEPS), name, ParseGroups(args).groups)
    ensures GoodStep(SETUP, Universe(SETUP, base, STEPS), StartedService(name, args))
  {
    hide NoClash, Identifies, Universe, MANIFESTS, GoodConfigs, ParseGroups, HasManifest, FileKey, STEPS;
    ServiceFiles(name);
    Finds(base, Service, name);
    Finds(base, Deployment, name);
  }

  lemma GoodConfigMaps(base: Resources)
    requires NoClash(base)
    ensures var u := Universe(SETUP, base, STEPS);
            && GoodConfigs(u, "girder", GIRDER_GROUPS) && GoodConfigs(u, "worker", WORKER_GROUPS)
  {
    hide NoClash, Identifies, Universe;
    assert ConfigKey("girder", ConfigFlag) == KeyOfPattern(ConfigMap, "girder-configmap");
    assert ConfigKey("worker", ConfigFlag) == KeyOfPattern(ConfigMap, "worker-configmap");
    Finds(base, ConfigMap, "girder-configmap");
    Finds(base, ConfigMap, "worker-configmap");
  }

  lemma GoodBare(base: Resources, name: string)
    requires NoClash(base) && name in SERVICES
    ensures GoodStep(SETUP, Universe(SETUP, base, STEPS), StartedService(name, []))
  {
    hide NoClash, Universe, MANIFESTS, ParseGroups, GoodStep, STEPS;
    ArgsParse();
    GoodService(base, name, []);
  }

  lemma GoodConfigured(base: Resources)
    requires NoClash(base)
    ensures GoodStep(SETUP, Universe(SETUP, base, STEPS), StartedService("girder", GIRDER_ARGS))
    ensures GoodStep(SETUP, Universe(SETUP, base, STEPS), StartedService("worker", WORKER_ARGS))
  {
    hide NoClash, Universe, MANIFESTS, ParseGroups, GoodStep, GoodConfigs, STEPS;
    ArgsParse();
    GoodConfigMaps(base);
    GoodService(base, "girder", GIRDER_ARGS);
    GoodService(base, "worker", WORKER_ARGS);
  }

  lemma GoodServices(base: Resources, i: nat)
    requires NoClash(base) && 8 <= i < 14
    ensures GoodStep(SETUP, Universe(SETUP, base, STEPS), STEPS[i])
  {
    hide NoClash, Universe, MANIFESTS, ParseGroups, GoodStep, GoodConfigs;
    GoodConfigured(base);
    match i
    case 8 => GoodBare(base, "mongo");
    case 9 => GoodBare(base, "redis");
    case 10 => GoodBare(base, "registry");
    case 12 => GoodBare(base, "dashboard");
    case _ =>
  }

  lemma GoodAll(base: Resources, i: nat)
    requires NoClash(base) && i < |STEPS|
    ensures GoodStep(SETUP, Universe(SETUP, base, STEPS), STEPS[i])
  {
    hide NoClash, Universe, MANIFESTS, GoodStep;
    if i < 3 {
      GoodSecrets(base);
    } else if 8 <= i < 14 {
      GoodServices(base, i);
    } else {
      match i
      case 3 => GoodVolume(base, "mongo");
      case 4 => GoodVolume(base, "registry-storage");
      case 5 => GoodVolume(base, "girder-ps");
      case _ => GoodFixed(base);
    }
  }

  /** The real names meet the side conditions of the general results. */
  lemma RealPlanIsGood(base: Resources)
    requires NoClash(base)
    ensures GoodPlan(SETUP, base, STEPS)
  {
    hide Owned, STEPS, MANIFESTS, GoodStep, Universe, StepOf;
    forall i | 0 <= i < |STEPS| ensures GoodStep(SETUP, Universe(SETUP, base, STEPS), STEPS[i]) {
      GoodAll(base, i);
    }
    forall i | 0 <= i < |STEPS| ensures Owned(SETUP, STEPS[i]) !! base.Keys {
      forall k | k in Owned(SETUP, STEPS[i]) ensures k !in base {
        OwnerIs(i, k);
      }
    }
    forall i, j | 0 <= i < j < |STEPS| ensures Owned(SETUP, STEPS[i]) !! Owned(SETUP, STEPS[j]) {
      forall k | k in Owned(SETUP, STEPS[i]) ensures k !in Owned(SETUP, STEPS[j]) {
        OwnerIs(i, k);
        if k in Owned(SETUP, STEPS[j]) {
          OwnerIs(j, k);
        }
      }
    }
  }

  // ----- what the general results say about the real deployment -----

  ghost predicate FreshStart(w0: World) {
    NoClash(w0.cluster) && TidyTmp(w0.tmp)
  }

  const PVC_KEY: Key := Key(PersistentVolumeClaim, "gwvolman-dev-pvc")
  const PV_KEY: Key := Key(PersistentVolume, "gwvolman-dev-pv")

  /** Lines 97 and 98 come before all services: whatever queries fail, no run does harm. */
  lemma RealIsAllowed(w0: World, history: seq<Event>)
    requires FreshStart(w0) && MayClean(w0.cluster, history)
    ensures Starts(SETUP, w0, STEPS) && Allowed(SETUP, w0, STEPS, history)
  {
    RealPlanIsGood(w0.cluster);
    ServicesComeLast();
    hide STEPS, MANIFESTS, GoodPlan, NoClash, Allowed, MayClean, Shields;
    ShieldedIsAllowed(SETUP, w0, STEPS, history, 6);
  }

  lemma ServicesComeLast()
    ensures Shields(STEPS, 6)
  {
    hide MANIFESTS;
  }

  /**
    After any history of cut runs of both scripts, in which any queries fail, a deployment has its
    service and all its secrets and configmaps, labelled and current.
   */
  lemma RealDeploymentsAreConfigured(w0: World, history: seq<Event>, i: nat)
    requires FreshStart(w0) && MayClean(w0.cluster, history) && i < |STEPS| && STEPS[i].StartedService?
    ensures var c, name := Replay(SETUP, w0, STEPS, history).cluster, STEPS[i].name;
            FileKey(SETUP, "deployment-" + name, "") in c ==>
              && FileKey(SETUP, "service-" + name, "") in c
              && Configured(c, name, ParseGroups(STEPS[i].args).groups)
  {
    RealIsAllowed(w0, history);
    hide *;
    DeploymentsAreConfigured(SETUP, w0, STEPS, history, i);
  }

  lemma UnguardedKeys()
    ensures Owned(SETUP, STEPS[6]) == {PVC_KEY} && Owned(SETUP, STEPS[7]) == {PV_KEY}
  {
  }

  /** What stands in the way of a run, as it is typed without or with -c. */
  ghost predicate InTheWay(c: Resources, cont: bool) {
    || Key(PersistentVolumeClaim, "gwvolman-dev-pvc") in c || Key(PersistentVolume, "gwvolman-dev-pv") in c
    || (!cont && (Key(Secret, "dev-cert-secret") in c || Key(Secret, "site-cert-secret") in c
                  || Key(Secret, "registry-secret") in c || Key(Ingress, "ingress") in c))
  }

  lemma BlockedBy(c: Resources, cont: bool)
    ensures AnyBlocked(SETUP, c, cont, STEPS, 0) <==> InTheWay(c, cont)
  {
    BlockedByUnguarded(c);
    GuardedKeys();
    hide Owned, MANIFESTS;
    assert |STEPS| == 15 && STEPS[0].TLSSecret? && STEPS[1].TLSSecret?;
    assert STEPS[2].GuardedYaml? && STEPS[14].GuardedYaml?;
    assert !cont ==> Blocked(SETUP, c, cont, STEPS[0]) == (Key(Secret, "dev-cert-secret") in c);
    assert !cont ==> Blocked(SETUP, c, cont, STEPS[1]) == (Key(Secret, "site-cert-secret") in c);
    assert !cont ==> Blocked(SETUP, c, cont, STEPS[2]) == (Key(Secret, "registry-secret") in c);
    assert !cont ==> Blocked(SETUP, c, cont, STEPS[14]) == (Key(Ingress, "ingress") in c);
    assert Blocked(SETUP, c, cont, STEPS[6]) == (PVC_KEY in c) && Blocked(SETUP, c, cont, STEPS[7]) == (PV_KEY in c);
    assert forall j :: 0 <= j < |STEPS| && j != 6 && j != 7 && (cont || (j > 2 && j != 14)) ==>
                         !Repeats(cont, STEPS[j]);
  }

  lemma GuardedKeys()
    ensures Owned(SETUP, STEPS[6]) == {PVC_KEY} && Owned(SETUP, STEPS[7]) == {PV_KEY}
    ensures Owned(SETUP, STEPS[0]) == {Key(Secret, "dev-cert-secret")}
    ensures Owned(SETUP, STEPS[1]) == {Key(Secret, "site-cert-secret")}
    ensures Owned(SETUP, STEPS[2]) == {Key(Secret, "registry-secret")}
    ensures Owned(SETUP, STEPS[14]) == {Key(Ingress, "ingress")}
  {
  }

  lemma RealTotal()
    ensures TotalCost(STEPS) == 63
  {
    StepCosts();
    hide STEPS, Cost;
    assert CostFrom(STEPS, 14) == 2;
    assert CostFrom(STEPS, 13) == 9;
    assert CostFrom(STEPS, 12) == 13;
    assert CostFrom(STEPS, 11) == 20;
    assert CostFrom(STEPS, 10) == 24;
    assert CostFrom(STEPS, 9) == 28;
    assert CostFrom(STEPS, 8) == 32;
    assert CostFrom(STEPS, 6) == 36;
    assert CostFrom(STEPS, 4) == 46;
    assert CostFrom(STEPS, 2) == 53;
    assert CostFrom(STEPS, 0) == 57;
  }

  lemma StepCosts()
    ensures |STEPS| == 15
    ensures forall i :: 0 <= i < 3 || 6 <= i < 8 || i == 14 ==> Cost(STEPS[i]) == 2
    ensures forall i :: 3 <= i < 6 ==> Cost(STEPS[i]) == 5
    ensures forall i :: 8 <= i < 11 || i == 12 ==> Cost(STEPS[i]) == 4
    ensures Cost(STEPS[11]) == 7 && Cost(STEPS[13]) == 7
  {
    ArgsParse();
    hide ParseGroups;
  }

  lemma BlockedByUnguarded(c: Resources)
    ensures AnyBlocked(SETUP, c, true, STEPS, 0) <==> PVC_KEY in c || PV_KEY in c
  {
    UnguardedKeys();
    hide Owned, MANIFESTS;
    assert STEPS[6].Unguarded? && STEPS[7].Unguarded?;
    assert forall j :: 0 <= j < |STEPS| && j != 6 && j != 7 ==> !STEPS[j].Unguarded?;
    assert Blocked(SETUP, c, true, STEPS[6]) <==> PVC_KEY in c;
    assert Blocked(SETUP, c, true, STEPS[7]) <==> PV_KEY in c;
  }

  /**
    deploy.sh does not converge as written: after any history, a run of at least 63 commands without
    failing queries completes exactly when neither of the two unguarded gwvolman-dev resources is there
    and, with -c, none of the three secrets and the ingress; and whatever queries fail, a run that completes
    arrives at the ideal.
   */
  lemma RealDeployConverges(w0: World, history: seq<Event>, e: Event)
    requires FreshStart(w0) && MayClean(w0.cluster, history) && e.Deploy?
    ensures var w := Replay(SETUP, w0, STEPS, history);
            var w' := Invoke(SETUP, w, STEPS, e);
            && (!w'.halted ==> !InTheWay(w.cluster, e.cont))
            && (!InTheWay(w.cluster, e.cont) && e.cut >= 63 && e.failing == {} ==> !w'.halted)
            && (!w'.halted ==> Agrees(STEPS, w.cluster, w'.cluster, Ideal(SETUP, w0, STEPS).cluster)
                               && !w'.tmpDir && w'.tmp == {})
  {
    MayCleanThen(w0.cluster, history, e);
    RealIsAllowed(w0, history + [e]);
    RealTotal();
    hide STEPS, MANIFESTS, Starts, AnyBlocked, Agrees, NoClash, Allowed, Harmful, MayClean, Replay, InTheWay, TotalCost;
    AllowedFront(SETUP, w0, STEPS, history, e);
    Converges(SETUP, w0, STEPS, history, e);
    BlockedBy(Replay(SETUP, w0, STEPS, history).cluster, e.cont);
  }

  lemma MayCleanThen(base: Resources, history: seq<Event>, e: Event)
    requires MayClean(base, history) && e.Deploy?
    ensures MayClean(base, history + [e])
  {
    hide NothingLabelled;
    assert forall d :: d in history + [e] <==> d in history || d == e;
  }

  /**
    A run cut behind the first of the two cannot be finished by running deploy.sh again: a service,
    deployment or ingress that is missing then stays missing, however often it is run.
   */
  lemma RealDeployStuck(w0: World, history: seq<Event>, more: seq<Event>, k: Key)
    requires FreshStart(w0) && MayClean(w0.cluster, history) && forall e :: e in more ==> e.Deploy?
    requires (k.kind == Service || k.kind == Deployment || k.kind == Ingress) && k !in w0.cluster
    ensures var c := Replay(SETUP, w0, STEPS, history).cluster;
            PVC_KEY in c && k !in c ==> k !in Replay(SETUP, w0, STEPS, history + more).cluster
  {
    assert MayClean(w0.cluster, history + more);
    RealIsAllowed(w0, history + more);
    PastTheFirst(Replay(SETUP, w0, STEPS, history).cluster);
    hide MANIFESTS, Starts, NoClash, Allowed, Replay, StepOf, Owned, Done, NothingLabelled;
    ReplayKeeps(SETUP, w0, STEPS, history + more);
    if k in Replay(SETUP, w0, STEPS, history + more).cluster && PVC_KEY in Replay(SETUP, w0, STEPS, history).cluster {
      var j := OwnerExists(w0.cluster, Replay(SETUP, w0, STEPS, history + more), k);
      LateKinds(k);
      OwnerIs(j, k);
      StuckForever(SETUP, w0, STEPS, history, more, 6, j, k);
    }
  }

  /**
    This does happen: after one uncut run, in which everything has been created, every further run of
    deploy.sh fails, whatever its options and wherever it is cut.
   */
  lemma EveryRerunFails(w0: World, more: seq<Event>)
    requires FreshStart(w0) && more != [] && forall e :: e in more ==> e.Deploy?
    ensures var first := [Deploy(true, TotalCost(STEPS))];
            && !Replay(SETUP, w0, STEPS, first).halted
            && Replay(SETUP, w0, STEPS, first + more).halted
  {
    RealIsAllowed(w0, [Deploy(true, TotalCost(STEPS))] + more);
    assert STEPS[6].Unguarded? && |STEPS| == 15;
    hide STEPS, MANIFESTS, Starts, Allowed, NoClash, Replay, TotalCost;
    RerunsFail(SETUP, w0, STEPS, more, 6);
  }

  lemma PastTheFirst(c: Resources)
    ensures STEPS[6].Unguarded? && (PVC_KEY in c ==> Done(SETUP, STEPS[6], c))
  {
    UnguardedKeys();
  }

  lemma LateKinds(k: Key)
    requires k.kind == Service || k.kind == Deployment || k.kind == Ingress
    ensures StepOf(k) == -1 || StepOf(k) >= 8
  {
  }

  lemma OwnerExists(base: Resources, w: World, k: Key) returns (j: nat)
    requires Inv(SETUP, base, STEPS, w) && k in w.cluster && k !in base
    ensures j < |STEPS| && k in Owned(SETUP, STEPS[j])
  {
    hide STEPS, Owned, MANIFESTS;
    j :| 0 <= j < |STEPS| && k in Owned(SETUP, STEPS[j]);
  }

  /** The guarded steps alone: deploy.sh:85-93 and 99-109. */
  const GUARDED_STEPS: seq<Step> := STEPS[..6] + STEPS[8..]

  lemma GoodStepShrinks(s: Setup, u: set<Key>, v: set<Key>, step: Step)
    requires GoodStep(s, u, step) && v <= u
    ensures GoodStep(s, v, step)
  {
  }

  function Shifted(k: nat, i: nat, j: nat): nat
    requires i <= j
  {
    if k < i then k else k + (j - i)
  }

  lemma FewerOwned(s: Setup, base: Resources, steps: seq<Step>, i: nat, j: nat)
    requires i <= j <= |steps|
    ensures Universe(s, base, steps[..i] + steps[j..]) <= Universe(s, base, steps)
  {
    var fewer := steps[..i] + steps[j..];
    hide Owned;
    forall k, key | 0 <= k < |fewer| && key in Owned(s, fewer[k]) ensures key in AllOwned(s, steps) {
      assert fewer[k] == steps[Shifted(k, i, j)];
    }
  }

  lemma StepWithout(s: Setup, base: Resources, steps: seq<Step>, i: nat, j: nat, k: nat)
    requires GoodPlan(s, base, steps) && i <= j <= |steps| && k < |steps[..i] + steps[j..]|
    ensures var fewer := steps[..i] + steps[j..];
            GoodStep(s, Universe(s, base, fewer), fewer[k]) && Owned(s, fewer[k]) !! base.Keys
  {
    var fewer := steps[..i] + steps[j..];
    FewerOwned(s, base, steps, i, j);
    hide Owned, Universe, GoodStep;
    var l := Shifted(k, i, j);
    assert l < |steps| && fewer[k] == steps[l];
    assert GoodStep(s, Universe(s, base, steps), steps[l]) && Owned(s, steps[l]) !! base.Keys;
    hide GoodPlan;
    GoodStepShrinks(s, Universe(s, base, steps), Universe(s, base, fewer), fewer[k]);
  }

  lemma PairWithout(s: Setup, base: Resources, steps: seq<Step>, i: nat, j: nat, k: nat, l: nat)
    requires GoodPlan(s, base, steps) && i <= j <= |steps| && k < l < |steps[..i] + steps[j..]|
    ensures var fewer := steps[..i] + steps[j..];
            Owned(s, fewer[k]) !! Owned(s, fewer[l])
  {
    hide Owned, Universe, GoodStep;
    var fewer := steps[..i] + steps[j..];
    assert fewer[k] == steps[Shifted(k, i, j)] && fewer[l] == steps[Shifted(l, i, j)];
  }

  /** A good plan without its steps number `i` to `j` is a good plan. */
  lemma GoodPlanWithout(s: Setup, base: Resources, steps: seq<Step>, i: nat, j: nat)
    requires GoodPlan(s, base, steps) && i <= j <= |steps|
    ensures GoodPlan(s, base, steps[..i] + steps[j..])
  {
    var fewer := steps[..i] + steps[j..];
    forall k | 0 <= k < |fewer|
      ensures GoodStep(s, Universe(s, base, fewer), fewer[k]) && Owned(s, fewer[k]) !! base.Keys
    {
      StepWithout(s, base, steps, i, j, k);
    }
    forall k, l | 0 <= k < l < |fewer| ensures Owned(s, fewer[k]) !! Owned(s, fewer[l]) {
      PairWithout(s, base, steps, i, j, k, l);
    }
    hide GoodStep, Owned, Universe;
  }

  lemma GuardedPlanIsGood(base: Resources)
    requires NoClash(base)
    ensures GoodPlan(SETUP, base, GUARDED_STEPS)
  {
    RealPlanIsGood(base);
    assert |STEPS| == 15;
    hide STEPS, MANIFESTS, GoodPlan, NoClash;
    GoodPlanWithout(SETUP, base, STEPS, 6, 8);
  }

  lemma NoneUnguarded()
    ensures forall i :: 0 <= i < |GUARDED_STEPS| ==> !GUARDED_STEPS[i].Unguarded?
  {
    forall i | 0 <= i < |GUARDED_STEPS| ensures !GUARDED_STEPS[i].Unguarded? {
      assert GUARDED_STEPS[i] == if i < 6 then STEPS[i] else STEPS[i + 2];
    }
  }

  /** Without those two, every history is followed by a run that completes, at the same place. */
  lemma RealGuardedConverges(w0: World, history: seq<Event>, cut: nat)
    requires FreshStart(w0) && Allowed(SETUP, w0, GUARDED_STEPS, history) && cut >= TotalCost(GUARDED_STEPS)
    ensures var w := Replay(SETUP, w0, GUARDED_STEPS, history);
            var w' := Invoke(SETUP, w, GUARDED_STEPS, Deploy(true, cut));
            !w'.halted && Agrees(GUARDED_STEPS, w.cluster, w'.cluster, Ideal(SETUP, w0, GUARDED_STEPS).cluster)
  {
    GuardedPlanIsGood(w0.cluster);
    NoneUnguarded();
    hide STEPS, MANIFESTS, GoodPlan, Agrees, GUARDED_STEPS, NoClash;
    GuardedConverges(SETUP, w0, GUARDED_STEPS, history, cut);
  }

  lemma RealDeployThenClean(w0: World, cut: nat)
    requires FreshStart(w0) && NothingLabelled(w0.cluster) && cut >= |CLEAN_COMMANDS|
    ensures Invoke(SETUP, Ideal(SETUP, w0, STEPS), STEPS, Clean(cut)).cluster == w0.cluster
  {
    RealPlanIsGood(w0.cluster);
    hide STEPS, MANIFESTS, GoodPlan, NoClash;
    DeployThenClean(SETUP, w0, STEPS, cut);
  }

  lemma ConfigMapsOf(step: Step, i: nat, k: Key)
    requires i < |STEPS| && step == STEPS[i] && step.StartedService?
    requires k in ConfigKeys(step.name, ParseGroups(step.args).groups)
    ensures k == ConfigKey(step.name, ConfigFlag)
  {
    ArgsParse();
    hide ParseGroups, MANIFESTS, ConfigKey;
  }

  /**
    After any history of cut runs of deploy.sh, what clean.sh would not delete of the created
    resources is the TLS secrets cut between creation and label, and at most one configmap.
   */
  lemma RealLeftovers(w0: World, history: seq<Event>, k: Key, k': Key)
    requires FreshStart(w0) && (forall e :: e in history ==> e.Deploy?) && k !in w0.cluster && k' !in w0.cluster
    ensures var c := Replay(SETUP, w0, STEPS, history).cluster;
            Lacks(c, k) && Lacks(c, k') ==>
              || IsCutSecret(SETUP, w0, STEPS, history, k) || IsCutSecret(SETUP, w0, STEPS, history, k')
              || (k == k' && k.kind == ConfigMap)
  {
    assert MayClean(w0.cluster, history);
    RealIsAllowed(w0, history);
    var f := UnlabelledTail(SETUP, w0, STEPS, history);
    hide MANIFESTS, Starts, NoClash, Frontier, Replay, STEPS, IsCutSecret, Allowed;
    var c := Replay(SETUP, w0, STEPS, history).cluster;
    if f < |STEPS| && PendingIn(SETUP, STEPS[f], c, k) && PendingIn(SETUP, STEPS[f], c, k') {
      ConfigMapsOf(STEPS[f], f, k);
      ConfigMapsOf(STEPS[f], f, k');
    }
  }

  lemma CutBetween(w: World, name: string, key: string, crt: string)
    requires !w.halted && w.left == 1 && !Exists(w.cluster, Secret, name) && Key(Secret, name) !in w.cluster
    ensures var w', k := RunStep(SETUP, w, true, TLSSecret(name, key, crt)), Key(Secret, name);
            w'.halted && k in w'.cluster && !w'.cluster[k].labelled
  {
    hide MANIFESTS, Exists;
  }

  /** Such a secret does occur: a first run cut after four commands has created one and not labelled it. */
  lemma CutSecret(w0: World)
    requires FreshStart(w0)
    ensures var c, k := Replay(SETUP, w0, STEPS, [Deploy(true, 4)]).cluster, Key(Secret, "dev-cert-secret");
            k in c && k !in w0.cluster && !c[k].labelled
  {
    var w := Fresh(w0, 4);
    var w1 := Prologue(w);
    var k := Key(Secret, "dev-cert-secret");
    NotThere(w0);
    assert [Deploy(true, 4)][..0] == [];
    assert Replay(SETUP, w0, STEPS, [Deploy(true, 4)]) == DeployScript(SETUP, w, true, STEPS);
    EpilogueKeepsCluster(w);
    hide NoClash, MANIFESTS, RunStep, Exists, Replay;
    var w2 := RunStep(SETUP, w1, true, STEPS[0]);
    CutBetween(w1, "dev-cert-secret", "./certs/dev.key", "./certs/dev.crt");
    HaltedStays(SETUP, w2, true, STEPS, 1);
    EpilogueKeepsCluster(w2);
  }

  lemma NotThere(w0: World)
    requires FreshStart(w0)
    ensures !Exists(w0.cluster, Secret, "dev-cert-secret") && Key(Secret, "dev-cert-secret") !in w0.cluster
  {
    assert StepOf(Key(Secret, "dev-cert-secret")) == 0;
    hide MANIFESTS, StepOf, STEPS;
    forall k | k in w0.cluster && k.kind == Secret ensures !Contains(k.name, "dev-cert-secret") {
      assert "dev-cert-secret" in Patterns(k.kind);
    }
  }
}
