/**
  The world `dev-kube/lib` acts on, and what each of its functions does to it.

  A script is a sequence of commands; `Run` performs one of them or stops the script. `left` is the
  number of commands the script still gets through before something stops it from outside: a killed
  process, or a command that fails for a reason the model does not see. A run with a small `left` is
  a run cut after that many commands. The queries behind the guards are no commands, and one that fails
  is no error to a script: it reads as "absent". `failing` is the set of queries that fail in a run.
 */
module Cluster {
  import opened Text
  import opened ArgGroups

  datatype Kind =
    | Deployment | Service | Ingress
    | PersistentVolume | PersistentVolumeClaim | Secret | ConfigMap
    | ServiceAccount | ClusterRole | ClusterRoleBinding | Role | RoleBinding
    | OtherKind

  datatype Key = Key(kind: Kind, name: string)

  /** A resource: does it carry `app=WholeTale`, and which local files was it made from. */
  datatype Res = Res(labelled: bool, files: seq<string>)

  type Resources = map<Key, Res>

  /** `kubectl get KIND | grep -q PATTERN`, as the scripts spell it. */
  datatype Query = Query(kind: Kind, pattern: string)

  datatype World = World(
    cluster: Resources, tmpDir: bool, tmp: set<string>, left: nat, halted: bool, failing: set<Query>)

  // ----- single commands -----

  datatype Command =
    | Create(key: Key, res: Res)
    | Delete(key: Key)
    | Label(key: Key)
    | DeleteLabelled(kind: Kind)
    | MakeTmpDir
    | WriteTmp(file: string)
    | RemoveTmps
    | RemoveTmpDir
    | External  // a command that touches neither the cluster nor tmp

  predicate Succeeds(w: World, cmd: Command) {
    match cmd
    case Create(key, _) => key !in w.cluster
    case Delete(key) => key in w.cluster
    case Label(key) => key in w.cluster
    case WriteTmp(_) => w.tmpDir
    case RemoveTmpDir => w.tmpDir && w.tmp == {}
    case _ => true
  }

  /** The shell pattern `.*.yaml`. */
  predicate IsDotYaml(file: string) {
    |file| >= 6 && file[0] == '.' && file[|file| - 5..] == ".yaml"
  }

  function Effect(w: World, cmd: Command): World
    requires Succeeds(w, cmd)
  {
    match cmd
    case Create(key, res) => w.(cluster := w.cluster[key := res])
    case Delete(key) => w.(cluster := w.cluster - {key})
    case Label(key) => w.(cluster := w.cluster[key := w.cluster[key].(labelled := true)])
    case DeleteLabelled(kind) => w.(cluster := WithoutLabelled(w.cluster, {kind}))
    case MakeTmpDir => w.(tmpDir := true)
    case WriteTmp(file) => w.(tmp := w.tmp + {file})
    case RemoveTmps => w.(tmp := set f | f in w.tmp && !IsDotYaml(f))
    case RemoveTmpDir => w.(tmpDir := false)
    case External => w
  }

  function WithoutLabelled(c: Resources, kinds: set<Kind>): Resources {
    map k | k in c && !(k.kind in kinds && c[k].labelled) :: c[k]
  }

  function Halt(w: World): World {
    w.(halted := true)
  }

  function Run(w: World, cmd: Command): World {
    if w.halted || w.left == 0 || !Succeeds(w, cmd) then Halt(w)
    else Effect(w.(left := w.left - 1), cmd)
  }

  function RunAll(w: World, cmds: seq<Command>): World
    decreases |cmds|
  {
    if cmds == [] then w else RunAll(Run(w, cmds[0]), cmds[1..])
  }

  /** The pattern occurs in what the query lists, with names as the only column. */
  predicate Exists(c: Resources, kind: Kind, pattern: string) {
    exists k :: k in c && k.kind == kind && Contains(k.name, pattern)
  }

  /** `contains` looks at the status of grep alone. */
  predicate Sees(w: World, kind: Kind, pattern: string) {
    Query(kind, pattern) !in w.failing && Exists(w.cluster, kind, pattern)
  }

  // ----- manifests -----

  /** Where a manifest takes its name from: its own text, or a variable `createVolume` exports. */
  datatype Naming = Fixed(name: string) | VolumeName | ClaimName

  datatype Manifest = Manifest(kind: Kind, naming: Naming, labelled: bool)

  /** The manifest files beside the scripts, by base name, and AUTO_VOLUME_TYPE. */
  datatype Setup = Setup(manifests: map<string, Manifest>, autoVolume: string)

  function VolumeNameOf(vol: string): string { vol + "-volume" }

  function ClaimNameOf(vol: string): string { vol + "-volume-claim" }

  function ManifestKey(m: Manifest, vol: string): Key {
    match m.naming
    case Fixed(name) => Key(m.kind, name)
    case VolumeName => Key(m.kind, VolumeNameOf(vol))
    case ClaimName => Key(m.kind, ClaimNameOf(vol))
  }

  function CreateFromYaml(s: Setup, w: World, src: string, dest: string, vol: string): World {
    if src !in s.manifests then Halt(w)
    else
      var m := s.manifests[src];
      Run(Run(w, WriteTmp(dest + ".yaml")), Create(ManifestKey(m, vol), Res(m.labelled, [src])))
  }

  // ----- the functions deploy.sh calls -----

  function CreateTLSSecret(w: World, cont: bool, name: string, key: string, crt: string): World {
    if !Sees(w, Secret, name) || !cont then
      Run(Run(w, Create(Key(Secret, name), Res(false, [key, crt]))), Label(Key(Secret, name)))
    else w
  }

  /** `createSecretFromFile`, and the ingress block of deploy.sh. */
  function CreateGuarded(s: Setup, w: World, cont: bool, kind: Kind, pattern: string, file: string): World {
    if !Sees(w, kind, pattern) || !cont then CreateFromYaml(s, w, file, "." + file, "") else w
  }

  function VolumeFile(s: Setup, name: string): string {
    if "volume-" + name in s.manifests then "volume-" + name else "volume-auto-" + s.autoVolume
  }

  function MakeVolume(s: Setup, w: World, name: string): World {
    var prepared :=
      if "volume-" + name !in s.manifests && s.autoVolume == "local" then Run(w, External) else w;
    CreateFromYaml(s, prepared, VolumeFile(s, name), ".volume-" + name, name)
  }

  function CreateVolume(s: Setup, w: World, name: string): World {
    var w1 := if !Sees(w, PersistentVolume, VolumeNameOf(name)) then MakeVolume(s, w, name) else w;
    if !Sees(w1, PersistentVolumeClaim, ClaimNameOf(name)) then
      CreateFromYaml(s, w1, "volume-claim", ".volume-claim-" + name, name)
    else w1
  }

  function ConfigKey(name: string, flag: Flag): Key {
    match flag
    case SecretFlag => Key(Secret, name + "-secret")
    case ConfigFlag => Key(ConfigMap, name + "-configmap")
  }

  /** Delete what was found, create anew, label. */
  function Remake(w: World, key: Key, files: seq<string>, found: bool): World {
    var w1 := if found then Run(w, Delete(key)) else w;
    Run(Run(w1, Create(key, Res(false, files))), Label(key))
  }

  function ConfigureGroup(w: World, name: string, g: Group): World {
    var key := ConfigKey(name, g.flag);
    Remake(w, key, g.files, Sees(w, key.kind, key.name))
  }

  function ConfigureAll(w: World, name: string, groups: seq<Group>): World {
    if groups == [] then w
    else ConfigureGroup(ConfigureAll(w, name, groups[..|groups| - 1]), name, groups[|groups| - 1])
  }

  function StartDeployment(s: Setup, w: World, name: string, args: seq<string>): World {
    var parse := ParseGroups(args);
    var w1 := ConfigureAll(w, name, parse.groups);
    if parse.ok then CreateFromYaml(s, w1, "deployment-" + name, ".deployment-" + name, "") else Halt(w1)
  }

  function StartService(s: Setup, w: World, name: string, args: seq<string>): World {
    var w1 :=
      if !Sees(w, Service, name) then CreateFromYaml(s, w, "service-" + name, ".service-" + name, "")
      else w;
    if w1.halted then w1
    else if !Sees(w1, Deployment, name) then StartDeployment(s, w1, name, args)
    else w1
  }

  // ----- the scripts -----

  /** One line of deploy.sh:85-109. */
  datatype Step =
    | TLSSecret(name: string, key: string, crt: string)
    | GuardedYaml(kind: Kind, pattern: string, file: string)
    | Volume(name: string)
    | Unguarded(file: string)
    | StartedService(name: string, args: seq<string>)

  function StepBody(s: Setup, w: World, cont: bool, step: Step): World {
    match step
    case TLSSecret(name, key, crt) => CreateTLSSecret(w, cont, name, key, crt)
    case GuardedYaml(kind, pattern, file) => CreateGuarded(s, w, cont, kind, pattern, file)
    case Volume(name) => CreateVolume(s, w, name)
    case Unguarded(file) => CreateFromYaml(s, w, file, "." + file, "")
    case StartedService(name, args) => StartService(s, w, name, args)
  }

  function RunStep(s: Setup, w: World, cont: bool, step: Step): World {
    if w.halted then w else StepBody(s, w, cont, step)
  }

  /** The steps from number `i` on. */
  function RunSteps(s: Setup, w: World, cont: bool, steps: seq<Step>, i: nat): World
    requires i <= |steps|
    decreases |steps| - i
  {
    if i == |steps| then w else RunSteps(s, RunStep(s, w, cont, steps[i]), cont, steps, i + 1)
  }

  /** mkdir, the settings check and the certificate. */
  function Prologue(w: World): World {
    Run(Run(Run(w, MakeTmpDir), External), External)
  }

  /** setup_girder and the removal of the temporary files and their directory. */
  function Epilogue(w: World): World {
    Run(Run(Run(w, External), RemoveTmps), RemoveTmpDir)
  }

  function DeployScript(s: Setup, w: World, cont: bool, steps: seq<Step>): World {
    Epilogue(RunSteps(s, Prologue(w), cont, steps, 0))
  }

  /** clean.sh up to the deletion of the volume directories, kind by kind in the order it names them. */
  const CLEAN_COMMANDS: seq<Command> :=
    [External, External,
     DeleteLabelled(Deployment), DeleteLabelled(Service), DeleteLabelled(Ingress),
     DeleteLabelled(PersistentVolume), DeleteLabelled(PersistentVolumeClaim),
     DeleteLabelled(Secret), DeleteLabelled(ConfigMap),
     DeleteLabelled(ServiceAccount), DeleteLabelled(ClusterRole), DeleteLabelled(ClusterRoleBinding),
     DeleteLabelled(Role), DeleteLabelled(RoleBinding), External]

  function CleanScript(w: World): World {
    RunAll(w, CLEAN_COMMANDS)
  }

  /** One invocation of either script, cut after `cut` commands. Unless said otherwise no query fails. */
  datatype Event = Deploy(cont: bool, cut: nat, failing: set<Query> := {}) | Clean(cut: nat)

  function Fresh(w: World, cut: nat, failing: set<Query> := {}): World {
    w.(left := cut, halted := false, failing := failing)
  }

  function Invoke(s: Setup, w: World, steps: seq<Step>, e: Event): World {
    match e
    case Deploy(cont, cut, failing) => DeployScript(s, Fresh(w, cut, failing), cont, steps)
    case Clean(cut) => CleanScript(Fresh(w, cut))
  }

  /** The world after a history of invocations. */
  function Replay(s: Setup, w: World, steps: seq<Step>, history: seq<Event>): World {
    if history == [] then w
    else Invoke(s, Replay(s, w, steps, history[..|history| - 1]), steps, history[|history| - 1])
  }
}
