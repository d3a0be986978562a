/**
  The WebDAV node server as a transition system: any number of publish and unpublish calls in
  flight, each a sequence of operating-system steps that may fail, over one mount table, one set of
  directories and one temporary directory. There are no locks.
 */
module NodeServer {
  import opened Options

  type Path = string
  type CallId = nat
  type File = nat

  datatype OsError = Permission | Invalid | Corrupted | OtherError

  /**
    What the operating system answers to the next step of a call. A success that is impossible in
    the current state counts as a failure: a mount on a missing directory, a temporary name in use.
   */
  datatype Outcome = Success | Named(file: File) | Failure(error: OsError)

  datatype Reply = OK | Internal | NotFound | PermissionDenied | InvalidArgument

  datatype MountOption = Flag(text: string) | Conf(file: File)

  datatype Entry = Entry(url: string, options: seq<MountOption>)

  datatype Request =
    | Publish(target: Path, url: string, flags: seq<string>, readonly: bool)
    | Unpublish(target: Path)

  /** The next step of a call. */
  datatype Stage =
    | Check
    | Mkdir
    | FirstTemp
    | SecondTemp(conf: File)
    | Write(conf: File, cred: File)
    | Mounting(conf: File, cred: File)
    | RemoveConf(conf: File, cred: File, error: Option<OsError>)
    | RemoveCred(cred: File, error: Option<OsError>)
    | UnCheck
    | Stat
    | Probe
    | Unmounting
    | ProbeAgain
    | RemoveDir
    | Replied(reply: Reply)

  /** `skipped`: UnmountPath has returned without looking further, because of an error of stat. */
  datatype Call = Call(req: Request, stage: Stage, skipped: bool)

  /** A configuration file names the file its secrets are read from. */
  datatype Content = Empty | Config(secrets: File)

  /** The last four fields record history: nothing the calls do depends on them. */
  datatype Node = Node(
    mounts: map<Path, seq<Entry>>,
    dirs: set<Path>,
    temps: map<File, Content>,
    calls: map<CallId, Call>,
    leaked: set<File>,
    stuck: set<File>,
    halfMade: nat,
    unwritten: nat)

  function Stack(n: Node, p: Path): seq<Entry> {
    if p in n.mounts then n.mounts[p] else []
  }

  function Depth(n: Node, p: Path): nat {
    |Stack(n, p)|
  }

  function At(n: Node, id: CallId, stage: Stage): Node
    requires id in n.calls
  {
    n.(calls := n.calls[id := n.calls[id].(stage := stage)])
  }

  function FlagOptions(flags: seq<string>): seq<MountOption> {
    if flags == [] then [] else [Flag(flags[0])] + FlagOptions(flags[1..])
  }

  /** `mo`: the request's flags, "ro" if asked for, and the configuration file. */
  function MountOptions(flags: seq<string>, readonly: bool, conf: File): seq<MountOption> {
    FlagOptions(flags) + (if readonly then [Flag("ro")] else []) + [Conf(conf)]
  }

  function ReplyFor(error: Option<OsError>): Reply {
    match error
    case None => OK
    case Some(Permission) => PermissionDenied
    case Some(Invalid) => InvalidArgument
    case Some(_) => Internal
  }

  // ----- NodePublishVolume -----

  function CheckStep(n: Node, id: CallId, p: Path, o: Outcome): Node
    requires id in n.calls
  {
    if o.Failure? then At(n, id, Replied(Internal))
    else if p !in n.dirs then At(n, id, Mkdir)
    else if Depth(n, p) > 0 then At(n, id, Replied(OK))
    else At(n, id, FirstTemp)
  }

  function MkdirStep(n: Node, id: CallId, p: Path, o: Outcome): Node
    requires id in n.calls
  {
    if o.Failure? then At(n, id, Replied(Internal)) else At(n.(dirs := n.dirs + {p}), id, FirstTemp)
  }

  function FirstTempStep(n: Node, id: CallId, o: Outcome): Node
    requires id in n.calls
  {
    if o.Named? && o.file !in n.temps then At(n.(temps := n.temps[o.file := Empty]), id, SecondTemp(o.file))
    else At(n, id, Replied(Internal))
  }

  function SecondTempStep(n: Node, id: CallId, conf: File, o: Outcome): Node
    requires id in n.calls
  {
    if o.Named? && o.file !in n.temps then At(n.(temps := n.temps[o.file := Empty]), id, Write(conf, o.file))
    else At(n.(leaked := n.leaked + {conf}, halfMade := n.halfMade + 1), id, Replied(Internal))
  }

  /** The secrets entry is given the configuration file's own name. */
  function WriteStep(n: Node, id: CallId, conf: File, cred: File, o: Outcome): Node
    requires id in n.calls
  {
    if o.Failure? then
      At(n.(leaked := n.leaked + {conf, cred}, unwritten := n.unwritten + 1), id, Replied(Internal))
    else At(n.(temps := n.temps[conf := Config(conf)]), id, Mounting(conf, cred))
  }

  function MountStep(n: Node, id: CallId, req: Request, conf: File, cred: File, o: Outcome): Node
    requires id in n.calls && req.Publish?
  {
    if o.Failure? then At(n, id, RemoveConf(conf, cred, Some(o.error)))
    else if req.target !in n.dirs then At(n, id, RemoveConf(conf, cred, Some(OtherError)))
    else
      var entry := Entry(req.url, MountOptions(req.flags, req.readonly, conf));
      At(n.(mounts := n.mounts[req.target := Stack(n, req.target) + [entry]]), id, RemoveConf(conf, cred, None))
  }

  /** `os.Remove`, whose error is ignored. */
  function RemoveTemp(n: Node, f: File, o: Outcome): Node {
    if o.Failure? then n.(stuck := n.stuck + {f}) else n.(temps := n.temps - {f})
  }

  // ----- NodeUnpublishVolume, with UnmountPath inside -----

  function UnCheckStep(n: Node, id: CallId, p: Path, o: Outcome): Node
    requires id in n.calls
  {
    if o.Failure? then At(n, id, Replied(Internal))
    else if p !in n.dirs || Depth(n, p) == 0 then At(n, id, Replied(NotFound))
    else At(n, id, Stat)
  }

  /** PathExists answers "no" on every error but a corrupted mount, and "no" ends UnmountPath without error. */
  function StatStep(n: Node, id: CallId, p: Path, o: Outcome): Node
    requires id in n.calls
  {
    if o == Failure(Corrupted) then At(n, id, Unmounting)
    else if o.Failure? then
      n.(calls := n.calls[id := n.calls[id].(stage := Replied(OK), skipped := true)])
    else if p !in n.dirs then At(n, id, Replied(OK))
    else At(n, id, Probe)
  }

  function ProbeStep(n: Node, id: CallId, p: Path, o: Outcome): Node
    requires id in n.calls
  {
    if o.Failure? || p !in n.dirs then At(n, id, Replied(Internal))
    else if Depth(n, p) == 0 then At(n, id, RemoveDir)
    else At(n, id, Unmounting)
  }

  function UnmountStep(n: Node, id: CallId, p: Path, o: Outcome): Node
    requires id in n.calls
  {
    if o.Failure? || Depth(n, p) == 0 then At(n, id, Replied(Internal))
    else At(n.(mounts := n.mounts[p := Stack(n, p)[..Depth(n, p) - 1]]), id, ProbeAgain)
  }

  function ProbeAgainStep(n: Node, id: CallId, p: Path, o: Outcome): Node
    requires id in n.calls
  {
    if o.Failure? || p !in n.dirs || Depth(n, p) > 0 then At(n, id, Replied(Internal))
    else At(n, id, RemoveDir)
  }

  function RemoveDirStep(n: Node, id: CallId, p: Path, o: Outcome): Node
    requires id in n.calls
  {
    if o.Failure? || p !in n.dirs || Depth(n, p) > 0 then At(n, id, Replied(Internal))
    else At(n.(dirs := n.dirs - {p}), id, Replied(OK))
  }

  // ----- the system -----

  predicate Fits(call: Call) {
    match call.stage
    case Replied(_) => true
    case Check | Mkdir | FirstTemp => call.req.Publish?
    case SecondTemp(_) => call.req.Publish?
    case Write(_, _) => call.req.Publish?
    case Mounting(_, _) => call.req.Publish?
    case RemoveConf(_, _, _) => call.req.Publish?
    case RemoveCred(_, _) => call.req.Publish?
    case _ => call.req.Unpublish?
  }

  function Step(n: Node, id: CallId, o: Outcome): Node
    requires id in n.calls && Fits(n.calls[id])
  {
    var req := n.calls[id].req;
    var p := req.target;
    match n.calls[id].stage
    case Check => CheckStep(n, id, p, o)
    case Mkdir => MkdirStep(n, id, p, o)
    case FirstTemp => FirstTempStep(n, id, o)
    case SecondTemp(conf) => SecondTempStep(n, id, conf, o)
    case Write(conf, cred) => WriteStep(n, id, conf, cred, o)
    case Mounting(conf, cred) => MountStep(n, id, req, conf, cred, o)
    case RemoveConf(conf, cred, error) => At(RemoveTemp(n, conf, o), id, RemoveCred(cred, error))
    case RemoveCred(cred, error) => At(RemoveTemp(n, cred, o), id, Replied(ReplyFor(error)))
    case UnCheck => UnCheckStep(n, id, p, o)
    case Stat => StatStep(n, id, p, o)
    case Probe => ProbeStep(n, id, p, o)
    case Unmounting => UnmountStep(n, id, p, o)
    case ProbeAgain => ProbeAgainStep(n, id, p, o)
    case RemoveDir => RemoveDirStep(n, id, p, o)
    case Replied(_) => n
  }

  function FirstStage(req: Request): Stage {
    if req.Publish? then Check else UnCheck
  }

  datatype Event = Begin(id: CallId, req: Request) | Do(id: CallId, outcome: Outcome) | Return(id: CallId)

  ghost predicate WellFormed(n: Node) {
    forall id :: id in n.calls ==> Fits(n.calls[id])
  }

  /** Begin takes an unused number; Return delivers a reply. */
  predicate Enabled(n: Node, e: Event) {
    match e
    case Begin(id, _) => id !in n.calls
    case Do(id, _) => id in n.calls && Fits(n.calls[id])
    case Return(id) => id in n.calls && n.calls[id].stage.Replied?
  }

  function Apply(n: Node, e: Event): Node
    requires Enabled(n, e)
  {
    match e
    case Begin(id, req) => n.(calls := n.calls[id := Call(req, FirstStage(req), false)])
    case Do(id, o) => Step(n, id, o)
    case Return(id) => n.(calls := n.calls - {id})
  }

  predicate ValidRun(n: Node, events: seq<Event>)
    decreases |events|
  {
    events == [] || (Enabled(n, events[0]) && ValidRun(Apply(n, events[0]), events[1..]))
  }

  function RunOf(n: Node, events: seq<Event>): Node
    requires ValidRun(n, events)
    decreases |events|
  {
    if events == [] then n else RunOf(Apply(n, events[0]), events[1..])
  }

  /** No call in flight, no temporary files of ours, every mount point is a directory. */
  ghost predicate Idle(n: Node) {
    && n.calls == map[] && n.temps == map[] && n.leaked == {} && n.stuck == {}
    && n.halfMade == 0 && n.unwritten == 0
    && (forall p :: Depth(n, p) > 0 ==> p in n.dirs)
  }
}
