/** Publishing a tale: what is created on the DataONE member node, in what order, and what refers to what. */
module Publish {
  import opened Options
  import opened Checksums
  import opened Items
  import Eml
  import PackageUrls

  type Pid = string

  datatype Body =
    | Data(bytes: seq<Byte>)
    | Document(text: string)
    | Metadata(emlPid: Pid, entities: seq<Eml.Entity>)
    | ResourceMap(mapPid: Pid, emlPid: Pid, objects: seq<Option<Pid>>)

  /** What becomes of a create call: accepted, refused with a DataONEException, or ended by an IOError. */
  datatype Answer = Accepted | Refused | Broken

  /** One `create` call to the member node. */
  datatype Create<H> = Create(pid: Pid, body: Body, checksum: H, size: int, answer: Answer)

  /**
    What is outside: the hash, how metadata and maps become bytes, the pids uuid4 gives, and what the node
    answers. Each pid drawn goes into the next create call, so both are numbered by the calls.
   */
  datatype World<!H> = World(
    hash: Hash<H>, serial: Body -> seq<Byte>, uuid: nat -> Pid, answer: nat -> Answer)

  datatype Repository = Unavailable | CopyFails | Archive(bytes: seq<Byte>)

  /** `license`: the text of the license file and its length, if it can be read. */
  datatype Request = Request(
    userId: Option<string>, items: seq<ItemId>, girder: Girder, yaml: Option<string>,
    licenseId: string, license: Option<(string, nat)>, repository: Repository, node: string)

  datatype Exception = NoFile | YamlFails | KeyError | ValueError | IOError

  datatype Outcome = Url(url: Option<string>) | Message | Raised(e: Exception)

  predicate KnownLicense(id: string) {
    id == "CC0-1.0" || id == "CC-BY-3.0" || id == "CC-BY-4.0"
  }

  function BytesOf<H>(w: World<H>, body: Body): seq<Byte> {
    match body
    case Data(bytes) => bytes
    case Document(text) => Utf8(text)
    case _ => w.serial(body)
  }

  /** The next create call, with the checksum in its system metadata. */
  function Upload<H>(w: World<H>, log: seq<Create<H>>, body: Body, size: int): seq<Create<H>> {
    log + [Create(w.uuid(|log|), body, HashOf(w.hash, BytesOf(w, body)), size, w.answer(|log|))]
  }

  /** None of the calls numbered `from` to `to` breaks. */
  predicate Unbroken<H>(w: World<H>, from: nat, to: nat) {
    forall k :: from <= k < to ==> w.answer(k) != Broken
  }

  /** One call for each file, up to the first that breaks. */
  function UploadAll<H>(w: World<H>, log: seq<Create<H>>, files: seq<File>): seq<Create<H>>
    decreases |files|
  {
    if files == [] then log
    else
      var log1 := Upload(w, log, Data(files[0].bytes), files[0].size);
      if w.answer(|log|) == Broken then log1 else UploadAll(w, log1, files[1..])
  }

  /** The pids numbered `from` to `to`. */
  function Uuids<H>(w: World<H>, from: nat, to: nat): (r: seq<Option<Pid>>)
    requires from <= to
    ensures |r| == to - from && forall i :: 0 <= i < |r| ==> r[i] == Some(w.uuid(from + i))
  {
    seq(to - from, i requires 0 <= i < to - from => Some(w.uuid(from + i)))
  }

  // ----- the pipeline as a value -----

  function LicenseStep<H>(w: World<H>, log: seq<Create<H>>, license: Option<(string, nat)>)
    : (seq<Create<H>>, Option<Pid>, nat)
  {
    match license
    case None => (log, None, 0)
    case Some((text, length)) =>
      (Upload(w, log, Document(text), |BytesOf(w, Document(text))|), Some(w.uuid(|log|)), length)
  }

  /** An IOError of the create call counts like a repository that cannot be had. */
  function RepositoryStep<H>(w: World<H>, log: seq<Create<H>>, repository: Repository)
    : (seq<Create<H>>, Option<Pid>, nat)
  {
    match repository
    case Archive(bytes) =>
      var log1 := Upload(w, log, Data(bytes), |bytes|);
      if w.answer(|log|) == Broken then (log1, None, 0) else (log1, Some(w.uuid(|log|)), |bytes|)
    case _ => (log, None, 0)
  }

  /** The metadata and then the resource map; false if one of the two calls breaks. */
  function Finish<H>(
    w: World<H>, log: seq<Create<H>>, entities: seq<Eml.Entity>, objects: seq<Option<Pid>>)
    : (seq<Create<H>>, bool)
  {
    var eml := Metadata(w.uuid(|log|), entities);
    var log1 := Upload(w, log, eml, |BytesOf(w, eml)|);
    if w.answer(|log|) == Broken then (log1, false)
    else
      var resmap := ResourceMap(w.uuid(|log1|), w.uuid(|log|), objects);
      (Upload(w, log1, resmap, |BytesOf(w, resmap)|), w.answer(|log1|) != Broken)
  }

  /** The metadata records of the package. */
  function Described(r: Request, s: Sorted, licenseSize: nat, repositorySize: nat): seq<Eml.Entity>
    requires AllHaveFiles(r.girder, EmlItems(s)) && r.yaml.Some?
  {
    Eml.Entities(r.girder, EmlItems(s), Eml.FileSizes(|r.yaml.value|, licenseSize, repositorySize))
  }

  /** The objects are uploaded, or the run has stopped before that. */
  datatype Gathering<H> =
    | Stopped(log: seq<Create<H>>, e: Exception)
    | Gathered(log: seq<Create<H>>, objects: seq<Option<Pid>>, licenseSize: nat, repositorySize: nat)

  function Gather<H>(w: World<H>, log: seq<Create<H>>, r: Request, files: seq<File>): (g: Gathering<H>)
    ensures g.Gathered? ==> r.yaml.Some?
  {
    var log1 := UploadAll(w, log, files);
    if !Unbroken(w, |log|, |log| + |files|) then Stopped(log1, IOError)
    else if r.yaml.None? then Stopped(log1, YamlFails)
    else
      var yaml := Document(r.yaml.value);
      var log2 := Upload(w, log1, yaml, |BytesOf(w, yaml)|);
      if w.answer(|log1|) == Broken then Stopped(log2, IOError)
      else if !KnownLicense(r.licenseId) then Stopped(log2, KeyError)
      else
        var (log3, licensePid, licenseSize) := LicenseStep(w, log2, r.license);
        if r.license.Some? && w.answer(|log2|) == Broken then Stopped(log3, IOError)
        else if r.repository.CopyFails? then Stopped(log3, ValueError)
        else
          var (log4, repositoryPid, repositorySize) := RepositoryStep(w, log3, r.repository);
          Gathered(log4, Uuids(w, |log|, |log| + |files|) + [Some(w.uuid(|log1|)), licensePid, repositoryPid],
                   licenseSize, repositorySize)
  }

  /** publish_tale, given what has been created before. */
  function Published<H>(w: World<H>, log: seq<Create<H>>, r: Request): (seq<Create<H>>, Outcome) {
    if r.userId.None? then (log, Message)
    else if !AllHaveFiles(r.girder, r.items) then (log, Raised(NoFile))
    else
      EmlItemsArePermuted(r.girder, r.items);
      var s := SortedItems(r.girder, r.items);
      match Gather(w, log, r, s.localFiles)
      case Stopped(log', e) => (log', Raised(e))
      case Gathered(log4, objects, licenseSize, repositorySize) =>
        var (log5, done) := Finish(w, log4, Described(r, s, licenseSize, repositorySize), objects);
        (log5, if done then Url(PackageUrls.PackageUrl(r.node, w.uuid(|log4| + 1))) else Raised(IOError))
  }

  lemma PublishedIs<H>(w: World<H>, log: seq<Create<H>>, r: Request)
    requires r.userId.Some? && AllHaveFiles(r.girder, r.items)
    ensures AllHaveFiles(r.girder, EmlItems(SortedItems(r.girder, r.items)))
    ensures var s := SortedItems(r.girder, r.items);
            match Gather(w, log, r, s.localFiles)
            case Stopped(log', e) => Published(w, log, r) == (log', Raised(e))
            case Gathered(log4, objects, licenseSize, repositorySize) =>
              var (log5, done) := Finish(w, log4, Described(r, s, licenseSize, repositorySize), objects);
              && Published(w, log, r).0 == log5
              && Published(w, log, r).1
                 == if done then Url(PackageUrls.PackageUrl(r.node, w.uuid(|log4| + 1))) else Raised(IOError)
  {
    hide Gather, Finish, Described, SortedItems, EmlItems, PackageUrls.PackageUrl;
    EmlItemsArePermuted(r.girder, r.items);
  }

  // ----- external files -----

  datatype Reference<H> = Reference(url: string, md5: H)

  predicate Linked(g: Girder, id: ItemId) {
    g.file(id).Some? && g.file(id).value.link.Some?
  }

  predicate Fetched(g: Girder, id: ItemId, fetch: string -> Option<seq<Byte>>) {
    Linked(g, id) ==> fetch(g.file(id).value.link.value).Some?
  }

  /** Number `i` is the last of the linked files of that name. */
  ghost predicate LastNamed(g: Girder, ids: seq<ItemId>, i: nat, name: string) {
    && i < |ids| && Linked(g, ids[i]) && g.file(ids[i]).value.name == name
    && forall j :: i < j < |ids| && Linked(g, ids[j]) ==> g.file(ids[j]).value.name != name
  }

  /**
    The entries of the external files, by file name. Each has the URL of the last file of that name, and,
    whatever the file is, the checksum of nothing: the temporary file is hashed from its end. If some
    file cannot be fetched there is no result: the error of urlopen is not one that is caught.
   */
  method CreateExternalObjectStructure<H>(
    hash: Hash<H>, g: Girder, ids: seq<ItemId>, fetch: string -> Option<seq<Byte>>)
    returns (r: Option<map<string, Reference<H>>>)
    ensures r.Some? <==> forall id :: id in ids ==> Fetched(g, id, fetch)
    ensures r.Some? ==> forall id :: id in ids && Linked(g, id) ==> g.file(id).value.name in r.value
    ensures r.Some? ==> forall name :: name in r.value ==>
      && r.value[name].md5 == HashOf(hash, [])
      && exists i: nat :: LastNamed(g, ids, i, name) && g.file(ids[i]).value.link == Some(r.value[name].url)
  {
    var references: map<string, Reference<H>> := map[];
    for i := 0 to |ids|
      invariant forall id :: id in ids[..i] ==> Fetched(g, id, fetch)
      invariant forall id :: id in ids[..i] && Linked(g, id) ==> g.file(id).value.name in references
      invariant forall name :: name in references ==>
        && references[name].md5 == HashOf(hash, [])
        && exists k: nat :: LastNamed(g, ids[..i], k, name) && g.file(ids[k]).value.link == Some(references[name].url)
    {
      var file := g.file(ids[i]);
      assert ids[..i + 1] == ids[..i] + [ids[i]];
      if file.Some? && file.value.link.Some? {
        var url := file.value.link.value;
        var content := fetch(url);
        if content == None {
          assert ids[i] in ids;
          return None;
        }
        var md5 := HashExternal(hash, content.value);
        references := references[file.value.name := Reference(url, md5)];
      }
    }
    assert ids[..|ids|] == ids;
    return Some(references);
  }

  // ----- the program -----

  class Client<H> {
    const w: World<H>
    var log: seq<Create<H>>

    constructor (w: World<H>)
      ensures this.w == w && log == []
    {
      this.w := w;
      log := [];
    }

    /**
      client.create. A refusal is turned into a text that nobody looks at; any other error is raised:
      `raised`.
     */
    method UploadFile(pid: Pid, body: Body, checksum: H, size: int) returns (raised: bool, message: Option<string>)
      modifies this
      ensures log == old(log) + [Create(pid, body, checksum, size, w.answer(|old(log)|))]
      ensures raised <==> w.answer(|old(log)|) == Broken
    {
      var answer := w.answer(|log|);
      log := log + [Create(pid, body, checksum, size, answer)];
      raised := answer == Broken;
      message := if answer == Refused then Some("Error uploading file to DataONE.") else None;
    }

    /** A document goes up with the checksum and the size of its bytes. */
    method UploadDocument(pid: Pid, body: Body) returns (raised: bool)
      requires pid == w.uuid(|log|) && !body.Data?
      modifies this
      ensures log == Upload(w, old(log), body, |BytesOf(w, body)|) && (raised <==> w.answer(|old(log)|) == Broken)
    {
      var bytes := BytesOf(w, body);
      var message;
      raised, message := UploadFile(pid, body, HashOf(w.hash, bytes), |bytes|);
    }

    method CreateUploadObjectMetadata(file: File) returns (raised: bool, pid: Pid)
      modifies this
      ensures pid == w.uuid(|old(log)|) && log == Upload(w, old(log), Data(file.bytes), file.size)
      ensures raised <==> w.answer(|old(log)|) == Broken
    {
      pid := w.uuid(|log|);
      var md5, uploaded := HashAndUpload(w.hash, file.bytes);
      var message;
      raised, message := UploadFile(pid, Data(uploaded), md5, file.size);
    }

    method CreateUploadTaleYaml(text: string) returns (raised: bool, pid: Pid, length: nat)
      modifies this
      ensures pid == w.uuid(|old(log)|) && length == |text|
      ensures log == Upload(w, old(log), Document(text), |BytesOf(w, Document(text))|)
      ensures raised <==> w.answer(|old(log)|) == Broken
    {
      pid := w.uuid(|log|);
      raised := UploadDocument(pid, Document(text));
      length := |text|;
    }

    method UploadLicenseFile(license: Option<(string, nat)>) returns (raised: bool, pid: Option<Pid>, size: nat)
      modifies this
      ensures (log, pid, size) == LicenseStep(w, old(log), license)
      ensures raised <==> license.Some? && w.answer(|old(log)|) == Broken
    {
      if license == None {
        return false, None, 0;
      }
      var id := w.uuid(|log|);
      raised := UploadDocument(id, Document(license.value.0));
      return raised, Some(id), license.value.1;
    }

    /** Instead of a pair the result is an error message when copying fails: `failed`. */
    method CreateUploadRepository(repository: Repository) returns (failed: bool, pid: Option<Pid>, size: nat)
      modifies this
      ensures (failed <==> repository.CopyFails?) && (failed ==> log == old(log))
      ensures (log, pid, size) == RepositoryStep(w, old(log), repository)
    {
      if repository.Unavailable? {
        return false, None, 0;
      }
      var temp := new FileHandle();
      if repository.CopyFails? {
        return true, None, 0;
      }
      temp.CopyFrom(repository.bytes);
      var id := w.uuid(|log|);
      temp.SeekStart();
      var hashed := temp.ReadAll();
      var md5 := HashOf(w.hash, hashed);
      temp.SeekStart();
      var uploaded := temp.ReadAll();
      assert temp.bytes[0..] == repository.bytes;
      var raised, _ := UploadFile(id, Data(uploaded), md5, |hashed|);
      if raised {
        return false, None, 0;
      }
      return false, Some(id), |temp.bytes|;
    }

    method CreateUploadEml(girder: Girder, ids: seq<ItemId>, sizes: Eml.FileSizes) returns (raised: bool, pid: Pid)
      requires AllHaveFiles(girder, ids)
      modifies this
      ensures pid == w.uuid(|old(log)|) && (raised <==> w.answer(|old(log)|) == Broken)
      ensures var eml := Metadata(pid, Eml.Entities(girder, ids, sizes));
              log == Upload(w, old(log), eml, |BytesOf(w, eml)|)
    {
      pid := w.uuid(|log|);
      var entities := Eml.CreateMinimumEml(girder, ids, sizes);
      raised := UploadDocument(pid, Metadata(pid, entities.value));
    }

    method CreateUploadResmap(resmapPid: Pid, emlPid: Pid, objects: seq<Option<Pid>>) returns (raised: bool)
      requires resmapPid == w.uuid(|log|)
      modifies this
      ensures raised <==> w.answer(|old(log)|) == Broken
      ensures var resmap := ResourceMap(resmapPid, emlPid, objects);
              log == Upload(w, old(log), resmap, |BytesOf(w, resmap)|)
    {
      raised := UploadDocument(resmapPid, ResourceMap(resmapPid, emlPid, objects));
    }

    method UploadLocalFiles(files: seq<File>) returns (raised: bool, pids: seq<Option<Pid>>)
      modifies this
      ensures log == UploadAll(w, old(log), files)
      ensures raised <==> !Unbroken(w, |old(log)|, |old(log)| + |files|)
      ensures !raised ==> pids == Uuids(w, |old(log)|, |old(log)| + |files|) && |log| == |old(log)| + |files|
    {
      pids := [];
      for i := 0 to |files|
        invariant |log| == |old(log)| + i
        invariant UploadAll(w, log, files[i..]) == UploadAll(w, old(log), files)
        invariant Unbroken(w, |old(log)|, |old(log)| + i)
        invariant pids == Uuids(w, |old(log)|, |old(log)| + i)
      {
        assert files[i..][1..] == files[i + 1..] && files[i..][0] == files[i];
        ghost var k := |log|;
        var broken, pid := CreateUploadObjectMetadata(files[i]);
        if broken {
          assert w.answer(k) == Broken && k < |old(log)| + |files|;
          return true, [];
        }
        pids := pids + [Some(pid)];
      }
      raised := false;
    }

    method PublishTale(r: Request) returns (outcome: Outcome)
      modifies this
      ensures (log, outcome) == Published(w, old(log), r)
    {
      if r.userId == None {
        return Message;
      }
      var filtered := FilterItems(r.girder, r.items);
      if filtered == None {
        return Raised(NoFile);
      }
      EmlItemsArePermuted(r.girder, r.items);
      var s := filtered.value;
      hide Gather, Finish, Described, EmlItems, SortedItems;
      var e, objects, licenseSize, repositorySize := UploadObjects(r, s.localFiles);
      if e != None {
        return Raised(e.value);
      }
      outcome := Conclude(r, s, licenseSize, repositorySize, objects);
    }

    /** publish_tale up to the metadata; `e` is the exception raised, if any. */
    method UploadObjects(r: Request, files: seq<File>)
      returns (e: Option<Exception>, objects: seq<Option<Pid>>, licenseSize: nat, repositorySize: nat)
      modifies this
      ensures Gather(w, old(log), r, files)
           == match e
              case Some(x) => Stopped(log, x)
              case None => Gathered(log, objects, licenseSize, repositorySize)
    {
      hide Upload, UploadAll, Unbroken, LicenseStep, RepositoryStep;
      e, objects, licenseSize, repositorySize := None, [], 0, 0;
      var raised, localFilePids := UploadLocalFiles(files);
      if raised {
        e := Some(IOError);
        return;
      }
      if r.yaml == None {
        e := Some(YamlFails);
        return;
      }
      var yamlPid, yamlLength;
      raised, yamlPid, yamlLength := CreateUploadTaleYaml(r.yaml.value);
      if raised {
        e := Some(IOError);
        return;
      }
      if !KnownLicense(r.licenseId) {
        e := Some(KeyError);
        return;
      }
      var licensePid;
      raised, licensePid, licenseSize := UploadLicenseFile(r.license);
      if raised {
        e := Some(IOError);
        return;
      }
      var failed, repositoryPid;
      failed, repositoryPid, repositorySize := CreateUploadRepository(r.repository);
      if failed {
        e := Some(ValueError);
        return;
      }
      objects := localFilePids + [Some(yamlPid), licensePid, repositoryPid];
    }

    /** The end of publish_tale: the metadata, and the resource map over all objects. */
    method Conclude(
      r: Request, s: Sorted, licenseSize: nat, repositorySize: nat, objects: seq<Option<Pid>>)
      returns (outcome: Outcome)
      requires AllHaveFiles(r.girder, EmlItems(s)) && r.yaml.Some?
      modifies this
      ensures var (log', done) := Finish(w, old(log), Described(r, s, licenseSize, repositorySize), objects);
              && log == log'
              && outcome == (if done then Url(PackageUrls.PackageUrl(r.node, w.uuid(|old(log)| + 1)))
                             else Raised(IOError))
    {
      hide Eml.Entities, EmlItems;
      var sizes := Eml.FileSizes(|r.yaml.value|, licenseSize, repositorySize);
      var raised, emlPid := CreateUploadEml(r.girder, EmlItems(s), sizes);
      if raised {
        return Raised(IOError);
      }
      var resmapPid := w.uuid(|log|);
      raised := CreateUploadResmap(resmapPid, emlPid, objects);
      if raised {
        return Raised(IOError);
      }
      return Url(PackageUrls.PackageUrl(r.node, resmapPid));
    }
  }
}
