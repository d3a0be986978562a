/** What every run of publish_tale leaves on the member node. */
module Package {
  import opened Options
  import opened Checksums
  import opened Items
  import opened Publish
  import Eml
  import PackageUrls

  /** The k-th create call of all has the k-th pid, the node's k-th answer, and the checksum of its own bytes. */
  ghost predicate Honest<H>(w: World<H>, c: Create<H>, k: nat) {
    && c.pid == w.uuid(k) && c.answer == w.answer(k) && c.checksum == HashOf(w.hash, BytesOf(w, c.body))
    && (!c.body.Data? ==> c.size == |BytesOf(w, c.body)|)
  }

  /** `log'` is `log` and then `count` more calls. */
  ghost predicate Grows<H>(w: World<H>, log: seq<Create<H>>, log': seq<Create<H>>, count: nat) {
    && |log'| == |log| + count && log <= log'
    && forall k :: |log| <= k < |log'| ==> Honest(w, log'[k], k)
  }

  lemma GrowsOn<H>(w: World<H>, a: seq<Create<H>>, b: seq<Create<H>>, c: seq<Create<H>>, m: nat, n: nat)
    requires Grows(w, a, b, m) && Grows(w, b, c, n)
    ensures Grows(w, a, c, m + n)
  {
    forall k | |a| <= k < |c| ensures Honest(w, c[k], k) {
      if k < |b| {
        assert c[k] == b[k];
      }
    }
  }

  lemma UploadGrows<H>(w: World<H>, log: seq<Create<H>>, body: Body, size: int)
    requires !body.Data? ==> size == |BytesOf(w, body)|
    ensures Grows(w, log, Upload(w, log, body, size), 1)
    ensures Upload(w, log, body, size)[|log|].body == body && Upload(w, log, body, size)[|log|].size == size
  {
  }

  ghost predicate Holds<H>(c: Create<H>, f: File) {
    c.body == Data(f.bytes) && c.size == f.size
  }

  lemma {:induction false} UploadAllGrows<H>(w: World<H>, log: seq<Create<H>>, files: seq<File>)
    ensures var log' := UploadAll(w, log, files);
            && |log| <= |log'| <= |log| + |files| && Grows(w, log, log', |log'| - |log|)
            && (forall i :: 0 <= i < |log'| - |log| ==> Holds(log'[|log| + i], files[i]))
            && (Unbroken(w, |log|, |log| + |files|) ==> |log'| == |log| + |files|)
    decreases |files|
  {
    if files != [] {
      var log1 := Upload(w, log, Data(files[0].bytes), files[0].size);
      UploadGrows(w, log, Data(files[0].bytes), files[0].size);
      if w.answer(|log|) != Broken {
        UploadAllGrows(w, log1, files[1..]);
        var log' := UploadAll(w, log, files);
        hide Upload, Honest, UploadAll;
        GrowsOn(w, log, log1, log', 1, |log'| - |log1|);
        forall i | 0 <= i < |log'| - |log| ensures Holds(log'[|log| + i], files[i]) {
          if i == 0 {
            assert log'[|log|] == log1[|log|];
          } else {
            assert files[i] == files[1..][i - 1];
            assert Holds(log'[|log1| + (i - 1)], files[1..][i - 1]);
          }
        }
      }
    }
  }

  predicate IsObject<H>(c: Create<H>) {
    c.body.Data? || c.body.Document?
  }

  /** Only objects, no metadata and no resource map, from `from` on. */
  ghost predicate OnlyObjects<H>(log: seq<Create<H>>, from: nat) {
    forall k :: from <= k < |log| ==> IsObject(log[k])
  }

  // ----- the state before the metadata -----

  function Log1<H>(w: World<H>, log: seq<Create<H>>, r: Request): seq<Create<H>>
    requires AllHaveFiles(r.girder, r.items)
  {
    UploadAll(w, log, SortedItems(r.girder, r.items).localFiles)
  }

  function Log2<H>(w: World<H>, log: seq<Create<H>>, r: Request): seq<Create<H>>
    requires AllHaveFiles(r.girder, r.items) && r.yaml.Some?
  {
    Upload(w, Log1(w, log, r), Document(r.yaml.value), |BytesOf(w, Document(r.yaml.value))|)
  }

  function Log3<H>(w: World<H>, log: seq<Create<H>>, r: Request): seq<Create<H>>
    requires AllHaveFiles(r.girder, r.items) && r.yaml.Some?
  {
    LicenseStep(w, Log2(w, log, r), r.license).0
  }

  function Log4<H>(w: World<H>, log: seq<Create<H>>, r: Request): seq<Create<H>>
    requires AllHaveFiles(r.girder, r.items) && r.yaml.Some?
  {
    RepositoryStep(w, Log3(w, log, r), r.repository).0
  }

  /** How many local files there are. */
  function Locals(r: Request): nat {
    |At(r.girder, r.items, Here)|
  }

  /** How many calls come before that for the archive, and before that for the metadata. */
  function BeforeArchive(r: Request): nat {
    Locals(r) + 1 + Eml.OneIf(r.license.Some?)
  }

  function BeforeMetadata(r: Request): nat {
    BeforeArchive(r) + Eml.OneIf(r.repository.Archive?)
  }

  lemma Log1Grows<H>(w: World<H>, log: seq<Create<H>>, r: Request)
    requires AllHaveFiles(r.girder, r.items)
    ensures var log1 := Log1(w, log, r);
            && |log| <= |log1| && Grows(w, log, log1, |log1| - |log|) && OnlyObjects(log1, |log|)
            && (Unbroken(w, |log|, |log| + Locals(r)) ==> |log1| == |log| + Locals(r))
  {
    var files := SortedItems(r.girder, r.items).localFiles;
    UploadAllGrows(w, log, files);
    forall k | |log| <= k < |Log1(w, log, r)| ensures IsObject(Log1(w, log, r)[k]) {
      assert Holds(Log1(w, log, r)[|log| + (k - |log|)], files[k - |log|]);
    }
  }

  /** One more call, or none. */
  lemma MoreObjects<H>(w: World<H>, log: seq<Create<H>>, a: seq<Create<H>>, b: seq<Create<H>>, m: nat)
    requires Grows(w, log, a, m) && OnlyObjects(a, |log|)
    requires a == b || (Grows(w, a, b, 1) && IsObject(b[|a|]))
    ensures Grows(w, log, b, m + |b| - |a|) && OnlyObjects(b, |log|)
  {
    if a != b {
      GrowsOn(w, log, a, b, m, 1);
      forall k | |log| <= k < |b| ensures IsObject(b[k]) {
        if k < |a| {
          assert b[k] == a[k];
        }
      }
    }
  }

  /** The calls before the metadata: local files, tale.yml, and the license and the archive if there. */
  lemma ObjectsFirst<H>(w: World<H>, log: seq<Create<H>>, r: Request)
    requires AllHaveFiles(r.girder, r.items) && r.yaml.Some? && Unbroken(w, |log|, |log| + Locals(r))
    ensures Grows(w, log, Log2(w, log, r), Locals(r) + 1) && OnlyObjects(Log2(w, log, r), |log|)
    ensures Grows(w, log, Log3(w, log, r), BeforeArchive(r)) && OnlyObjects(Log3(w, log, r), |log|)
    ensures Grows(w, log, Log4(w, log, r), BeforeMetadata(r)) && OnlyObjects(Log4(w, log, r), |log|)
    ensures Log1(w, log, r) <= Log2(w, log, r) <= Log3(w, log, r) <= Log4(w, log, r)
  {
    Log1Grows(w, log, r);
    var log1, log2, log3, log4 := Log1(w, log, r), Log2(w, log, r), Log3(w, log, r), Log4(w, log, r);
    UploadGrows(w, log1, Document(r.yaml.value), |BytesOf(w, Document(r.yaml.value))|);
    MoreObjects(w, log, log1, log2, Locals(r));
    if r.license.Some? {
      var text := r.license.value.0;
      UploadGrows(w, log2, Document(text), |BytesOf(w, Document(text))|);
    }
    MoreObjects(w, log, log2, log3, Locals(r) + 1);
    if r.repository.Archive? {
      UploadGrows(w, log3, Data(r.repository.bytes), |r.repository.bytes|);
    }
    hide Upload, Log1, Grows, OnlyObjects, Unbroken;
    MoreObjects(w, log, log3, log4, BeforeArchive(r));
  }

  // ----- whole runs -----

  /** The run gets to the metadata: nothing is missing, and no call before the archive breaks. */
  ghost predicate Passed<H>(w: World<H>, log: seq<Create<H>>, r: Request) {
    && r.userId.Some? && AllHaveFiles(r.girder, r.items) && r.yaml.Some? && KnownLicense(r.licenseId)
    && !r.repository.CopyFails? && Unbroken(w, |log|, |log| + BeforeArchive(r))
  }

  /** The run gets to its end: the two last calls do not break either. */
  ghost predicate Finished<H>(w: World<H>, log: seq<Create<H>>, r: Request) {
    Passed(w, log, r) && Unbroken(w, |log| + BeforeMetadata(r), |log| + BeforeMetadata(r) + 2)
  }

  function After<H>(w: World<H>, log: seq<Create<H>>, r: Request): seq<Create<H>> {
    Published(w, log, r).0
  }

  /** What the last two calls of a finished run carry. */
  function Objects<H>(w: World<H>, log: seq<Create<H>>, r: Request): seq<Option<Pid>>
    requires Passed(w, log, r)
  {
    Uuids(w, |log|, |log| + Locals(r))
    + [Some(w.uuid(|Log1(w, log, r)|)), LicenseStep(w, Log2(w, log, r), r.license).1,
       RepositoryStep(w, Log3(w, log, r), r.repository).1]
  }

  function Entities<H>(w: World<H>, log: seq<Create<H>>, r: Request): seq<Eml.Entity>
    requires Passed(w, log, r)
  {
    EmlItemsArePermuted(r.girder, r.items);
    Described(r, SortedItems(r.girder, r.items), LicenseStep(w, Log2(w, log, r), r.license).2,
              RepositoryStep(w, Log3(w, log, r), r.repository).2)
  }

  lemma UnbrokenParts<H>(w: World<H>, n: nat, r: Request)
    ensures Unbroken(w, n, n + BeforeArchive(r))
       <==> && Unbroken(w, n, n + Locals(r)) && w.answer(n + Locals(r)) != Broken
            && (r.license.Some? ==> w.answer(n + Locals(r) + 1) != Broken)
  {
  }

  lemma Lengths<H>(w: World<H>, log: seq<Create<H>>, r: Request)
    requires AllHaveFiles(r.girder, r.items) && r.yaml.Some? && Unbroken(w, |log|, |log| + Locals(r))
    ensures |SortedItems(r.girder, r.items).localFiles| == Locals(r)
    ensures |Log1(w, log, r)| == |log| + Locals(r) && |Log2(w, log, r)| == |log| + Locals(r) + 1
    ensures |Log3(w, log, r)| == |log| + BeforeArchive(r) && |Log4(w, log, r)| == |log| + BeforeMetadata(r)
  {
    Log1Grows(w, log, r);
    ObjectsFirst(w, log, r);
    hide Log1, Log2, Log3, Log4, OnlyObjects, Honest;
  }

  /** How far Gather gets, in terms of the logs above. */
  lemma Gathers<H>(w: World<H>, log: seq<Create<H>>, r: Request)
    requires Passed(w, log, r)
    ensures Gather(w, log, r, SortedItems(r.girder, r.items).localFiles)
         == Gathered(Log4(w, log, r), Objects(w, log, r), LicenseStep(w, Log2(w, log, r), r.license).2,
                     RepositoryStep(w, Log3(w, log, r), r.repository).2)
  {
    UnbrokenParts(w, |log|, r);
    Lengths(w, log, r);
    hide UploadAll, Upload, LicenseStep, RepositoryStep, Unbroken, Uuids, SortedItems, EmlItems;
  }

  lemma PassedEnds<H>(w: World<H>, log: seq<Create<H>>, r: Request)
    requires Passed(w, log, r)
    ensures After(w, log, r) == Finish(w, Log4(w, log, r), Entities(w, log, r), Objects(w, log, r)).0
    ensures Published(w, log, r).1
         == (if Finish(w, Log4(w, log, r), Entities(w, log, r), Objects(w, log, r)).1
             then Url(PackageUrls.PackageUrl(r.node, w.uuid(|Log4(w, log, r)| + 1))) else Raised(IOError))
  {
    hide Published, Gather, Log2, Log3, Log4, LicenseStep, RepositoryStep, Finish, Described, PackageUrls.PackageUrl;
    hide Unbroken, SortedItems, EmlItems, Objects, BeforeArchive;
    Gathers(w, log, r);
    PublishedIs(w, log, r);
  }

  lemma GatherStops<H>(w: World<H>, log: seq<Create<H>>, r: Request)
    requires AllHaveFiles(r.girder, r.items) && r.userId.Some? && !Passed(w, log, r)
    ensures var g := Gather(w, log, r, SortedItems(r.girder, r.items).localFiles);
            && g.Stopped?
            && (|| g.log == Log1(w, log, r)
                || (r.yaml.Some? && Unbroken(w, |log|, |log| + Locals(r))
                    && (g.log == Log2(w, log, r) || g.log == Log3(w, log, r))))
  {
    UnbrokenParts(w, |log|, r);
    if r.yaml.Some? && Unbroken(w, |log|, |log| + Locals(r)) {
      Lengths(w, log, r);
    }
    hide UploadAll, Upload, LicenseStep, RepositoryStep, Unbroken, Uuids, EmlItems;
  }

  lemma StopsEarly<H>(w: World<H>, log: seq<Create<H>>, r: Request)
    requires !Passed(w, log, r)
    ensures !Published(w, log, r).1.Url?
    ensures After(w, log, r) == log
         || (AllHaveFiles(r.girder, r.items) && After(w, log, r) == Log1(w, log, r))
         || (AllHaveFiles(r.girder, r.items) && r.yaml.Some? && Unbroken(w, |log|, |log| + Locals(r))
             && (After(w, log, r) == Log2(w, log, r) || After(w, log, r) == Log3(w, log, r)))
  {
    if AllHaveFiles(r.girder, r.items) && r.userId.Some? {
      GatherStops(w, log, r);
    }
    hide Gather, Log1, Log2, Log3, Unbroken, SortedItems, EmlItems, Passed, Finish, Described;
  }

  lemma FinishGrows<H>(w: World<H>, log: seq<Create<H>>, entities: seq<Eml.Entity>, objects: seq<Option<Pid>>)
    ensures var (log', done) := Finish(w, log, entities, objects);
            && |log| < |log'| <= |log| + 2 && Grows(w, log, log', |log'| - |log|)
            && log'[|log|].body == Metadata(w.uuid(|log|), entities)
            && (done <==> Unbroken(w, |log|, |log| + 2))
            && (done ==> |log'| == |log| + 2)
            && (|log'| == |log| + 2 ==>
                  log'[|log| + 1].body == ResourceMap(w.uuid(|log| + 1), w.uuid(|log|), objects))
  {
  }

  /**
    In every run, finished or not, nothing earlier changes, and each new call has a new pid and the
    checksum of its own bytes.
   */
  lemma EveryChecksumAgrees<H>(w: World<H>, log: seq<Create<H>>, r: Request)
    ensures log <= After(w, log, r)
    ensures forall k :: |log| <= k < |After(w, log, r)| ==> Honest(w, After(w, log, r)[k], k)
  {
    if Passed(w, log, r) {
      UnbrokenParts(w, |log|, r);
      ObjectsFirst(w, log, r);
      var log4 := Log4(w, log, r);
      PassedEnds(w, log, r);
      FinishGrows(w, log4, Entities(w, log, r), Objects(w, log, r));
      hide Published, Finish, Log4, Entities, Objects;
      GrowsOn(w, log, log4, After(w, log, r), |log4| - |log|, |After(w, log, r)| - |log4|);
    } else {
      StopsEarly(w, log, r);
      if AllHaveFiles(r.girder, r.items) {
        Log1Grows(w, log, r);
        if r.yaml.Some? && Unbroken(w, |log|, |log| + Locals(r)) {
          ObjectsFirst(w, log, r);
        }
      }
      hide Published, Log1, Log2, Log3, Log4;
    }
  }

  /** The resource map is accepted only as the end of a whole package. */
  ghost predicate NoMap<H>(log: seq<Create<H>>, from: nat) {
    forall k :: from <= k < |log| && log[k].body.ResourceMap? ==> log[k].answer == Broken
  }

  /** A run answers with a URL exactly if it finishes; a run that does not has no resource map accepted. */
  lemma NoMapWithoutPackage<H>(w: World<H>, log: seq<Create<H>>, r: Request)
    ensures Published(w, log, r).1.Url? <==> Finished(w, log, r)
    ensures !Published(w, log, r).1.Url? ==> NoMap(After(w, log, r), |log|)
  {
    if Passed(w, log, r) {
      UnbrokenParts(w, |log|, r);
      ObjectsFirst(w, log, r);
      PassedEnds(w, log, r);
      UnfinishedMap(w, log, r);
    } else {
      StopsEarly(w, log, r);
      if AllHaveFiles(r.girder, r.items) {
        Log1Grows(w, log, r);
        if r.yaml.Some? && Unbroken(w, |log|, |log| + Locals(r)) {
          ObjectsFirst(w, log, r);
        }
      }
      hide Published, Log1, Log2, Log3, Log4;
    }
  }

  lemma UnfinishedMap<H>(w: World<H>, log: seq<Create<H>>, r: Request)
    requires Passed(w, log, r)
    ensures Finish(w, Log4(w, log, r), Entities(w, log, r), Objects(w, log, r)).1 <==> Finished(w, log, r)
    ensures !Finished(w, log, r) ==>
              NoMap(Finish(w, Log4(w, log, r), Entities(w, log, r), Objects(w, log, r)).0, |log|)
  {
    UnbrokenParts(w, |log|, r);
    ObjectsFirst(w, log, r);
    FinishGrows(w, Log4(w, log, r), Entities(w, log, r), Objects(w, log, r));
    hide Finish, Log4, Entities, Objects, Log1, Log2, Log3, Honest, Unbroken;
    NoMapYet(w, log, Log4(w, log, r), Entities(w, log, r), Objects(w, log, r), BeforeMetadata(r));
  }

  lemma NoMapYet<H>(w: World<H>, log: seq<Create<H>>, log4: seq<Create<H>>, entities: seq<Eml.Entity>,
                    objects: seq<Option<Pid>>, count: nat)
    requires Grows(w, log, log4, count) && OnlyObjects(log4, |log|)
    ensures var (log', done) := Finish(w, log4, entities, objects);
            !done ==> NoMap(log', |log|)
  {
    hide Finish, BytesOf, HashOf;
    var (log', done) := Finish(w, log4, entities, objects);
    FinishGrows(w, log4, entities, objects);
    MetadataFirst(w, log4, entities, objects);
    if !done {
      assert forall k :: |log| <= k < |log4| ==> log'[k] == log4[k] && IsObject(log'[k]);
      assert forall k :: |log4| <= k < |log'| ==> Honest(w, log'[k], k);
    }
  }

  /** If there is a second call, the first did not break. */
  lemma MetadataFirst<H>(w: World<H>, log: seq<Create<H>>, entities: seq<Eml.Entity>, objects: seq<Option<Pid>>)
    ensures |Finish(w, log, entities, objects).0| == |log| + 2 ==> w.answer(|log|) != Broken
  {
  }

  // ----- the resource map -----

  function Known(objects: seq<Option<Pid>>): seq<Pid> {
    if objects == [] then []
    else (if objects[0].Some? then [objects[0].value] else []) + Known(objects[1..])
  }

  function PidsOf<H>(log: seq<Create<H>>): (r: seq<Pid>)
    ensures |r| == |log| && forall i :: 0 <= i < |r| ==> r[i] == log[i].pid
  {
    seq(|log|, i requires 0 <= i < |log| => log[i].pid)
  }

  /** The calls that did not break. */
  function Whole<H>(log: seq<Create<H>>): seq<Create<H>> {
    if log == [] then [] else (if log[0].answer != Broken then [log[0]] else []) + Whole(log[1..])
  }

  lemma {:induction false} WholeBut<H>(log: seq<Create<H>>, m: nat)
    requires m <= |log| <= m + 1 && (forall i :: 0 <= i < m ==> log[i].answer != Broken)
    requires |log| == m + 1 ==> log[m].answer == Broken
    ensures Whole(log) == log[..m]
    decreases m
  {
    if m == 0 {
      assert log == [] || log[1..] == [];
    } else {
      WholeBut(log[1..], m - 1);
      assert log[..m] == [log[0]] + log[1..][..m - 1];
    }
  }

  lemma {:induction false} KnownAll(objects: seq<Option<Pid>>, rest: seq<Option<Pid>>)
    requires forall o :: o in objects ==> o.Some?
    ensures |Known(objects + rest)| == |objects| + |Known(rest)|
    ensures forall i :: 0 <= i < |objects| ==> Known(objects + rest)[i] == objects[i].value
    ensures Known(objects + rest)[|objects|..] == Known(rest)
  {
    if objects == [] {
      assert objects + rest == rest;
    } else {
      KnownAll(objects[1..], rest);
      assert (objects + rest)[1..] == objects[1..] + rest;
      assert Known(objects + rest) == [objects[0].value] + Known(objects[1..] + rest);
    }
  }

  lemma KnownLast(yaml: Pid, license: Option<Pid>, archive: Option<Pid>)
    ensures Known([Some(yaml), license, archive])
         == [yaml] + (if license.Some? then [license.value] else []) + (if archive.Some? then [archive.value] else [])
  {
    assert [Some(yaml), license, archive][1..] == [license, archive];
    assert [license, archive][1..] == [archive];
    assert Known([archive]) == if archive.Some? then [archive.value] else [];
  }

  function Drawn<H>(w: World<H>, from: nat, to: nat): (r: seq<Pid>)
    requires from <= to
    ensures |r| == to - from && forall i :: 0 <= i < |r| ==> r[i] == w.uuid(from + i)
  {
    seq(to - from, i requires 0 <= i < to - from => w.uuid(from + i))
  }

  /** The entries of the resource map, as numbers of create calls. */
  function Entries<H>(w: World<H>, n: nat, k: nat, license: bool, archive: bool): seq<Option<Pid>> {
    Uuids(w, n, n + k)
    + [Some(w.uuid(n + k)), if license then Some(w.uuid(n + k + 1)) else None,
       if archive then Some(w.uuid(n + k + 1 + Eml.OneIf(license))) else None]
  }

  lemma KnownEntries<H>(w: World<H>, n: nat, k: nat, license: bool, archive: bool)
    ensures Known(Entries(w, n, k, license, archive))
         == Drawn(w, n, n + k + 1 + Eml.OneIf(license) + Eml.OneIf(archive))
  {
    var l := if license then Some(w.uuid(n + k + 1)) else None;
    var a := if archive then Some(w.uuid(n + k + 1 + Eml.OneIf(license))) else None;
    KnownAll(Uuids(w, n, n + k), [Some(w.uuid(n + k)), l, a]);
    KnownLast(w.uuid(n + k), l, a);
    var known := Known(Entries(w, n, k, license, archive));
    var drawn := Drawn(w, n, n + k + 1 + Eml.OneIf(license) + Eml.OneIf(archive));
    hide Known, Uuids, Drawn;
    forall i | 0 <= i < |drawn| ensures known[i] == drawn[i] {
      if i >= k {
        assert known[i] == known[k..][i - k];
      }
    }
  }

  /** The archive is there and the call for it did not break. */
  predicate Stocked<H>(w: World<H>, n: nat, r: Request) {
    r.repository.Archive? && w.answer(n + BeforeArchive(r)) != Broken
  }

  /** The number of the first call that the map does not refer to. */
  function Mapped<H>(w: World<H>, n: nat, r: Request): nat {
    n + BeforeArchive(r) + Eml.OneIf(Stocked(w, n, r))
  }

  lemma ObjectsAreEntries<H>(w: World<H>, log: seq<Create<H>>, r: Request)
    requires Passed(w, log, r)
    ensures Objects(w, log, r) == Entries(w, |log|, Locals(r), r.license.Some?, Stocked(w, |log|, r))
    ensures |Log4(w, log, r)| == |log| + BeforeMetadata(r)
  {
    UnbrokenParts(w, |log|, r);
    Lengths(w, log, r);
    hide Log1, Log2, Log3, Log4, Uuids, Upload, Unbroken;
  }

  lemma Log4Facts<H>(w: World<H>, log: seq<Create<H>>, r: Request)
    requires Passed(w, log, r)
    ensures |Log4(w, log, r)| == |log| + BeforeMetadata(r) && Grows(w, log, Log4(w, log, r), BeforeMetadata(r))
    ensures OnlyObjects(Log4(w, log, r), |log|)
    ensures Finished(w, log, r) ==> Unbroken(w, |Log4(w, log, r)|, |Log4(w, log, r)| + 2)
  {
    UnbrokenParts(w, |log|, r);
    ObjectsFirst(w, log, r);
  }

  /** The run ends with the metadata and the resource map that names it, after objects only. */
  ghost predicate EndsWithMap<H>(log: seq<Create<H>>, log': seq<Create<H>>) {
    var last := |log'| - 1;
    && |log| + 2 <= |log'| && log <= log'
    && (forall i :: |log| <= i < last - 1 ==> IsObject(log'[i]))
    && log'[last - 1].body.Metadata? && log'[last].body.ResourceMap?
    && log'[last].body.mapPid == log'[last].pid
    && log'[last].body.emlPid == log'[last - 1].pid == log'[last - 1].body.emlPid
  }

  /**
    The objects of the map are the local files in order, tale.yml, and the license and the archive or
    None; without the None they are the objects of all calls of the run that did not break, in order.
   */
  ghost predicate MapsObjects<H>(
    log: seq<Create<H>>, log': seq<Create<H>>, r: Request, stocked: bool, objects: seq<Option<Pid>>)
  {
    var n, k := |log|, Locals(r);
    && n + k + 3 <= |log'| && |objects| == k + 3
    && (forall i :: 0 <= i <= k ==> objects[i] == Some(log'[n + i].pid))
    && (objects[k + 1] == None <==> r.license == None)
    && (objects[k + 2] == None <==> !stocked)
    && Known(objects) == PidsOf(Whole(log'[n..|log'| - 2]))
  }

  lemma PidsAreDrawn<H>(w: World<H>, log: seq<Create<H>>, log': seq<Create<H>>, count: nat, to: nat)
    requires Grows(w, log, log', count) && |log| <= to <= |log'|
    ensures PidsOf(log'[|log|..to]) == Drawn(w, |log|, to)
  {
    forall i | 0 <= i < to - |log| ensures PidsOf(log'[|log|..to])[i] == Drawn(w, |log|, to)[i] {
      assert Honest(w, log'[|log| + i], |log| + i);
    }
  }

  lemma EndOfRun<H>(w: World<H>, log: seq<Create<H>>, log4: seq<Create<H>>, count: nat,
                    entities: seq<Eml.Entity>, objects: seq<Option<Pid>>)
    requires Grows(w, log, log4, count) && OnlyObjects(log4, |log|) && Unbroken(w, |log4|, |log4| + 2)
    ensures var log' := Finish(w, log4, entities, objects).0;
            && EndsWithMap(log, log') && log'[|log'| - 1].body.objects == objects
            && log'[|log'| - 2].body == Metadata(w.uuid(|log4|), entities) && Grows(w, log, log', count + 2)
  {
    var log' := Finish(w, log4, entities, objects).0;
    FinishGrows(w, log4, entities, objects);
    GrowsOn(w, log, log4, log', count, 2);
    hide Finish;
    assert Honest(w, log'[|log4|], |log4|) && Honest(w, log'[|log4| + 1], |log4| + 1);
    forall i | |log| <= i < |log4| ensures IsObject(log'[i]) {
      assert log'[i] == log4[i];
    }
  }

  lemma EntriesByNumber<H>(w: World<H>, n: nat, k: nat, license: bool, archive: bool)
    ensures var objects := Entries(w, n, k, license, archive);
            && |objects| == k + 3 && (forall i :: 0 <= i <= k ==> objects[i] == Some(w.uuid(n + i)))
            && (objects[k + 1] == None <==> !license) && (objects[k + 2] == None <==> !archive)
  {
  }

  /** Of the calls before the metadata, the one for the archive alone may have broken. */
  lemma WholeCalls<H>(w: World<H>, log: seq<Create<H>>, log': seq<Create<H>>, r: Request)
    requires Grows(w, log, log', BeforeMetadata(r) + 2) && Unbroken(w, |log|, |log| + BeforeArchive(r))
    ensures |log| <= Mapped(w, |log|, r) <= |log'| && Whole(log'[|log|..|log'| - 2]) == log'[|log|..Mapped(w, |log|, r)]
  {
    var n, m := |log|, BeforeArchive(r) + Eml.OneIf(Stocked(w, |log|, r));
    var calls := log'[n..|log'| - 2];
    forall i | 0 <= i < |calls| ensures calls[i].answer == w.answer(n + i) {
      assert Honest(w, log'[n + i], n + i);
    }
    assert calls[..m] == log'[n..n + m];
    WholeBut(calls, m);
  }

  lemma MapsEntries<H>(w: World<H>, log: seq<Create<H>>, log': seq<Create<H>>, r: Request)
    requires Grows(w, log, log', BeforeMetadata(r) + 2) && Unbroken(w, |log|, |log| + BeforeArchive(r))
    ensures MapsObjects(log, log', r, Stocked(w, |log|, r),
                        Entries(w, |log|, Locals(r), r.license.Some?, Stocked(w, |log|, r)))
  {
    hide Known, Locals, Drawn, PidsOf, Entries, Whole, Unbroken, Stocked;
    var n, k, stocked := |log|, Locals(r), Stocked(w, |log|, r);
    KnownEntries(w, n, k, r.license.Some?, stocked);
    EntriesByNumber(w, n, k, r.license.Some?, stocked);
    WholeCalls(w, log, log', r);
    StockedCounts(w, n, r);
    PidsAreDrawn(w, log, log', |log'| - n, Mapped(w, n, r));
    forall j | n <= j <= n + k ensures log'[j].pid == w.uuid(j) {
      assert Honest(w, log'[j], j);
    }
    hide Honest, Grows;
  }

  lemma StockedCounts<H>(w: World<H>, n: nat, r: Request)
    ensures BeforeArchive(r) + Eml.OneIf(Stocked(w, n, r)) <= BeforeMetadata(r)
  {
  }

  /** In a finished run the resource map comes last and maps the package. */
  lemma PackageIsConsistent<H>(w: World<H>, log: seq<Create<H>>, r: Request)
    requires Finished(w, log, r)
    ensures var log' := After(w, log, r);
            && EndsWithMap(log, log')
            && MapsObjects(log, log', r, Stocked(w, |log|, r), log'[|log'| - 1].body.objects)
            && |log'| == |log| + BeforeMetadata(r) + 2
  {
    UnbrokenParts(w, |log|, r);
    PassedEnds(w, log, r);
    ObjectsFirst(w, log, r);
    ObjectsAreEntries(w, log, r);
    var log4 := Log4(w, log, r);
    hide Published, Log1, Log2, Log3, Log4, Entities, Objects, Finish, OnlyObjects, Grows, EndsWithMap, Entries,
      MapsObjects, Unbroken, Stocked;
    assert |log4| == |log| + BeforeMetadata(r);
    EndOfRun(w, log, log4, |log4| - |log|, Entities(w, log, r), Objects(w, log, r));
    GrowsBy(w, log, After(w, log, r), BeforeMetadata(r) + 2);
    MapsEntries(w, log, After(w, log, r), r);
  }

  lemma GrowsBy<H>(w: World<H>, log: seq<Create<H>>, log': seq<Create<H>>, count: nat)
    requires Grows(w, log, log', count)
    ensures |log'| == |log| + count
  {
  }

  // ----- what was uploaded -----

  /**
    Each local file with its own bytes and the size Girder states, the text of tale.yml, and, if there,
    the license text and the bytes of the archive, with the size of their bytes; each under the pid that
    stands for it in the resource map.
   */
  ghost predicate Carries<H>(w: World<H>, log: seq<Create<H>>, log': seq<Create<H>>, r: Request)
    requires AllHaveFiles(r.girder, r.items) && r.yaml.Some?
  {
    var n, k, files := |log|, Locals(r), SortedItems(r.girder, r.items).localFiles;
    && n + BeforeMetadata(r) <= |log'|
    && (forall i :: 0 <= i < k ==> Holds(log'[n + i], files[i]))
    && IsDocument(w, log'[n + k], r.yaml.value)
    && (r.license.Some? ==> IsDocument(w, log'[n + k + 1], r.license.value.0))
    && (r.repository.Archive? ==> IsArchive(log'[n + BeforeArchive(r)], r.repository.bytes))
  }

  ghost predicate IsDocument<H>(w: World<H>, c: Create<H>, text: string) {
    c.body == Document(text) && c.size == |Utf8(text)|
  }

  ghost predicate IsArchive<H>(c: Create<H>, bytes: seq<Byte>) {
    c.body == Data(bytes) && c.size == |bytes|
  }

  lemma CarriesOn<H>(w: World<H>, log: seq<Create<H>>, a: seq<Create<H>>, b: seq<Create<H>>, r: Request)
    requires AllHaveFiles(r.girder, r.items) && r.yaml.Some? && Carries(w, log, a, r) && a <= b
    ensures Carries(w, log, b, r)
  {
    hide Holds, IsDocument, IsArchive;
    assert forall i :: 0 <= i < |a| ==> b[i] == a[i];
  }

  lemma LaterBodies<H>(w: World<H>, log: seq<Create<H>>, r: Request)
    requires AllHaveFiles(r.girder, r.items) && r.yaml.Some?
    ensures var log1, log2, log3, log4 := Log1(w, log, r), Log2(w, log, r), Log3(w, log, r), Log4(w, log, r);
            && |log1| < |log2| && IsDocument(w, log2[|log1|], r.yaml.value)
            && (r.license.Some? ==> |log2| < |log3| && IsDocument(w, log3[|log2|], r.license.value.0))
            && (r.repository.Archive? ==> |log3| < |log4| && IsArchive(log4[|log3|], r.repository.bytes))
  {
    var log1, log2, log3 := Log1(w, log, r), Log2(w, log, r), Log3(w, log, r);
    UploadGrows(w, log1, Document(r.yaml.value), |BytesOf(w, Document(r.yaml.value))|);
    if r.license.Some? {
      var text := r.license.value.0;
      UploadGrows(w, log2, Document(text), |BytesOf(w, Document(text))|);
    }
    if r.repository.Archive? {
      UploadGrows(w, log3, Data(r.repository.bytes), |r.repository.bytes|);
    }
    hide Upload, Log1, Honest;
  }

  lemma ObjectsCarry<H>(w: World<H>, log: seq<Create<H>>, r: Request)
    requires AllHaveFiles(r.girder, r.items) && r.yaml.Some? && Unbroken(w, |log|, |log| + Locals(r))
    ensures Carries(w, log, Log4(w, log, r), r)
  {
    hide Upload, UploadAll, OnlyObjects, Honest, Log2, Log3, Log4, SortedItems, Unbroken, Holds, IsDocument, IsArchive;
    UploadAllGrows(w, log, SortedItems(r.girder, r.items).localFiles);
    Log1Grows(w, log, r);
    ObjectsFirst(w, log, r);
    LaterBodies(w, log, r);
    var log1, log2, log3, log4 := Log1(w, log, r), Log2(w, log, r), Log3(w, log, r), Log4(w, log, r);
    assert forall i :: 0 <= i < |log1| ==> log4[i] == log1[i];
    assert forall i :: 0 <= i < |log2| ==> log4[i] == log2[i];
    assert forall i :: 0 <= i < |log3| ==> log4[i] == log3[i];
  }

  /** In a finished run every object is what it stands for. */
  lemma PackageCarries<H>(w: World<H>, log: seq<Create<H>>, r: Request)
    requires Finished(w, log, r)
    ensures Carries(w, log, After(w, log, r), r)
  {
    UnbrokenParts(w, |log|, r);
    ObjectsCarry(w, log, r);
    PassedEnds(w, log, r);
    FinishGrows(w, Log4(w, log, r), Entities(w, log, r), Objects(w, log, r));
    hide Carries, Log4, Entities, Objects, Finish, Published;
    CarriesOn(w, log, Log4(w, log, r), After(w, log, r), r);
  }

  // ----- pids -----

  /** The k-th call has the k-th pid, as after any number of runs that began with an empty log. */
  ghost predicate Numbered<H>(w: World<H>, log: seq<Create<H>>) {
    forall k :: 0 <= k < |log| ==> log[k].pid == w.uuid(k)
  }

  /** uuid4 does not repeat itself. */
  ghost predicate Fresh<H>(w: World<H>) {
    forall i: nat, j: nat :: i != j ==> w.uuid(i) != w.uuid(j)
  }

  ghost predicate Distinct<H>(log: seq<Create<H>>) {
    forall i, j :: 0 <= i < j < |log| ==> log[i].pid != log[j].pid
  }

  /** No pid is used twice, over all runs. */
  lemma PidsAreDistinct<H>(w: World<H>, log: seq<Create<H>>, r: Request)
    requires Numbered(w, log) && Fresh(w)
    ensures Numbered(w, After(w, log, r)) && Distinct(After(w, log, r))
  {
    EveryChecksumAgrees(w, log, r);
    var log' := After(w, log, r);
    forall k | 0 <= k < |log'| ensures log'[k].pid == w.uuid(k) {
      if k < |log| {
        assert log'[k] == log[k];
      } else {
        assert Honest(w, log'[k], k);
      }
    }
  }

  /** The node has accepted a call with this pid. */
  ghost predicate Stored<H>(log: seq<Create<H>>, pid: Pid) {
    exists k :: 0 <= k < |log| && log[k].pid == pid && log[k].answer == Accepted
  }

  ghost predicate AllStored<H>(log: seq<Create<H>>, pids: seq<Pid>) {
    forall pid :: pid in pids ==> Stored(log, pid)
  }

  /** The node refuses none of the calls numbered `from` to `to`. */
  predicate NoneRefused<H>(w: World<H>, from: nat, to: nat) {
    forall k :: from <= k < to ==> w.answer(k) != Refused
  }

  /** The calls numbered `from` to `to` have the pids and the answers with their numbers. */
  ghost predicate Answered<H>(w: World<H>, log: seq<Create<H>>, from: nat, to: nat)
    requires to <= |log|
  {
    forall k :: from <= k < to ==> log[k].answer == w.answer(k) && log[k].pid == w.uuid(k)
  }

  lemma StoredIffAccepted<H>(w: World<H>, log: seq<Create<H>>, from: nat, to: nat)
    requires from <= to <= |log| && Distinct(log) && Unbroken(w, from, to) && Answered(w, log, from, to)
    ensures AllStored(log, PidsOf(log[from..to])) <==> NoneRefused(w, from, to)
  {
    var pids := PidsOf(log[from..to]);
    if AllStored(log, pids) {
      forall k | from <= k < to ensures w.answer(k) != Refused {
        assert pids[k - from] == log[k].pid;
        assert Stored(log, log[k].pid);
      }
    }
    if NoneRefused(w, from, to) {
      forall i | 0 <= i < |pids| ensures Stored(log, pids[i]) {
        var k := from + i;
        assert w.answer(k) == Accepted && log[k].answer == Accepted && log[k].pid == pids[i];
      }
    }
  }

  lemma RefusedIsNotStored<H>(w: World<H>, log: seq<Create<H>>, from: nat, to: nat, k: nat)
    requires from <= k < to <= |log| && Distinct(log) && Answered(w, log, from, to) && w.answer(k) == Refused
    ensures w.uuid(k) in PidsOf(log[from..to]) && !Stored(log, w.uuid(k))
  {
    assert PidsOf(log[from..to])[k - from] == log[k].pid;
  }

  lemma EndsShape<H>(log: seq<Create<H>>, log': seq<Create<H>>)
    requires EndsWithMap(log, log')
    ensures |log| + 2 <= |log'| && log'[|log'| - 1].body.ResourceMap? && log'[|log'| - 2].body.Metadata?
  {
    hide IsObject;
  }

  lemma MapShape<H>(log: seq<Create<H>>, log': seq<Create<H>>, r: Request, stocked: bool, objects: seq<Option<Pid>>)
    requires MapsObjects(log, log', r, stocked, objects) && |log| + 2 <= |log'|
    ensures Known(objects) == PidsOf(Whole(log'[|log|..|log'| - 2])) && |objects| == Locals(r) + 3
  {
    hide Known, PidsOf, Whole;
  }

  lemma AllAnswered<H>(w: World<H>, log: seq<Create<H>>, r: Request, to: nat)
    requires |log| <= to <= |After(w, log, r)|
    ensures Answered(w, After(w, log, r), |log|, to)
  {
    EveryChecksumAgrees(w, log, r);
    var log' := After(w, log, r);
    hide After, Published;
    forall k | |log| <= k < to ensures log'[k].answer == w.answer(k) && log'[k].pid == w.uuid(k) {
      assert Honest(w, log'[k], k);
    }
  }

  lemma RunGrows<H>(w: World<H>, log: seq<Create<H>>, r: Request, count: nat)
    requires |After(w, log, r)| == |log| + count
    ensures Grows(w, log, After(w, log, r), count)
  {
    EveryChecksumAgrees(w, log, r);
    hide After, Honest;
  }

  lemma MappedFacts<H>(w: World<H>, log: seq<Create<H>>, r: Request)
    requires Finished(w, log, r)
    ensures |log| <= Mapped(w, |log|, r) <= |log| + BeforeMetadata(r) && Unbroken(w, |log|, Mapped(w, |log|, r))
    ensures Unbroken(w, |log|, |log| + BeforeArchive(r))
    ensures NoneRefused(w, |log|, |log| + BeforeMetadata(r)) <==> NoneRefused(w, |log|, Mapped(w, |log|, r))
  {
    hide Locals;
  }

  /** What the map refers to, by the numbers of the calls. */
  lemma MapKnows<H>(w: World<H>, log: seq<Create<H>>, r: Request)
    requires Finished(w, log, r)
    ensures var log', to := After(w, log, r), Mapped(w, |log|, r);
            && EndsWithMap(log, log') && |log'| >= 2 && log'[|log'| - 1].body.ResourceMap?
            && |log| <= to <= |log'| - 2 && |log'| == |log| + BeforeMetadata(r) + 2
            && Known(log'[|log'| - 1].body.objects) == PidsOf(log'[|log|..to])
            && Answered(w, log', |log|, to)
  {
    hide *;
    var log' := After(w, log, r);
    MappedFacts(w, log, r);
    PackageIsConsistent(w, log, r);
    EndsShape(log, log');
    MapShape(log, log', r, Stocked(w, |log|, r), log'[|log'| - 1].body.objects);
    RunGrows(w, log, r, BeforeMetadata(r) + 2);
    WholeCalls(w, log, log', r);
    AllAnswered(w, log, r, Mapped(w, |log|, r));
  }

  /**
    A refused upload goes unnoticed, and its pid is in the resource map all the same: everything the
    map refers to is stored exactly if the node will refuse none of the calls before the metadata.
   */
  lemma MapRefersToStored<H>(w: World<H>, log: seq<Create<H>>, r: Request)
    requires Finished(w, log, r) && Numbered(w, log) && Fresh(w)
    ensures var log' := After(w, log, r);
            && EndsWithMap(log, log')
            && (AllStored(log', Known(log'[|log'| - 1].body.objects))
                <==> NoneRefused(w, |log|, |log| + BeforeMetadata(r)))
  {
    hide *;
    MapKnows(w, log, r);
    MappedFacts(w, log, r);
    PidsAreDistinct(w, log, r);
    StoredIffAccepted(w, After(w, log, r), |log|, Mapped(w, |log|, r));
  }

  /** A pid of a refused upload: the map refers to it, and no object with it is stored. */
  lemma RefusedIsMapped<H>(w: World<H>, log: seq<Create<H>>, r: Request, k: nat)
    requires Finished(w, log, r) && Numbered(w, log) && Fresh(w)
    requires |log| <= k < |log| + BeforeMetadata(r) && w.answer(k) == Refused
    ensures var log' := After(w, log, r);
            && EndsWithMap(log, log')
            && w.uuid(k) in Known(log'[|log'| - 1].body.objects) && !Stored(log', w.uuid(k))
  {
    assert k < Mapped(w, |log|, r);
    hide *;
    MapKnows(w, log, r);
    PidsAreDistinct(w, log, r);
    RefusedIsNotStored(w, After(w, log, r), |log|, Mapped(w, |log|, r), k);
  }

  lemma UrlIs<H>(w: World<H>, log: seq<Create<H>>, r: Request)
    requires Passed(w, log, r) && Finished(w, log, r)
    ensures Published(w, log, r).1 == Url(PackageUrls.PackageUrl(r.node, w.uuid(|log| + BeforeMetadata(r) + 1)))
  {
    hide *;
    UnfinishedMap(w, log, r);
    PassedEnds(w, log, r);
    Log4Facts(w, log, r);
  }

  /** The URL returned, if the node has one, leads back to the resource map. */
  lemma UrlFindsMap<H>(w: World<H>, log: seq<Create<H>>, r: Request)
    requires Finished(w, log, r)
    ensures var (log', outcome) := Published(w, log, r);
            && outcome.Url? && log' != []
            && (outcome.url.Some? ==>
                  PackageUrls.FindInitialPid(outcome.url.value) == PackageUrls.Pid(log'[|log'| - 1].pid))
  {
    var log', last := After(w, log, r), |log| + BeforeMetadata(r) + 1;
    UrlIs(w, log, r);
    PackageUrls.PackageUrlRoundTrip(r.node, w.uuid(last));
    PackageIsConsistent(w, log, r);
    AllAnswered(w, log, r, |log'|);
    hide Published, PackageUrls.PackageUrl, PackageUrls.FindInitialPid, EndsWithMap, MapsObjects, Finished, Locals;
    assert log'[last].pid == w.uuid(last);
  }

  // ----- the metadata -----

  /** The size the metadata states for the license and for the archive, 0 for none. */
  function LicenseSize(r: Request): nat {
    if r.license.Some? then r.license.value.1 else 0
  }

  function ArchiveSize<H>(w: World<H>, n: nat, r: Request): nat {
    if Stocked(w, n, r) then |r.repository.bytes| else 0
  }

  lemma StatedSizes<H>(w: World<H>, log: seq<Create<H>>, r: Request)
    requires Passed(w, log, r)
    ensures LicenseStep(w, Log2(w, log, r), r.license).2 == LicenseSize(r)
    ensures RepositoryStep(w, Log3(w, log, r), r.repository).2 == ArchiveSize(w, |log|, r)
  {
    UnbrokenParts(w, |log|, r);
    Lengths(w, log, r);
    hide Log1, Log2, Log3, Upload, Unbroken;
  }

  lemma EntitiesOf<H>(w: World<H>, log: seq<Create<H>>, r: Request)
    requires Passed(w, log, r)
    ensures var ids := EmlItems(SortedItems(r.girder, r.items));
            && AllHaveFiles(r.girder, ids) && |ids| == |NonEmpty(r.items)|
            && Eml.Complete(Entities(w, log, r), r.girder, ids,
                            Eml.FileSizes(|r.yaml.value|, LicenseSize(r), ArchiveSize(w, |log|, r)))
  {
    EmlItemsArePermuted(r.girder, r.items);
    StatedSizes(w, log, r);
    hide LicenseStep, RepositoryStep, Log2, Log3, Eml.Entities, Eml.Complete, LicenseSize, ArchiveSize, EmlItems,
      SortedItems, NonEmpty, Unbroken;
    var ids := EmlItems(SortedItems(r.girder, r.items));
    Eml.EntitiesAreComplete(r.girder, ids,
                            Eml.FileSizes(|r.yaml.value|, LicenseSize(r), ArchiveSize(w, |log|, r)));
  }

  /** The metadata uploaded is the one described. */
  lemma MetadataOf<H>(w: World<H>, log: seq<Create<H>>, r: Request)
    requires Passed(w, log, r) && Finished(w, log, r)
    ensures var log' := After(w, log, r);
            |log'| >= 2 && log'[|log'| - 2].body == Metadata(w.uuid(|log| + BeforeMetadata(r)), Entities(w, log, r))
  {
    hide *;
    FinishedPassed(w, log, r);
    PassedEnds(w, log, r);
    Log4Facts(w, log, r);
    EndOfRun(w, log, Log4(w, log, r), BeforeMetadata(r), Entities(w, log, r), Objects(w, log, r));
    GrowsBy(w, log, After(w, log, r), BeforeMetadata(r) + 2);
  }

  /**
    The metadata describes every item with a non-empty id, tale.yml, and the license and the archive
    unless their size is zero; the resource map refers to the local items and three more.
   */
  lemma RecordsAndObjects<H>(w: World<H>, log: seq<Create<H>>, r: Request)
    requires Finished(w, log, r)
    ensures var log' := After(w, log, r);
            && |log'| >= 2 && log'[|log'| - 1].body.ResourceMap? && log'[|log'| - 2].body.Metadata?
            && |log'[|log'| - 1].body.objects| == Locals(r) + 3
            && |log'[|log'| - 2].body.entities|
               == |NonEmpty(r.items)| + 1 + Eml.OneIf(LicenseSize(r) != 0) + Eml.OneIf(ArchiveSize(w, |log|, r) != 0)
  {
    FinishedPassed(w, log, r);
    hide *;
    RecordCount(w, log, r);
    ObjectCount(w, log, r);
    MetadataOf(w, log, r);
  }

  lemma RecordCount<H>(w: World<H>, log: seq<Create<H>>, r: Request)
    requires Passed(w, log, r)
    ensures |Entities(w, log, r)|
         == |NonEmpty(r.items)| + 1 + Eml.OneIf(LicenseSize(r) != 0) + Eml.OneIf(ArchiveSize(w, |log|, r) != 0)
  {
    hide Entities, SortedItems, EmlItems, NonEmpty, Eml.Complete, LicenseSize, ArchiveSize, Unbroken;
    EntitiesOf(w, log, r);
    Counted(Entities(w, log, r), r.girder, EmlItems(SortedItems(r.girder, r.items)),
            Eml.FileSizes(|r.yaml.value|, LicenseSize(r), ArchiveSize(w, |log|, r)));
  }

  lemma ObjectCount<H>(w: World<H>, log: seq<Create<H>>, r: Request)
    requires Finished(w, log, r)
    ensures var log' := After(w, log, r);
            |log'| >= 2 && log'[|log'| - 1].body.ResourceMap? && |log'[|log'| - 1].body.objects| == Locals(r) + 3
  {
    hide *;
    var log' := After(w, log, r);
    PackageIsConsistent(w, log, r);
    EndsShape(log, log');
    MapShape(log, log', r, Stocked(w, |log|, r), log'[|log'| - 1].body.objects);
  }

  lemma FinishedPassed<H>(w: World<H>, log: seq<Create<H>>, r: Request)
    requires Finished(w, log, r)
    ensures Passed(w, log, r) && AllHaveFiles(r.girder, r.items) && r.yaml.Some?
  {
  }

  lemma Counted(entities: seq<Eml.Entity>, g: Girder, ids: seq<ItemId>, sizes: Eml.FileSizes)
    requires AllHaveFiles(g, ids) && Eml.Complete(entities, g, ids, sizes)
    ensures |entities| == |ids| + 1 + Eml.OneIf(sizes.license != 0) + Eml.OneIf(sizes.repository != 0)
    ensures entities[|ids|].name == Eml.TALE_CONFIG && entities[|ids|].size == sizes.taleYaml
  {
    hide Eml.ItemRecord, Eml.LicenseRecord, Eml.EnvironmentRecord;
  }

  /**
    The metadata counts the characters of tale.yml, its system metadata the bytes. They state the same
    size if and only if the text is ASCII, as what yaml.dump writes is.
   */
  lemma TaleSizes<H>(w: World<H>, log: seq<Create<H>>, r: Request)
    requires Finished(w, log, r)
    ensures r.yaml.Some?
    ensures var log' := After(w, log, r);
            var k, stated := |log| + Locals(r), |NonEmpty(r.items)|;
            && |log'| >= 2 && log'[|log'| - 2].body.Metadata?
            && k < |log'| && stated < |log'[|log'| - 2].body.entities|
            && log'[k].body == Document(r.yaml.value)
            && var entity := log'[|log'| - 2].body.entities[stated];
               && entity.name == Eml.TALE_CONFIG && entity.size == |r.yaml.value| <= log'[k].size
               && (entity.size == log'[k].size <==> Ascii(r.yaml.value))
  {
    FinishedPassed(w, log, r);
    hide *;
    Utf8Length(r.yaml.value);
    EntitiesOf(w, log, r);
    Counted(Entities(w, log, r), r.girder, EmlItems(SortedItems(r.girder, r.items)),
            Eml.FileSizes(|r.yaml.value|, LicenseSize(r), ArchiveSize(w, |log|, r)));
    PackageCarries(w, log, r);
    CarriesTale(w, log, After(w, log, r), r);
    MetadataOf(w, log, r);
  }

  lemma CarriesTale<H>(w: World<H>, log: seq<Create<H>>, log': seq<Create<H>>, r: Request)
    requires AllHaveFiles(r.girder, r.items) && r.yaml.Some? && Carries(w, log, log', r)
    ensures |log| + Locals(r) < |log'| && log'[|log| + Locals(r)].body == Document(r.yaml.value)
    ensures log'[|log| + Locals(r)].size == |Utf8(r.yaml.value)|
  {
    hide Holds, IsArchive;
  }

  /**
    The metadata of a finished run says of the described items what Girder says, and states the number of
    characters of tale.yml, the length of the license file and that of the archive if it was uploaded.
   */
  lemma MetadataSays<H>(w: World<H>, log: seq<Create<H>>, r: Request)
    requires Finished(w, log, r)
    ensures var log', ids := After(w, log, r), EmlItems(SortedItems(r.girder, r.items));
            && AllHaveFiles(r.girder, ids) && |log'| >= 2 && log'[|log'| - 2].body.Metadata?
            && Eml.AllSay(log'[|log'| - 2].body.entities, r.girder, ids, |r.yaml.value|,
                          if r.license.Some? then r.license.value.1 else 0,
                          if r.repository.Archive? && w.answer(|log| + BeforeArchive(r)) != Broken
                          then |r.repository.bytes| else 0)
  {
    hide *;
    FinishedPassed(w, log, r);
    SizesAre(w, |log|, r);
    EntitiesOf(w, log, r);
    MetadataOf(w, log, r);
    var ids := EmlItems(SortedItems(r.girder, r.items));
    Eml.CompleteSays(Entities(w, log, r), r.girder, ids,
                     Eml.FileSizes(|r.yaml.value|, LicenseSize(r), ArchiveSize(w, |log|, r)));
  }

  lemma SizesAre<H>(w: World<H>, n: nat, r: Request)
    ensures LicenseSize(r) == if r.license.Some? then r.license.value.1 else 0
    ensures ArchiveSize(w, n, r) == if r.repository.Archive? && w.answer(n + BeforeArchive(r)) != Broken
                                    then |r.repository.bytes| else 0
  {
  }

  // ----- how a run ends -----

  /** How many calls come before those for the license, the archive and the metadata. */
  lemma CallsBefore(r: Request)
    ensures BeforeArchive(r) == Locals(r) + 1 + (if r.license.Some? then 1 else 0)
    ensures BeforeMetadata(r) == BeforeArchive(r) + if r.repository.Archive? then 1 else 0
  {
  }

  lemma GatherEnds<H>(w: World<H>, log: seq<Create<H>>, r: Request, files: seq<File>)
    requires !Unbroken(w, |log|, |log| + |files|) || |UploadAll(w, log, files)| == |log| + |files|
    ensures var g, k := Gather(w, log, r, files), |log| + |files|;
            if !Unbroken(w, |log|, k) then g.Stopped? && g.e == IOError
            else if r.yaml.None? then g.Stopped? && g.e == YamlFails
            else if w.answer(k) == Broken then g.Stopped? && g.e == IOError
            else if r.licenseId != "CC0-1.0" && r.licenseId != "CC-BY-3.0" && r.licenseId != "CC-BY-4.0"
            then g.Stopped? && g.e == KeyError
            else if r.license.Some? && w.answer(k + 1) == Broken then g.Stopped? && g.e == IOError
            else if r.repository.CopyFails? then g.Stopped? && g.e == ValueError
            else g.Gathered? && |g.log| == k + 1 + (if r.license.Some? then 1 else 0)
                                             + (if r.repository.Archive? then 1 else 0)
  {
    hide UploadAll, Unbroken, BytesOf, HashOf, Uuids;
  }

  /** The result of every run, by the request and the answers to its calls. */
  lemma Outcomes<H>(w: World<H>, log: seq<Create<H>>, r: Request)
    ensures var tale := |log| + Locals(r);
            var eml := tale + 1 + (if r.license.Some? then 1 else 0) + (if r.repository.Archive? then 1 else 0);
            Published(w, log, r).1
            == if r.userId.None? then Message
               else if exists id :: id in r.items && r.girder.file(id) == None then Raised(NoFile)
               else if exists i: nat :: |log| <= i < tale && w.answer(i) == Broken then Raised(IOError)
               else if r.yaml.None? then Raised(YamlFails)
               else if w.answer(tale) == Broken then Raised(IOError)
               else if r.licenseId != "CC0-1.0" && r.licenseId != "CC-BY-3.0" && r.licenseId != "CC-BY-4.0"
               then Raised(KeyError)
               else if r.license.Some? && w.answer(tale + 1) == Broken then Raised(IOError)
               else if r.repository.CopyFails? then Raised(ValueError)
               else if w.answer(eml) == Broken || w.answer(eml + 1) == Broken then Raised(IOError)
               else Url(PackageUrls.PackageUrl(r.node, w.uuid(eml + 1)))
  {
    hide Published, Gather, Finish, SortedItems, PackageUrls.PackageUrl, Described, EmlItems, At, Grows, OnlyObjects;
    if r.userId.Some? && AllHaveFiles(r.girder, r.items) {
      var files := SortedItems(r.girder, r.items).localFiles;
      Log1Grows(w, log, r);
      LocalsAre(r);
      GatherEnds(w, log, r, files);
      PublishedIs(w, log, r);
      var g := Gather(w, log, r, files);
      if g.Gathered? {
        var entities := Described(r, SortedItems(r.girder, r.items), g.licenseSize, g.repositorySize);
        FinishGrows(w, g.log, entities, g.objects);
      }
    } else {
      NothingIsDone(w, log, r);
    }
  }

  lemma LocalsAre(r: Request)
    requires AllHaveFiles(r.girder, r.items)
    ensures |SortedItems(r.girder, r.items).localFiles| == Locals(r)
  {
  }

  lemma NothingIsDone<H>(w: World<H>, log: seq<Create<H>>, r: Request)
    requires r.userId.None? || !AllHaveFiles(r.girder, r.items)
    ensures Published(w, log, r) == (log, if r.userId.None? then Message else Raised(NoFile))
  {
  }

  /** In a run with a user, a file for each item, a text for tale.yml and no broken call. */
  lemma KeyErrors<H>(w: World<H>, log: seq<Create<H>>, r: Request)
    requires r.userId.Some? && (forall id :: id in r.items ==> r.girder.file(id).Some?) && r.yaml.Some?
    requires forall i: nat :: i >= |log| ==> w.answer(i) != Broken
    ensures Published(w, log, r).1 == Raised(KeyError) <==> r.licenseId !in {"CC0-1.0", "CC-BY-3.0", "CC-BY-4.0"}
    ensures Published(w, log, r).1 == Raised(ValueError)
       <==> r.licenseId in {"CC0-1.0", "CC-BY-3.0", "CC-BY-4.0"} && r.repository.CopyFails?
    ensures Published(w, log, r).1.Url?
       <==> r.licenseId in {"CC0-1.0", "CC-BY-3.0", "CC-BY-4.0"} && !r.repository.CopyFails?
  {
    hide Published, PackageUrls.PackageUrl, Locals;
    Outcomes(w, log, r);
  }
}
