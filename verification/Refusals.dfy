/** A create call that the node refuses makes no difference to the run: nobody looks at what upload_file returns. */
module Refusals {
  import opened Options
  import opened Checksums
  import opened Items
  import opened Publish
  import opened Package
  import Eml
  import PackageUrls

  /** Two worlds that differ only in which of the calls that do not break are refused. */
  ghost predicate BreakAlike<H>(v: World<H>, w: World<H>) {
    && v.hash == w.hash && v.serial == w.serial && v.uuid == w.uuid
    && forall k: nat :: v.answer(k) == Broken <==> w.answer(k) == Broken
  }

  function Blank<H>(c: Create<H>): Create<H> {
    c.(answer := Accepted)
  }

  /** The same calls, whatever the answers. */
  ghost predicate SameCalls<H>(a: seq<Create<H>>, b: seq<Create<H>>) {
    |a| == |b| && forall i :: 0 <= i < |a| ==> Blank(a[i]) == Blank(b[i])
  }

  lemma UploadSame<H>(v: World<H>, w: World<H>, a: seq<Create<H>>, b: seq<Create<H>>, body: Body, size: int)
    requires BreakAlike(v, w) && SameCalls(a, b)
    ensures SameCalls(Upload(v, a, body, size), Upload(w, b, body, size))
  {
  }

  lemma {:induction false} UploadAllSame<H>(
    v: World<H>, w: World<H>, a: seq<Create<H>>, b: seq<Create<H>>, files: seq<File>)
    requires BreakAlike(v, w) && SameCalls(a, b)
    ensures SameCalls(UploadAll(v, a, files), UploadAll(w, b, files))
    decreases |files|
  {
    if files != [] {
      var body, size := Data(files[0].bytes), files[0].size;
      UploadSame(v, w, a, b, body, size);
      hide Upload, Blank;
      if v.answer(|a|) != Broken {
        UploadAllSame(v, w, Upload(v, a, body, size), Upload(w, b, body, size), files[1..]);
      }
    }
  }

  lemma UnbrokenSame<H>(v: World<H>, w: World<H>, from: nat, to: nat)
    requires BreakAlike(v, w)
    ensures Unbroken(v, from, to) <==> Unbroken(w, from, to)
  {
  }

  lemma LicenseSame<H>(v: World<H>, w: World<H>, a: seq<Create<H>>, b: seq<Create<H>>, license: Option<(string, nat)>)
    requires BreakAlike(v, w) && SameCalls(a, b)
    ensures SameCalls(LicenseStep(v, a, license).0, LicenseStep(w, b, license).0)
    ensures LicenseStep(v, a, license).1 == LicenseStep(w, b, license).1
    ensures LicenseStep(v, a, license).2 == LicenseStep(w, b, license).2
  {
    if license.Some? {
      var body := Document(license.value.0);
      UploadSame(v, w, a, b, body, |BytesOf(v, body)|);
    }
    hide Upload, Blank;
  }

  lemma RepositorySame<H>(v: World<H>, w: World<H>, a: seq<Create<H>>, b: seq<Create<H>>, repository: Repository)
    requires BreakAlike(v, w) && SameCalls(a, b)
    ensures SameCalls(RepositoryStep(v, a, repository).0, RepositoryStep(w, b, repository).0)
    ensures RepositoryStep(v, a, repository).1 == RepositoryStep(w, b, repository).1
    ensures RepositoryStep(v, a, repository).2 == RepositoryStep(w, b, repository).2
  {
    if repository.Archive? {
      UploadSame(v, w, a, b, Data(repository.bytes), |repository.bytes|);
    }
    hide Upload, Blank;
  }

  ghost predicate SameGathering<H>(g: Gathering<H>, h: Gathering<H>) {
    && SameCalls(g.log, h.log) && g.Stopped? == h.Stopped?
    && (g.Stopped? ==> g.e == h.e)
    && (g.Gathered? ==>
          g.objects == h.objects && g.licenseSize == h.licenseSize && g.repositorySize == h.repositorySize)
  }

  lemma GatherSame<H>(v: World<H>, w: World<H>, a: seq<Create<H>>, b: seq<Create<H>>, r: Request, files: seq<File>)
    requires BreakAlike(v, w) && SameCalls(a, b)
    ensures SameGathering(Gather(v, a, r, files), Gather(w, b, r, files))
  {
    UploadAllSame(v, w, a, b, files);
    UnbrokenSame(v, w, |a|, |a| + |files|);
    var a1, b1 := UploadAll(v, a, files), UploadAll(w, b, files);
    if r.yaml.Some? {
      var yaml := Document(r.yaml.value);
      UploadSame(v, w, a1, b1, yaml, |BytesOf(v, yaml)|);
      var a2, b2 := Upload(v, a1, yaml, |BytesOf(v, yaml)|), Upload(w, b1, yaml, |BytesOf(w, yaml)|);
      LicenseSame(v, w, a2, b2, r.license);
      var a3, b3 := LicenseStep(v, a2, r.license).0, LicenseStep(w, b2, r.license).0;
      RepositorySame(v, w, a3, b3, r.repository);
      hide Upload, UploadAll, Unbroken, LicenseStep, RepositoryStep, Blank;
    }
    assert Uuids(v, |a|, |a| + |files|) == Uuids(w, |b|, |b| + |files|);
    hide Upload, UploadAll, Unbroken, LicenseStep, RepositoryStep, Blank, Uuids;
  }

  lemma FinishSame<H>(
    v: World<H>, w: World<H>, a: seq<Create<H>>, b: seq<Create<H>>, entities: seq<Eml.Entity>,
    objects: seq<Option<Pid>>)
    requires BreakAlike(v, w) && SameCalls(a, b)
    ensures SameCalls(Finish(v, a, entities, objects).0, Finish(w, b, entities, objects).0)
    ensures Finish(v, a, entities, objects).1 == Finish(w, b, entities, objects).1
  {
    var eml := Metadata(v.uuid(|a|), entities);
    UploadSame(v, w, a, b, eml, |BytesOf(v, eml)|);
    var a1, b1 := Upload(v, a, eml, |BytesOf(v, eml)|), Upload(w, b, eml, |BytesOf(w, eml)|);
    var resmap := ResourceMap(v.uuid(|a1|), v.uuid(|a|), objects);
    UploadSame(v, w, a1, b1, resmap, |BytesOf(v, resmap)|);
    hide Upload, Blank;
  }

  /**
    Refusing any of the calls changes neither the result of the run nor any call it makes: the same
    objects go up under the same pids, and the same resource map refers to them.
   */
  lemma RefusalsGoUnnoticed<H>(v: World<H>, w: World<H>, log: seq<Create<H>>, r: Request)
    requires BreakAlike(v, w)
    ensures Published(v, log, r).1 == Published(w, log, r).1
    ensures SameCalls(Published(v, log, r).0, Published(w, log, r).0)
  {
    hide Published, Gather, Finish, Described, SortedItems, EmlItems, Blank, PackageUrls.PackageUrl;
    if r.userId.Some? && AllHaveFiles(r.girder, r.items) {
      PublishedIs(v, log, r);
      PublishedIs(w, log, r);
      var s := SortedItems(r.girder, r.items);
      GatherSame(v, w, log, log, r, s.localFiles);
      var g, h := Gather(v, log, r, s.localFiles), Gather(w, log, r, s.localFiles);
      if g.Gathered? {
        FinishSame(v, w, g.log, h.log, Described(r, s, g.licenseSize, g.repositorySize), g.objects);
      }
    } else {
      NothingIsDone(v, log, r);
      NothingIsDone(w, log, r);
    }
  }

  // ----- a refusal does happen -----

  function Row(k: nat): (s: string)
    ensures |s| == k
  {
    seq(k, i requires 0 <= i < k => 'x')
  }

  /** A finished run in which every call is refused: its resource map refers to what is not stored. */
  lemma NothingStored() returns (w: World<int>, r: Request, pid: Pid)
    ensures Published(w, [], r).1.Url?
    ensures var log' := After(w, [], r);
            && EndsWithMap([], log')
            && pid in Known(log'[|log'| - 1].body.objects) && !Stored(log', pid)
  {
    w := World(Hash(0, (h: int, b: Byte) => h), (body: Body) => [], Row, (k: nat) => Refused);
    r := Request(Some(""), [], Girder((id: ItemId) => None, (id: ItemId) => Item("", "", 0)), Some(""), "CC0-1.0",
                 None, Unavailable, "");
    pid := w.uuid(0);
    assert Finished(w, [], r) && Numbered(w, []) && BeforeMetadata(r) == 1;
    assert Fresh(w) by {
      assert forall k: nat :: |w.uuid(k)| == k;
    }
    hide Published, Finished, Fresh;
    NoMapWithoutPackage(w, [], r);
    RefusedIsMapped(w, [], r, 0);
  }
}
