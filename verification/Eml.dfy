/** The otherEntity records of a package's science metadata: create_minimum_eml. */
module Eml {
  import opened Options
  import opened Text
  import opened Items
  import HtmlTags

  datatype Entity = Entity(name: string, description: Option<string>, size: int, format: string)

  datatype FileSizes = FileSizes(taleYaml: nat, license: nat, repository: nat)

  const TALE_CONFIG := "tale.yml"
  const LICENSE_FILENAME := "LICENSE"
  const ENVIRONMENT_FILE := "docker-environment.tar.gz"

  const TALE_CONFIG_DESCRIPTION :=
    "A configuration file, holding information that is needed to reproduce the compute environment."
  const LICENSE_DESCRIPTION := "The package's licensing information."
  const ENVIRONMENT_DESCRIPTION :=
    "Holds the dockerfile and additional configurations for the underlying compute environment. " +
    "This environment was used as the base image, and includes the the IDE that is used while running the Tale."

  /** The record of one object: its description without tags, and none if nothing is left of it. */
  function Record(name: string, description: string, size: int, format: string): Entity {
    var text := HtmlTags.StripHtmlTags(description);
    Entity(name, if text == "" then None else Some(text), size, format)
  }

  /**
    The description of a record is not made up: it is what is left of the one given, in order, when the
    tags are taken out. There is none exactly if the given one was nothing but tags.
   */
  lemma RecordDescription(name: string, description: string, size: int, format: string)
    ensures match Record(name, description, size, format).description
            case None => |description| == HtmlTags.Total(HtmlTags.Tags(HtmlTags.Pieces(description, "")))
            case Some(text) =>
              && text != "" && Subsequence(text, description)
              && |description| == |text| + HtmlTags.Total(HtmlTags.Tags(HtmlTags.Pieces(description, "")))
  {
    hide HtmlTags.StripHtmlTags, HtmlTags.Pieces, HtmlTags.Tags, HtmlTags.Total;
    HtmlTags.StripAccounts(description);
  }

  function ItemRecord(g: Girder, id: ItemId): Entity
    requires g.file(id).Some?
  {
    Record(g.item(id).name, g.item(id).description, g.item(id).size, g.file(id).value.mimeType)
  }

  function ItemRecords(g: Girder, ids: seq<ItemId>): (r: seq<Entity>)
    requires AllHaveFiles(g, ids)
    ensures |r| == |ids| && forall i :: 0 <= i < |ids| ==> r[i] == ItemRecord(g, ids[i])
  {
    if ids == [] then [] else [ItemRecord(g, ids[0])] + ItemRecords(g, ids[1..])
  }

  function TaleRecord(sizes: FileSizes): Entity {
    Record(TALE_CONFIG, TALE_CONFIG_DESCRIPTION, sizes.taleYaml, "application/x-yaml")
  }

  function LicenseRecord(sizes: FileSizes): Entity {
    Record(LICENSE_FILENAME, LICENSE_DESCRIPTION, sizes.license, "text/plain")
  }

  function EnvironmentRecord(sizes: FileSizes): Entity {
    Record(ENVIRONMENT_FILE, ENVIRONMENT_DESCRIPTION, sizes.repository, "application/tar+gzip")
  }

  function OneIf(present: bool): nat {
    if present then 1 else 0
  }

  /**
    `entities` has one record for each item in order, then that of tale.yml, then those of the license
    and of the environment archive if their size is not zero, and nothing else.
   */
  ghost predicate Complete(entities: seq<Entity>, g: Girder, ids: seq<ItemId>, sizes: FileSizes)
    requires AllHaveFiles(g, ids)
  {
    var k := |ids|;
    && |entities| == k + 1 + OneIf(sizes.license != 0) + OneIf(sizes.repository != 0)
    && (forall i :: 0 <= i < k ==> entities[i] == ItemRecord(g, ids[i]))
    && entities[k] == TaleRecord(sizes)
    && (sizes.license != 0 ==> entities[k + 1] == LicenseRecord(sizes))
    && (sizes.repository != 0 ==> entities[|entities| - 1] == EnvironmentRecord(sizes))
  }

  /** The records of a package as a value. */
  function Entities(g: Girder, ids: seq<ItemId>, sizes: FileSizes): seq<Entity>
    requires AllHaveFiles(g, ids)
  {
    ItemRecords(g, ids) + [TaleRecord(sizes)]
    + (if sizes.license != 0 then [LicenseRecord(sizes)] else [])
    + (if sizes.repository != 0 then [EnvironmentRecord(sizes)] else [])
  }

  lemma EntitiesAreComplete(g: Girder, ids: seq<ItemId>, sizes: FileSizes)
    requires AllHaveFiles(g, ids)
    ensures Complete(Entities(g, ids, sizes), g, ids, sizes)
  {
    hide Record, ItemRecord, TaleRecord, LicenseRecord, EnvironmentRecord;
  }

  lemma CompleteIsUnique(a: seq<Entity>, b: seq<Entity>, g: Girder, ids: seq<ItemId>, sizes: FileSizes)
    requires AllHaveFiles(g, ids)
    ensures Complete(a, g, ids, sizes) && Complete(b, g, ids, sizes) ==> a == b
  {
    hide ItemRecord, TaleRecord, LicenseRecord, EnvironmentRecord;
    if Complete(a, g, ids, sizes) && Complete(b, g, ids, sizes) {
      forall i | 0 <= i < |a| ensures a[i] == b[i] {
        if i > |ids| {
          assert i == |ids| + 1 || i == |ids| + 2;
        }
      }
    }
  }

  // ----- the records in literals -----

  /** A record says just this; its description is `text` without tags, and none if nothing is left of it. */
  predicate Says(entity: Entity, name: string, size: int, format: string, text: string) {
    var stripped := HtmlTags.StripHtmlTags(text);
    entity == Entity(name, if |stripped| > 0 then Some(stripped) else None, size, format)
  }

  lemma RecordSays(name: string, description: string, size: int, format: string)
    ensures Says(Record(name, description, size, format), name, size, format, description)
  {
    hide HtmlTags.StripHtmlTags;
  }

  /** A text without a tag is its own description. */
  lemma PlainIsKept(text: string)
    requires '<' !in text
    ensures HtmlTags.StripHtmlTags(text) == text
  {
    HtmlTags.StripSegments(text, []);
    assert text + HtmlTags.Flat([]) == text && text + HtmlTags.Remains([]) == text;
    hide HtmlTags.StripHtmlTags;
  }

  /** The records of a package: of each item, of tale.yml, and of the license and the archive if any. */
  ghost predicate AllSay(
    entities: seq<Entity>, g: Girder, ids: seq<ItemId>, taleSize: nat, licenseSize: nat, archiveSize: nat)
    requires AllHaveFiles(g, ids)
  {
    var k, last := |ids|, |entities| - 1;
    && |entities| == k + 1 + (if licenseSize > 0 then 1 else 0) + (if archiveSize > 0 then 1 else 0)
    && (forall i :: 0 <= i < k ==>
          var item := g.item(ids[i]);
          Says(entities[i], item.name, item.size, g.file(ids[i]).value.mimeType, item.description))
    && Says(entities[k], "tale.yml", taleSize, "application/x-yaml",
            "A configuration file, holding information that is needed to reproduce the compute environment.")
    && (licenseSize > 0 ==>
          Says(entities[k + 1], "LICENSE", licenseSize, "text/plain", "The package's licensing information."))
    && (archiveSize > 0 ==>
          Says(
      entities[last], "docker-environment.tar.gz", archiveSize, "application/tar+gzip",
      "Holds the dockerfile and additional configurations for the underlying compute environment. " +
      "This environment was used as the base image, and includes the the IDE that is used while running the Tale."))
  }

  lemma CompleteSays(entities: seq<Entity>, g: Girder, ids: seq<ItemId>, sizes: FileSizes)
    requires AllHaveFiles(g, ids) && Complete(entities, g, ids, sizes)
    ensures AllSay(entities, g, ids, sizes.taleYaml, sizes.license, sizes.repository)
  {
    hide Says, Record;
    forall i | 0 <= i < |ids|
      ensures var item := g.item(ids[i]);
              Says(entities[i], item.name, item.size, g.file(ids[i]).value.mimeType, item.description)
    {
      RecordSays(g.item(ids[i]).name, g.item(ids[i]).description, g.item(ids[i]).size, g.file(ids[i]).value.mimeType);
    }
    RecordSays("tale.yml", TALE_CONFIG_DESCRIPTION, sizes.taleYaml, "application/x-yaml");
    RecordSays("LICENSE", LICENSE_DESCRIPTION, sizes.license, "text/plain");
    RecordSays("docker-environment.tar.gz", ENVIRONMENT_DESCRIPTION, sizes.repository, "application/tar+gzip");
  }

  /** Nothing else is complete. */
  lemma OnlyEntitiesAreComplete(a: seq<Entity>, g: Girder, ids: seq<ItemId>, sizes: FileSizes)
    requires AllHaveFiles(g, ids)
    ensures Complete(a, g, ids, sizes) <==> a == Entities(g, ids, sizes)
  {
    hide *;
    EntitiesAreComplete(g, ids, sizes);
    CompleteIsUnique(a, Entities(g, ids, sizes), g, ids, sizes);
  }

  /** The dataset element, which the records are appended to. */
  class Dataset {
    var entities: seq<Entity>

    constructor ()
      ensures entities == []
    {
      entities := [];
    }

    method AddObjectRecord(name: string, description: string, size: int, format: string)
      modifies this
      ensures entities == old(entities) + [Record(name, description, size, format)]
    {
      var text := HtmlTags.StripHtmlTags(description);
      var kept := if text == "" then None else Some(text);
      entities := entities + [Entity(name, kept, size, format)];
    }
  }

  /** An item without a file is an error: its MIME type is asked for. */
  method CreateMinimumEml(g: Girder, ids: seq<ItemId>, sizes: FileSizes) returns (r: Option<seq<Entity>>)
    ensures r == if AllHaveFiles(g, ids) then Some(Entities(g, ids, sizes)) else None
    ensures r.Some? ==> Complete(r.value, g, ids, sizes)
  {
    hide HtmlTags.StripHtmlTags, Entities;
    var dataset := new Dataset();
    for i := 0 to |ids|
      invariant AllHaveFiles(g, ids[..i]) && |dataset.entities| == i
      invariant forall k :: 0 <= k < i ==> g.file(ids[k]).Some? && dataset.entities[k] == ItemRecord(g, ids[k])
    {
      var item, file := g.item(ids[i]), g.file(ids[i]);
      if file == None {
        assert ids[i] in ids;
        return None;
      }
      dataset.AddObjectRecord(item.name, item.description, item.size, file.value.mimeType);
      assert ids[..i + 1] == ids[..i] + [ids[i]];
    }
    assert ids[..|ids|] == ids;
    hide Record;
    dataset.AddObjectRecord(TALE_CONFIG, TALE_CONFIG_DESCRIPTION, sizes.taleYaml, "application/x-yaml");
    if sizes.license != 0 {
      dataset.AddObjectRecord(LICENSE_FILENAME, LICENSE_DESCRIPTION, sizes.license, "text/plain");
    }
    if sizes.repository != 0 {
      dataset.AddObjectRecord(ENVIRONMENT_FILE, ENVIRONMENT_DESCRIPTION, sizes.repository, "application/tar+gzip");
    }
    OnlyEntitiesAreComplete(dataset.entities, g, ids, sizes);
    return Some(dataset.entities);
  }
}
