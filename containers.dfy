/**
 * `buildah containers`: reconcile the working containers buildah manages
 * with, under --all, every container in storage, resolve each container's
 * image name, and print the rows as a table or as one JSON document.
 */
module Containers {
  import opened ContainerTypes
  import opened ImageNames
  import opened Emitter

  /** The row of a builder in the default listing: always marked as buildah's, named after the builder. */
  function BuilderRow(b: Builder, store: ImageStore): Row
  {
    Row(b.containerID, true, b.fromImageID, StoreName(store, b.fromImageID), b.container)
  }

  /** The default listing: one row per builder, in builder order. */
  function BuilderRows(builders: seq<Builder>, store: ImageStore): seq<Row>
  {
    if builders == [] then []
    else BuilderRows(builders[..|builders| - 1], store) + [BuilderRow(builders[|builders| - 1], store)]
  }

  /** The IDs of the containers buildah manages. */
  function BuilderIDs(builders: seq<Builder>): set<string>
  {
    set i | 0 <= i < |builders| :: builders[i].containerID
  }

  /** The row of a storage container in the --all listing: marked as buildah's iff its ID is in `ours`. */
  function StorageRow(c: StorageContainer, ours: set<string>, store: ImageStore): Row
  {
    Row(c.id, c.id in ours, c.imageID, StoreName(store, c.imageID), FirstName(c.names))
  }

  /** The --all listing: one row per storage container, in storage order. */
  function StorageRows(containers: seq<StorageContainer>, ours: set<string>, store: ImageStore): seq<Row>
  {
    if containers == [] then []
    else StorageRows(containers[..|containers| - 1], ours, store) + [StorageRow(containers[|containers| - 1], ours, store)]
  }

  /**
   * The rows a listing emits, or why it fails. `builders` and `containers`
   * are the answers of the builder state and of the storage library's
   * container enumeration (None: the call failed); storage is consulted
   * only with --all.
   */
  function Reconcile(f: Flags, builders: Option<seq<Builder>>, containers: Option<seq<StorageContainer>>,
                     store: ImageStore): (r: Result<seq<Row>>)
    ensures builders.None? ==> r == Err(BuildersUnreadable)
    ensures builders.Some? && f.all && containers.None? ==> r == Err(ContainersUnreadable)
    ensures r.Ok? <==> builders.Some? && (!f.all || containers.Some?)
  {
    match builders
    case None => Err(BuildersUnreadable)
    case Some(bs) =>
      if !f.all then Ok(BuilderRows(bs, store))
      else
        match containers
        case None => Err(ContainersUnreadable)
        case Some(cs) => Ok(StorageRows(cs, BuilderIDs(bs), store))
  }

  /**
   * The default listing has exactly one row per builder, in builder order;
   * each is marked as buildah's and carries the builder's container ID,
   * image ID and container name, and the image's name.
   */
  lemma {:induction false} BuilderRowsAt(builders: seq<Builder>, store: ImageStore)
    ensures |BuilderRows(builders, store)| == |builders|
    ensures forall i :: 0 <= i < |builders| ==>
              var r := BuilderRows(builders, store)[i];
              && r.containerID == builders[i].containerID
              && r.builder
              && r.imageID == builders[i].fromImageID
              && r.imageName == StoreName(store, builders[i].fromImageID)
              && r.containerName == builders[i].container
  {
    if builders != [] {
      var init := builders[..|builders| - 1];
      BuilderRowsAt(init, store);
      forall i | 0 <= i < |init| ensures builders[i] == init[i] {
      }
    }
  }

  /**
   * The --all listing has exactly one row per storage container, in
   * storage order. Each row is marked as buildah's iff some builder has its
   * ID, carries the container's image ID and that image's name, and is
   * named after the container's first name, or "" when it has none.
   */
  lemma {:induction false} StorageRowsAt(containers: seq<StorageContainer>, builders: seq<Builder>, store: ImageStore)
    ensures |StorageRows(containers, BuilderIDs(builders), store)| == |containers|
    ensures forall i :: 0 <= i < |containers| ==>
              var r := StorageRows(containers, BuilderIDs(builders), store)[i];
              && r.containerID == containers[i].id
              && (r.builder <==> exists j :: 0 <= j < |builders| && builders[j].containerID == containers[i].id)
              && r.imageID == containers[i].imageID
              && r.imageName == StoreName(store, containers[i].imageID)
              && (containers[i].names != [] ==> r.containerName == containers[i].names[0])
              && (containers[i].names == [] ==> r.containerName == "")
  {
    if containers != [] {
      var init := containers[..|containers| - 1];
      StorageRowsAt(init, builders, store);
      forall i | 0 <= i < |init| ensures containers[i] == init[i] {
      }
    }
  }

  /** With distinct storage IDs, the --all listing never shows a container twice. */
  lemma StorageRowsDistinct(containers: seq<StorageContainer>, builders: seq<Builder>, store: ImageStore)
    requires forall i, j :: 0 <= i < j < |containers| ==> containers[i].id != containers[j].id
    ensures var rows := StorageRows(containers, BuilderIDs(builders), store);
            forall i, j :: 0 <= i < j < |rows| ==> rows[i].containerID != rows[j].containerID
  {
    StorageRowsAt(containers, builders, store);
  }

  /** The IDs of `builders`, collected one builder at a time into a set (the membership map of --all). */
  method CollectBuilderIDs(builders: seq<Builder>) returns (builderMap: set<string>)
    ensures builderMap == BuilderIDs(builders)
    ensures forall id :: id in builderMap <==> exists j :: 0 <= j < |builders| && builders[j].containerID == id
  {
    builderMap := {};
    for i := 0 to |builders|
      invariant builderMap == BuilderIDs(builders[..i])
    {
      assert builders[..i + 1][..i] == builders[..i];
      builderMap := builderMap + {builders[i].containerID};
    }
    assert builders[..|builders|] == builders;
  }

  /** One call of the emitter with the next index: the emitted rows grow by `row`. */
  method EmitRow(lister: Lister, n: int, ghost rows: seq<Row>, row: Row)
    requires n == |rows| && lister.Emitted(rows)
    modifies lister
    ensures lister.Emitted(rows + [row])
  {
    TextLinesSnoc(rows, row, lister.flags);
    lister.List(n, row);
  }

  /** The row of a builder, its image name resolved through the cache (lines 117-118). */
  method BuilderRowFor(b: Builder, cache: ImageNameCache) returns (row: Row)
    requires cache.Valid()
    modifies cache
    ensures cache.Valid() && row == BuilderRow(b, cache.store)
    ensures var id := b.fromImageID;
            cache.queries == old(cache.queries) + (if id == "" || id in old(cache.seenImages) then [] else [id])
    ensures var id := b.fromImageID;
            cache.seenImages == if id != "" && id !in old(cache.seenImages) && Cacheable(cache.store, id)
                                then old(cache.seenImages)[id := row.imageName] else old(cache.seenImages)
  {
    var image := cache.ImageNameForID(b.fromImageID);
    row := Row(b.containerID, true, b.fromImageID, image, b.container);
  }

  /** The row of a storage container, its image name resolved through the cache (lines 130-135). */
  method StorageRowFor(container: StorageContainer, builderMap: set<string>, cache: ImageNameCache) returns (row: Row)
    requires cache.Valid()
    modifies cache
    ensures cache.Valid() && row == StorageRow(container, builderMap, cache.store)
    ensures var id := container.imageID;
            cache.queries == old(cache.queries) + (if id == "" || id in old(cache.seenImages) then [] else [id])
    ensures var id := container.imageID;
            cache.seenImages == if id != "" && id !in old(cache.seenImages) && Cacheable(cache.store, id)
                                then old(cache.seenImages)[id := row.imageName] else old(cache.seenImages)
  {
    var name := "";
    if |container.names| > 0 {
      name := container.names[0];
    }
    var ours := container.id in builderMap;
    var image := cache.ImageNameForID(container.imageID);
    row := Row(container.id, ours, container.imageID, image, name);
  }

  /** The image IDs of `bs`, in builder order: the IDs the default listing resolves. */
  function BuilderImageIDs(bs: seq<Builder>): (ids: seq<string>)
    ensures |ids| == |bs| && forall k :: 0 <= k < |bs| ==> ids[k] == bs[k].fromImageID
  {
    if bs == [] then [] else BuilderImageIDs(bs[..|bs| - 1]) + [bs[|bs| - 1].fromImageID]
  }

  /** The image IDs of `cs`, in storage order: the IDs the --all listing resolves. */
  function StorageImageIDs(cs: seq<StorageContainer>): (ids: seq<string>)
    ensures |ids| == |cs| && forall k :: 0 <= k < |cs| ==> ids[k] == cs[k].imageID
  {
    if cs == [] then [] else StorageImageIDs(cs[..|cs| - 1]) + [cs[|cs| - 1].imageID]
  }

  /**
   * The default listing: one emitted row per builder, its image name
   * resolved through `cache`, which asks the store only about the builders'
   * images and ends up holding exactly its old entries and those of them
   * whose lookup succeeds with a name.
   */
  method ListBuilders(bs: seq<Builder>, cache: ImageNameCache, lister: Lister) returns (ghost rows: seq<Row>)
    requires cache.Valid() && lister.Emitted([])
    modifies cache, lister
    ensures cache.Valid()
    ensures rows == BuilderRows(bs, cache.store) && lister.Emitted(rows)
    ensures ResolvedOnly(cache.store, BuilderImageIDs(bs), old(cache.queries), old(cache.seenImages),
                         cache.queries, cache.seenImages)
  {
    rows := [];
    for i := 0 to |bs|
      invariant cache.Valid()
      invariant rows == BuilderRows(bs[..i], cache.store)
      invariant ResolvedOnly(cache.store, BuilderImageIDs(bs[..i]), old(cache.queries), old(cache.seenImages),
                             cache.queries, cache.seenImages)
      invariant lister.Emitted(rows)
    {
      ghost var q, s := cache.queries, cache.seenImages;
      var row := BuilderRowFor(bs[i], cache);
      ResolvedOneMore(cache.store, BuilderImageIDs(bs[..i]), bs[i].fromImageID, row.imageName,
                      old(cache.queries), old(cache.seenImages), q, s, cache.queries, cache.seenImages);
      BuilderRowsAt(bs[..i], cache.store);
      EmitRow(lister, i, rows, row);
      BuilderRowsSnoc(bs, i, cache.store);
      rows := rows + [row];
    }
    assert bs[..|bs|] == bs;
  }

  /**
   * The --all listing: one emitted row per storage container, marked by
   * membership in `builderMap`, its image name resolved through `cache`,
   * which asks the store only about the listed containers' images and ends
   * up holding exactly its old entries and those of them whose lookup
   * succeeds with a name.
   */
  method ListStorage(cs: seq<StorageContainer>, builderMap: set<string>, cache: ImageNameCache, lister: Lister)
    returns (ghost rows: seq<Row>)
    requires cache.Valid() && lister.Emitted([])
    modifies cache, lister
    ensures cache.Valid()
    ensures rows == StorageRows(cs, builderMap, cache.store) && lister.Emitted(rows)
    ensures ResolvedOnly(cache.store, StorageImageIDs(cs), old(cache.queries), old(cache.seenImages),
                         cache.queries, cache.seenImages)
  {
    rows := [];
    for i := 0 to |cs|
      invariant cache.Valid()
      invariant rows == StorageRows(cs[..i], builderMap, cache.store)
      invariant ResolvedOnly(cache.store, StorageImageIDs(cs[..i]), old(cache.queries), old(cache.seenImages),
                             cache.queries, cache.seenImages)
      invariant lister.Emitted(rows)
    {
      ghost var q, s := cache.queries, cache.seenImages;
      var row := StorageRowFor(cs[i], builderMap, cache);
      ResolvedOneMore(cache.store, StorageImageIDs(cs[..i]), cs[i].imageID, row.imageName,
                      old(cache.queries), old(cache.seenImages), q, s, cache.queries, cache.seenImages);
      StorageRowsLength(cs[..i], builderMap, cache.store);
      EmitRow(lister, i, rows, row);
      StorageRowsSnoc(cs, i, builderMap, cache.store);
      rows := rows + [row];
    }
    assert cs[..|cs|] == cs;
  }

  /** Every ID in `log` is the image ID of some row of `rows`. */
  ghost predicate OnlyRowImages(log: seq<string>, rows: seq<Row>)
  {
    forall j :: 0 <= j < |log| ==> exists i :: 0 <= i < |rows| && rows[i].imageID == log[j]
  }

  /** Every image ID of `bs` is the image ID of some row of the default listing. */
  lemma BuilderImagesListed(bs: seq<Builder>, store: ImageStore, log: seq<string>)
    requires forall j :: 0 <= j < |log| ==> log[j] in BuilderImageIDs(bs)
    ensures OnlyRowImages(log, BuilderRows(bs, store))
  {
    var rows := BuilderRows(bs, store);
    BuilderRowsAt(bs, store);
    var ids := BuilderImageIDs(bs);
    forall j | 0 <= j < |log| ensures exists i :: 0 <= i < |rows| && rows[i].imageID == log[j] {
      assert log[j] in ids;
      var k :| 0 <= k < |ids| && ids[k] == log[j];
      assert rows[k].imageID == bs[k].fromImageID;
    }
  }

  /** Every image ID of `cs` is the image ID of some row of the --all listing. */
  lemma StorageImagesListed(cs: seq<StorageContainer>, bs: seq<Builder>, store: ImageStore, log: seq<string>)
    requires forall j :: 0 <= j < |log| ==> log[j] in StorageImageIDs(cs)
    ensures OnlyRowImages(log, StorageRows(cs, BuilderIDs(bs), store))
  {
    var rows := StorageRows(cs, BuilderIDs(bs), store);
    StorageRowsAt(cs, bs, store);
    var ids := StorageImageIDs(cs);
    forall j | 0 <= j < |log| ensures exists i :: 0 <= i < |rows| && rows[i].imageID == log[j] {
      assert log[j] in ids;
      var k :| 0 <= k < |ids| && ids[k] == log[j];
      assert rows[k].imageID == cs[k].imageID;
    }
  }

  /**
   * The whole `buildah containers` command after flag parsing and store
   * opening. A failure to read the builders, or under --all the storage
   * containers, prints nothing and reports which; otherwise the command
   * prints exactly the rendering of the reconciled rows, with every image
   * name resolved through one per-call cache. `log` is every image ID that
   * cache asked of the store: only image IDs of listed rows, never the
   * empty ID, and never an image whose lookup succeeded with a name more
   * than once.
   */
  method ContainersCmd(flags: Flags, builders: Option<seq<Builder>>, containers: Option<seq<StorageContainer>>,
                       store: ImageStore)
    returns (stdout: seq<Printed>, err: Option<Failure>, ghost log: seq<string>)
    ensures Reconcile(flags, builders, containers, store).Err? ==>
              stdout == [] && err == Some(Reconcile(flags, builders, containers, store).failure)
    ensures Reconcile(flags, builders, containers, store).Ok? ==>
              err == None && stdout == Render(Reconcile(flags, builders, containers, store).value, flags)
    ensures Reconcile(flags, builders, containers, store).Ok? ==>
              OnlyRowImages(log, Reconcile(flags, builders, containers, store).value)
    ensures forall i :: 0 <= i < |log| ==> log[i] != ""
    ensures SuccessfulQueriesDistinct(store, log)
    ensures forall id :: Cacheable(store, id) ==> multiset(log)[id] <= 1
  {
    var lister := new Lister(flags);
    var cache := new ImageNameCache(store);

    if builders.None? {
      return [], Some(BuildersUnreadable), [];
    }
    var bs := builders.value;
    ghost var rows: seq<Row>;
    if !flags.all {
      rows := ListBuilders(bs, cache, lister);
      BuilderImagesListed(bs, store, cache.queries);
    } else {
      var builderMap := CollectBuilderIDs(bs);
      if containers.None? {
        return [], Some(ContainersUnreadable), [];
      }
      rows := ListStorage(containers.value, builderMap, cache, lister);
      StorageImagesListed(containers.value, bs, store, cache.queries);
    }
    assert OnlyRowImages(cache.queries, rows);
    lister.Finish(rows);
    stdout, err, log := lister.stdout, None, cache.queries;
    assert rows == Reconcile(flags, builders, containers, store).value;
    forall id | Cacheable(store, id) ensures multiset(log)[id] <= 1 {
      SuccessfulQueryAtMostOnce(store, log, id);
    }
  }

  lemma BuilderRowsSnoc(bs: seq<Builder>, i: nat, store: ImageStore)
    requires i < |bs|
    ensures BuilderRows(bs[..i + 1], store) == BuilderRows(bs[..i], store) + [BuilderRow(bs[i], store)]
    ensures BuilderImageIDs(bs[..i + 1]) == BuilderImageIDs(bs[..i]) + [bs[i].fromImageID]
  {
    assert bs[..i + 1][..i] == bs[..i];
  }

  lemma StorageRowsSnoc(cs: seq<StorageContainer>, i: nat, ours: set<string>, store: ImageStore)
    requires i < |cs|
    ensures StorageRows(cs[..i + 1], ours, store) == StorageRows(cs[..i], ours, store) + [StorageRow(cs[i], ours, store)]
    ensures StorageImageIDs(cs[..i + 1]) == StorageImageIDs(cs[..i]) + [cs[i].imageID]
  {
    assert cs[..i + 1][..i] == cs[..i];
  }

  lemma {:induction false} StorageRowsLength(containers: seq<StorageContainer>, ours: set<string>, store: ImageStore)
    ensures |StorageRows(containers, ours, store)| == |containers|
  {
    if containers != [] {
      StorageRowsLength(containers[..|containers| - 1], ours, store);
    }
  }

  /**
   * One builder "b1" from image "i1" (named "alpine:latest") and a second
   * storage container "c2" whose image "i2" cannot be looked up: the default
   * listing shows b1 only, --all shows both, with b1 marked as buildah's and
   * c2 with a blank image name. With nothing anywhere, --all --json prints
   * the empty array.
   */
  lemma ExampleListings()
    ensures var bs := [Builder("b1", "i1", "work1")];
            var cs := [StorageContainer("b1", "i1", ["work1"]), StorageContainer("c2", "i2", [])];
            var store: ImageStore := map["i1" := Some(["alpine:latest"]), "i2" := None];
            && Reconcile(Flags(false, false, false, false, false), Some(bs), Some(cs), store)
               == Ok([Row("b1", true, "i1", "alpine:latest", "work1")])
            && Reconcile(Flags(true, false, false, false, false), Some(bs), Some(cs), store)
               == Ok([Row("b1", true, "i1", "alpine:latest", "work1"), Row("c2", false, "i2", "", "")])
    ensures var f := Flags(true, true, false, false, false);
            Reconcile(f, Some([]), Some([]), map[]) == Ok([])
            && Render(Reconcile(f, Some([]), Some([]), map[]).value, f) == [JsonDocument([])]
  {
    var bs := [Builder("b1", "i1", "work1")];
    var cs := [StorageContainer("b1", "i1", ["work1"]), StorageContainer("c2", "i2", [])];
    var store: ImageStore := map["i1" := Some(["alpine:latest"]), "i2" := None];
    assert BuilderRows(bs, store) == BuilderRows([], store) + [BuilderRow(bs[0], store)];
    assert "b1" in BuilderIDs(bs);
    assert "c2" !in BuilderIDs(bs);
    assert StoreName(store, "i1") == "alpine:latest";
    assert StoreName(store, "i2") == "";
    assert cs[..1] == [cs[0]];
    assert StorageRows(cs[..1], BuilderIDs(bs), store) == [StorageRow(cs[0], BuilderIDs(bs), store)];
    assert StorageRows(cs, BuilderIDs(bs), store)
        == [StorageRow(cs[0], BuilderIDs(bs), store), StorageRow(cs[1], BuilderIDs(bs), store)];
  }
}
