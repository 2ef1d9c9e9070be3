/**
 * The memoising image-name resolver of one listing call (`imageNameForID`):
 * the empty image ID stands for "no base image"; any other ID is looked up
 * in the per-call cache and, on a miss, in the image store. Only a lookup
 * that succeeds with at least one name is remembered.
 */
module ImageNames {
  import opened ContainerTypes

  /** What the image store answers for each image ID: an absent key or `None` is a failed lookup. */
  type ImageStore = map<string, Option<seq<string>>>

  /**
   * The display name used for a container without a base image. The
   * constant itself is declared elsewhere in buildah (BaseImageFakeName),
   * which is not part of this model; its value there is "scratch".
   */
  const BASE_IMAGE_FAKE_NAME: string := "scratch"

  /** One store lookup of an image's names. */
  function ImageLookup(store: ImageStore, id: string): Option<seq<string>>
  {
    if id in store then store[id] else None
  }

  /** The lookup of `id` succeeds with at least one name, so the resolver remembers its answer. */
  predicate Cacheable(store: ImageStore, id: string)
  {
    id != "" && ImageLookup(store, id).Some? && |ImageLookup(store, id).value| > 0
  }

  /**
   * The display name of an image, computed without any cache: the fake base
   * name for the empty ID, the image's first name when the lookup succeeds
   * with a name, and the empty string otherwise.
   */
  function StoreName(store: ImageStore, id: string): string
  {
    if id == "" then BASE_IMAGE_FAKE_NAME
    else if Cacheable(store, id) then ImageLookup(store, id).value[0]
    else ""
  }

  /** No image whose lookup succeeded with a name is ever looked up twice. */
  ghost predicate SuccessfulQueriesDistinct(store: ImageStore, queries: seq<string>)
  {
    forall i, j :: 0 <= i < j < |queries| && queries[i] == queries[j] ==> !Cacheable(store, queries[i])
  }

  /** A successful lookup appears at most once in a log of store queries with no successful repeat. */
  lemma {:induction false} SuccessfulQueryAtMostOnce(store: ImageStore, queries: seq<string>, id: string)
    requires SuccessfulQueriesDistinct(store, queries)
    requires Cacheable(store, id)
    ensures multiset(queries)[id] <= 1
  {
    if queries != [] {
      var init := queries[..|queries| - 1];
      var last := queries[|queries| - 1];
      assert queries == init + [last];
      assert SuccessfulQueriesDistinct(store, init) by {
        forall i, j | 0 <= i < j < |init| && init[i] == init[j] ensures !Cacheable(store, init[i]) {
          assert queries[i] == init[i] && queries[j] == init[j];
        }
      }
      SuccessfulQueryAtMostOnce(store, init, id);
      if last == id {
        forall i | 0 <= i < |init| ensures init[i] != id {
          assert queries[i] == init[i];
        }
        assert id !in multiset(init);
      }
    }
  }

  /**
   * From query log `q0` and cache `s0` to `q` and `s`, the resolver asked the
   * store only about IDs in `ids`, kept every entry it had, and gained
   * exactly the IDs in `ids` whose lookup succeeds with a name.
   */
  ghost predicate ResolvedOnly(store: ImageStore, ids: seq<string>, q0: seq<string>, s0: map<string, string>,
                               q: seq<string>, s: map<string, string>)
  {
    && q0 <= q
    && (forall j :: |q0| <= j < |q| ==> q[j] in ids)
    && (forall id :: id in s0 ==> id in s && s[id] == s0[id])
    && (forall id :: id in s <==> id in s0 || (Cacheable(store, id) && id in ids))
  }

  /** One more resolution of `id`, as `ImageNameCache.ImageNameForID` makes it, extends `ids` by `id`. */
  lemma ResolvedOneMore(store: ImageStore, ids: seq<string>, id: string, name: string, q0: seq<string>,
                        s0: map<string, string>, q1: seq<string>, s1: map<string, string>,
                        q2: seq<string>, s2: map<string, string>)
    requires ResolvedOnly(store, ids, q0, s0, q1, s1)
    requires q2 == q1 + (if id == "" || id in s1 then [] else [id])
    requires s2 == if id != "" && id !in s1 && Cacheable(store, id) then s1[id := name] else s1
    ensures ResolvedOnly(store, ids + [id], q0, s0, q2, s2)
  {
    forall j | |q0| <= j < |q2| ensures q2[j] in ids + [id] {
      if j < |q1| {
        assert q2[j] == q1[j];
      }
    }
  }

  /** The image-name cache of one listing call, over a fixed image store. */
  class ImageNameCache {
    const store: ImageStore
    var seenImages: map<string, string>
    /** Every image ID asked of the store, in order. */
    ghost var queries: seq<string>

    ghost predicate Valid()
      reads this
    {
      && (forall id :: id in seenImages ==> Cacheable(store, id) && seenImages[id] == StoreName(store, id))
      && (forall i :: 0 <= i < |queries| ==> queries[i] != "")
      && (forall i :: 0 <= i < |queries| && Cacheable(store, queries[i]) ==> queries[i] in seenImages)
      && SuccessfulQueriesDistinct(store, queries)
    }

    constructor (store: ImageStore)
      ensures Valid()
      ensures this.store == store && seenImages == map[] && queries == []
    {
      this.store := store;
      seenImages := map[];
      queries := [];
    }

    /**
     * The name for `id`. It is always the uncached answer; the store is asked
     * exactly when the ID is non-empty and not cached, and the cache only
     * gains `id` when that lookup succeeded with a name. Cached entries are
     * never overwritten.
     */
    method ImageNameForID(id: string) returns (name: string)
      requires Valid()
      modifies this
      ensures Valid()
      ensures name == StoreName(store, id)
      ensures id == "" ==> name == BASE_IMAGE_FAKE_NAME
      ensures queries == old(queries) + (if id == "" || id in old(seenImages) then [] else [id])
      ensures seenImages == if id != "" && id !in old(seenImages) && Cacheable(store, id)
                            then old(seenImages)[id := name] else old(seenImages)
    {
      if id == "" {
        return BASE_IMAGE_FAKE_NAME;
      }
      if id in seenImages {
        return seenImages[id];
      }
      var img := ImageLookup(store, id);
      queries := queries + [id];
      if img.Some? && |img.value| > 0 {
        seenImages := seenImages[id := img.value[0]];
      }
      name := if id in seenImages then seenImages[id] else "";
    }
  }
}
