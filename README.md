# buildah `containers`: a Dafny model of the container listing

This project models the listing logic of `buildah containers`. The command
lists the working containers that buildah itself manages. With `--all`, it
lists every container in the storage library instead, and marks those that
buildah manages. For each container it shows the name of the image the
container was created from. It prints the rows either as a fixed-width text
table or as one JSON array.

The model has five modules:

- `ContainerTypes` (`container_types.dfy`) holds the records. `Builder` is a
  working container's builder state. `StorageContainer` is a container as
  storage enumerates it. `Row` is one emitted row, which is also one JSON
  record. `Flags` holds `--all`, `--json`, `--noheading`, `--notruncate`
  and `--quiet`.
- `TextFormat` (`text_format.dfy`) models the printf verbs the table uses:
  `PadRight` is `%-Ns` and `ClipPad` is `%-N.Ns`. It also defines the heading
  line and the row line, and proves lemmas that pin down where each column
  sits.
- `ImageNames` (`image_names.dfy`) models `imageNameForID` as the class
  `ImageNameCache`. The class has the `seenImages` map and a ghost log of
  every image ID asked of the store. `StoreName` is the uncached reference
  answer. The method proves that the cache never changes an answer. It also
  proves that only successful lookups are remembered.
- `Emitter` (`render.dfy`) models the `list` closure as the class `Lister`.
  The class holds the accumulated JSON records and the printed output.
  `TextLines` and `Render` are the pure specifications of the two output
  encodings.
- `Containers` (`containers.dfy`) models the reconciliation. `Reconcile` is
  the specification. `ContainersCmd` and its loops are the imperative
  command, and it is proved to print exactly `Render(Reconcile(...))`. The
  three loops of `containersCmd` are the methods `ListBuilders`,
  `CollectBuilderIDs` and `ListStorage`, which `ContainersCmd` calls in the
  source's order. Each loop body is split into a method that builds one row
  (`BuilderRowFor`, `StorageRowFor`) and `EmitRow`, which emits it.

The collaborators become inputs:

- The builder list is an `Option<seq<Builder>>`; `None` means
  `openBuilders` failed.
- The storage enumeration is an `Option<seq<StorageContainer>>`; `None`
  means `store.Containers` failed.
- The image store is a `map<string, Option<seq<string>>>`. An absent key or
  `None` means the `store.Image` lookup failed.

Standard output is a sequence of `Printed` values, one per `printf`. Each
value names the format and arguments of that call: `Heading`, `TableRow`,
`BareID` or `JsonDocument`. `LineText` gives the characters of a text line
without its trailing newline. `JsonDocument` holds the record sequence that
`json.MarshalIndent` encodes.

One might expect every image lookup, failed ones included, to be cached, so
that each image is looked up at most once. The code
(cmd/buildah/containers.go:104-108) caches only a lookup that returns at
least one name, so a failed lookup is repeated for every container that uses
that image. The model follows the code.
`ImageNameCache.ImageNameForID` states exactly when the store is asked, and
`ImageNames.SuccessfulQueryAtMostOnce` bounds repeats to failed lookups.

## Model

| member | source | states |
|---|---|---|
| `TextFormat.PadRight` | cmd/buildah/containers.go:90-91 | `%-Ns`: the result is the whole string followed by spaces, and is `max(len, N)` long, so nothing is clipped |
| `TextFormat.ClipPad` | cmd/buildah/containers.go:88-89 | `%-N.Ns`: the result is exactly N long, starts with the first `min(len, N)` characters of the string, and has spaces after them |
| `TextFormat.BuilderColumnIsPadded` | cmd/buildah/containers.go:84-87 | the BUILDER column is `"   *    "` for a buildah container and eight spaces otherwise |
| `TextFormat.TruncatedRowLayout` | cmd/buildah/containers.go:88-89 | truncate mode: the container ID is clipped and padded to 12 at offset 0, then two spaces; the marker is at 14..22; the image ID is clipped and padded to 12 at 23..35; the image name starts at 36, is padded to at least 32 and never clipped; the container name comes last |
| `TextFormat.TruncatedHeaderLayout` | cmd/buildah/containers.go:74-76 | the truncate-mode heading puts its five titles at the same offsets 0, 14, 23, 36 and 69 that a row with an image name of at most 32 characters uses |
| `TextFormat.UntruncatedRowNeverClips` | cmd/buildah/containers.go:90-91 | notruncate mode never clips, whatever the field lengths: the whole container ID starts the line, the whole image ID starts 10 columns after the container ID's field, the whole image name one column after the image ID's field, and the container name ends the line. Each ID field is at least 64 wide and the name field at least 32 |
| `TextFormat.UntruncatedRowLayout` | cmd/buildah/containers.go:90-91 | notruncate mode with IDs of at most 64 characters: the IDs are padded to 64 and the fields sit at offsets 0, 65, 74 and 139, the same as the heading's |
| `TextFormat.UntruncatedHeaderLayout` | cmd/buildah/containers.go:77-78 | the notruncate-mode heading puts its titles at offsets 0, 65, 74, 139 and 172 |
| `ImageNames.SuccessfulQueryAtMostOnce` | cmd/buildah/containers.go:100-107 | in a query log where no successful lookup repeats, an image whose lookup succeeds with a name occurs at most once |
| `ImageNames.ResolvedOneMore` | cmd/buildah/containers.go:100-108 | one more resolution of an ID, with the log and cache change that `ImageNameForID` makes, keeps the cache's history within the resolved IDs: the store was asked only about them, old entries are kept, and exactly the resolved IDs whose lookup succeeds with a name are cached |
| `ImageNames.ImageNameCache.constructor` | cmd/buildah/containers.go:95 | the cache starts empty, with no store queries |
| `ImageNames.ImageNameCache.ImageNameForID` | cmd/buildah/containers.go:96-109 | the answer equals the uncached store answer: the fake base name for `""`, else the first name, else `""`. The store is asked iff the ID is non-empty and not cached. Only a lookup with at least one name is cached. Cached entries are never overwritten. The empty ID leaves the cache and the store log unchanged. The cache invariant is kept, including that no successful lookup is ever repeated |
| `Emitter.TextLinesShape` | cmd/buildah/containers.go:74-93 | text output is one line per row, in order. Exactly one heading line precedes them iff there is at least one row and neither noheading nor quiet is set, so an empty listing prints nothing |
| `Emitter.QuietPrintsOnlyIDs` | cmd/buildah/containers.go:81-82 | quiet text output is exactly one `BareID` line per row, in order, with no heading; `LineText` of such a line is the container ID alone |
| `Emitter.JsonIgnoresTextFlags` | cmd/buildah/containers.go:65-71 | JSON output is one document of all rows, in order and unchanged. It does not depend on quiet, noheading or notruncate. No rows give the empty array. This spells out the JSON branch of `Render`; the accumulation itself is stated by `Lister.List`, `Lister.Finish` and `ContainersCmd` |
| `Emitter.Lister.constructor` | cmd/buildah/containers.go:65 | the emitter starts with no JSON records and nothing printed |
| `Emitter.Lister.List` | cmd/buildah/containers.go:68-94 | JSON mode appends the row to the records and prints nothing. Text mode prints the heading (only for index 0 without noheading or quiet), then the bare ID or the table row |
| `Emitter.Lister.Finish` | cmd/buildah/containers.go:138-144 | after the rows, JSON mode prints the accumulated records once as one document. Output is then exactly `Render` of the emitted rows, and the accumulated records are left unchanged |
| `Containers.Reconcile` | cmd/buildah/containers.go:111-137 | the listing fails with BuildersUnreadable iff the builders cannot be read. With `--all` it fails with ContainersUnreadable iff the storage containers cannot be read. Otherwise it succeeds |
| `Containers.BuilderRowsAt` | cmd/buildah/containers.go:115-119 | default mode has exactly one row per builder, in builder order. Each row is marked as buildah's and carries the builder's container ID, image ID and container name, and the image's resolved name |
| `Containers.StorageRowsAt` | cmd/buildah/containers.go:121-136 | `--all` has exactly one row per storage container, in storage order. The builder flag is true iff some builder has that container ID. The name is `Names[0]`, or `""` when there are no names. The image ID and the resolved image name come from the container |
| `Containers.StorageRowsDistinct` | cmd/buildah/containers.go:129-135 | if storage IDs are distinct, no container appears twice in the `--all` listing |
| `Containers.CollectBuilderIDs` | cmd/buildah/containers.go:121-124 | the membership set holds exactly the builders' container IDs |
| `Containers.EmitRow` | cmd/buildah/containers.go:118 | one call of the emitter with the next row index extends the emitted rows by exactly that row |
| `Containers.BuilderRowFor` | cmd/buildah/containers.go:117-118 | a builder's row is marked as buildah's and carries the builder's IDs and name and the uncached image name. The cache stays valid. The store is asked iff the image ID is non-empty and not cached, and the cache gains the ID only when that lookup succeeds with a name; nothing else in the cache changes |
| `Containers.StorageRowFor` | cmd/buildah/containers.go:130-135 | a storage container's row is marked iff its ID is in the membership set, named `Names[0]` or `""`, and carries the uncached image name. The cache stays valid. The store is asked iff the image ID is non-empty and not cached, and the cache gains the ID only when that lookup succeeds with a name; nothing else in the cache changes |
| `Containers.ListBuilders` | cmd/buildah/containers.go:116-119 | the default-mode loop emits exactly `BuilderRows`, in order. The cache stays valid. Between entry and exit (`ResolvedOnly`) the store is asked only about builders' image IDs, the query log only grows, every old cache entry is kept, and the cache gains exactly the builders' image IDs whose lookup succeeds with a name |
| `Containers.ListStorage` | cmd/buildah/containers.go:129-136 | the `--all` loop emits exactly `StorageRows` for the membership set, in order. The cache stays valid. Between entry and exit (`ResolvedOnly`) the store is asked only about the listed containers' image IDs, the query log only grows, every old cache entry is kept, and the cache gains exactly those image IDs whose lookup succeeds with a name |
| `Containers.ContainersCmd` | cmd/buildah/containers.go:63-147 | a failure to read the builders, or under `--all` the storage containers, prints nothing and returns that failure. Otherwise the command succeeds and prints exactly `Render(Reconcile(...))`. Every entry of the returned log of store queries is the image ID of a listed row and is never the empty ID, and each image whose lookup succeeds with a name occurs in it at most once |
| `Containers.ExampleListings` | cmd/buildah/containers.go:111-143 | worked example: with a builder b1 and an extra container c2 whose image lookup fails, default mode lists b1 only and `--all` lists both, with c2 unmarked and its image name blank. An empty `--all --json` listing prints `[]` |

## Left out

- Flag parsing and validation (`validateFlags`, `c.Bool`) and opening the store (`getStore`, lines 55-61) are not modelled. The flags are plain booleans in `Flags`.
- `openBuilders`, `store.Containers` and `store.Image` are foreign calls whose code is not part of this model. They are inputs. Each one's failure is `None` or a missing key.
- The byte-level encoding of `json.MarshalIndent` is not modelled; the printed document is the record sequence. Its error branch (lines 140-142) is left out because marshalling records of strings and booleans cannot fail.
- Writing to standard output is modelled as returned `Printed` values. The trailing newline of each `printf` is dropped.
- `%-12.12s` clips by runes in Go. The model clips by characters of a `seq<char>` and does not distinguish runes from bytes.
- The text of the `errors.Wrapf` messages and the wrapped cause are not modelled. A failure is the tag `BuildersUnreadable` or `ContainersUnreadable`.
- `BaseImageFakeName` is declared outside the command file and is not part of this model. Its value is taken to be `"scratch"`.
- The store-query log that `Containers.ContainersCmd` returns is ghost: it records the `store.Image` calls, which the source does not keep.
