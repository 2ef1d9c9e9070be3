/**
 * The records that `buildah containers` works on: the builders it manages
 * itself, the containers the storage library knows about, the rows it
 * emits, and the command's flags.
 */
module ContainerTypes {

  datatype Option<+T> = None | Some(value: T)

  /** Why a listing was abandoned: which of the two inventories could not be read. */
  datatype Failure = BuildersUnreadable | ContainersUnreadable

  datatype Result<+T> = Ok(value: T) | Err(failure: Failure)

  /** The part of a working container's builder state that the listing uses. */
  datatype Builder = Builder(containerID: string, fromImageID: string, container: string)

  /** A container as the storage library enumerates it. */
  datatype StorageContainer = StorageContainer(id: string, imageID: string, names: seq<string>)

  /**
   * One emitted row: the arguments of one call of the row emitter, and also
   * the JSON record it becomes (JSON keys "id", "builder", "imageid",
   * "imagename" and "containername", in that order).
   */
  datatype Row = Row(containerID: string, builder: bool, imageID: string, imageName: string, containerName: string)

  /** The command-line switches --all, --json, --noheading, --notruncate and --quiet. */
  datatype Flags = Flags(all: bool, json: bool, noheading: bool, notruncate: bool, quiet: bool)
  {
    predicate Truncate() { !notruncate }
  }

  /** The first of a list of names, or the empty name when there is none. */
  function FirstName(names: seq<string>): (name: string)
    ensures names != [] ==> name == names[0]
    ensures names == [] ==> name == ""
  {
    if |names| > 0 then names[0] else ""
  }
}
