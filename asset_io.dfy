/**
 * The values that cross the resolver's interface: bytes, the errors of an
 * asset backend, and the backend itself. A backend (a handler's delegate or
 * the default backend) is code this model cannot see, so it is represented by
 * its answers: four total functions of the path it is given, and one constant
 * for `watch_for_changes`. A backend thus answers the same path the same way
 * every time it is asked.
 */
module AssetIoTypes {

  import opened Paths

  newtype Byte = x: int | 0 <= x < 256
  type Bytes = seq<Byte>

  /** The kind carried by an `AssetIoError::Io` (an `std::io::ErrorKind`). */
  datatype ErrorKind = NotFoundKind | OtherKind(name: string)

  /** The errors an asset backend reports. */
  datatype AssetIoError =
    | NotFound(path: Path)
    | Io(kind: ErrorKind)
    | PathWatchError(path: Path)

  datatype Result<T> = Ok(value: T) | Err(error: AssetIoError)

  /** How a call into the resolver ends: it returns a result, it panics (a
      failed `expect`), or it never returns (unbounded re-entry). */
  datatype Outcome<T> = Returns(result: Result<T>) | Panics | Diverges

  /** An asset backend, by its answers. `watchForChanges` takes no path. A
      directory listing is a set, since the backend's iteration order is not
      specified. */
  datatype AssetIo = AssetIo(
    load: Path -> Result<Bytes>,
    readDirectory: Path -> Result<set<Path>>,
    isDirectory: Path -> bool,
    watchPathForChanges: Path -> Result<()>,
    watchForChanges: Result<()>)
}
