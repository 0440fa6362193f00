/**
  Shared vocabulary of the storage-access layer: nullable values, the error
  outcomes of the handle's operations, stored content, auxiliary-object tags,
  stream identities and the small enumerations the handle takes as arguments.
 */
module StorageTypes {

  /** A Java reference that may be null. */
  datatype Option<+T> = None | Some(value: T)

  /** Why an operation of the handle refused to act (a Java exception). */
  datatype StorageError =
    | PreservationAlreadyExists      // "Preservation version already exists"
    | PreservationMissing            // "Preservation version doesn't exist"
    | AuxObjectNotFound(tag: Tag)    // the driver has no auxiliary object under this tag
    | NumberFormat(input: string)    // Long.parseLong refused its argument

  datatype Result<+T> = Ok(value: T) | Err(error: StorageError)

  newtype byte = x: int | 0 <= x < 256

  /** The bytes of a stored object. */
  type Content = seq<byte>

  /** The extension that names an auxiliary object, such as "orig" or "tab". */
  type Tag = string

  /** Java's `long`. */
  const MinLong: int := -0x8000_0000_0000_0000
  const MaxLong: int := 0x7fff_ffff_ffff_ffff
  type Long = x: int | MinLong <= x <= MaxLong

  /** System properties, the source of every configuration value the handle reads. */
  type Config = map<string, string>

  /** The system property that configures `property` of the store `driverId`. */
  function DriverProperty(driverId: string, property: string): string
  {
    "dataverse.files." + driverId + "." + property
  }

  /** `System.getProperty(key)`: null when the property is not set. */
  function GetProperty(config: Config, key: string): Option<string>
  {
    if key in config then Some(config[key]) else None
  }

  datatype FileCopy = Original | Preservation

  /** The tag under which each copy is stored by default. */
  function FileCopyExtension(copy: FileCopy): Tag
  {
    match copy
    case Original => "orig"
    case Preservation => "preservation"
  }

  const OrigTag: Tag := FileCopyExtension(Original)
  const PreservationTag: Tag := FileCopyExtension(Preservation)

  /** Every auxiliary object produced by ingest, in the order they are cleaned up. */
  const IngestAuxObjects: seq<Tag> := [PreservationTag, "prep", "RSpace", "tab"]

  /** Options passed to `open` and `openAuxChannel`; only the two access modes matter here. */
  datatype DataAccessOption = ReadAccess | WriteAccess | OtherOption(name: string)

  /**
    An input stream, identified by what it reads: the main object, an auxiliary
    object, or a stream a caller handed to the handle.
   */
  datatype InputStream = MainInput | AuxInput(tag: Tag) | CallerInput(id: nat)

  datatype OutputStream = MainOutput | CallerOutput(id: nat)

  /** The repository object a handle is bound to. */
  datatype DvKind = DataFileKind | DatasetKind | DataverseKind
  datatype DvObject = DvObject(id: nat, kind: DvKind)

  /** Caller context of an access; a fresh request carries no parameters. */
  datatype DataAccessRequest = DataAccessRequest(parameters: map<string, string>)

  const FreshRequest: DataAccessRequest := DataAccessRequest(map[])

  /** A tabular variable; only its (nullable) name is used here. */
  datatype DataVariable = DataVariable(name: Option<string>)
}
