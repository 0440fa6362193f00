# StorageIO: a Dafny model of Dataverse's storage-access handle

This project models `StorageIO`, the base class of Dataverse's storage drivers.
A `StorageIO` is a live session on one repository object (a data file, dataset
or dataverse) through one storage driver (local file system, S3, Swift, ...).
The class keeps the handle's bookkeeping: streams, size, MIME type, file name,
variable header, error message and access mode. It also adds backend-independent
policy on top of the driver's abstract operations:

- **Preservation versions.** Ingest turns an uploaded file into a tabular
  preservation copy. Before about v5.12, the original was moved to the `orig`
  auxiliary object and the copy took the main location (the *legacy*
  convention). Since then, the original stays in the main location and the copy
  is stored as the `preservation` auxiliary object (the *current* convention).
  `addPreservationVersion` only ever produces the current convention from an
  object with no preservation version; `removePreservationVersion` returns an
  object from either convention to "no preservation version" (or, for a driver
  that keeps the `orig` backup on revert, leaves that backup behind).
- **Read-copy selection.** `getInputStream` chooses between the preservation
  auxiliary object and the main stream.
- **The public-store cache.** This is a process-wide map from driver id to
  "files may be reachable outside Dataverse". Each entry is read from
  configuration on first use and never refreshed.
- **Handle helpers.** These are safe stream closing, the tab-separated variable
  header, access-mode selection from open options, and the per-driver ingest
  size limit.

Modules:

- `StorageTypes` (storage_types.dfy): nullable values (`Option`), errors and
  `Result`, bytes and content, tags, Java `long`, configuration lookups, the
  `FileCopy` enumeration with its default tags, and the list of ingest-derived
  tags.
- `JavaLang` (java_lang.dfy): what the handle takes from the Java runtime.
  This covers string concatenation with a null operand, `Boolean.parseBoolean`
  and `Long.parseLong`.
- `VariableHeader` (variable_header.dfy): the header line as a function of the
  variables, and splitting it back into names.
- `Preservation` (preservation.dfy): the preservation lifecycle as pure
  functions over a `Store` value (main content plus tag-addressed auxiliary
  objects), with the lemmas about it.
- `StorageAccess` (storage_io.dfy): the class `StorageIO`. It holds the
  handle's fields and the driver's view of the object (`main`, `aux`). Every
  method changes only the fields its `modifies` clause names. The preservation
  methods are proved to leave `Stored()` equal to the `Preservation` function of
  the old store.
- `PublicStore` (public_store.dfy): the static `driverPublicAccessMap` as a
  class with one instance per process.

Configuration (`System.getProperty`) is a `map<string, string>` parameter. A
failed `close()` of the input stream is a boolean parameter. The bytes at a
local path, or the bytes an input stream yields, are passed as `Content`.
Streams are identities: the main input, an auxiliary object's input, or a stream
a caller supplied. They are not byte sequences.

The model follows the code where it differs from the documented intent:

- `getInputStream(ORIGINAL)` repeats the `PRESERVATION` test. A file with a
  `preservation` copy is therefore read from that copy even when the original
  is requested. The `orig` auxiliary object is never consulted. In the legacy
  convention, the original is served from the main stream, which holds the
  ingested copy.
- `closeInputStream` puts the warning *before* the earlier error message:
  `warning + "; " + previous`.
- `generateVariableHeader` of an empty (non-null) list returns `"null\n"`, not
  null. A variable without a name contributes the text `null`.
- `isBelowIngestSizeLimit` throws (`NumberFormat` here) when the configured
  limit is not a decimal `long`.

## Model

| member | source | states |
|---|---|---|
| `JavaLang.ParseBoolean` | src/main/java/edu/harvard/iq/dataverse/dataaccess/StorageIO.java:104 | true exactly when the value is non-null and is "true" in any mix of letter case; false for null and every other string |
| `JavaLang.ParseBooleanExamples` | src/main/java/edu/harvard/iq/dataverse/dataaccess/StorageIO.java:104 | mixed case "True"/"tRuE" is true; an unset property, "yes", "1", "" and "true " are false |
| `JavaLang.ParseLong` | src/main/java/edu/harvard/iq/dataverse/dataaccess/StorageIO.java:512 | a value is returned exactly when the text is an optional sign and at least one digit whose value lies in the `long` range, and it is that value; malformed or out-of-range text is refused |
| `JavaLang.ParseLongToString` | src/main/java/edu/harvard/iq/dataverse/dataaccess/StorageIO.java:512 | parsing the decimal text of any `long` gives that `long` back (round trip) |
| `JavaLang.ParseMinusOne` | src/main/java/edu/harvard/iq/dataverse/dataaccess/StorageIO.java:512 | the default limit text "-1" parses to -1 |
| `VariableHeader.SplitJoin` | src/main/java/edu/harvard/iq/dataverse/dataaccess/StorageIO.java:476-484 | splitting the tab-joined names at tabs gives the names back, provided no name holds a tab |
| `VariableHeader.HeaderLineRoundTrip` | src/main/java/edu/harvard/iq/dataverse/dataaccess/StorageIO.java:469-490 | a non-empty header ends in one newline, and what precedes it splits back into the variables' names in order |
| `VariableHeader.RepeatedVariableHeader` | src/test/java/edu/harvard/iq/dataverse/dataaccess/StorageIOTest.java:134-143 | two variables both named "Random" give "Random\tRandom\n" |
| `Preservation.IngestTags` | src/main/java/edu/harvard/iq/dataverse/dataaccess/StorageIO.java:64-67 | the ingest-derived tags are exactly those of the ingest list; they include "preservation" and never "orig" |
| `Preservation.AddPreservationSpec` | src/main/java/edu/harvard/iq/dataverse/dataaccess/StorageIO.java:131-136 | adding is refused ("already exists") iff "orig" or "preservation" is stored; otherwise only "preservation" changes, to the new content, and the object is in the current convention |
| `Preservation.AddTwiceFails` | src/main/java/edu/harvard/iq/dataverse/dataaccess/StorageIO.java:131-136 | a second add after a successful one is refused |
| `Preservation.RemovePreservationFailsIffAbsent` | src/main/java/edu/harvard/iq/dataverse/dataaccess/StorageIO.java:138-143 | removing is refused ("doesn't exist") exactly when neither "orig" nor "preservation" is stored |
| `Preservation.RemovePreservationSpec` | src/main/java/edu/harvard/iq/dataverse/dataaccess/StorageIO.java:138-160 | after a remove, no ingest tag is left and every other tag except "orig" is untouched; main becomes the "orig" bytes when there were any and is unchanged otherwise; "orig" survives only if the driver keeps backups |
| `Preservation.OriginalContentPreserved` | src/main/java/edu/harvard/iq/dataverse/dataaccess/StorageIO.java:131-150 | neither add nor remove changes where the original bytes are found (the "orig" backup, else main) or what they are |
| `Preservation.DeleteIngestFilesIdempotent` | src/main/java/edu/harvard/iq/dataverse/dataaccess/StorageIO.java:144-160 | deleting ingest files twice is the same as once, so the second call in the legacy branch changes nothing |
| `Preservation.AddThenRemoveRestores` | src/main/java/edu/harvard/iq/dataverse/dataaccess/StorageIO.java:131-150 | on an object without preservation version or ingest leftovers, add then remove gives back exactly the object |
| `Preservation.RemoveTwice` | src/main/java/edu/harvard/iq/dataverse/dataaccess/StorageIO.java:138-150 | after a remove no preservation version remains unless a legacy backup was kept; in that case a second remove succeeds and changes nothing |
| `StorageAccess.WithCloseWarning` | src/main/java/edu/harvard/iq/dataverse/dataaccess/StorageIO.java:459-464 | the new message starts with the warning; it is the warning alone without an earlier message, and is followed by "; " and the earlier message otherwise |
| `StorageAccess.CloseWarningKeepsPrevious` | src/main/java/edu/harvard/iq/dataverse/dataaccess/StorageIO.java:459-464 | the earlier message (or its absence) can always be read back from the new one: a failed close loses no diagnostics |
| `StorageAccess.GetDriverPrefix` | src/main/java/edu/harvard/iq/dataverse/dataaccess/StorageIO.java:528-530 | the prefix is the driver id ("null" for a null id) followed by the separator |
| `StorageAccess.DriverPrefixDeterminesDriver` | src/main/java/edu/harvard/iq/dataverse/dataaccess/StorageIO.java:528-530 | two drivers with the same prefix have the same id text; two non-null ids are then equal |
| `StorageAccess.StorageIO.Empty` | src/main/java/edu/harvard/iq/dataverse/dataaccess/StorageIO.java:69-70 | the no-argument handle has no object, request or driver, no streams, size 0, null texts and false flags |
| `StorageAccess.StorageIO.ForLocation` | src/main/java/edu/harvard/iq/dataverse/dataaccess/StorageIO.java:72-74 | only the driver id is kept, null or not; the location is ignored |
| `StorageAccess.StorageIO.constructor` | src/main/java/edu/harvard/iq/dataverse/dataaccess/StorageIO.java:76-86 | the object is kept; a null request becomes a fresh request and a null driver the file driver; everything else starts empty |
| `StorageAccess.StorageIO.Exists` | src/main/java/edu/harvard/iq/dataverse/dataaccess/StorageIO.java:123 | true exactly when the main object is stored |
| `StorageAccess.StorageIO.Delete` | src/main/java/edu/harvard/iq/dataverse/dataaccess/StorageIO.java:125 | afterwards no main object is stored; nothing else changes |
| `StorageAccess.StorageIO.SavePath` | src/main/java/edu/harvard/iq/dataverse/dataaccess/StorageIO.java:129 | the main object becomes the given bytes |
| `StorageAccess.StorageIO.GetAuxFileAsInputStream` | src/main/java/edu/harvard/iq/dataverse/dataaccess/StorageIO.java:199 | a stream on the tag's object when it is stored, a not-found error otherwise |
| `StorageAccess.StorageIO.GetAuxObjectSize` | src/main/java/edu/harvard/iq/dataverse/dataaccess/StorageIO.java:203 | the length of the tag's object when stored, a not-found error otherwise |
| `StorageAccess.StorageIO.IsAuxObjectCached` | src/main/java/edu/harvard/iq/dataverse/dataaccess/StorageIO.java:207 | true exactly when the tag is stored |
| `StorageAccess.StorageIO.RevertBackupAsAux` | src/main/java/edu/harvard/iq/dataverse/dataaccess/StorageIO.java:209 | main becomes the backup's bytes; every other auxiliary object is untouched; the backup keeps its bytes if the driver keeps it |
| `StorageAccess.StorageIO.SavePathAsAux` | src/main/java/edu/harvard/iq/dataverse/dataaccess/StorageIO.java:212 | the tag now holds the given bytes; other tags are unchanged |
| `StorageAccess.StorageIO.SaveInputStreamAsAux` | src/main/java/edu/harvard/iq/dataverse/dataaccess/StorageIO.java:235 | the tag now holds the stream's bytes; other tags are unchanged |
| `StorageAccess.StorageIO.SaveInputStreamAsAuxOfSize` | src/main/java/edu/harvard/iq/dataverse/dataaccess/StorageIO.java:238-240 | same effect as without a size hint |
| `StorageAccess.StorageIO.ListAuxObjects` | src/main/java/edu/harvard/iq/dataverse/dataaccess/StorageIO.java:242 | lists exactly the stored tags, each once |
| `StorageAccess.StorageIO.DeleteAuxObject` | src/main/java/edu/harvard/iq/dataverse/dataaccess/StorageIO.java:244 | the tag is no longer stored; other tags are unchanged |
| `StorageAccess.StorageIO.DeleteAllAuxObjects` | src/main/java/edu/harvard/iq/dataverse/dataaccess/StorageIO.java:246 | no auxiliary object remains |
| `StorageAccess.StorageIO.AddPreservationVersion` | src/main/java/edu/harvard/iq/dataverse/dataaccess/StorageIO.java:131-136 | fails with "already exists", changing nothing, iff "orig" or "preservation" is stored; otherwise "preservation" holds the content and nothing else changes |
| `StorageAccess.StorageIO.RemovePreservationVersion` | src/main/java/edu/harvard/iq/dataverse/dataaccess/StorageIO.java:138-150 | fails with "doesn't exist", changing nothing, iff neither "orig" nor "preservation" is stored; otherwise the store becomes the removal given by `Preservation.RemovePreservation` |
| `StorageAccess.StorageIO.DeleteIngestFiles` | src/main/java/edu/harvard/iq/dataverse/dataaccess/StorageIO.java:152-160 | exactly the ingest-derived tags are removed; main and all other tags are unchanged |
| `StorageAccess.StorageIO.GetInputStream` | src/main/java/edu/harvard/iq/dataverse/dataaccess/StorageIO.java:308-324 | for either copy: the "preservation" stream when that object is stored, the main input stream otherwise |
| `StorageAccess.StorageIO.GetDefaultInputStream` | src/main/java/edu/harvard/iq/dataverse/dataaccess/StorageIO.java:304-306 | the same as requesting the preservation copy |
| `StorageAccess.StorageIO.CloseInputStream` | src/main/java/edu/harvard/iq/dataverse/dataaccess/StorageIO.java:453-467 | never fails; without a stream or on a clean close nothing changes; on a failed close the error message gets the warning prepended |
| `StorageAccess.StorageIO.GenerateVariableHeader` | src/main/java/edu/harvard/iq/dataverse/dataaccess/StorageIO.java:469-490 | null for a null list, otherwise the header line of the variables ("null\n" for an empty list) |
| `StorageAccess.StorageIO.IsWriteAccessRequested` | src/main/java/edu/harvard/iq/dataverse/dataaccess/StorageIO.java:492-509 | true iff the first access-mode option is WRITE_ACCESS; false iff there is none or the first is READ_ACCESS |
| `StorageAccess.StorageIO.IsBelowIngestSizeLimit` | src/main/java/edu/harvard/iq/dataverse/dataaccess/StorageIO.java:511-518 | true when no limit is configured; an error when the limit is not a number; otherwise false exactly when 0 < limit < size |
| `StorageAccess.StorageIO.CanRead` | src/main/java/edu/harvard/iq/dataverse/dataaccess/StorageIO.java:109-111 | true exactly when the handle holds read access |
| `StorageAccess.StorageIO.CanWrite` | src/main/java/edu/harvard/iq/dataverse/dataaccess/StorageIO.java:113-115 | true exactly when the handle holds write access |
| `StorageAccess.StorageIO.GetRemoteStoreName` | src/main/java/edu/harvard/iq/dataverse/dataaccess/StorageIO.java:358-360 | plain accessor: the remote store name field |
| `StorageAccess.StorageIO.GetRemoteStoreUrl` | src/main/java/edu/harvard/iq/dataverse/dataaccess/StorageIO.java:362-364 | plain accessor: the remote store URL field |
| `StorageAccess.StorageIO.IsDirectAccess` | src/main/java/edu/harvard/iq/dataverse/dataaccess/StorageIO.java:382-384 | true exactly when the handle has no repository object |
| `StorageAccess.StorageIO.DownloadRedirectEnabled` | src/main/java/edu/harvard/iq/dataverse/dataaccess/StorageIO.java:520-522 | never enabled for this base class |
| `StorageAccess.StorageIO.SetDvObject` | src/main/java/edu/harvard/iq/dataverse/dataaccess/StorageIO.java:399-401 | `GetDvObject` returns what was set; no other field changes |
| `StorageAccess.StorageIO.SetRequest` | src/main/java/edu/harvard/iq/dataverse/dataaccess/StorageIO.java:403-405 | `GetRequest` returns what was set; no other field changes |
| `StorageAccess.StorageIO.SetSize` | src/main/java/edu/harvard/iq/dataverse/dataaccess/StorageIO.java:411-413 | `GetSize` returns exactly the size set; no other field changes |
| `StorageAccess.StorageIO.SetMainInputStream` | src/main/java/edu/harvard/iq/dataverse/dataaccess/StorageIO.java:415-417 | `GetMainInputStream` returns the stream set; no other field changes |
| `StorageAccess.StorageIO.SetOutputStream` | src/main/java/edu/harvard/iq/dataverse/dataaccess/StorageIO.java:419-421 | `GetOutputStream` returns the stream set; no other field changes |
| `StorageAccess.StorageIO.SetMimeType` | src/main/java/edu/harvard/iq/dataverse/dataaccess/StorageIO.java:424-426 | `GetMimeType` returns what was set; no other field changes |
| `StorageAccess.StorageIO.SetFileName` | src/main/java/edu/harvard/iq/dataverse/dataaccess/StorageIO.java:428-430 | `GetFileName` returns what was set; no other field changes |
| `StorageAccess.StorageIO.SetVarHeader` | src/main/java/edu/harvard/iq/dataverse/dataaccess/StorageIO.java:432-434 | `GetVarHeader` returns what was set; no other field changes |
| `StorageAccess.StorageIO.SetErrorMessage` | src/main/java/edu/harvard/iq/dataverse/dataaccess/StorageIO.java:436-438 | `GetErrorMessage` returns what was set; no other field changes |
| `StorageAccess.StorageIO.SetRemoteUrl` | src/main/java/edu/harvard/iq/dataverse/dataaccess/StorageIO.java:440-442 | `GetRemoteUrl` returns what was set; no other field changes |
| `StorageAccess.StorageIO.SetIsLocalFile` | src/main/java/edu/harvard/iq/dataverse/dataaccess/StorageIO.java:444-446 | `IsLocalFile` returns what was set; no other field changes |
| `StorageAccess.StorageIO.SetNoVarHeader` | src/main/java/edu/harvard/iq/dataverse/dataaccess/StorageIO.java:449-451 | `NoVarHeader` returns what was set; no other field changes |
| `PublicStore.ConfiguredPublic` | src/main/java/edu/harvard/iq/dataverse/dataaccess/StorageIO.java:104 | a driver is public exactly when its `dataverse.files.<id>.public` property (with "null" for a null id) is set to "true" in any mix of letter case |
| `PublicStore.DriverPublicAccessMap.constructor` | src/main/java/edu/harvard/iq/dataverse/dataaccess/StorageIO.java:99 | the process starts with an empty cache |
| `PublicStore.DriverPublicAccessMap.IsPublicStore` | src/main/java/edu/harvard/iq/dataverse/dataaccess/StorageIO.java:101-107 | afterwards the driver is cached and the answer is its entry; an existing entry is returned unchanged, a missing one is read from configuration; other drivers' entries never change |
| `PublicStore.QueryTwice` | src/main/java/edu/harvard/iq/dataverse/dataaccess/StorageIO.java:101-107 | two queries for one driver agree even if the configuration changed between them |

## Left out

- `open` (StorageIO.java:92) is left out because each driver decides what it opens. Only the option scan it relies on, `IsWriteAccessRequested`, is modelled. The flags that `CanRead` and `CanWrite` report are set only by drivers.
- `getStorageLocation`, `getFileSystemPath`, `openAuxChannel` and `getAuxObjectAsPath` are left out. They return driver-specific location strings, `Path`s and `Channel`s, and this model has no file system or channels.
- `getDataFile`, `getDataset` and `getDataverse` are left out. They are unchecked casts that fail with `ClassCastException`, and `GetDvObject` returns the object uncast.
- `generateTemporaryDownloadUrl` is left out. It always fails with "not implemented for this storage type".
- Byte I/O is not modelled. A stream is an identity, not a byte sequence, and the content of a local path or an input stream is passed in as bytes.
- Backend I/O failures are not modelled. Every driver operation may throw `IOException`, but the model fails only where the handle itself decides to fail, or where a requested auxiliary object is absent.
- `DataAccess.FILE` and `DataAccess.SEPARATOR` are not part of this model. The default driver is taken to be "file", as StorageIOTest.java:52 says. The separator is a parameter of `GetDriverPrefix`.
- Concurrency is not modelled. The check-then-act sequences of add and remove are not atomic across handles, and the model is single-threaded.
- `ingestAuxObjects` is a mutable field in the code and a constant here, because nothing in the class assigns it.
- StorageAccess.StorageIO.RevertBackupAsAux: requires the backup to exist. Its only caller checks that first, and what a driver does with a missing backup is not shown. Whether the backup survives is the per-driver constant `revertKeepsBackup`.
- StorageAccess.StorageIO.DeleteAuxObject: deleting a tag that is not stored does nothing. Some drivers may throw instead, but the handle only deletes tags that were listed.
- StorageAccess.StorageIO.GetAuxObjectSize: returns an unbounded length, not a `long`.
- JavaLang.ParseBoolean: folds only ASCII letter case when comparing with "true".
- JavaLang.ParseLong: accepts only ASCII digits. `Character.digit` also accepts other Unicode decimal digits.
- The other files of the repository are not part of this model: the REST endpoints, LDN messages, PID handling, branding, external resources and their tests.
