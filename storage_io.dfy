/**
  The storage handle: one live session on one repository object through one
  storage driver. It keeps the handle's bookkeeping (streams, size, names,
  error message, access mode) and adds backend-independent policy, chiefly the
  preservation-version lifecycle, on top of the driver's operations on the
  object's main content and its tag-addressed auxiliary objects.

  The driver's own state is represented by `main` and `aux`, and each driver
  operation the handle calls is given the contract every driver must meet.
 */
module StorageAccess {
  import opened StorageTypes
  import opened JavaLang
  import opened VariableHeader
  import opened Preservation

  /** The driver a handle uses when it is given none. */
  const FileDriver: string := "file"

  /** The warning a failed close leaves in the handle's error message. */
  const CloseWarning: string := "Warning: IO exception closing input stream."

  /**
    The error message after a failed close: the warning, followed by "; " and
    the earlier message when there was one.
   */
  function WithCloseWarning(previous: Option<string>): (message: string)
    ensures |message| >= |CloseWarning| && message[..|CloseWarning|] == CloseWarning
    ensures previous.None? ==> message == CloseWarning
    ensures previous.Some? ==> message[|CloseWarning|..] == "; " + previous.value
  {
    if previous.None? then CloseWarning else CloseWarning + "; " + previous.value
  }

  /** Reads the earlier message back out of an error message left by a failed close. */
  function PreviousMessage(message: string): Option<string>
  {
    var n := |CloseWarning| + 2;
    if |message| >= n && message[..n] == CloseWarning + "; " then Some(message[n..]) else None
  }

  /** A failed close loses nothing: the earlier message, or its absence, can be read back. */
  lemma CloseWarningKeepsPrevious(previous: Option<string>)
    ensures PreviousMessage(WithCloseWarning(previous)) == previous
  {
  }

  /**
    The prefix of fully qualified storage identifiers of a driver: its id
    ("null" for a null id), then the separator.
   */
  function GetDriverPrefix(driverId: Option<string>, separator: string): (prefix: string)
    ensures var id := JavaString(driverId);
      |prefix| == |id| + |separator| && prefix[..|id|] == id && prefix[|id|..] == separator
  {
    JavaString(driverId) + separator
  }

  /** Two drivers never share a prefix, except that a null id reads as the id "null". */
  lemma DriverPrefixDeterminesDriver(d1: Option<string>, d2: Option<string>, separator: string)
    requires GetDriverPrefix(d1, separator) == GetDriverPrefix(d2, separator)
    ensures JavaString(d1) == JavaString(d2)
    ensures d1.Some? && d2.Some? ==> d1 == d2
  {
  }

  predicate IsAccessOption(option: DataAccessOption)
  {
    option == ReadAccess || option == WriteAccess
  }

  /** None of the first `n` options names an access mode. */
  predicate NoAccessOptionBefore(options: seq<DataAccessOption>, n: nat)
    requires n <= |options|
  {
    forall j :: 0 <= j < n ==> !IsAccessOption(options[j])
  }

  class StorageIO {
    // What the driver holds for the object.
    var main: Option<Content>
    var aux: map<Tag, Content>
    /** Whether this driver keeps the backup it reverts from. */
    const revertKeepsBackup: bool

    // The handle's own state.
    var isReadAccess: bool
    var isWriteAccess: bool
    var req: Option<DataAccessRequest>
    var inputStream: Option<InputStream>
    var outputStream: Option<OutputStream>
    var dvObject: Option<DvObject>
    var driverId: Option<string>
    var size: Long
    var mimeType: Option<string>
    var fileName: Option<string>
    var varHeader: Option<string>
    var errorMessage: Option<string>
    var isLocalFile: bool
    var noVarHeader: bool
    var remoteUrl: Option<string>
    var remoteStoreName: Option<string>
    var remoteStoreUrl: Option<string>

    function Stored(): Store
      reads this
    {
      Store(main, aux)
    }

    /** The state of a handle no operation has touched yet. */
    predicate UntouchedHandle()
      reads this
    {
      && !isReadAccess && !isWriteAccess
      && inputStream.None? && outputStream.None?
      && size == 0
      && mimeType.None? && fileName.None? && varHeader.None? && errorMessage.None?
      && !isLocalFile && !noVarHeader
      && remoteUrl.None? && remoteStoreName.None? && remoteStoreUrl.None?
    }

    /** A handle with no object, request or driver; `stored` is what the driver holds. */
    constructor Empty(stored: Store, keepsBackup: bool)
      ensures Stored() == stored && revertKeepsBackup == keepsBackup
      ensures dvObject.None? && req.None? && driverId.None?
      ensures UntouchedHandle()
    {
      main, aux, revertKeepsBackup := stored.main, stored.aux, keepsBackup;
      isReadAccess, isWriteAccess := false, false;
      req, inputStream, outputStream, dvObject, driverId := None, None, None, None, None;
      size := 0;
      mimeType, fileName, varHeader, errorMessage := None, None, None, None;
      isLocalFile, noVarHeader := false, false;
      remoteUrl, remoteStoreName, remoteStoreUrl := None, None, None;
    }

    /** A handle on a bare storage location: only the driver id is kept, null or not. */
    constructor ForLocation(storageLocation: string, driverId: Option<string>, stored: Store, keepsBackup: bool)
      ensures Stored() == stored && revertKeepsBackup == keepsBackup
      ensures this.driverId == driverId && dvObject.None? && req.None?
      ensures UntouchedHandle()
    {
      main, aux, revertKeepsBackup := stored.main, stored.aux, keepsBackup;
      isReadAccess, isWriteAccess := false, false;
      req, inputStream, outputStream, dvObject := None, None, None, None;
      this.driverId := driverId;
      size := 0;
      mimeType, fileName, varHeader, errorMessage := None, None, None, None;
      isLocalFile, noVarHeader := false, false;
      remoteUrl, remoteStoreName, remoteStoreUrl := None, None, None;
    }

    /** A handle on an object: a null request becomes a fresh one, a null driver the file driver. */
    constructor (dvObject: Option<DvObject>, req: Option<DataAccessRequest>, driverId: Option<string>,
                 stored: Store, keepsBackup: bool)
      ensures Stored() == stored && revertKeepsBackup == keepsBackup
      ensures this.dvObject == dvObject
      ensures req.Some? ==> this.req == req
      ensures req.None? ==> this.req == Some(FreshRequest)
      ensures driverId.Some? ==> this.driverId == driverId
      ensures driverId.None? ==> this.driverId == Some(FileDriver)
      ensures UntouchedHandle()
    {
      main, aux, revertKeepsBackup := stored.main, stored.aux, keepsBackup;
      isReadAccess, isWriteAccess := false, false;
      inputStream, outputStream := None, None;
      this.dvObject := dvObject;
      this.req := req;
      this.driverId := driverId;
      size := 0;
      mimeType, fileName, varHeader, errorMessage := None, None, None, None;
      isLocalFile, noVarHeader := false, false;
      remoteUrl, remoteStoreName, remoteStoreUrl := None, None, None;
      new;
      if this.req.None? {
        this.req := Some(FreshRequest);
      }
      if this.driverId.None? {
        this.driverId := Some(FileDriver);
      }
    }

    // ---------------------------------------------------------------
    // The driver's operations on the main object.

    method Exists() returns (exists_: bool)
      ensures exists_ <==> main.Some?
    {
      exists_ := main.Some?;
    }

    /** Removes the main object; removing one that is not there is not an error. */
    method Delete()
      modifies this`main
      ensures main.None?
    {
      main := None;
    }

    /** Copies the bytes of a local file into the main location. */
    method SavePath(content: Content)
      modifies this`main
      ensures main == Some(content)
    {
      main := Some(content);
    }

    // ---------------------------------------------------------------
    // The driver's operations on auxiliary objects.

    method GetAuxFileAsInputStream(tag: Tag) returns (r: Result<InputStream>)
      ensures tag in aux ==> r == Ok(AuxInput(tag))
      ensures tag !in aux ==> r == Err(AuxObjectNotFound(tag))
    {
      if tag in aux {
        r := Ok(AuxInput(tag));
      } else {
        r := Err(AuxObjectNotFound(tag));
      }
    }

    method GetAuxObjectSize(tag: Tag) returns (r: Result<nat>)
      ensures tag in aux ==> r == Ok(|aux[tag]|)
      ensures tag !in aux ==> r == Err(AuxObjectNotFound(tag))
    {
      if tag in aux {
        r := Ok(|aux[tag]|);
      } else {
        r := Err(AuxObjectNotFound(tag));
      }
    }

    method IsAuxObjectCached(tag: Tag) returns (cached: bool)
      ensures cached <==> tag in aux
    {
      cached := tag in aux;
    }

    /**
      Restores the main object from the auxiliary object `tag`. Every other
      auxiliary object is untouched; whether `tag` itself survives is the driver's
      choice.
     */
    method RevertBackupAsAux(tag: Tag)
      requires tag in aux
      modifies this`main, this`aux
      ensures main == Some(old(aux)[tag])
      ensures aux - {tag} == old(aux) - {tag}
      ensures tag in aux ==> aux[tag] == old(aux)[tag]
      ensures Stored() == RevertBackup(old(Stored()), tag, revertKeepsBackup)
    {
      main := Some(aux[tag]);
      if !revertKeepsBackup {
        aux := aux - {tag};
      }
    }

    /** Copies the bytes of a local file into the auxiliary object `tag`. */
    method SavePathAsAux(content: Content, tag: Tag)
      modifies this`aux
      ensures aux == old(aux)[tag := content]
    {
      aux := aux[tag := content];
    }

    /** Copies what a stream yields into the auxiliary object `tag`. */
    method SaveInputStreamAsAux(content: Content, tag: Tag)
      modifies this`aux
      ensures aux == old(aux)[tag := content]
    {
      aux := aux[tag := content];
    }

    /** The size hint is for drivers that can use it; by default it is ignored. */
    method SaveInputStreamAsAuxOfSize(content: Content, tag: Tag, fileSize: Option<Long>)
      modifies this`aux
      ensures aux == old(aux)[tag := content]
    {
      SaveInputStreamAsAux(content, tag);
    }

    /** The tags of all auxiliary objects, each once, in the driver's order. */
    method ListAuxObjects() returns (tags: seq<Tag>)
      ensures forall tag :: tag in tags <==> tag in aux
      ensures forall i, j :: 0 <= i < j < |tags| ==> tags[i] != tags[j]
    {
      tags := [];
      var remaining := aux.Keys;
      while remaining != {}
        invariant remaining <= aux.Keys
        invariant forall tag :: tag in tags ==> tag in aux && tag !in remaining
        invariant forall tag :: tag in aux ==> tag in tags || tag in remaining
        invariant forall i, j :: 0 <= i < j < |tags| ==> tags[i] != tags[j]
        decreases remaining
      {
        var tag :| tag in remaining;
        tags := tags + [tag];
        remaining := remaining - {tag};
      }
    }

    /** Removes the auxiliary object `tag`, if there is one. */
    method DeleteAuxObject(tag: Tag)
      modifies this`aux
      ensures aux == old(aux) - {tag}
    {
      aux := aux - {tag};
    }

    method DeleteAllAuxObjects()
      modifies this`aux
      ensures aux == map[]
    {
      aux := map[];
    }

    // ---------------------------------------------------------------
    // The preservation-version lifecycle.

    /**
      Stores a preservation copy, refusing when an "orig" or a "preservation"
      auxiliary object already exists.
     */
    method AddPreservationVersion(content: Content) returns (r: Result<()>)
      modifies this`aux
      ensures r.Err? <==> OrigTag in old(aux) || PreservationTag in old(aux)
      ensures r.Err? ==> r.error == PreservationAlreadyExists && aux == old(aux)
      ensures r.Ok? ==> aux == old(aux)[PreservationTag := content]
      ensures var spec := AddPreservation(old(Stored()), content);
        (spec.Ok? <==> r.Ok?) && (spec.Ok? ==> Stored() == spec.value)
    {
      var origCached := IsAuxObjectCached(FileCopyExtension(Original));
      var preservationCached := IsAuxObjectCached(FileCopyExtension(Preservation));
      if origCached || preservationCached {
        return Err(PreservationAlreadyExists);
      }
      SavePathAsAux(content, FileCopyExtension(Preservation));
      r := Ok(());
    }

    /**
      Undoes ingest: refuses when there is neither an "orig" nor a "preservation"
      auxiliary object; otherwise restores the main object from "orig" when it
      exists, and deletes every ingest-derived auxiliary object.
     */
    method RemovePreservationVersion() returns (r: Result<()>)
      modifies this`main, this`aux
      ensures r.Err? <==> OrigTag !in old(aux) && PreservationTag !in old(aux)
      ensures r.Err? ==> r.error == PreservationMissing && Stored() == old(Stored())
      ensures var spec := RemovePreservation(old(Stored()), revertKeepsBackup);
        (spec.Ok? <==> r.Ok?) && (spec.Ok? ==> Stored() == spec.value)
    {
      var origExists := IsAuxObjectCached(FileCopyExtension(Original));
      var preserveExists := IsAuxObjectCached(FileCopyExtension(Preservation));
      if !origExists && !preserveExists {
        return Err(PreservationMissing);
      }
      if origExists {
        RevertBackupAsAux(FileCopyExtension(Original));
        DeleteIngestFiles();
      }
      // Also removes the "preservation" copy of objects ingested under the current convention.
      DeleteIngestFiles();
      r := Ok(());
    }

    /** Deletes each ingest-derived auxiliary object that the driver lists. */
    method DeleteIngestFiles()
      modifies this`aux
      ensures aux == WithoutIngestFiles(old(aux))
    {
      var allAuxObjects := ListAuxObjects();
      for i := 0 to |IngestAuxObjects|
        invariant aux == old(aux) - (set j | 0 <= j < i :: IngestAuxObjects[j])
      {
        var ingestAuxObject := IngestAuxObjects[i];
        if ingestAuxObject in allAuxObjects {
          DeleteAuxObject(ingestAuxObject);
        }
        assert (set j | 0 <= j < i + 1 :: IngestAuxObjects[j]) == (set j | 0 <= j < i :: IngestAuxObjects[j]) + {ingestAuxObject};
      }
      assert (set j | 0 <= j < |IngestAuxObjects| :: IngestAuxObjects[j]) == IngestTags();
    }

    // ---------------------------------------------------------------
    // Reading the main object.

    function GetMainInputStream(): Option<InputStream>
      reads this
    {
      inputStream
    }

    /**
      The stream for a requested copy. Both requests get the "preservation"
      auxiliary object when it exists, and the main input stream otherwise.
     */
    method GetInputStream(copy: FileCopy) returns (stream: Option<InputStream>)
      ensures PreservationTag in aux ==> stream == Some(AuxInput(PreservationTag))
      ensures PreservationTag !in aux ==> stream == inputStream
    {
      if copy == Preservation {
        var cached := IsAuxObjectCached(FileCopyExtension(Preservation));
        if cached {
          var s := GetAuxFileAsInputStream(FileCopyExtension(Preservation));
          return Some(s.value);
        }
      }
      // The ORIGINAL case, which the PRESERVATION case falls through to.
      var cached := IsAuxObjectCached(FileCopyExtension(Preservation));
      if cached {
        var s := GetAuxFileAsInputStream(FileCopyExtension(Preservation));
        return Some(s.value);
      }
      stream := GetMainInputStream();
    }

    /** The default copy: the preservation copy of an ingested file, the main object otherwise. */
    method GetDefaultInputStream() returns (stream: Option<InputStream>)
      ensures PreservationTag in aux ==> stream == Some(AuxInput(PreservationTag))
      ensures PreservationTag !in aux ==> stream == inputStream
    {
      stream := GetInputStream(Preservation);
    }

    /**
      Closes the main input stream, never failing: `closeFails` says whether
      the stream's own close fails, which is recorded as a warning in the
      error message.
     */
    method CloseInputStream(closeFails: bool)
      modifies this`errorMessage
      ensures inputStream.None? || !closeFails ==> errorMessage == old(errorMessage)
      ensures inputStream.Some? && closeFails ==> errorMessage == Some(WithCloseWarning(old(errorMessage)))
    {
      if inputStream.Some? {
        if closeFails {
          var eMsg := CloseWarning;
          if errorMessage.None? {
            errorMessage := Some(eMsg);
          } else {
            errorMessage := Some(eMsg + "; " + errorMessage.value);
          }
        }
      }
    }

    // ---------------------------------------------------------------
    // Policy helpers.

    /**
      The header line of a tabular file: null for a null list, otherwise the
      variable names separated by tabs and ended by a newline.
     */
    method GenerateVariableHeader(dvs: Option<seq<DataVariable>>) returns (header: Option<string>)
      ensures dvs.None? ==> header.None?
      ensures dvs.Some? ==> header == Some(HeaderLine(dvs.value))
    {
      var line: Option<string> := None;
      if dvs.Some? {
        var vars := dvs.value;
        var i := 0;
        if i < |vars| {
          line := vars[0].name;
          i := 1;
        }
        while i < |vars|
          invariant |vars| == 0 ==> i == 0 && line.None?
          invariant |vars| > 0 ==> 1 <= i <= |vars| && JavaString(line) == Join(Names(vars[..i]))
        {
          JoinSnoc(Names(vars[..i]), JavaString(vars[i].name));
          assert Names(vars[..i + 1]) == Names(vars[..i]) + [JavaString(vars[i].name)];
          line := Some(JavaString(line) + "\t" + JavaString(vars[i].name));
          i := i + 1;
        }
        if |vars| > 0 {
          assert vars[..i] == vars;
        } else {
          assert JavaString(line) + "\n" == "null\n";
        }
        line := Some(JavaString(line) + "\n");
      }
      header := line;
    }

    /**
      Whether options ask for write access: the first option that names an
      access mode decides; with none, access is read-only.
     */
    method IsWriteAccessRequested(options: seq<DataAccessOption>) returns (write: bool)
      ensures write <==> exists i :: 0 <= i < |options| && options[i] == WriteAccess && NoAccessOptionBefore(options, i)
      ensures !write <==> (|| NoAccessOptionBefore(options, |options|)
                           || exists i :: 0 <= i < |options| && options[i] == ReadAccess && NoAccessOptionBefore(options, i))
    {
      for i := 0 to |options|
        invariant NoAccessOptionBefore(options, i)
      {
        if options[i] == ReadAccess {
          return false;
        }
        if options[i] == WriteAccess {
          return true;
        }
      }
      return false;
    }

    /**
      Whether the object's size is within the driver's ingest size limit.
      A missing limit means "-1", no limit; a limit that is not a number is an
      error; otherwise the answer is false exactly when the limit is positive
      and the size exceeds it.
     */
    function IsBelowIngestSizeLimit(config: Config): (r: Result<bool>)
      reads this
      ensures var key := DriverProperty(JavaString(driverId), "ingestsizelimit");
        key !in config ==> r == Ok(true)
      ensures var key := DriverProperty(JavaString(driverId), "ingestsizelimit");
        key in config && ParseLong(config[key]).None? ==> r == Err(NumberFormat(config[key]))
      ensures var key := DriverProperty(JavaString(driverId), "ingestsizelimit");
        key in config && ParseLong(config[key]).Some? ==>
          r.Ok? && (!r.value <==> 0 < ParseLong(config[key]).value < size)
    {
      ParseMinusOne();
      var key := DriverProperty(JavaString(driverId), "ingestsizelimit");
      var limitText := if key in config then config[key] else "-1";
      match ParseLong(limitText)
      case None => Err(NumberFormat(limitText))
      case Some(limit) => if limit > 0 && size > limit then Ok(false) else Ok(true)
    }

    // ---------------------------------------------------------------
    // Accessors.

    function GetDvObject(): Option<DvObject> reads this { dvObject }
    function GetRequest(): Option<DataAccessRequest> reads this { req }
    function GetSize(): Long reads this { size }
    function GetOutputStream(): Option<OutputStream> reads this { outputStream }
    function GetMimeType(): Option<string> reads this { mimeType }
    function GetFileName(): Option<string> reads this { fileName }
    function GetVarHeader(): Option<string> reads this { varHeader }
    function GetErrorMessage(): Option<string> reads this { errorMessage }
    function GetRemoteUrl(): Option<string> reads this { remoteUrl }
    /** The remote store's name; no operation of this class sets it. */
    function GetRemoteStoreName(): (r: Option<string>)
      reads this
      ensures r == remoteStoreName
    {
      remoteStoreName
    }

    /** The remote store's URL; no operation of this class sets it. */
    function GetRemoteStoreUrl(): (r: Option<string>)
      reads this
      ensures r == remoteStoreUrl
    {
      remoteStoreUrl
    }
    function IsLocalFile(): bool reads this { isLocalFile }
    function NoVarHeader(): bool reads this { noVarHeader }
    /** Whether the handle was opened for reading. */
    function CanRead(): (r: bool)
      reads this
      ensures r <==> isReadAccess
    {
      isReadAccess
    }

    /** Whether the handle was opened for writing. */
    function CanWrite(): (r: bool)
      reads this
      ensures r <==> isWriteAccess
    {
      isWriteAccess
    }

    /** A handle with no object accesses a bare storage location directly. */
    function IsDirectAccess(): (r: bool)
      reads this
      ensures r <==> dvObject.None?
    {
      dvObject.None?
    }

    /** This base class never redirects downloads to the backend. */
    function DownloadRedirectEnabled(): (r: bool)
      ensures !r
    {
      false
    }

    method SetDvObject(f: Option<DvObject>)
      modifies this`dvObject
      ensures GetDvObject() == f
    {
      dvObject := f;
    }

    method SetRequest(dar: Option<DataAccessRequest>)
      modifies this`req
      ensures GetRequest() == dar
    {
      req := dar;
    }

    method SetSize(s: Long)
      modifies this`size
      ensures GetSize() == s
    {
      size := s;
    }

    method SetMainInputStream(stream: Option<InputStream>)
      modifies this`inputStream
      ensures GetMainInputStream() == stream
    {
      inputStream := stream;
    }

    method SetOutputStream(os: Option<OutputStream>)
      modifies this`outputStream
      ensures GetOutputStream() == os
    {
      outputStream := os;
    }

    method SetMimeType(mt: Option<string>)
      modifies this`mimeType
      ensures GetMimeType() == mt
    {
      mimeType := mt;
    }

    method SetFileName(fn: Option<string>)
      modifies this`fileName
      ensures GetFileName() == fn
    {
      fileName := fn;
    }

    method SetVarHeader(vh: Option<string>)
      modifies this`varHeader
      ensures GetVarHeader() == vh
    {
      varHeader := vh;
    }

    method SetErrorMessage(em: Option<string>)
      modifies this`errorMessage
      ensures GetErrorMessage() == em
    {
      errorMessage := em;
    }

    method SetRemoteUrl(u: Option<string>)
      modifies this`remoteUrl
      ensures GetRemoteUrl() == u
    {
      remoteUrl := u;
    }

    method SetIsLocalFile(f: bool)
      modifies this`isLocalFile
      ensures IsLocalFile() == f
    {
      isLocalFile := f;
    }

    method SetNoVarHeader(nvh: bool)
      modifies this`noVarHeader
      ensures NoVarHeader() == nvh
    {
      noVarHeader := nvh;
    }
  }
}
