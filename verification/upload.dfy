/**
 * The upload flow of the form: validate the sheet's header, then make sure
 * the month folder exists, then write the sheet into it, replacing any file
 * already at that path.
 */
module Upload {
  import opened Wrappers
  import opened Sequences
  import Columns
  import opened Destination

  /** File contents, opaque to the flow. */
  type Bytes = seq<bv8>

  /** A sheet as the spreadsheet reader yields it: the header row and the data rows. */
  datatype Table = Table(header: seq<string>, rows: seq<seq<string>>) {
    /** Every row has one cell per column. */
    predicate WellFormed() {
      forall row :: row in rows ==> |row| == |header|
    }
  }

  /** The SEDE cell of the first data row, which names the stored file. */
  function FirstSite(table: Table): (site: string)
    requires table.WellFormed() && "SEDE" in table.header && |table.rows| > 0
    ensures exists i :: 0 <= i < |table.header| && table.header[i] == "SEDE" && "SEDE" !in table.header[..i]
                        && site == table.rows[0][i]
  {
    assert table.rows[0] in table.rows;
    var i := IndexOf(table.header, "SEDE");
    assert "SEDE" !in table.header[..i];
    table.rows[0][i]
  }

  // ---------------------------------------------------------------------
  // The storage service

  /** A request made to the storage service. Uploads always use overwrite mode. */
  datatype Call = CreateFolderCall(path: string) | UploadCall(path: string, content: Bytes)

  /**
   * A failure the service reports: something in the way of a write, or any
   * other error (permissions, quota and the like).
   */
  datatype StorageError = WriteConflict(path: string) | Refused(path: string)

  datatype CreateFolderResult = FolderCreated | PathConflict | CreateFailed(error: StorageError)

  datatype UploadResult = Uploaded | UploadFailed(error: StorageError)

  /**
   * What the storage holds: its folders, its files by path, and the paths
   * at which every request fails (standing for permission, quota and
   * other errors of the service).
   */
  datatype Store = Store(folders: set<string>, files: map<string, Bytes>, refused: set<string>)

  /** Some folder above `path` (a prefix ending just before one of its slashes) is a file. */
  predicate FileAncestor(files: map<string, Bytes>, path: string) {
    exists k :: 0 < k < |path| && path[k] == '/' && path[..k] in files
  }

  /**
   * Some stored file lies below `path`. An upload creates the folders above
   * its file, so `path` is then a folder even if nobody created it.
   */
  predicate FileBeneath(files: map<string, Bytes>, path: string) {
    exists p :: p in files && |path| < |p| && p[|path|] == '/' && p[..|path|] == path
  }

  /** `path` is a folder: created as one, or holding a file below it. */
  predicate IsFolder(s: Store, path: string) {
    path in s.folders || FileBeneath(s.files, path)
  }

  /** A folder cannot be created at `path`: a folder or a file is there, or a file is above it. */
  predicate Occupied(s: Store, path: string) {
    IsFolder(s, path) || path in s.files || FileAncestor(s.files, path)
  }

  /** A file cannot be written at `path`: a folder is there, or a file is above it. */
  predicate UploadBlocked(s: Store, path: string) {
    IsFolder(s, path) || FileAncestor(s.files, path)
  }

  /**
   * Creating a folder: a path conflict if anything is in the way, otherwise
   * an error if the path is refused, otherwise the folder is added.
   */
  function CreateFolderStep(s: Store, path: string): (r: (CreateFolderResult, Store))
    ensures r.0 == PathConflict <==> Occupied(s, path)
    ensures r.0.CreateFailed? <==> !Occupied(s, path) && path in s.refused
    ensures r.0.CreateFailed? ==> r.0.error == Refused(path)
    ensures r.1.folders == if r.0 == FolderCreated then s.folders + {path} else s.folders
    ensures r.1.files == s.files && r.1.refused == s.refused
  {
    if Occupied(s, path) then (PathConflict, s)
    else if path in s.refused then (CreateFailed(Refused(path)), s)
    else (FolderCreated, s.(folders := s.folders + {path}))
  }

  /**
   * Uploading in overwrite mode: a write conflict if a folder is at the path
   * or a file is above it, otherwise an error if the path is refused,
   * otherwise the path holds exactly `content` afterwards.
   */
  function UploadStep(s: Store, path: string, content: Bytes): (r: (UploadResult, Store))
    ensures r.0 == Uploaded <==> !UploadBlocked(s, path) && path !in s.refused
    ensures r.0.UploadFailed? ==> r.0.error == if UploadBlocked(s, path) then WriteConflict(path) else Refused(path)
    ensures r.0 == Uploaded ==> r.1.files.Keys == s.files.Keys + {path} && r.1.files[path] == content
    ensures forall p :: p in s.files && p != path ==> p in r.1.files && r.1.files[p] == s.files[p]
    ensures r.0 != Uploaded ==> r.1 == s
    ensures r.1.folders == s.folders && r.1.refused == s.refused
  {
    if UploadBlocked(s, path) then (UploadFailed(WriteConflict(path)), s)
    else if path in s.refused then (UploadFailed(Refused(path)), s)
    else (Uploaded, s.(files := s.files[path := content]))
  }

  // ---------------------------------------------------------------------
  // The flow, as a function of the storage's state

  /** How one run of the form ends. */
  datatype Outcome =
    | Rejected(missing: seq<string>)  // the header lacks required columns
    | Saved(target: Target)           // the sheet was stored at the target
    | Raised(error: StorageError)     // a storage error the form does not handle

  /**
   * What the flow needs of its inputs: a real date, a rectangular sheet,
   * and at least one data row whenever the header passes, since the file is
   * named after the first row.
   */
  predicate Admissible(table: Table, today: Date) {
    && today.Valid()
    && table.WellFormed()
    && (Columns.ValidateColumns(table.header, Columns.RequiredColumns).0 ==> |table.rows| > 0)
  }

  /** Whether the header has every required column. */
  predicate Accepted(table: Table) {
    Columns.ValidateColumns(table.header, Columns.RequiredColumns).0
  }

  /** The destination of an accepted sheet. */
  function TargetOf(table: Table, today: Date): Target
    requires Admissible(table, today) && Accepted(table)
  {
    Columns.ValidHeaderHasSede(table.header);
    Resolve(today, FirstSite(table))
  }

  /**
   * The storage half of a run for an accepted sheet bound for `t`: the
   * outcome, the storage afterwards and the requests made, in order.
   */
  function Deliver(s: Store, t: Target, content: Bytes): (r: (Outcome, Store, seq<Call>))
    requires t.FileInFolder()
    // The month folder is always asked for first.
    ensures |r.2| >= 1 && r.2[0] == CreateFolderCall(t.folderPath)
    // A folder error other than a conflict ends the run before any upload.
    ensures !Occupied(s, t.folderPath) && t.folderPath in s.refused
            ==> r == (Raised(Refused(t.folderPath)), s, [CreateFolderCall(t.folderPath)])
    // Otherwise, whatever was in the way or was created, the sheet is uploaded.
    ensures Occupied(s, t.folderPath) || t.folderPath !in s.refused
            ==> r.2 == [CreateFolderCall(t.folderPath), UploadCall(t.filePath, content)]
    // A folder created by this run stays, whatever the upload does.
    ensures |r.2| == 2 ==> r.1.folders == if Occupied(s, t.folderPath) then s.folders else s.folders + {t.folderPath}
    // The sheet is saved exactly when the upload meets nothing in the way and is not refused.
    ensures r.0.Saved? <==> |r.2| == 2 && !UploadBlocked(s, t.filePath) && t.filePath !in s.refused
    ensures r.0.Saved? ==> r.0.target == t && r.1.files == s.files[t.filePath := content]
    // A failed upload raises its own error.
    ensures r.0.Raised? && |r.2| == 2
            ==> r.0.error == if UploadBlocked(s, t.filePath) then WriteConflict(t.filePath) else Refused(t.filePath)
    ensures !r.0.Saved? ==> r.0.Raised? && r.1.files == s.files
    ensures r.1.refused == s.refused
  {
    var (created, s1) := CreateFolderStep(s, t.folderPath);
    if created.CreateFailed? then (Raised(created.error), s1, [CreateFolderCall(t.folderPath)])
    else
      assert UploadBlocked(s1, t.filePath) == UploadBlocked(s, t.filePath);
      var (uploaded, s2) := UploadStep(s1, t.filePath, content);
      var calls := [CreateFolderCall(t.folderPath), UploadCall(t.filePath, content)];
      if uploaded.UploadFailed? then (Raised(uploaded.error), s2, calls)
      else (Saved(t), s2, calls)
  }

  /**
   * A file sitting where the month folder should be counts as a path
   * conflict, so the folder step lets the run go on, and the upload beneath
   * that file then fails with a write conflict.
   */
  lemma {:induction false} FileAtFolderPathRaises(s: Store, t: Target, content: Bytes)
    requires t.FileInFolder() && t.folderPath in s.files
    ensures Deliver(s, t, content).0 == Raised(WriteConflict(t.filePath))
    ensures Deliver(s, t, content).1 == s
  {
    var k := |t.folderPath|;
    assert t.filePath[..k] in s.files;
    assert FileAncestor(s.files, t.filePath);
  }

  /**
   * One run of the form against storage `s`, given the serialised sheet:
   * a rejected sheet reports its missing columns and touches nothing; an
   * accepted one is delivered to the destination its date and site name.
   */
  function Process(s: Store, table: Table, today: Date, content: Bytes): (r: (Outcome, Store, seq<Call>))
    requires Admissible(table, today)
    ensures r.0.Rejected? <==> !Accepted(table)
    ensures r.0.Rejected? ==> r.0.missing == Columns.Missing(table.header, Columns.RequiredColumns)
                              && r.0.missing != [] && r.1 == s && r.2 == []
    ensures Accepted(table) ==> r == Deliver(s, TargetOf(table, today), content)
  {
    var (valid, missing) := Columns.ValidateColumns(table.header, Columns.RequiredColumns);
    if !valid then (Rejected(missing.value), s, [])
    else Deliver(s, TargetOf(table, today), content)
  }

  /**
   * Delivering the same sheet to the same target again replaces the stored
   * file in place: the second delivery meets the folder as a conflict,
   * proceeds, makes the same requests and leaves the storage as it was. The
   * first delivery adds exactly one path to the stored files.
   */
  lemma {:induction false} RedeliveryOverwrites(s: Store, t: Target, content: Bytes)
    requires t.FileInFolder() && Deliver(s, t, content).0.Saved?
    ensures var (o1, s1, calls1) := Deliver(s, t, content);
            Deliver(s1, t, content) == (o1, s1, calls1)
    ensures Deliver(s, t, content).1.files.Keys == s.files.Keys + {t.filePath}
  {
    var (o1, s1, calls1) := Deliver(s, t, content);
    // The saved file lies below the folder, so the folder now counts as in the way.
    assert t.filePath in s1.files;
    assert FileBeneath(s1.files, t.folderPath);
    // Writing the file put nothing above or below it.
    WriteAddsNoAncestor(s.files, t.filePath, content);
    WriteAddsNothingBeneath(s.files, t.filePath, content);
    assert !UploadBlocked(s1, t.filePath);
    assert s1.files[t.filePath := content] == s1.files;
    if !Occupied(s, t.folderPath) {
      assert s1.folders + {t.folderPath} == s1.folders;
    }
  }

  /** Writing a file puts nothing below it. */
  lemma WriteAddsNothingBeneath(files: map<string, Bytes>, path: string, content: Bytes)
    ensures FileBeneath(files[path := content], path) == FileBeneath(files, path)
  {
    if FileBeneath(files[path := content], path) {
      var p :| p in files[path := content] && |path| < |p| && p[|path|] == '/' && p[..|path|] == path;
      assert p != path;
    }
  }

  /**
   * A site whose name holds a slash stores its sheet in a sub-folder of the
   * month folder. A later upload for a site whose file path is that
   * sub-folder then meets a folder and raises a write conflict.
   */
  lemma {:induction false} NestedSiteBlocksLaterUpload(s: Store, t1: Target, t2: Target, c1: Bytes, c2: Bytes)
    requires t1.FileInFolder() && t2.FileInFolder() && t2.folderPath == t1.folderPath
    requires Deliver(s, t1, c1).0.Saved?
    requires |t2.filePath| < |t1.filePath| && t1.filePath[|t2.filePath|] == '/'
             && t1.filePath[..|t2.filePath|] == t2.filePath
    ensures var s1 := Deliver(s, t1, c1).1;
            Deliver(s1, t2, c2).0 == Raised(WriteConflict(t2.filePath)) && Deliver(s1, t2, c2).1 == s1
  {
    var s1 := Deliver(s, t1, c1).1;
    assert t1.filePath in s1.files;
    assert FileBeneath(s1.files, t1.folderPath);
    assert FileBeneath(s1.files, t2.filePath);
  }

  /** Writing a file puts nothing above it. */
  lemma WriteAddsNoAncestor(files: map<string, Bytes>, path: string, content: Bytes)
    ensures FileAncestor(files[path := content], path) == FileAncestor(files, path)
  {
    if FileAncestor(files[path := content], path) {
      var k :| 0 < k < |path| && path[k] == '/' && path[..k] in files[path := content];
      assert |path[..k]| != |path|;
    }
  }


  /**
   * Running the form twice on the same sheet and date gives the same
   * outcome and requests, and the second run leaves the storage as the first
   * left it: one file at the target path, not two.
   */
  lemma RepeatedRunOverwrites(s: Store, table: Table, today: Date, content: Bytes)
    requires Admissible(table, today)
    requires Process(s, table, today, content).0.Saved?
    ensures var first := Process(s, table, today, content);
            Process(first.1, table, today, content) == first
            && first.1.files.Keys == s.files.Keys + {first.0.target.filePath}
  {
    RedeliveryOverwrites(s, TargetOf(table, today), content);
  }

  // ---------------------------------------------------------------------
  // The flow against a live storage object

  /** The storage client the form talks to; it records every request it receives. */
  class Storage {
    var folders: set<string>
    var files: map<string, Bytes>
    const refused: set<string>
    var log: seq<Call>

    function State(): Store
      reads this
    {
      Store(folders, files, refused)
    }

    constructor (folders: set<string>, files: map<string, Bytes>, refused: set<string>)
      ensures State() == Store(folders, files, refused) && log == []
    {
      this.folders := folders;
      this.files := files;
      this.refused := refused;
      this.log := [];
    }

    method CreateFolder(path: string) returns (r: CreateFolderResult)
      modifies this
      ensures (r, State()) == CreateFolderStep(old(State()), path)
      ensures log == old(log) + [CreateFolderCall(path)]
    {
      log := log + [CreateFolderCall(path)];
      if path in folders || FileBeneath(files, path) || path in files || FileAncestor(files, path) {
        r := PathConflict;
      } else if path in refused {
        r := CreateFailed(Refused(path));
      } else {
        folders := folders + {path};
        r := FolderCreated;
      }
    }

    method Upload(content: Bytes, path: string) returns (r: UploadResult)
      modifies this
      ensures (r, State()) == UploadStep(old(State()), path, content)
      ensures log == old(log) + [UploadCall(path, content)]
    {
      log := log + [UploadCall(path, content)];
      if path in folders || FileBeneath(files, path) || FileAncestor(files, path) {
        r := UploadFailed(WriteConflict(path));
      } else if path in refused {
        r := UploadFailed(Refused(path));
      } else {
        files := files[path := content];
        r := Uploaded;
      }
    }
  }

  /** Appending two requests one at a time appends the pair. */
  lemma AppendTwo(log: seq<Call>, first: Call, second: Call)
    ensures log + [first] + [second] == log + [first, second]
  {
  }

  /**
   * The accepted branch of a run: name the file after the first row's site
   * and the folder after next month, create the folder (a path conflict
   * counts as success, any other error escapes), then upload the serialised
   * sheet to the file path in overwrite mode.
   */
  method SaveSheet(dbx: Storage, table: Table, today: Date, content: Bytes) returns (outcome: Outcome)
    requires Admissible(table, today) && Accepted(table)
    modifies dbx
    ensures outcome == Deliver(old(dbx.State()), TargetOf(table, today), content).0
    ensures dbx.State() == Deliver(old(dbx.State()), TargetOf(table, today), content).1
    ensures dbx.log == old(dbx.log) + Deliver(old(dbx.State()), TargetOf(table, today), content).2
  {
    Columns.ValidHeaderHasSede(table.header);
    var site := FirstSite(table);
    var fileName := FileName(site);
    var folderName := FolderName(today);
    var folderPath := FolderPath(folderName);
    var created := dbx.CreateFolder(folderPath);
    if created.CreateFailed? {
      outcome := Raised(created.error);
      return;
    }
    var filePath := FilePath(folderPath, fileName);
    var uploaded := dbx.Upload(content, filePath);
    AppendTwo(old(dbx.log), CreateFolderCall(folderPath), UploadCall(filePath, content));
    if uploaded.UploadFailed? {
      outcome := Raised(uploaded.error);
      return;
    }
    outcome := Saved(Target(folderName, folderPath, fileName, filePath));
  }

  /**
   * One run of the form: validate the header; report the missing columns if
   * any, without touching the storage, and otherwise save the sheet.
   */
  method Run(dbx: Storage, table: Table, today: Date, content: Bytes) returns (outcome: Outcome)
    requires Admissible(table, today)
    modifies dbx
    ensures outcome == Process(old(dbx.State()), table, today, content).0
    ensures dbx.State() == Process(old(dbx.State()), table, today, content).1
    ensures dbx.log == old(dbx.log) + Process(old(dbx.State()), table, today, content).2
  {
    var (valid, missing) := Columns.ValidateColumns(table.header, Columns.RequiredColumns);
    if valid {
      outcome := SaveSheet(dbx, table, today, content);
    } else {
      outcome := Rejected(missing.value);
    }
  }
}
