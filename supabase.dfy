/** lib/supabase.ts: the two data-layer helpers with client-side logic of their own:
    `createDataset` (a connection probe, the insert with its defaults, and the wrapping of every
    failure into an `Error`) and `uploadDatasetFile` (extension, storage path, size in MB, and
    removal of the uploaded object when the record update fails). The hosted backend's answers
    are parameters. */
module Supabase {
  import opened Domain
  import opened Effects

  /** `name.split('.').pop()`: the text after the last '.', the whole name when it has none,
      and empty when the name ends with a '.'. */
  function FileExtension(name: string): (ext: string)
    ensures |ext| <= |name| && ext == name[|name| - |ext|..]
    ensures '.' !in ext
    ensures |ext| < |name| ==> name[|name| - |ext| - 1] == '.'
  {
    if name == [] then []
    else if name[|name| - 1] == '.' then []
    else
      var init := name[..|name| - 1];
      var e := FileExtension(init);
      assert |e| < |init| ==> init[|init| - |e| - 1] == name[|name| - |e| - 2];
      e + [name[|name| - 1]]
  }

  /** The three properties of `FileExtension` determine it: any dot-free suffix that is the whole
      name or follows a '.' is the extension. */
  lemma ExtensionUnique(name: string, r: string)
    requires |r| <= |name| && r == name[|name| - |r|..]
    requires '.' !in r
    requires |r| < |name| ==> name[|name| - |r| - 1] == '.'
    ensures r == FileExtension(name)
  {
    DotFreeSuffixesAgree(name, r, FileExtension(name));
  }

  /** A dot-free suffix that is the whole name or follows a '.' is the longest dot-free suffix,
      so there is only one. */
  lemma DotFreeSuffixesAgree(name: string, r1: string, r2: string)
    requires |r1| <= |name| && r1 == name[|name| - |r1|..] && '.' !in r1
    requires |r1| < |name| ==> name[|name| - |r1| - 1] == '.'
    requires |r2| <= |name| && r2 == name[|name| - |r2|..] && '.' !in r2
    requires |r2| < |name| ==> name[|name| - |r2| - 1] == '.'
    ensures r1 == r2
  {
    if |r1| < |r2| {
      assert false;
    } else if |r2| < |r1| {
      assert false;
    }
  }

  /** A name without a '.' is its own extension. */
  lemma ExtensionOfDotless(name: string)
    requires '.' !in name
    ensures FileExtension(name) == name
  {
    ExtensionUnique(name, name);
  }

  /** Whatever comes before the last '.', the extension is what follows it. */
  lemma ExtensionAfterLastDot(base: string, e: string)
    requires '.' !in e
    ensures FileExtension(base + "." + e) == e
  {
    var s := base + "." + e;
    assert s[|s| - |e|..] == e;
    assert s[|s| - |e| - 1] == '.';
    ExtensionUnique(s, e);
  }

  /** `${datasetId}/${uuid}.${fileExt}`. */
  function StoragePath(datasetId: string, uuid: string, ext: string): string
  {
    datasetId + "/" + uuid + "." + ext
  }

  /** The path for an uploaded file: the dataset's folder, the fresh name, the file's extension. */
  function UploadPath(datasetId: string, uuid: string, file: FileInfo): string
  {
    StoragePath(datasetId, uuid, FileExtension(file.name))
  }

  /** The stored object lives under the dataset's folder. */
  lemma UploadPathInFolder(datasetId: string, uuid: string, file: FileInfo)
    ensures |UploadPath(datasetId, uuid, file)| > |datasetId|
    ensures UploadPath(datasetId, uuid, file)[..|datasetId| + 1] == datasetId + "/"
  {
    var rest := uuid + "." + FileExtension(file.name);
    assert UploadPath(datasetId, uuid, file) == (datasetId + "/") + rest;
  }

  /** The stored object keeps the uploaded file's extension. */
  lemma UploadPathKeepsExtension(datasetId: string, uuid: string, file: FileInfo)
    ensures FileExtension(UploadPath(datasetId, uuid, file)) == FileExtension(file.name)
  {
    ExtensionAfterLastDot(datasetId + "/" + uuid, FileExtension(file.name));
  }

  const BytesPerMB := 1048576

  /** `Math.round(size / 1024 / 1024)` for a byte count: the nearest whole number of MiB, a half
      rounding up. */
  function BytesToMB(bytes: nat): (mb: nat)
    ensures mb * BytesPerMB <= bytes + BytesPerMB / 2 < mb * BytesPerMB + BytesPerMB
  {
    (bytes + BytesPerMB / 2) / BytesPerMB
  }

  /** The rounding lands within half a MiB of the true size, and whole MiB are exact. */
  lemma BytesToMBNearest(bytes: nat, k: nat)
    ensures bytes - BytesPerMB / 2 < BytesToMB(bytes) * BytesPerMB <= bytes + BytesPerMB / 2
    ensures BytesToMB(k * BytesPerMB) == k
    ensures BytesToMB(BytesPerMB / 2 - 1) == 0 && BytesToMB(BytesPerMB / 2) == 1
  {
    var m := BytesToMB(k * BytesPerMB);
    assert m * BytesPerMB <= k * BytesPerMB + BytesPerMB / 2 < m * BytesPerMB + BytesPerMB;
  }

  /** More bytes never round to fewer MiB. */
  lemma BytesToMBMonotone(a: nat, b: nat)
    requires a <= b
    ensures BytesToMB(a) <= BytesToMB(b)
  {
    var x, y := BytesToMB(a), BytesToMB(b);
    assert x * BytesPerMB <= a + BytesPerMB / 2 <= b + BytesPerMB / 2 < y * BytesPerMB + BytesPerMB;
  }

  /** What an awaited query builder gives back: its `{ data, error }` answer, or a rejection
      that reaches the `catch` clause directly. */
  datatype Outcome<T> = Answered(data: Option<T>, error: Option<string>) | Rejected(thrown: Thrown)

  const NoDataAfterInsert := "No data returned from database after insert"
  const UnexpectedCreateError := "An unexpected error occurred while creating the dataset"
  const NoFileUrl := "Failed to get file URL"

  /** The row `createDataset` asks to insert. */
  datatype InsertRow = InsertRow(
    name: string, description: string, visibility: string, category_tags: seq<string>,
    license: string, size: int, likes: int, file_url: Option<string>)

  /** The insert carries the given fields, no file, and zero size and likes. */
  function RowFor(p: CreateDatasetParams): (row: InsertRow)
    ensures row.name == p.name && row.description == p.description && row.visibility == p.visibility
    ensures row.category_tags == p.category_tags && row.license == p.license
    ensures row.size == 0 && row.likes == 0 && row.file_url == None
  {
    InsertRow(p.name, p.description, p.visibility, p.category_tags, p.license, 0, 0, None)
  }

  /** The `catch` of `createDataset`: an `Error` is rethrown as it is, anything else becomes an
      `Error` with a fixed message. */
  function Rethrown(t: Thrown): (r: Thrown)
    ensures r.Error?
    ensures t.Error? ==> r == t
    ensures t.NonError? ==> r.message == UnexpectedCreateError
  {
    if t.Error? then t else Error(UnexpectedCreateError)
  }

  /** Whether `createDataset` gets as far as the insert: only when the probe answered without
      an error. */
  predicate ProbePassed(probe: Outcome<()>)
  {
    probe.Answered? && probe.error.None?
  }

  /** The result of `createDataset` given the probe's and the insert's outcomes. */
  function CreateOutcome(probe: Outcome<()>, insert: Outcome<Dataset>): (r: Reply<Dataset>)
    ensures r.Threw? ==> r.thrown.Error?
    ensures probe.Rejected? ==> r == Threw(Rethrown(probe.thrown))
    ensures probe.Answered? && probe.error.Some? ==> r == Threw(Error("Connection error: " + probe.error.value))
    ensures ProbePassed(probe) && insert.Rejected? ==> r == Threw(Rethrown(insert.thrown))
    ensures ProbePassed(probe) && insert.Answered? && insert.error.Some? ==>
              r == Threw(Error("Failed to create dataset: " + insert.error.value))
    ensures ProbePassed(probe) && insert.Answered? && insert.error.None? && insert.data.None? ==>
              r == Threw(Error(NoDataAfterInsert))
    ensures r.Ok? <==> ProbePassed(probe) && insert.Answered? && insert.error.None? && insert.data.Some?
    ensures r.Ok? ==> r.value == insert.data.value
  {
    match probe
    case Rejected(t) => Threw(Rethrown(t))
    case Answered(_, Some(m)) => Threw(Error("Connection error: " + m))
    case Answered(_, None) =>
      match insert
      case Rejected(t) => Threw(Rethrown(t))
      case Answered(_, Some(m)) => Threw(Error("Failed to create dataset: " + m))
      case Answered(None, None) => Threw(Error(NoDataAfterInsert))
      case Answered(Some(row), None) => Ok(row)
  }

  /** The `update` of `uploadDatasetFile` on the table. */
  function WithFile(rows: map<string, Dataset>, id: string, url: string, size: int): map<string, Dataset>
  {
    if id in rows then rows[id := rows[id].(file_url := Some(url), size := size)] else rows
  }

  /** The update changes one row at most: the row with that id, if there is one, gets the URL
      and the size; every other row, and the set of ids, stay as they were. */
  lemma WithFileChangesOneRow(rows: map<string, Dataset>, id: string, url: string, size: int)
    ensures WithFile(rows, id, url, size).Keys == rows.Keys
    ensures forall k | k in rows && k != id :: WithFile(rows, id, url, size)[k] == rows[k]
    ensures id in rows ==> WithFile(rows, id, url, size)[id] == rows[id].(file_url := Some(url), size := size)
  {
  }

  /** The bucket after an object put at `path` is removed again. */
  function Unstored(before: map<string, FileInfo>, path: string): map<string, FileInfo>
  {
    before - {path}
  }

  /** The removal takes out that path and keeps every other object. */
  lemma UnstoredKeepsOthers(before: map<string, FileInfo>, path: string)
    ensures path !in Unstored(before, path) && Unstored(before, path).Keys == before.Keys - {path}
    ensures forall p | p in Unstored(before, path) :: Unstored(before, path)[p] == before[p]
  {
  }

  /** Storing and then removing an object at a path the bucket did not have restores the bucket
      exactly. */
  lemma RemovalRestores(before: map<string, FileInfo>, path: string, file: FileInfo)
    ensures before[path := file] - {path} == Unstored(before, path)
    ensures path !in before ==> Unstored(before, path) == before
  {
  }

  /** What became of the cleanup `remove` after a failed update: it removed the object, it
      answered with an error (which is ignored), or it rejected (and that rejection is what
      propagates). */
  datatype Removal = Removed | RemoveFailed | RemoveRejected(thrown: Thrown)

  /** The backend's side of one `uploadDatasetFile` call: whether the upload threw, the public
      URL it handed back, whether the record update threw, and what the cleanup did. */
  datatype UploadSteps = UploadSteps(
    upload: Option<Thrown>, publicUrl: Option<string>, update: Option<Thrown>, removal: Removal)

  /** The object was written to the bucket. */
  predicate Stored(st: UploadSteps)
  {
    st.upload.None?
  }

  /** The dataset's record was updated with the file. */
  predicate Recorded(st: UploadSteps)
  {
    st.upload.None? && st.publicUrl.Some? && st.update.None?
  }

  /** The record update failed and the cleanup removed the object again. */
  predicate RolledBack(st: UploadSteps)
  {
    st.upload.None? && st.publicUrl.Some? && st.update.Some? && st.removal.Removed?
  }

  /** What `uploadDatasetFile` returns or throws. */
  function UploadResult(st: UploadSteps): (r: Reply<string>)
    ensures r.Ok? <==> Recorded(st)
    ensures r.Ok? ==> r.value == st.publicUrl.value
    ensures st.upload.Some? ==> r == Threw(st.upload.value)
    ensures Stored(st) && st.publicUrl.None? ==> r == Threw(Error(NoFileUrl))
    ensures Stored(st) && st.publicUrl.Some? && st.update.Some? && !st.removal.RemoveRejected? ==>
              r == Threw(st.update.value)
    ensures Stored(st) && st.publicUrl.Some? && st.update.Some? && st.removal.RemoveRejected? ==>
              r == Threw(st.removal.thrown)
  {
    if st.upload.Some? then Threw(st.upload.value)
    else if st.publicUrl.None? then Threw(Error(NoFileUrl))
    else if st.update.Some? then
      if st.removal.RemoveRejected? then Threw(st.removal.thrown) else Threw(st.update.value)
    else Ok(st.publicUrl.value)
  }

  /** The bucket after the call. */
  function StorageAfter(before: map<string, FileInfo>, path: string, file: FileInfo, st: UploadSteps): map<string, FileInfo>
  {
    if !Stored(st) then before
    else if RolledBack(st) then Unstored(before, path)
    else before[path := file]
  }

  /** The table after the call. */
  function RowsAfter(rows: map<string, Dataset>, datasetId: string, file: FileInfo, st: UploadSteps): map<string, Dataset>
  {
    if Recorded(st) then WithFile(rows, datasetId, st.publicUrl.value, BytesToMB(file.size)) else rows
  }

  /** A failed upload leaves the bucket and the table as they were. */
  lemma FailedUploadChangesNothing(before: map<string, FileInfo>, rows: map<string, Dataset>,
                                   datasetId: string, path: string, file: FileInfo, st: UploadSteps)
    requires st.upload.Some?
    ensures StorageAfter(before, path, file, st) == before
    ensures RowsAfter(rows, datasetId, file, st) == rows
    ensures UploadResult(st).Threw?
  {
  }

  /** Without a public URL the call throws, the record is untouched, and the uploaded object
      stays in the bucket: nothing removes it. */
  lemma MissingUrlLeavesObject(before: map<string, FileInfo>, rows: map<string, Dataset>,
                               datasetId: string, path: string, file: FileInfo, st: UploadSteps)
    requires Stored(st) && st.publicUrl.None?
    ensures path in StorageAfter(before, path, file, st) && StorageAfter(before, path, file, st)[path] == file
    ensures RowsAfter(rows, datasetId, file, st) == rows
    ensures UploadResult(st) == Threw(Error(NoFileUrl))
  {
  }

  /** A failed record update whose cleanup succeeds restores the bucket exactly, when the fresh
      path was not in use, and throws; the table is untouched. */
  lemma FailedUpdateRollsBack(before: map<string, FileInfo>, rows: map<string, Dataset>,
                              datasetId: string, path: string, file: FileInfo, st: UploadSteps)
    requires RolledBack(st) && path !in before
    ensures StorageAfter(before, path, file, st) == before
    ensures RowsAfter(rows, datasetId, file, st) == rows
    ensures UploadResult(st) == Threw(st.update.value)
  {
    RemovalRestores(before, path, file);
  }

  /** On success the object is in the bucket, and the URL returned is the one written to the
      dataset's record, together with the size in MiB. */
  lemma SuccessRecordsReturnedUrl(before: map<string, FileInfo>, rows: map<string, Dataset>,
                                  datasetId: string, path: string, file: FileInfo, st: UploadSteps)
    requires UploadResult(st).Ok? && datasetId in rows
    ensures path in StorageAfter(before, path, file, st) && StorageAfter(before, path, file, st)[path] == file
    ensures datasetId in RowsAfter(rows, datasetId, file, st)
    ensures RowsAfter(rows, datasetId, file, st)[datasetId].file_url == Some(UploadResult(st).value)
    ensures RowsAfter(rows, datasetId, file, st)[datasetId].size == BytesToMB(file.size)
  {
    WithFileChangesOneRow(rows, datasetId, st.publicUrl.value, BytesToMB(file.size));
  }

  /** The storage bucket and the datasets table as the helpers change them, and the inserts sent. */
  class Backend {
    var storage: map<string, FileInfo>
    var rows: map<string, Dataset>
    var inserts: seq<InsertRow>

    constructor (s: map<string, FileInfo>, r: map<string, Dataset>)
      ensures storage == s && rows == r && inserts == []
    {
      storage := s;
      rows := r;
      inserts := [];
    }

    /** `createDataset`: the insert goes out only after a clean probe, and a returned row is
        the result (and is in the table afterwards); the table is otherwise unchanged. */
    method CreateDataset(p: CreateDatasetParams, probe: Outcome<()>, insert: Outcome<Dataset>)
      returns (r: Reply<Dataset>)
      modifies this`rows, this`inserts
      ensures r == CreateOutcome(probe, insert)
      ensures inserts == old(inserts) + (if ProbePassed(probe) then [RowFor(p)] else [])
      ensures rows == if r.Ok? then old(rows)[r.value.id := r.value] else old(rows)
    {
      match probe {
        case Rejected(t) =>
          return Threw(Rethrown(t));
        case Answered(_, Some(m)) =>
          return Threw(Error("Connection error: " + m));
        case Answered(_, None) =>
      }
      inserts := inserts + [RowFor(p)];
      match insert {
        case Rejected(t) =>
          r := Threw(Rethrown(t));
        case Answered(_, Some(m)) =>
          r := Threw(Error("Failed to create dataset: " + m));
        case Answered(None, None) =>
          r := Threw(Error(NoDataAfterInsert));
        case Answered(Some(row), None) =>
          rows := rows[row.id := row];
          r := Ok(row);
      }
    }

    /** The steps of `uploadDatasetFile` after the path is chosen: store the object, fetch its
        public URL, record it on the dataset, and remove the object again when that fails. */
    method StoreAndRecord(datasetId: string, path: string, file: FileInfo, st: UploadSteps)
      returns (r: Reply<string>)
      modifies this`storage, this`rows
      ensures r == UploadResult(st)
      ensures storage == StorageAfter(old(storage), path, file, st)
      ensures rows == RowsAfter(old(rows), datasetId, file, st)
    {
      var before := storage;
      if st.upload.Some? {
        return Threw(st.upload.value);
      }
      storage := storage[path := file];
      if st.publicUrl.None? {
        return Threw(Error(NoFileUrl));
      }
      if st.update.Some? {
        if st.removal.Removed? {
          storage := Unstored(before, path);
        }
        if st.removal.RemoveRejected? {
          return Threw(st.removal.thrown);
        }
        return Threw(st.update.value);
      }
      rows := WithFile(rows, datasetId, st.publicUrl.value, BytesToMB(file.size));
      r := Ok(st.publicUrl.value);
    }

    /** `uploadDatasetFile`: the file is stored under the dataset's folder with a fresh name and
        its own extension; then the public URL is fetched; then the record is updated, and a
        failed update removes the object again before rethrowing. */
    method UploadDatasetFile(datasetId: string, file: FileInfo, uuid: string, st: UploadSteps)
      returns (r: Reply<string>, path: string)
      modifies this`storage, this`rows
      ensures path == UploadPath(datasetId, uuid, file)
      ensures r == UploadResult(st)
      ensures storage == StorageAfter(old(storage), path, file, st)
      ensures rows == RowsAfter(old(rows), datasetId, file, st)
    {
      path := UploadPath(datasetId, uuid, file);
      r := StoreAndRecord(datasetId, path, file, st);
    }
  }
}
