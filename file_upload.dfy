/** The upload widget (`src/components/ui/file-upload.tsx`): the list of
    uploads with their simulated progress. The interval and time-out that
    drive the simulation are replaced by explicit tick and completion calls. */
module FileUpload {
  import opened Seqs
  import opened UseFileUpload

  datatype UploadStatus = Uploading | Success | Failed

  datatype UploadedFile = UploadedFile(file: File, progress: int, status: UploadStatus)

  /** The widget's default options: CSV and XLSX, one file, at most 5 MB. */
  const DefaultAccept: seq<AcceptEntry> := [
    AcceptEntry("text/csv", [".csv"]),
    AcceptEntry("application/vnd.openxmlformats-officedocument.spreadsheetml.sheet", [".xlsx"])
  ]
  const DefaultMaxFiles: int := 1
  const DefaultMaxSize: int := 5 * 1024 * 1024

  /** A CSV file named with a `.csv` extension passes the widget's type test. */
  lemma DefaultAcceptsCsv(f: File)
    requires f.mimeType == "text/csv" && Extension(f.name) == ".csv"
    ensures IsTypeAccepted(f, DefaultAccept)
  {
    assert EntryAccepts(f, DefaultAccept[0]);
  }

  /** Under the default options a CSV file passes exactly when it is at most
      5 MB. */
  lemma DefaultSizeLimit(f: File)
    requires f.mimeType == "text/csv" && Extension(f.name) == ".csv"
    ensures Passes(f, DefaultAccept, Some(DefaultMaxSize)) <==> f.size <= 5242880
  {
    DefaultAcceptsCsv(f);
  }

  /** A drop on the widget with its default options: the hook receives the
      default map, one file and 5 MB. Two or more files are refused as too
      many; a single file is handed on exactly when it passes, and otherwise
      its own rejection is shown. */
  method DropWithDefaults(files: seq<File>) returns (dropped: Option<seq<File>>, rejections: seq<FileError>)
    ensures |files| > 1 ==> dropped.None? && rejections == [FileError(files[0], TooManyFiles(1))]
    ensures files == [] ==> dropped.None? && rejections == []
    ensures |files| == 1 ==>
      dropped == (if Passes(files[0], DefaultAccept, Some(DefaultMaxSize)) then Some(files) else None) &&
      rejections == RejectionOf(files[0], DefaultAccept, Some(DefaultMaxSize))
  {
    var zone := new DropZone(DefaultAccept, DefaultMaxFiles, Some(DefaultMaxSize));
    dropped := zone.HandleFiles(files);
    rejections := zone.fileRejections;
    if |files| == 1 {
      assert files[..|files| - 1] == [];
      assert Accepted(files, DefaultAccept, Some(DefaultMaxSize)) ==
        if Passes(files[0], DefaultAccept, Some(DefaultMaxSize)) then files else [];
      assert Rejections(files, DefaultAccept, Some(DefaultMaxSize)) ==
        RejectionOf(files[0], DefaultAccept, Some(DefaultMaxSize));
    }
  }

  /** The entry an accepted file starts as. */
  function NewEntry(f: File): UploadedFile
  {
    UploadedFile(f, 0, Uploading)
  }

  /** One progress tick: ten more percent, capped at 100. */
  function Advance(p: int): (r: int)
    ensures p <= 100 ==> p <= r <= 100
    ensures p <= 90 ==> r == p + 10
  {
    if p + 10 < 100 then p + 10 else 100
  }

  /** `n` ticks in a row. */
  function Iterate(p: int, n: nat): int
    decreases n
  {
    if n == 0 then p else Iterate(Advance(p), n - 1)
  }

  /** Enough ticks take any upload to 100 percent: a fresh one needs ten. */
  lemma {:induction false} TicksComplete(p: int, n: nat)
    requires 0 <= p <= 100 && p + 10 * n >= 100
    ensures Iterate(p, n) == 100
    decreases n
  {
    if n > 0 && p < 100 {
      TicksComplete(Advance(p), n - 1);
    } else if n > 0 {
      IterateAtCap(n);
    }
  }

  /** Ticks on a finished upload change nothing. */
  lemma {:induction false} IterateAtCap(n: nat)
    ensures Iterate(100, n) == 100
  {
    if n > 0 {
      IterateAtCap(n - 1);
    }
  }

  class UploadList {
    var uploadedFiles: seq<UploadedFile>

    /** Every progress is a percentage. */
    predicate Valid()
      reads this
    {
      forall i :: 0 <= i < |uploadedFiles| ==> 0 <= uploadedFiles[i].progress <= 100
    }

    constructor()
      ensures uploadedFiles == [] && Valid()
    {
      uploadedFiles := [];
    }

    /** `onDrop`: each accepted file is appended as a fresh upload. */
    method OnDrop(accepted: seq<File>)
      requires Valid()
      modifies this
      ensures Valid()
      ensures uploadedFiles == old(uploadedFiles) + Map(accepted, NewEntry)
    {
      uploadedFiles := uploadedFiles + Map(accepted, NewEntry);
    }

    /** One interval tick for `f`: only the entries of that file advance. */
    method Tick(f: File)
      requires Valid()
      modifies this
      ensures Valid()
      ensures |uploadedFiles| == |old(uploadedFiles)|
      ensures forall i :: 0 <= i < |uploadedFiles| ==>
        uploadedFiles[i] == if old(uploadedFiles)[i].file == f
          then old(uploadedFiles)[i].(progress := Advance(old(uploadedFiles)[i].progress))
          else old(uploadedFiles)[i]
    {
      uploadedFiles := MapWhere(uploadedFiles, (u: UploadedFile) => u.file == f,
                                (u: UploadedFile) => u.(progress := Advance(u.progress)));
    }

    /** The time-out for `f`: its entries are complete, and exactly that file
        is reported (the result is what `onFileUpload` receives). */
    method Complete(f: File) returns (reported: seq<File>)
      requires Valid()
      modifies this
      ensures Valid()
      ensures |uploadedFiles| == |old(uploadedFiles)|
      ensures forall i :: 0 <= i < |uploadedFiles| ==>
        uploadedFiles[i] == if old(uploadedFiles)[i].file == f
          then old(uploadedFiles)[i].(progress := 100, status := Success)
          else old(uploadedFiles)[i]
      ensures reported == [f]
    {
      uploadedFiles := MapWhere(uploadedFiles, (u: UploadedFile) => u.file == f,
                                (u: UploadedFile) => u.(progress := 100, status := Success));
      reported := [f];
    }

    /** `removeFile`: the entries of that file go, the rest stay in order. */
    method RemoveFile(f: File)
      requires Valid()
      modifies this
      ensures Valid()
      ensures uploadedFiles == Filter(old(uploadedFiles), (u: UploadedFile) => u.file != f)
      ensures forall u :: u in uploadedFiles ==> u.file != f
    {
      ghost var before := uploadedFiles;
      uploadedFiles := Filter(uploadedFiles, (u: UploadedFile) => u.file != f);
      forall i | 0 <= i < |uploadedFiles|
        ensures 0 <= uploadedFiles[i].progress <= 100
      {
        assert uploadedFiles[i] in before;
      }
    }
  }
}
