/** The drop-zone hook (`src/hooks/useFileUpload.ts`): which files it accepts,
    which it rejects and why, and the rejection list it keeps. */
module UseFileUpload {
  import opened Seqs
  import opened Text

  /** A dropped file; `handle` stands for the object's identity. */
  datatype File = File(handle: nat, name: string, mimeType: string, size: int)

  /** An entry of the `accept` map: a MIME type (possibly a wildcard such as `image/` followed by a star) and the
      extensions allowed for it. */
  datatype AcceptEntry = AcceptEntry(mimeType: string, extensions: seq<string>)

  datatype Reason = TooManyFiles(max: int) | TypeNotAccepted | TooLarge(maxSize: int)

  datatype FileError = FileError(file: File, reason: Reason)

  /** `` `.${name.split('.').pop()?.toLowerCase()}` ``. */
  function Extension(name: string): (r: string)
    ensures |r| >= 1 && r[0] == '.'
  {
    "." + ToLower(LastField(name, '.'))
  }

  /** The extension is the lower-cased text after the last dot; a name without
      a dot gives the whole name. */
  lemma ExtensionSpec(name: string)
    ensures var tail := LastField(name, '.');
      Extension(name) == "." + ToLower(tail) && '.' !in tail &&
      tail == name[|name| - |tail|..] &&
      (|tail| == |name| || name[|name| - |tail| - 1] == '.')
    ensures '.' !in name ==> Extension(name) == "." + ToLower(name)
  {
    SplitLast(name, '.');
  }

  /** The file-type test of one `accept` entry. */
  predicate EntryAccepts(f: File, e: AcceptEntry)
  {
    if f.mimeType == e.mimeType then Extension(f.name) in e.extensions
    else
      var base := FirstField(e.mimeType, '/');
      base + "/*" == e.mimeType && FirstField(f.mimeType, '/') == base
  }

  /** `isTypeAccepted`: some entry of the map accepts the file. */
  predicate IsTypeAccepted(f: File, accept: seq<AcceptEntry>)
  {
    exists i :: 0 <= i < |accept| && EntryAccepts(f, accept[i])
  }

  /** An exact MIME entry accepts exactly the files of that type whose
      extension it lists. */
  lemma ExactEntry(f: File, e: AcceptEntry)
    requires f.mimeType == e.mimeType
    ensures EntryAccepts(f, e) <==> Extension(f.name) in e.extensions
  {
  }

  /** A wildcard entry (a base type, a slash and a star) accepts every file of another type with the same base. */
  lemma WildcardEntry(f: File, base: string, extensions: seq<string>)
    requires '/' !in base
    requires f.mimeType != base + "/*" && FirstField(f.mimeType, '/') == base
    ensures EntryAccepts(f, AcceptEntry(base + "/*", extensions))
  {
    assert base + "/*" == Join([base, "*"], "/");
    SplitJoin([base, "*"], '/');
  }

  /** The size test; `None` is the unbounded default. */
  predicate TooLargeFor(f: File, maxSize: Option<int>)
  {
    maxSize.Some? && f.size > maxSize.value
  }

  /** A file is kept when its type is accepted and it is not too large. */
  predicate Passes(f: File, accept: seq<AcceptEntry>, maxSize: Option<int>)
  {
    IsTypeAccepted(f, accept) && !TooLargeFor(f, maxSize)
  }

  /** The rejection one file yields: the type test comes before the size test. */
  function RejectionOf(f: File, accept: seq<AcceptEntry>, maxSize: Option<int>): (r: seq<FileError>)
    ensures |r| <= 1
    ensures r == [] <==> Passes(f, accept, maxSize)
  {
    if !IsTypeAccepted(f, accept) then [FileError(f, TypeNotAccepted)]
    else if TooLargeFor(f, maxSize) then [FileError(f, TooLarge(maxSize.value))]
    else []
  }

  /** The accepted files of a drop, in input order. */
  function Accepted(files: seq<File>, accept: seq<AcceptEntry>, maxSize: Option<int>): seq<File>
  {
    if files == [] then []
    else
      var last := files[|files| - 1];
      Accepted(files[..|files| - 1], accept, maxSize) + (if Passes(last, accept, maxSize) then [last] else [])
  }

  /** The rejections of a drop, in input order. */
  function Rejections(files: seq<File>, accept: seq<AcceptEntry>, maxSize: Option<int>): seq<FileError>
  {
    if files == [] then []
    else
      Rejections(files[..|files| - 1], accept, maxSize) + RejectionOf(files[|files| - 1], accept, maxSize)
  }

  /** One more file extends each list by that file's own verdict. */
  lemma Step(files: seq<File>, i: nat, accept: seq<AcceptEntry>, maxSize: Option<int>)
    requires i < |files|
    ensures Accepted(files[..i + 1], accept, maxSize) ==
      Accepted(files[..i], accept, maxSize) + (if Passes(files[i], accept, maxSize) then [files[i]] else [])
    ensures Rejections(files[..i + 1], accept, maxSize) ==
      Rejections(files[..i], accept, maxSize) + RejectionOf(files[i], accept, maxSize)
  {
    assert files[..i + 1][..i] == files[..i];
  }

  /** The accepted files are exactly the passing files, in their order. */
  lemma {:induction false} AcceptedIsFilter(files: seq<File>, accept: seq<AcceptEntry>, maxSize: Option<int>)
    ensures Accepted(files, accept, maxSize) == Filter(files, (f: File) => Passes(f, accept, maxSize))
  {
    if files != [] {
      AcceptedIsFilter(files[..|files| - 1], accept, maxSize);
      FilterLast(files, (f: File) => Passes(f, accept, maxSize));
    }
  }

  /** Every file lands in exactly one of the two lists: each rejection names a
      failing file, and the counts add up. */
  lemma {:induction false} Partition(files: seq<File>, accept: seq<AcceptEntry>, maxSize: Option<int>)
    ensures |Accepted(files, accept, maxSize)| + |Rejections(files, accept, maxSize)| == |files|
    ensures forall k :: 0 <= k < |Rejections(files, accept, maxSize)| ==>
      Rejections(files, accept, maxSize)[k].file in files &&
      !Passes(Rejections(files, accept, maxSize)[k].file, accept, maxSize)
    ensures forall f :: f in Accepted(files, accept, maxSize) ==> f in files && Passes(f, accept, maxSize)
  {
    if files != [] {
      var p := files[..|files| - 1];
      Partition(p, accept, maxSize);
      assert files == p + [files[|files| - 1]];
    }
  }

  /** With an empty `accept` map, the hook's default, every file is rejected
      for its type. */
  lemma {:induction false} EmptyAcceptRejectsAll(files: seq<File>, maxSize: Option<int>)
    ensures Accepted(files, [], maxSize) == []
    ensures |Rejections(files, [], maxSize)| == |files|
    ensures forall k :: 0 <= k < |Rejections(files, [], maxSize)| ==>
      Rejections(files, [], maxSize)[k].reason == TypeNotAccepted
  {
    if files != [] {
      EmptyAcceptRejectsAll(files[..|files| - 1], maxSize);
    }
  }

  /** A file of exactly the maximum size is not too large; a file of a refused
      type is refused for its type whatever its size. */
  lemma SizeBoundaryAndOrder(f: File, accept: seq<AcceptEntry>, maxSize: int)
    ensures f.size == maxSize && IsTypeAccepted(f, accept) ==> RejectionOf(f, accept, Some(maxSize)) == []
    ensures !IsTypeAccepted(f, accept) ==> RejectionOf(f, accept, Some(maxSize)) == [FileError(f, TypeNotAccepted)]
  {
  }

  /** The hook's state: the drag highlight and the last rejections. */
  class DropZone {
    const accept: seq<AcceptEntry>
    const maxFiles: int
    const maxSize: Option<int>
    var isDragActive: bool
    var fileRejections: seq<FileError>

    /** The hook with its options; `useFileUpload`'s own defaults are an empty
        map, one file and no size bound. */
    constructor(accept: seq<AcceptEntry>, maxFiles: int, maxSize: Option<int>)
      ensures this.accept == accept && this.maxFiles == maxFiles && this.maxSize == maxSize
      ensures !isDragActive && fileRejections == []
    {
      this.accept := accept;
      this.maxFiles := maxFiles;
      this.maxSize := maxSize;
      isDragActive := false;
      fileRejections := [];
    }

    predicate TooManyFor(files: seq<File>)
      reads this
    {
      |files| > maxFiles && maxFiles > 0
    }

    /** `handleFiles`: the result is the list handed to `onDrop`, `None` when
        `onDrop` is not called. */
    method HandleFiles(files: seq<File>) returns (dropped: Option<seq<File>>)
      modifies this`fileRejections
      ensures TooManyFor(files) ==>
        fileRejections == [FileError(files[0], TooManyFiles(maxFiles))] && dropped.None?
      ensures !TooManyFor(files) ==>
        (var rejected := Rejections(files, accept, maxSize);
         var accepted := Accepted(files, accept, maxSize);
         fileRejections == (if rejected != [] then rejected else old(fileRejections)) &&
         dropped == (if accepted != [] then Some(accepted) else None))
    {
      if |files| > maxFiles && maxFiles > 0 {
        fileRejections := [FileError(files[0], TooManyFiles(maxFiles))];
        return None;
      }
      var accepted: seq<File> := [];
      var rejected: seq<FileError> := [];
      var i := 0;
      while i < |files|
        invariant 0 <= i <= |files|
        invariant accepted == Accepted(files[..i], accept, maxSize)
        invariant rejected == Rejections(files[..i], accept, maxSize)
        invariant fileRejections == old(fileRejections)
      {
        var f := files[i];
        Step(files, i, accept, maxSize);
        if !IsTypeAccepted(f, accept) {
          rejected := rejected + [FileError(f, TypeNotAccepted)];
        } else if TooLargeFor(f, maxSize) {
          rejected := rejected + [FileError(f, TooLarge(maxSize.value))];
        } else {
          accepted := accepted + [f];
        }
        i := i + 1;
      }
      assert files[..|files|] == files;
      if rejected != [] {
        fileRejections := rejected;
      }
      dropped := if accepted != [] then Some(accepted) else None;
    }

    /** `handleDrop`: the highlight goes off, old rejections are cleared, then
        the files are handled. */
    method HandleDrop(files: seq<File>) returns (dropped: Option<seq<File>>)
      modifies this`fileRejections, this`isDragActive
      ensures !isDragActive
      ensures TooManyFor(files) ==>
        fileRejections == [FileError(files[0], TooManyFiles(maxFiles))] && dropped.None?
      ensures !TooManyFor(files) ==>
        fileRejections == Rejections(files, accept, maxSize) &&
        dropped == (if Accepted(files, accept, maxSize) != [] then Some(Accepted(files, accept, maxSize)) else None)
    {
      isDragActive := false;
      fileRejections := [];
      dropped := HandleFiles(files);
    }

    /** `handleChange`: old rejections are cleared, then the files are handled. */
    method HandleChange(files: seq<File>) returns (dropped: Option<seq<File>>)
      modifies this`fileRejections
      ensures TooManyFor(files) ==>
        fileRejections == [FileError(files[0], TooManyFiles(maxFiles))] && dropped.None?
      ensures !TooManyFor(files) ==>
        fileRejections == Rejections(files, accept, maxSize) &&
        dropped == (if Accepted(files, accept, maxSize) != [] then Some(Accepted(files, accept, maxSize)) else None)
    {
      fileRejections := [];
      dropped := HandleFiles(files);
    }
  }
}
