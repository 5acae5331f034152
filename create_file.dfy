/** The "new file" dialog: picking a file names the record after it, the
    create button needs a file and a positive page count, and the record to
    insert is assembled from the form. */
module CreateFile {
  import opened Wrappers
  import opened JsText
  import opened JsObject
  import opened ChatTypes
  import opened FileItem

  /** `file.name.split(".").slice(0, -1).join(".")`: the name without its
      last "."-separated segment. */
  function NameWithoutExtension(fileName: string): string {
    AllButLastPiece(fileName, '.')
  }

  /** With a dot, the name is the derived name, a dot and a dot-free
      extension; without one the derived name is "". */
  lemma {:induction false} NameWithoutExtensionSpec(fileName: string)
    ensures '.' in fileName ==>
              fileName == NameWithoutExtension(fileName) + "." + LastPiece(fileName, '.')
              && '.' !in LastPiece(fileName, '.')
    ensures '.' !in fileName ==> NameWithoutExtension(fileName) == ""
  {
    LastPieceSplits(fileName, '.');
  }

  /** Only the last segment goes: "a.b.c" gives "a.b". */
  lemma {:induction false} NameWithoutExtensionExample()
    ensures NameWithoutExtension("a.b.c") == "a.b"
    ensures NameWithoutExtension("notes") == ""
  {
    TwoDots("a", "b", "c");
    assert "a" + "." + "b" + "." + "c" == "a.b.c";
    NameWithoutExtensionSpec("notes");
  }

  /** For three dot-free segments, the derived name keeps the first two. */
  lemma {:induction false} TwoDots(x: string, y: string, z: string)
    requires '.' !in x && '.' !in y && '.' !in z
    ensures NameWithoutExtension(x + "." + y + "." + z) == x + "." + y
  {
    var s := x + "." + y + "." + z;
    assert '.' in s by { assert s[|x|] == '.'; }
    NameWithoutExtensionSpec(s);
    var n := NameWithoutExtension(s);
    var l := LastPiece(s, '.');
    assert s == (x + "." + y) + "." + z;
    DotBeforeLonger(n, l, x + "." + y, z);
    DotBeforeLonger(x + "." + y, z, n, l);
    assert |l| == |z|;
    assert n == s[..|n|];
  }

  /** Two ways of writing one string as a prefix, a dot and a suffix: the
      longer suffix holds the shorter one's dot. */
  lemma {:induction false} DotBeforeLonger(n: string, l: string, p: string, z: string)
    requires n + "." + l == p + "." + z
    ensures |l| > |z| ==> l[|l| - |z| - 1] == '.'
  {
    if |l| > |z| {
      var s := n + "." + l;
      assert s[|s| - |z| - 1] == l[|l| - |z| - 1];
      assert s[|p|] == '.';
    }
  }

  /** The page count as the form evaluates it: `null` for a blank field,
      `NaN` for text that does not start with a number. */
  datatype ParsedPageCount = NullCount | NaNCount | IntCount(n: int)

  function ParsePageCount(text: string): (r: ParsedPageCount)
    ensures r.NullCount? <==> Trim(text) == ""
    ensures r.NaNCount? <==> Trim(text) != "" && ParseInt(text).None?
    ensures r.IntCount? <==> Trim(text) != "" && ParseInt(text).Some?
    ensures r.IntCount? ==> Some(r.n) == ParseInt(text)
  {
    if Trim(text) == "" then NullCount
    else match ParseInt(text)
      case Some(n) => IntCount(n)
      case None => NaNCount
  }

  /** `isCreateDisabled`. */
  function IsCreateDisabled(selectedFile: Option<LocalFile>, pageCountText: string): bool {
    var parsed := ParsePageCount(pageCountText);
    var isValidPageCount := parsed.IntCount? && parsed.n != 0 && parsed.n > 0;
    selectedFile.None? || !isValidPageCount
  }

  /** Creating needs a file and a page count the file editor would store. */
  lemma {:induction false} CreateDisabledIff(selectedFile: Option<LocalFile>, pageCountText: string)
    ensures !IsCreateDisabled(selectedFile, pageCountText)
            <==> selectedFile.Some? && NormalizePageCount(pageCountText).Some?
  {
  }

  /** The dialog's form. */
  datatype CreateForm = CreateForm(
    name: string, description: string, documentType: string, logline: string,
    genre: string, pageCount: string, selectedFile: Option<LocalFile>,
    selectedCollectionId: string)

  /** The record handed to the create call. `fileType` is a string, or the
      number 0 when the browser reports no type. */
  datatype FileInsert = FileInsert(
    file: Option<LocalFile>, collectionId: Option<string>, userId: string,
    name: string, description: string, documentType: Option<string>,
    logline: Option<string>, genre: Option<string>, pageCount: ParsedPageCount,
    filePath: string, size: int, tokens: int, fileType: Value)

  /** `createState`, which only exists when a profile and a workspace are
      loaded (the dialog renders nothing otherwise). */
  function CreateState(profileUserId: Option<string>, workspaceLoaded: bool, f: CreateForm): (r: Option<FileInsert>)
    ensures r.Some? <==> profileUserId.Some? && workspaceLoaded
    ensures r.Some? ==>
              var c := r.value;
              c.userId == profileUserId.value && c.file == f.selectedFile
              && c.collectionId == (if f.selectedCollectionId == "" then None else Some(f.selectedCollectionId))
              && c.documentType == (if f.documentType == "" then None else Some(f.documentType))
              && c.logline == TrimmedOrNull(f.logline) && c.genre == TrimmedOrNull(f.genre)
              && c.pageCount == ParsePageCount(f.pageCount)
              && c.filePath == "" && c.tokens == 0
              && c.size == (if f.selectedFile.Some? then f.selectedFile.value.size else 0)
              && c.fileType == (if f.selectedFile.Some? && f.selectedFile.value.mimeType != ""
                                then Str(f.selectedFile.value.mimeType) else Int(0))
  {
    if profileUserId.None? || !workspaceLoaded then None
    else
      var file := f.selectedFile;
      Some(FileInsert(
        file,
        if f.selectedCollectionId == "" then None else Some(f.selectedCollectionId),
        profileUserId.value, f.name, f.description,
        if f.documentType == "" then None else Some(f.documentType),
        TrimmedOrNull(f.logline), TrimmedOrNull(f.genre), ParsePageCount(f.pageCount),
        "", if file.Some? && file.value.size != 0 then file.value.size else 0, 0,
        if file.Some? && file.value.mimeType != "" then Str(file.value.mimeType) else Int(0)))
  }

  /** When create is enabled, the record's page count is the positive count
      the file editor would store. */
  lemma {:induction false} EnabledCreateHasPositiveCount(profileUserId: string, f: CreateForm)
    requires !IsCreateDisabled(f.selectedFile, f.pageCount)
    ensures var c := CreateState(Some(profileUserId), true, f).value;
            c.pageCount.IntCount? && c.pageCount.n > 0
            && NormalizePageCount(f.pageCount) == Some(c.pageCount.n)
  {
  }

  class CreateFileState {
    var name: string
    var selectedFile: Option<LocalFile>

    constructor()
      ensures name == "" && selectedFile.None?
    {
      name := "";
      selectedFile := None;
    }

    /** `handleSelectedFile(e)`. `files` is `e.target.files`, `None` when
        the input has no file list. */
    method HandleSelectedFile(files: Option<seq<LocalFile>>)
      modifies this
      ensures files.None? || files.value == [] ==> unchanged(this)
      ensures files.Some? && files.value != [] ==>
                selectedFile == Some(files.value[0]) && name == NameWithoutExtension(files.value[0].name)
    {
      if files.None? {
        return;
      }
      if files.value == [] {
        return;
      }
      var file := files.value[0];
      selectedFile := Some(file);
      name := NameWithoutExtension(file.name);
    }
  }
}
