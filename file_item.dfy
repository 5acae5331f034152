/** A file in the sidebar: attaching it to the message being composed, the
    metadata editor's normalisation, and the size label. */
module FileItem {
  import opened Wrappers
  import opened JsText
  import opened ChatTypes

  /** A row of the files table, as far as the sidebar reads it. */
  datatype FileRecord = FileRecord(
    id: string, name: string, fileType: string, description: string,
    documentType: Option<string>, logline: Option<string>, genre: Option<string>,
    pageCount: Option<int>)

  /** Some attached file has this id. */
  predicate HasFileId(files: seq<ChatFile>, id: string) {
    exists i :: 0 <= i < |files| && files[i].id == id
  }

  /** No id is attached twice. */
  predicate DistinctFileIds(files: seq<ChatFile>) {
    forall i, j :: 0 <= i < j < |files| ==> files[i].id != files[j].id
  }

  /** `isAttachedToChat`: the file is attached to the new message or to the
      chat. */
  predicate IsAttachedToChat(newMessageFiles: seq<ChatFile>, chatFiles: seq<ChatFile>, id: string) {
    HasFileId(newMessageFiles, id) || HasFileId(chatFiles, id)
  }

  /** The page-count field's starting text: the stored count when it is set
      and non-zero, otherwise "". */
  function InitialPageCountText(pageCount: Option<int>): string {
    if pageCount.Some? && pageCount.value != 0 then IntToString(pageCount.value) else ""
  }

  /** The page count stored from the field's text: `None` when the text is
      blank, not a number, or not positive. */
  function NormalizePageCount(text: string): (r: Option<int>)
    ensures r.Some? <==> Trim(text) != "" && ParseInt(text).Some? && ParseInt(text).value > 0
    ensures r.Some? ==> r == ParseInt(text)
  {
    if Trim(text) == "" then None
    else
      var parsed := ParseInt(text);
      if parsed.Some? && parsed.value != 0 && parsed.value > 0 then parsed else None
  }

  /** Editing nothing keeps a positive stored page count and turns any other
      stored value into `None`. */
  lemma {:induction false} PageCountRoundTrip(pageCount: Option<int>)
    ensures NormalizePageCount(InitialPageCountText(pageCount))
            == if pageCount.Some? && pageCount.value > 0 then pageCount else None
  {
    if pageCount.Some? && pageCount.value != 0 {
      var t := IntToString(pageCount.value);
      ParseIntIntToString(pageCount.value);
      assert t[0] == '-' || IsDigit(t[0]);
      assert !IsSpace(t[0]);
      assert Trim(t) != "" by { TrimEmptyIff(t); }
    } else {
      TrimEmptyIff("");
    }
  }

  /** The metadata saved by the editor. */
  datatype FileUpdate = FileUpdate(
    name: string, description: string, documentType: Option<string>,
    logline: Option<string>, genre: Option<string>, pageCount: Option<int>)

  /** `text.trim() || null`. */
  function TrimmedOrNull(text: string): (r: Option<string>)
    ensures r.None? <==> Trim(text) == ""
    ensures r.Some? ==> r.value == Trim(text) && r.value != "" && Trim(r.value) == r.value
  {
    TrimIdempotent(text);
    if Trim(text) == "" then None else Some(Trim(text))
  }

  /** `updateState`: the editor's fields as saved. */
  function UpdateState(name: string, description: string, documentType: string,
                       logline: string, genre: string, pageCountText: string): (u: FileUpdate)
    ensures u.name == name && u.description == description
    ensures u.documentType == (if documentType == "" then None else Some(documentType))
    ensures u.logline == TrimmedOrNull(logline) && u.genre == TrimmedOrNull(genre)
    ensures u.pageCount == NormalizePageCount(pageCountText)
  {
    FileUpdate(name, description, if documentType == "" then None else Some(documentType),
               TrimmedOrNull(logline), TrimmedOrNull(genre), NormalizePageCount(pageCountText))
  }

  /** The editor's starting fields for a file: (document type, logline,
      genre, page-count text). */
  function InitialFields(f: FileRecord): (string, string, string, string) {
    (f.documentType.GetOr(""), f.logline.GetOr(""), f.genre.GetOr(""), InitialPageCountText(f.pageCount))
  }

  /** Metadata already in saved form: non-empty document type, trimmed
      non-empty logline and genre, positive page count. */
  predicate NormalizedMetadata(f: FileRecord) {
    (f.documentType.Some? ==> f.documentType.value != "")
    && (f.logline.Some? ==> f.logline.value != "" && Trim(f.logline.value) == f.logline.value)
    && (f.genre.Some? ==> f.genre.value != "" && Trim(f.genre.value) == f.genre.value)
    && (f.pageCount.Some? ==> f.pageCount.value > 0)
  }

  /** Saving without editing writes back exactly the metadata a normalised
      file already had. */
  lemma {:induction false} SaveUneditedKeepsMetadata(f: FileRecord)
    requires NormalizedMetadata(f)
    ensures var (d, l, g, p) := InitialFields(f);
            var u := UpdateState(f.name, f.description, d, l, g, p);
            u.documentType == f.documentType && u.logline == f.logline
            && u.genre == f.genre && u.pageCount == f.pageCount
  {
    PageCountRoundTrip(f.pageCount);
    TrimEmptyIff("");
  }

  /** `formatFileSize(sizeInBytes)` before rendering: the size in the unit
      chosen, and the unit. */
  method FormatFileSize(sizeInBytes: real) returns (size: real, unit: string)
    ensures unit == "bytes" <==> sizeInBytes < 1024.0
    ensures unit == "KB" <==> 1024.0 <= sizeInBytes < 1048576.0
    ensures unit == "MB" <==> 1048576.0 <= sizeInBytes < 1073741824.0
    ensures unit == "GB" <==> 1073741824.0 <= sizeInBytes
    ensures unit == "bytes" ==> size == sizeInBytes
    ensures unit == "KB" ==> size == sizeInBytes / 1024.0
    ensures unit == "MB" ==> size == sizeInBytes / 1048576.0
    ensures unit == "GB" ==> size == sizeInBytes / 1073741824.0 && size >= 1.0
    ensures unit != "GB" ==> size < 1024.0
  {
    size := sizeInBytes;
    unit := "bytes";
    if size >= 1024.0 {
      size := size / 1024.0;
      unit := "KB";
    }
    if size >= 1024.0 {
      size := size / 1024.0;
      unit := "MB";
    }
    if size >= 1024.0 {
      size := size / 1024.0;
      unit := "GB";
    }
  }

  /** The attach state the file row updates. */
  class AttachState {
    var newMessageFiles: seq<ChatFile>
    var showFilesDisplay: bool
    var useRetrieval: bool
    const chatFiles: seq<ChatFile>

    constructor(newMessageFiles: seq<ChatFile>, chatFiles: seq<ChatFile>)
      ensures this.newMessageFiles == newMessageFiles && this.chatFiles == chatFiles
      ensures !showFilesDisplay && !useRetrieval
    {
      this.newMessageFiles := newMessageFiles;
      this.chatFiles := chatFiles;
      showFilesDisplay := false;
      useRetrieval := false;
    }

    /** `handleAttachToChat()`. */
    method AttachToChat(file: FileRecord)
      modifies this
      ensures showFilesDisplay && useRetrieval
      ensures IsAttachedToChat(old(newMessageFiles), chatFiles, file.id) ==> newMessageFiles == old(newMessageFiles)
      ensures !IsAttachedToChat(old(newMessageFiles), chatFiles, file.id) ==>
                newMessageFiles == old(newMessageFiles) + [ChatFile(file.id, file.name, file.fileType, None)]
      ensures IsAttachedToChat(newMessageFiles, chatFiles, file.id)
      ensures DistinctFileIds(old(newMessageFiles)) ==> DistinctFileIds(newMessageFiles)
    {
      showFilesDisplay := true;
      useRetrieval := true;
      var alreadyAttached := HasFileId(newMessageFiles, file.id) || HasFileId(chatFiles, file.id);
      if !alreadyAttached {
        newMessageFiles := newMessageFiles + [ChatFile(file.id, file.name, file.fileType, None)];
        assert newMessageFiles[|newMessageFiles| - 1].id == file.id;
      }
    }
  }
}
