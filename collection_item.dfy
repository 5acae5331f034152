/** A collection in the sidebar: toggling files in its editor, the file list
    the editor shows, the chats that belong to it, and loading its files when
    it is expanded. */
module CollectionItem {
  import opened Wrappers
  import opened Seqs
  import opened ChatTypes

  /** Some entry of `files` has this id. */
  predicate HasId(files: seq<CollectionFile>, id: string) {
    exists i :: 0 <= i < |files| && files[i].id == id
  }

  /** `handleFileSelect(file)` applied to the selection: drop every entry
      with the file's id when there is one, otherwise append the file. */
  function ToggleFile(selected: seq<CollectionFile>, file: CollectionFile): seq<CollectionFile> {
    if HasId(selected, file.id) then Filter(selected, (f: CollectionFile) => f.id != file.id)
    else selected + [file]
  }

  /** A toggle flips whether the file's id is selected. */
  lemma {:induction false} ToggleFlipsMembership(selected: seq<CollectionFile>, file: CollectionFile)
    ensures HasId(ToggleFile(selected, file), file.id) <==> !HasId(selected, file.id)
  {
    var r := ToggleFile(selected, file);
    if !HasId(selected, file.id) {
      assert r[|selected|].id == file.id;
    }
  }

  /** Entries with any other id are untouched, in order. */
  lemma {:induction false} ToggleKeepsOthers(selected: seq<CollectionFile>, file: CollectionFile, id: string)
    requires id != file.id
    ensures Filter(ToggleFile(selected, file), (f: CollectionFile) => f.id == id) == Filter(selected, (f: CollectionFile) => f.id == id)
  {
    var same := (f: CollectionFile) => f.id == id;
    if HasId(selected, file.id) {
      FilterOfFilter(selected, (f: CollectionFile) => f.id != file.id, same);
    } else {
      FilterAppend(selected, [file], same);
      assert Filter([file], same) == [];
    }
  }

  /** Selecting a file that was not selected and then deselecting it gives
      back the original selection. */
  lemma {:induction false} ToggleTwiceRestores(selected: seq<CollectionFile>, file: CollectionFile)
    requires !HasId(selected, file.id)
    ensures ToggleFile(ToggleFile(selected, file), file) == selected
  {
    var once := selected + [file];
    assert once[|selected|].id == file.id;
    var keep := (f: CollectionFile) => f.id != file.id;
    FilterAppend(selected, [file], keep);
    FilterKeepsAll(selected, keep);
  }

  /** The selection the editor shows: the starting files while nothing is
      selected; otherwise the starting files not selected, then the selected
      files not among the starting ones. */
  function DisplayedSelection(starting: seq<CollectionFile>, selected: seq<CollectionFile>): seq<CollectionFile> {
    if |selected| == 0 then starting
    else Filter(starting, (f: CollectionFile) => !HasId(selected, f.id)) + Filter(selected, (f: CollectionFile) => !HasId(starting, f.id))
  }

  /** Once something is selected, an id is shown exactly when it is in one
      of the two lists but not both. */
  lemma {:induction false} DisplayedIsSymmetricDifference(starting: seq<CollectionFile>, selected: seq<CollectionFile>, id: string)
    requires selected != []
    ensures HasId(DisplayedSelection(starting, selected), id) <==> (HasId(starting, id) != HasId(selected, id))
  {
    var a := Filter(starting, (f: CollectionFile) => !HasId(selected, f.id));
    var b := Filter(selected, (f: CollectionFile) => !HasId(starting, f.id));
    HasIdAppend(a, b, id);
    HasIdNotIn(starting, selected, id);
    HasIdNotIn(selected, starting, id);
  }

  /** An id is in a concatenation when it is in either part. */
  lemma {:induction false} HasIdAppend(a: seq<CollectionFile>, b: seq<CollectionFile>, id: string)
    ensures HasId(a + b, id) <==> HasId(a, id) || HasId(b, id)
  {
    var d := a + b;
    if HasId(d, id) {
      var i :| 0 <= i < |d| && d[i].id == id;
      if i < |a| {
        assert a[i].id == id;
      } else {
        assert b[i - |a|].id == id;
      }
    }
    if HasId(a, id) {
      var k :| 0 <= k < |a| && a[k].id == id;
      assert d[k] == a[k];
    }
    if HasId(b, id) {
      var k :| 0 <= k < |b| && b[k].id == id;
      assert d[|a| + k] == b[k];
    }
  }

  /** Keeping the files whose id is not in `others` keeps an id exactly
      when it is not in `others`. */
  lemma {:induction false} HasIdNotIn(files: seq<CollectionFile>, others: seq<CollectionFile>, id: string)
    ensures HasId(Filter(files, (f: CollectionFile) => !HasId(others, f.id)), id)
            <==> HasId(files, id) && !HasId(others, id)
  {
    var keep := (f: CollectionFile) => !HasId(others, f.id);
    var a := Filter(files, keep);
    if HasId(a, id) {
      var i :| 0 <= i < |a| && a[i].id == id;
      assert keep(a[i]) && a[i] in files;
      var j :| 0 <= j < |files| && files[j] == a[i];
    }
    if HasId(files, id) && !HasId(others, id) {
      var j :| 0 <= j < |files| && files[j].id == id;
      assert keep(files[j]);
      assert files[j] in a;
      var k :| 0 <= k < |a| && a[k] == files[j];
    }
  }

  /** With nothing selected, the starting files are shown as they are. */
  lemma {:induction false} DisplayedWhenNothingSelected(starting: seq<CollectionFile>)
    ensures DisplayedSelection(starting, []) == starting
  {
  }

  /** `chats.filter(chat => chat.collection_id === collection.id)`. */
  function CollectionChats(chats: seq<Chat>, collectionId: string): seq<Chat> {
    Filter(chats, (c: Chat) => c.collectionId == Some(collectionId))
  }

  /** The chats listed under a collection are exactly its chats, and chats
      added later are listed after earlier ones. */
  lemma {:induction false} CollectionChatsSpec(chats: seq<Chat>, more: seq<Chat>, collectionId: string)
    ensures forall c :: c in CollectionChats(chats, collectionId) <==> c in chats && c.collectionId == Some(collectionId)
    ensures CollectionChats(chats + more, collectionId) == CollectionChats(chats, collectionId) + CollectionChats(more, collectionId)
  {
    FilterAppend(chats, more, (c: Chat) => c.collectionId == Some(collectionId));
  }

  /** What `getCollectionFilesByCollectionId` gave: the `files` field of its
      result (`None` when missing or null), or a thrown error. */
  datatype LoadOutcome = Loaded(files: Option<seq<CollectionFile>>) | LoadFailed(message: string)

  /** The files to show for a load outcome: `files || []`, and [] on error. */
  function LoadedFiles(outcome: LoadOutcome): (r: seq<CollectionFile>)
    ensures outcome.Loaded? && outcome.files.Some? ==> r == outcome.files.value
    ensures !(outcome.Loaded? && outcome.files.Some?) ==> r == []
  {
    match outcome
    case Loaded(files) => (match files case Some(fs) => fs case None => [])
    case LoadFailed(_) => []
  }

  class CollectionItemState {
    var isExpanded: bool
    var isLoadingFiles: bool
    var collectionFiles: seq<CollectionFile>

    constructor()
      ensures !isExpanded && !isLoadingFiles && collectionFiles == []
    {
      isExpanded := false;
      isLoadingFiles := false;
      collectionFiles := [];
    }

    /** The click on the row header. */
    method ToggleExpanded()
      modifies this
      ensures isExpanded == !old(isExpanded)
      ensures isLoadingFiles == old(isLoadingFiles) && collectionFiles == old(collectionFiles)
    {
      isExpanded := !isExpanded;
    }

    /** The effect that loads the files. `stillMounted` says whether the
        component is still mounted when the lookup returns; if it is not,
        the results are dropped and the loading flag is left as it was set. */
    method LoadFiles(outcome: LoadOutcome, stillMounted: bool)
      modifies this
      ensures isExpanded == old(isExpanded)
      ensures !old(isExpanded) ==> unchanged(this)
      ensures old(isExpanded) && stillMounted ==> !isLoadingFiles && collectionFiles == LoadedFiles(outcome)
      ensures old(isExpanded) && !stillMounted ==> isLoadingFiles && collectionFiles == old(collectionFiles)
    {
      if !isExpanded {
        return;
      }
      isLoadingFiles := true;
      if stillMounted {
        collectionFiles := LoadedFiles(outcome);
        isLoadingFiles := false;
      }
    }
  }
}
