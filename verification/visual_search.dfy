/**
 * Search by image (components/SearchWithAttachmentsPage.tsx): the list of
 * attached files, the drop zone's highlight, and the search request whose
 * returned ids are looked up in the catalogue.
 */
module VisualSearch {
  import opened Types
  import opened Catalog

  const UploadFirstMessage: string := "Please upload at least one image to search."
  const SearchFailedMessage: string := "An error occurred during the search. Please try again."

  /** `prev.filter((_, i) => i !== index)`: the list without its `index`-th element, if there is one. */
  function RemoveAt<T>(s: seq<T>, index: int): (r: seq<T>)
    ensures !(0 <= index < |s|) ==> r == s
    ensures 0 <= index < |s| ==> |r| == |s| - 1
    ensures 0 <= index < |s| ==> forall j :: 0 <= j < index ==> r[j] == s[j]
    ensures 0 <= index < |s| ==> forall j :: index <= j < |r| ==> r[j] == s[j + 1]
  {
    if 0 <= index < |s| then s[..index] + s[index + 1..] else s
  }

  /** Removing a file loses exactly that file: the others stay, as a multiset. */
  lemma RemoveAtMultiset<T>(s: seq<T>, index: int)
    requires 0 <= index < |s|
    ensures multiset(RemoveAt(s, index)) + multiset{s[index]} == multiset(s)
  {
    assert s == s[..index] + [s[index]] + s[index + 1..];
  }

  /** Removing the file just attached last undoes the attachment. */
  lemma RemoveLastUndoesAttach<T>(s: seq<T>, f: T)
    ensures RemoveAt(s + [f], |s|) == s
  {
    assert (s + [f])[..|s|] == s;
  }

  class VisualSearchPage {
    var prompt: string
    var attachments: seq<File>
    var isDragging: bool
    var isLoading: bool
    var error: Option<string>
    var results: seq<Product>
    var searchPerformed: bool

    constructor()
      ensures prompt == "" && attachments == [] && !isDragging && !isLoading
      ensures error.None? && results == [] && !searchPerformed
    {
      prompt := "";
      attachments := [];
      isDragging := false;
      isLoading := false;
      error := None;
      results := [];
      searchPerformed := false;
    }

    method TypePrompt(text: string)
      modifies this
      ensures prompt == text
      ensures attachments == old(attachments) && isDragging == old(isDragging) && isLoading == old(isLoading)
      ensures error == old(error) && results == old(results) && searchPerformed == old(searchPerformed)
    {
      prompt := text;
    }

    /** `handleFileChange`: chosen files go after the ones already attached; no list, no change. */
    method FileChange(files: Option<seq<File>>)
      modifies this
      ensures attachments == if files.Some? then old(attachments) + files.value else old(attachments)
      ensures prompt == old(prompt) && isDragging == old(isDragging) && isLoading == old(isLoading)
      ensures error == old(error) && results == old(results) && searchPerformed == old(searchPerformed)
    {
      if files.Some? {
        attachments := attachments + files.value;
      }
    }

    /** `removeAttachment`: the filter over indices, one file at a time. */
    method RemoveAttachment(index: int)
      modifies this
      ensures attachments == RemoveAt(old(attachments), index)
      ensures prompt == old(prompt) && isDragging == old(isDragging) && isLoading == old(isLoading)
      ensures error == old(error) && results == old(results) && searchPerformed == old(searchPerformed)
    {
      var files := attachments;
      var kept: seq<File> := [];
      var i := 0;
      while i < |files|
        invariant 0 <= i <= |files|
        invariant kept == if 0 <= index < i then files[..index] + files[index + 1..i] else files[..i]
      {
        if i == index {
          assert files[..index] + files[index + 1..i + 1] == files[..i];
        } else if 0 <= index < i {
          assert files[index + 1..i + 1] == files[index + 1..i] + [files[i]];
          kept := kept + [files[i]];
        } else {
          assert files[..i + 1] == files[..i] + [files[i]];
          kept := kept + [files[i]];
        }
        i := i + 1;
      }
      assert files[..|files|] == files;
      attachments := kept;
    }

    method DragEnter()
      modifies this
      ensures isDragging
      ensures prompt == old(prompt) && attachments == old(attachments) && isLoading == old(isLoading)
      ensures error == old(error) && results == old(results) && searchPerformed == old(searchPerformed)
    {
      isDragging := true;
    }

    method DragLeave()
      modifies this
      ensures !isDragging
      ensures prompt == old(prompt) && attachments == old(attachments) && isLoading == old(isLoading)
      ensures error == old(error) && results == old(results) && searchPerformed == old(searchPerformed)
    {
      isDragging := false;
    }

    /** `onDrop`: the highlight goes off and the dropped files are attached. */
    method Drop(files: Option<seq<File>>)
      modifies this
      ensures !isDragging
      ensures attachments == if files.Some? then old(attachments) + files.value else old(attachments)
      ensures prompt == old(prompt) && isLoading == old(isLoading)
      ensures error == old(error) && results == old(results) && searchPerformed == old(searchPerformed)
    {
      isDragging := false;
      FileChange(files);
    }

    /**
     * The synchronous part of `handleSearch`: with nothing attached only the
     * error is set; otherwise loading starts, the search counts as performed,
     * and error and results are cleared.
     */
    method Begin() returns (started: bool)
      modifies this
      ensures started <==> old(attachments) != []
      ensures !started ==>
        error == Some(UploadFirstMessage) && isLoading == old(isLoading) &&
        searchPerformed == old(searchPerformed) && results == old(results)
      ensures started ==> isLoading && searchPerformed && error.None? && results == []
      ensures prompt == old(prompt) && attachments == old(attachments) && isDragging == old(isDragging)
    {
      if |attachments| == 0 {
        error := Some(UploadFirstMessage);
        return false;
      }
      isLoading := true;
      error := None;
      searchPerformed := true;
      results := [];
      return true;
    }

    /** The awaited call returns ids or throws; `finally` ends loading. */
    method Complete(products: seq<Product>, reply: Reply<seq<Id>>)
      modifies this
      ensures !isLoading
      ensures reply.Returned? ==> results == ResolveIds(products, reply.value) && error == old(error)
      ensures reply.Threw? ==> error == Some(SearchFailedMessage) && results == old(results)
      ensures prompt == old(prompt) && attachments == old(attachments) && isDragging == old(isDragging)
      ensures searchPerformed == old(searchPerformed)
    {
      match reply {
        case Returned(ids) =>
          results := ResolveIds(products, ids);
        case Threw =>
          error := Some(SearchFailedMessage);
      }
      isLoading := false;
    }

    /** `handleSearch` from start to finish, the service answering `reply`. */
    method HandleSearch(products: seq<Product>, reply: Reply<seq<Id>>)
      modifies this
      ensures old(attachments) == [] ==>
        error == Some(UploadFirstMessage) && isLoading == old(isLoading) &&
        searchPerformed == old(searchPerformed) && results == old(results)
      ensures old(attachments) != [] ==> !isLoading && searchPerformed
      ensures old(attachments) != [] && reply.Returned? ==>
        results == ResolveIds(products, reply.value) && error.None?
      ensures old(attachments) != [] && reply.Threw? ==>
        results == [] && error == Some(SearchFailedMessage)
      ensures prompt == old(prompt) && attachments == old(attachments) && isDragging == old(isDragging)
    {
      var started := Begin();
      if started {
        Complete(products, reply);
      }
    }

    /** The Search button is disabled while loading or with nothing attached. */
    predicate SearchDisabled()
      reads this
    {
      isLoading || attachments == []
    }

    /** The results heading ("Found n matching items" or "No matching items found") is on screen. */
    predicate ResultsShown()
      reads this
    {
      !isLoading && searchPerformed
    }
  }
}
