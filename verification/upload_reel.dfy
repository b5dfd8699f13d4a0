/**
 * The "Create a new Reel" dialog (components/UploadReelModal.tsx): one chosen
 * file with its preview URL, a caption, the drop zone's highlight, and the
 * Post button that hands preview and caption to the parent. The object URL
 * the browser makes for a file is a parameter.
 */
module UploadReel {
  import opened Types
  import opened Ascii

  /** A call of `onPost(fileUrl, caption)`. */
  datatype Post = Post(fileUrl: string, caption: string)

  /** `file?.type.startsWith('video/')`: the preview plays as a video. */
  predicate IsVideo(file: Option<File>) {
    file.Some? && StartsWith(file.value.mimeType, "video/")
  }

  /** A video MIME type is previewed as a video, an image one as a picture. */
  lemma PreviewKinds(name: string)
    ensures IsVideo(Some(File(name, "video/mp4")))
    ensures !IsVideo(Some(File(name, "image/png")))
    ensures !IsVideo(None)
  {
    assert "video/mp4"[..6] == "video/";
    assert "image/png"[0] != "video/"[0];
  }

  /** `e.target.files ? e.target.files[0] : null`, and the drop's `files[0]`: the first file, if any. */
  function FirstFile(files: Option<seq<File>>): (r: Option<File>)
    ensures r.Some? <==> files.Some? && files.value != []
    ensures r.Some? ==> r.value == files.value[0]
  {
    if files.Some? && |files.value| > 0 then Some(files.value[0]) else None
  }

  class UploadReelModal {
    var file: Option<File>
    var preview: Option<string>
    var caption: string
    var isDragging: bool
    /** The calls made to `onPost`, in order. */
    var posts: seq<Post>

    /** File and preview are set together: there is a preview exactly when there is a file. */
    ghost predicate Valid()
      reads this
    {
      file.Some? <==> preview.Some?
    }

    constructor()
      ensures Valid()
      ensures file.None? && preview.None? && caption == "" && !isDragging && posts == []
    {
      file := None;
      preview := None;
      caption := "";
      isDragging := false;
      posts := [];
    }

    /** `handleFileChange`: no file changes nothing; a file replaces file and preview. */
    method HandleFileChange(selected: Option<File>, objectUrl: string)
      requires Valid()
      modifies this
      ensures Valid()
      ensures selected.None? ==> file == old(file) && preview == old(preview)
      ensures selected.Some? ==> file == selected && preview == Some(objectUrl)
      ensures caption == old(caption) && isDragging == old(isDragging) && posts == old(posts)
    {
      if selected.Some? {
        file := selected;
        preview := Some(objectUrl);
      }
    }

    /** The hidden file input's `onChange`. */
    method InputChange(files: Option<seq<File>>, objectUrl: string)
      requires Valid()
      modifies this
      ensures Valid()
      ensures FirstFile(files).None? ==> file == old(file) && preview == old(preview)
      ensures FirstFile(files).Some? ==> file == FirstFile(files) && preview == Some(objectUrl)
      ensures caption == old(caption) && isDragging == old(isDragging) && posts == old(posts)
    {
      HandleFileChange(FirstFile(files), objectUrl);
    }

    method DragEnter()
      modifies this
      ensures isDragging
      ensures file == old(file) && preview == old(preview) && caption == old(caption) && posts == old(posts)
    {
      isDragging := true;
    }

    method DragLeave()
      modifies this
      ensures !isDragging
      ensures file == old(file) && preview == old(preview) && caption == old(caption) && posts == old(posts)
    {
      isDragging := false;
    }

    /** `onDrop`: the highlight goes off and the first dropped file, if any, is taken. */
    method Drop(files: Option<seq<File>>, objectUrl: string)
      requires Valid()
      modifies this
      ensures Valid()
      ensures !isDragging
      ensures FirstFile(files).None? ==> file == old(file) && preview == old(preview)
      ensures FirstFile(files).Some? ==> file == FirstFile(files) && preview == Some(objectUrl)
      ensures caption == old(caption) && posts == old(posts)
    {
      isDragging := false;
      HandleFileChange(FirstFile(files), objectUrl);
    }

    method TypeCaption(text: string)
      modifies this
      ensures caption == text
      ensures file == old(file) && preview == old(preview) && isDragging == old(isDragging) && posts == old(posts)
    {
      caption := text;
    }

    /** The Post button is disabled while no file is chosen. */
    predicate PostDisabled()
      reads this
    {
      file.None?
    }

    /** `handleSubmit`: with a (non-empty) preview URL, exactly one `onPost` call; otherwise none. */
    method HandleSubmit()
      modifies this
      ensures preview.Some? && preview.value != "" ==> posts == old(posts) + [Post(preview.value, caption)]
      ensures !(preview.Some? && preview.value != "") ==> posts == old(posts)
      ensures file == old(file) && preview == old(preview) && caption == old(caption) && isDragging == old(isDragging)
    {
      if preview.Some? && preview.value != "" {
        posts := posts + [Post(preview.value, caption)];
      }
    }
  }

  /** An enabled Post button means a preview is there to post. */
  lemma EnabledPostHasPreview(m: UploadReelModal)
    requires m.Valid() && !m.PostDisabled()
    ensures m.preview.Some?
  {
  }
}
