/** components/DatasetDetails.tsx: the detail page's like counter and file upload. */
module DatasetDetails {
  import opened Domain
  import opened Effects

  const UploadFailed := "Failed to upload file"

  /** `!dataset.file_url`: the upload section shows while there is no file URL (an empty URL
      counts as none). */
  function ShowUploadSection(d: Dataset): (b: bool)
    ensures d.file_url.None? ==> b
    ensures d.file_url.Some? ==> (b <==> d.file_url.value == "")
  {
    d.file_url.None? || d.file_url.value == ""
  }

  class DatasetDetailsView {
    const dataset: Dataset
    var likes: int
    var isLiking: bool
    var isUploading: bool
    var uploadError: Option<string>
    var calls: seq<Call>
    /** Page reloads requested. */
    var events: seq<Event>

    constructor (d: Dataset)
      ensures dataset == d && likes == d.likes && !isLiking && !isUploading && uploadError == None
      ensures calls == [] && events == []
    {
      dataset := d;
      likes := d.likes;
      isLiking := false;
      isUploading := false;
      uploadError := None;
      calls := [];
      events := [];
    }

    /** `handleLike`: a successful like adds exactly one to the local count; a failure is only
        logged. Either way the button is enabled again. */
    method HandleLike(reply: Reply<()>)
      modifies this`likes, this`isLiking, this`calls
      ensures calls == old(calls) + [LikeDataset(dataset.id)]
      ensures likes == if reply.Ok? then old(likes) + 1 else old(likes)
      ensures !isLiking
    {
      isLiking := true;
      calls := calls + [LikeDataset(dataset.id)];
      if reply.Ok? {
        likes := likes + 1;
      }
      isLiking := false;
    }

    /** `handleFileUpload`: no selected file changes nothing; otherwise the file is uploaded,
        success reloads the page and failure shows the error. Uploading ends false either way. */
    method HandleFileUpload(file: Option<FileInfo>, reply: Reply<string>)
      modifies this`isUploading, this`uploadError, this`calls, this`events
      ensures file.None? ==>
                isUploading == old(isUploading) && uploadError == old(uploadError)
                && calls == old(calls) && events == old(events)
      ensures file.Some? ==> !isUploading && calls == old(calls) + [UploadDatasetFile(dataset.id, file.value)]
      ensures file.Some? && reply.Ok? ==> uploadError == None && events == old(events) + [PageReloaded]
      ensures file.Some? && reply.Threw? ==>
                uploadError == Some(MessageOr(reply.thrown, UploadFailed)) && events == old(events)
    {
      if file.None? {
        return;
      }
      uploadError := None;
      isUploading := true;
      calls := calls + [UploadDatasetFile(dataset.id, file.value)];
      if reply.Ok? {
        events := events + [PageReloaded];
      } else {
        uploadError := Some(MessageOr(reply.thrown, UploadFailed));
      }
      isUploading := false;
    }
  }
}
