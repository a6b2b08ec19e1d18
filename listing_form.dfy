/** The form's state and the three operations the form exposes: photo intake,
    photo removal and submission. Each hook state variable is a field; the
    sequential updates the hook schedules are direct assignments. The calls into
    the storage and record services are parameters of the operations.
 */
module ListingFormHook {
  import opened Listing

  class ListingForm {
    const profile: Option<Profile>
    var title: string
    var description: string
    var price: string
    var category: string
    var location: string
    /** Public URLs of the uploaded photos. */
    var photos: seq<string>
    /** Local preview tokens, one per file whose upload was attempted. */
    var photoPreviews: seq<string>
    var listingType: string
    var tradePreferences: string
    var isSubmitting: bool
    var uploadingPhotos: bool

    /** The form never holds more than MAX_PHOTOS accepted photos. */
    predicate Valid()
      reads this
    {
      |photos| <= MAX_PHOTOS
    }

    /** The fields submission reads. */
    function Snapshot(): Draft
      reads this
    {
      Draft(title, description, price, category, location, photos, listingType, tradePreferences)
    }

    /** A fresh form: every text field empty, no photos, a sale, not busy. */
    constructor (profile: Option<Profile>)
      ensures Valid()
      ensures this.profile == profile
      ensures Snapshot() == Draft("", "", "", "", "", [], "sale", "")
      ensures photoPreviews == [] && !isSubmitting && !uploadingPhotos
    {
      this.profile := profile;
      title, description, price, category, location := "", "", "", "", "";
      photos, photoPreviews := [], [];
      listingType, tradePreferences := "sale", "";
      isSubmitting, uploadingPhotos := false, false;
    }

    /** Takes a batch of selected files. Only the first
        `MAX_PHOTOS - |photos|` files are processed, in order. Each processed
        file adds a preview; its public URL is added only when its upload
        succeeds, and a failed upload raises a notice and moves on to the next
        file. Without an identity the whole batch is dropped. `sent` holds the
        keys of the upload requests made. */
    method HandlePhotoChange(files: seq<SelectedFile>, publicUrl: string -> string)
      returns (notices: seq<Notice>, sent: seq<string>, ghost busyAtUpload: bool)
      modifies this`photos, this`photoPreviews, this`uploadingPhotos
      ensures old(Valid()) ==> Valid()
      // Uploads are requested only while the form is marked as uploading.
      ensures sent != [] ==> busyAtUpload
      // An empty selection does nothing.
      ensures files == [] ==>
        notices == [] && sent == []
        && photos == old(photos) && photoPreviews == old(photoPreviews)
        && uploadingPhotos == old(uploadingPhotos)
      ensures var batch := AcceptedFiles(files, |old(photos)|);
        // No room left: a warning, and nothing else happens.
        && (files != [] && batch == [] ==>
              notices == [PhotoLimitReached] && sent == []
              && photos == old(photos) && photoPreviews == old(photoPreviews)
              && uploadingPhotos == old(uploadingPhotos))
        // No identity: the batch aborts before any upload; nothing is committed.
        && (batch != [] && !HasIdentity(profile) ==>
              notices == [UploaderUnknown] && sent == []
              && photos == old(photos) && photoPreviews == old(photoPreviews)
              && !uploadingPhotos)
        // A completed batch.
        && (batch != [] && HasIdentity(profile) ==>
              photos == old(photos) + SuccessUrls(batch, publicUrl)
              && photoPreviews == old(photoPreviews) + PreviewsOf(batch)
              && notices == UploadNotices(batch)
              && sent == UploadKeys(profile.value.id, batch)
              && !uploadingPhotos)
    {
      notices, sent, busyAtUpload := [], [], false;
      if |files| > 0 {
        var newFiles := files[..SliceEnd(|files|, MAX_PHOTOS - |photos|)];
        if |newFiles| == 0 {
          notices := [PhotoLimitReached];
          return;
        }
        ghost var current := |photos|;
        uploadingPhotos := true;
        var completed, newPhotoUrls, newPreviews;
        busyAtUpload := uploadingPhotos;
        completed, newPhotoUrls, newPreviews, notices, sent := UploadBatch(newFiles, photoPreviews, publicUrl);
        if !completed {
          uploadingPhotos := false;
          return;
        }
        if current <= MAX_PHOTOS {
          IntakeKeepsBound(current, files, publicUrl);
        }
        photos := photos + newPhotoUrls;
        photoPreviews := newPreviews;
        uploadingPhotos := false;
      }
    }

    /** The upload loop of the intake, over the files already cut to the free
        slots. It returns what the loop accumulates locally: the new public
        URLs, the previews (starting from `priorPreviews`), the notices raised
        and the keys of the upload requests. `completed` is false when the
        loop aborted for want of an identity, in which case nothing it
        accumulated is to be committed. The loop runs only while the form is
        marked as uploading. */
    method UploadBatch(batch: seq<SelectedFile>, priorPreviews: seq<string>, publicUrl: string -> string)
      returns (completed: bool, urls: seq<string>, previews: seq<string>, notices: seq<Notice>, sent: seq<string>)
      requires uploadingPhotos
      ensures completed <==> batch == [] || HasIdentity(profile)
      ensures !completed ==> notices == [UploaderUnknown] && sent == []
      ensures completed ==>
        && urls == SuccessUrls(batch, publicUrl)
        && previews == priorPreviews + PreviewsOf(batch)
        && notices == UploadNotices(batch)
        && sent == UploadKeys(OwnerId(profile), batch)
    {
      urls, previews, notices, sent := [], priorPreviews, [], [];
      for i := 0 to |batch|
        invariant i > 0 ==> HasIdentity(profile)
        invariant urls == SuccessUrls(batch[..i], publicUrl)
        invariant previews == priorPreviews + PreviewsOf(batch[..i])
        invariant notices == UploadNotices(batch[..i])
        invariant sent == UploadKeys(OwnerId(profile), batch[..i])
      {
        if !HasIdentity(profile) {
          assert batch[..i] == [];
          notices := notices + [UploaderUnknown];
          completed := false;
          return;
        }
        var file := batch[i];
        IntakeStep(batch, i, OwnerId(profile), publicUrl);
        previews := previews + [file.preview];
        sent := sent + [StorageKey(profile.value.id, file)];
        match file.upload {
          case Rejected(message) =>
            notices := notices + [UploadError(file.name, message)];
            continue;
          case Stored(path) =>
            urls := urls + [publicUrl(path)];
        }
      }
      assert batch[..|batch|] == batch;
      completed := true;
    }

    /** Drops position `index` from both the photos and the previews, keeping
        every other element in its relative order; an index outside a sequence
        leaves that sequence as it is. */
    method RemovePhoto(index: int)
      modifies this`photos, this`photoPreviews
      ensures old(Valid()) ==> Valid()
      ensures photos == if 0 <= index < |old(photos)|
        then old(photos)[..index] + old(photos)[index + 1..] else old(photos)
      ensures photoPreviews == if 0 <= index < |old(photoPreviews)|
        then old(photoPreviews)[..index] + old(photoPreviews)[index + 1..] else old(photoPreviews)
    {
      WithoutIndexRemoves(photos, index);
      WithoutIndexRemoves(photoPreviews, index);
      photos := WithoutIndex(photos, index);
      photoPreviews := WithoutIndex(photoPreviews, index);
    }

    /** Submits the draft. The guard chain runs first; its first failing check
        is reported and nothing else happens (no insert, the busy flag is not
        touched). Otherwise the busy flag is raised, the record built from the
        draft is handed to the store, whose answer is `insert`, and the flag is
        lowered again whatever that answer. `record` is the row handed to the
        store, `route` where the form navigates. The draft is never changed. */
    method HandleSubmit(parse: string -> JsNumber, insert: InsertOutcome)
      returns (notice: Notice, record: Option<ListingRecord>, route: Option<string>, ghost busyAtInsert: bool)
      modifies this`isSubmitting
      ensures record.Some? ==> busyAtInsert
      ensures var blocked := SubmitGuard(profile, old(Snapshot()), parse);
        && (blocked.Some? ==>
              notice == blocked.value && record == None && route == None
              && isSubmitting == old(isSubmitting))
        && (blocked.None? ==>
              record == Some(BuildListing(profile.value.id, old(Snapshot()), parse))
              && !isSubmitting
              && (insert == InsertOk ==> notice == ListingCreated && route == Some(LISTINGS_ROUTE))
              && (insert.InsertError? ==>
                    notice == CreationError(CreationErrorText(insert.message)) && route == None))
    {
      record, route, busyAtInsert := None, None, false;
      if !HasIdentity(profile) {
        notice := LoginRequired;
        return;
      }
      if |photos| == 0 {
        notice := PhotosMissing;
        return;
      }
      if listingType == "sale" && (price == "" || AtMostZero(parse(price))) {
        notice := InvalidPrice;
        return;
      }
      if category == "" {
        notice := CategoryMissing;
        return;
      }
      isSubmitting := true;
      var listingData := BuildListing(profile.value.id, Snapshot(), parse);
      // The record reaches the store only while the form is marked busy.
      record, busyAtInsert := Some(listingData), isSubmitting;
      match insert {
        case InsertOk =>
          notice := ListingCreated;
          route := Some(LISTINGS_ROUTE);
        case InsertError(message) =>
          notice := CreationError(CreationErrorText(message));
      }
      isSubmitting := false;
    }
  }
}
