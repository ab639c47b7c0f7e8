/** The upload dialog of `components/UploadModal.tsx`: `onSubmit` uploads
    the audio file, then the artwork, then inserts the track row, stopping
    at the first failure. Storage and database results are parameters, and
    so is the unique id that `uniqid()` would draw. */
module Upload {

  import opened Wrappers
  import opened Types
  import opened Modals

  /** A selected file; only its identity matters here. */
  datatype File = File(name: string)

  /** The form's fields; a file input holds a file list or nothing. */
  datatype FormValues = FormValues(author: string, title: string,
                                   song: Option<seq<File>>, image: Option<seq<File>>)

  /** The form's `defaultValues`, which `reset()` restores. */
  const DefaultValues := FormValues("", "", None, None)

  /** What a storage upload came back with: the stored path, an `error`, or
      a thrown exception. */
  datatype UploadOutcome = Stored(path: string) | StoreError(message: string) | StoreThrew(message: string)

  /** The row inserted into `songs`. */
  datatype SongRow = SongRow(userId: string, title: string, author: string,
                             imagePath: string, songPath: string)

  /** A backend request the submission issues. */
  datatype Request = Upload(bucket: string, name: string, file: File) | Insert(row: SongRow)

  /** `values.x?.[0]`: the first selected file, if any. */
  function FirstFile(files: Option<seq<File>>): (f: Option<File>)
    ensures f.Some? <==> files.Some? && |files.value| > 0
    ensures f.Some? ==> f.value == files.value[0]
  {
    if files.Some? && |files.value| > 0 then Some(files.value[0]) else None
  }

  /** The object name `<kind>-<title>-<uid>`. */
  function StorageName(kind: string, title: string, uid: string): (r: string)
    ensures |r| == |kind| + |title| + |uid| + 2
    ensures r[..|kind|] == kind && r[|kind|] == '-'
    ensures r[|kind| + 1..|kind| + 1 + |title|] == title
    ensures r[|r| - |uid| - 1] == '-' && r[|r| - |uid|..] == uid
  {
    kind + "-" + title + "-" + uid
  }

  /** The audio and the artwork of one submission never share a name, and
      both end with the same unique id. */
  lemma StorageNamesDiffer(title: string, uid: string)
    ensures StorageName("song", title, uid) != StorageName("image", title, uid)
    ensures StorageName("song", title, uid)[|StorageName("song", title, uid)| - |uid|..] == uid
    ensures StorageName("image", title, uid)[|StorageName("image", title, uid)| - |uid|..] == uid
  {
    assert StorageName("song", title, uid)[0] == 's';
    assert StorageName("image", title, uid)[0] == 'i';
  }

  /** The early exit: a missing artwork, audio file or user. */
  predicate Missing(values: FormValues, user: Option<User>)
  {
    FirstFile(values.image).None? || FirstFile(values.song).None? || user.None?
  }

  /** How many requests a submission issues: none when fields are missing,
      and one more for each upload that stored its file. */
  function RequestCount(values: FormValues, user: Option<User>,
                        songUpload: UploadOutcome, imageUpload: UploadOutcome): nat
  {
    if Missing(values, user) then 0
    else if !songUpload.Stored? then 1
    else if !imageUpload.Stored? then 2
    else 3
  }

  /** Whether every step succeeded. */
  predicate Created(values: FormValues, user: Option<User>,
                    songUpload: UploadOutcome, imageUpload: UploadOutcome, insert: Outcome)
  {
    RequestCount(values, user, songUpload, imageUpload) == 3 && insert == Ok
  }

  /** The last request issued threw, so the `catch` clause ran. */
  predicate StoppedByException(issued: nat, songUpload: UploadOutcome, imageUpload: UploadOutcome, insert: Outcome)
  {
    || (issued == 1 && songUpload.StoreThrew?)
    || (issued == 2 && imageUpload.StoreThrew?)
    || (issued == 3 && insert.Threw?)
  }

  class UploadForm {
    const modal: UploadModal
    var isLoading: bool
    var form: FormValues

    constructor (modal: UploadModal)
      ensures this.modal == modal && !isLoading && form == DefaultValues
    {
      this.modal := modal;
      isLoading := false;
      form := DefaultValues;
    }

    /** The dialog's `onChange`: closing resets the form and closes the
        store; opening does nothing. */
    method OnChange(open: bool)
      modifies this`form, modal
      ensures !open ==> form == DefaultValues && !modal.isOpen
      ensures open ==> form == old(form) && modal.isOpen == old(modal.isOpen)
    {
      if !open {
        form := DefaultValues;
        modal.OnClose();
      }
    }

    /** `onSubmit(values)`. Every path ends with `isLoading` false and one
        notice; only a fully successful submission refreshes, resets the
        form and closes the dialog. */
    method OnSubmit(values: FormValues, user: Option<User>, uid: string,
                    songUpload: UploadOutcome, imageUpload: UploadOutcome, insert: Outcome)
      returns (requests: seq<Request>, notice: Notice, refreshed: bool)
      modifies this`isLoading, this`form, modal
      ensures !isLoading
      ensures |requests| == RequestCount(values, user, songUpload, imageUpload)
      ensures Missing(values, user) ==> notice == ErrorToast("Missing fields")
      ensures !Missing(values, user) ==>
        requests[0] == Upload("songs", StorageName("song", values.title, uid), FirstFile(values.song).value)
      ensures !Missing(values, user) && |requests| >= 2 ==>
        requests[1] == Upload("images", StorageName("image", values.title, uid), FirstFile(values.image).value)
      ensures !Missing(values, user) && |requests| == 3 ==>
        requests[2] == Insert(SongRow(user.value.id, values.title, values.author,
                                      imageUpload.path, songUpload.path))
      ensures |requests| == 1 && songUpload.StoreError? ==> notice == ErrorToast("Failed song upload")
      ensures |requests| == 2 && imageUpload.StoreError? ==> notice == ErrorToast("Failed image upload")
      ensures |requests| == 3 && insert.Error? ==> notice == ErrorToast(insert.message)
      ensures StoppedByException(|requests|, songUpload, imageUpload, insert) ==>
        notice == ErrorToast("Something went wrong")
      ensures refreshed <==> Created(values, user, songUpload, imageUpload, insert)
      ensures Created(values, user, songUpload, imageUpload, insert) ==>
        notice == SuccessToast("Song created!") && form == DefaultValues && !modal.isOpen
      ensures !Created(values, user, songUpload, imageUpload, insert) ==>
        form == old(form) && modal.isOpen == old(modal.isOpen)
    {
      requests, refreshed := [], false;
      isLoading := true;

      var imageFile := FirstFile(values.image);
      var songFile := FirstFile(values.song);
      if imageFile.None? || songFile.None? || user.None? {
        notice := ErrorToast("Missing fields");
        isLoading := false;
        return;
      }

      requests := [Upload("songs", StorageName("song", values.title, uid), songFile.value)];
      match songUpload {
        case StoreThrew(_) =>
          notice := ErrorToast("Something went wrong");
          isLoading := false;
          return;
        case StoreError(_) =>
          isLoading := false;
          notice := ErrorToast("Failed song upload");
          return;
        case Stored(_) =>
      }

      requests := requests + [Upload("images", StorageName("image", values.title, uid), imageFile.value)];
      match imageUpload {
        case StoreThrew(_) =>
          notice := ErrorToast("Something went wrong");
          isLoading := false;
          return;
        case StoreError(_) =>
          isLoading := false;
          notice := ErrorToast("Failed image upload");
          return;
        case Stored(_) =>
      }

      requests := requests + [Insert(SongRow(user.value.id, values.title, values.author,
                                             imageUpload.path, songUpload.path))];
      match insert {
        case Threw(_) =>
          notice := ErrorToast("Something went wrong");
          isLoading := false;
          return;
        case Error(message) =>
          notice := ErrorToast(message);
          isLoading := false;
          return;
        case Ok =>
      }

      refreshed := true;
      isLoading := false;
      notice := SuccessToast("Song created!");
      form := DefaultValues;
      modal.OnClose();
    }
  }
}
