/** The profile settings editor: a settings record loaded from the backend, edited
    field by field under length caps, and saved with the profile picture uploaded
    afterwards only when it changed. */
module ProfileSettingsEditor {
  import opened Http
  import opened Text
  import opened Lists

  /** The profile record the backend sends and accepts. */
  datatype ProfileSettings = ProfileSettings(
    username: string,
    displayName: string,
    email: string,
    description: string,
    areNotificationsEnabled: bool,
    isPublic: bool,
    learnCategories: seq<Category>,
    teachCategories: seq<Category>)

  /** The record before the profile has loaded. */
  const BlankSettings: ProfileSettings := ProfileSettings("", "", "", "", true, true, [], [])

  const DisplayNameCap: nat := 20
  const EmailCap: nat := 50
  const DescriptionCap: nat := 500

  const LoadThrown: string := "Failed to fetch profile settings"
  const LoadCaught: string := "Failed to load profile settings. Please try again later."
  const CategoriesThrown: string := "Failed to fetch categories"
  const CategoriesCaught: string := "Failed to load categories. Please try again later."
  const SaveThrown: string := "Failed to update profile settings"
  const SaveCaught: string := "Failed to update profile settings. Please try again."
  const SaveDone: string := "Profile settings updated successfully!"
  const UploadFailed: string := "Failed to upload profile picture. Please try again."
  const DeleteThrown: string := "Failed to delete account"
  const DeleteCaught: string := "Failed to delete account. Please try again."
  const DeleteDone: string := "Account deleted successfully"
  const CropFailed: string := "Failed to crop image. Please try again."

  /** The `type` argument of `toggleCategory`, naming the field `<type>_categories`. */
  datatype CategoryKind = Learn | Teach

  function CategoriesOf(s: ProfileSettings, kind: CategoryKind): seq<Category>
  {
    match kind
    case Learn => s.learnCategories
    case Teach => s.teachCategories
  }

  /** `toggleCategory(category, type)`: the named list has the category removed if
      present and appended if absent, and every other field is left alone. */
  function ToggleCategoryIn(s: ProfileSettings, category: Category, kind: CategoryKind): (r: ProfileSettings)
    ensures CategoriesOf(r, kind) == Toggle(CategoriesOf(s, kind), category)
    ensures category in CategoriesOf(r, kind) <==> category !in CategoriesOf(s, kind)
    ensures category !in CategoriesOf(s, kind) ==> CategoriesOf(r, kind) == CategoriesOf(s, kind) + [category]
    ensures kind == Learn ==> r == s.(learnCategories := r.learnCategories)
    ensures kind == Teach ==> r == s.(teachCategories := r.teachCategories)
  {
    match kind
    case Learn => s.(learnCategories := Toggle(s.learnCategories, category))
    case Teach => s.(teachCategories := Toggle(s.teachCategories, category))
  }

  /** The edits the form offers. The username field is rendered disabled. */
  datatype SettingsEdit =
    | EditDisplayName(text: string)
    | EditEmail(text: string)
    | EditDescription(text: string)
    | SwitchNotifications(on: bool)
    | SwitchPublic(on: bool)
    | ToggleCategory(category: Category, kind: CategoryKind)

  /** One edit, as its `onChange` handler writes it: text is cut with `slice`. */
  function ApplyEdit(s: ProfileSettings, e: SettingsEdit): ProfileSettings
  {
    match e
    case EditDisplayName(text) => s.(displayName := Take(text, DisplayNameCap))
    case EditEmail(text) => s.(email := Take(text, EmailCap))
    case EditDescription(text) => s.(description := Take(text, DescriptionCap))
    case SwitchNotifications(on) => s.(areNotificationsEnabled := on)
    case SwitchPublic(on) => s.(isPublic := on)
    case ToggleCategory(c, kind) => ToggleCategoryIn(s, c, kind)
  }

  function ApplyEdits(s: ProfileSettings, edits: seq<SettingsEdit>): ProfileSettings
    decreases |edits|
  {
    if edits == [] then s else ApplyEdits(ApplyEdit(s, edits[0]), edits[1..])
  }

  /** The three capped fields fit their caps. */
  predicate WithinCaps(s: ProfileSettings) {
    |s.displayName| <= DisplayNameCap && |s.email| <= EmailCap && |s.description| <= DescriptionCap
  }

  /** An edited text field fits its cap whatever was typed, and no edit touches
      another field's text. */
  lemma EditCaps(s: ProfileSettings, e: SettingsEdit)
    ensures e.EditDisplayName? ==> |ApplyEdit(s, e).displayName| <= DisplayNameCap
    ensures e.EditEmail? ==> |ApplyEdit(s, e).email| <= EmailCap
    ensures e.EditDescription? ==> |ApplyEdit(s, e).description| <= DescriptionCap
    ensures !e.EditDisplayName? ==> ApplyEdit(s, e).displayName == s.displayName
    ensures !e.EditEmail? ==> ApplyEdit(s, e).email == s.email
    ensures !e.EditDescription? ==> ApplyEdit(s, e).description == s.description
  {
  }

  /** Through any edits the caps keep holding once they hold, the username never
      changes, and category lists without duplicates keep none. */
  lemma {:induction false} EditsKeepInvariants(s: ProfileSettings, edits: seq<SettingsEdit>)
    requires WithinCaps(s)
    requires NoDup(s.learnCategories) && NoDup(s.teachCategories)
    ensures WithinCaps(ApplyEdits(s, edits))
    ensures ApplyEdits(s, edits).username == s.username
    ensures NoDup(ApplyEdits(s, edits).learnCategories) && NoDup(ApplyEdits(s, edits).teachCategories)
    decreases |edits|
  {
    if edits != [] {
      var t := ApplyEdit(s, edits[0]);
      EditCaps(s, edits[0]);
      assert NoDup(t.learnCategories) && NoDup(t.teachCategories);
      EditsKeepInvariants(t, edits[1..]);
    }
  }

  /** Where a save stands. While `Saving`, the handler holds the record it sent and
      the picture values it read when it started; while `Uploading`, only the record. */
  datatype SubmitPhase =
    | Idle
    | Saving(snapshot: ProfileSettings, cropped: Option<string>, image: Option<string>)
    | Uploading(snapshot: ProfileSettings)

  /** How the picture upload inside a save ends: reading the cropped image back as a
      blob can fail before the upload is sent, and that failure escapes to the save's
      own error handling; otherwise the upload resolves to `resp`. */
  datatype UploadOutcome = BlobUnreadable(reason: string) | Uploaded(resp: Response<()>)

  /** The page's state as one value. */
  datatype PageState = PageState(
    settings: ProfileSettings,
    isLoading: bool,
    image: Option<string>,
    croppedImage: Option<string>,
    phase: SubmitPhase,
    navigations: seq<string>,
    toasts: seq<Toast>)

  /** Whether a save that succeeded goes on to upload the picture: only a cropped
      image that differs from the page's `image` (the loaded picture, or the file
      the user picked last). */
  predicate PictureChanged(cropped: Option<string>, image: Option<string>) {
    Truthy(cropped) && cropped != image
  }

  /** `handleAvatarChange` once the file reader has read the picked file as
      `dataUrl`: it becomes the page's `image`; the cropped image is left as it was. */
  function Picked(p: PageState, dataUrl: string): PageState
  {
    p.(image := Some(dataUrl))
  }

  /** `handleCropComplete`, where `result` is what `getCroppedImg` gave for the
      page's `image` (`None` when it threw): with no image nothing happens, a failed
      crop is toasted, and otherwise the result becomes the cropped image. */
  function Cropped(p: PageState, result: Option<string>): PageState
  {
    if !Truthy(p.image) then p
    else if result.None? then p.(toasts := p.toasts + [ErrorToast(CropFailed)])
    else p.(croppedImage := result)
  }

  /** Picking a file and cropping it to a new picture makes the next successful save
      upload exactly that crop. */
  lemma NewPictureUploads(p: PageState, dataUrl: string, crop: string)
    requires dataUrl != "" && crop != "" && crop != dataUrl
    ensures var q := Cropped(Picked(p, dataUrl), Some(crop));
      && q.croppedImage == Some(crop) && q.image == Some(dataUrl)
      && q.settings == p.settings && q.toasts == p.toasts
      && SaveReceived(BeginSave(q), Ok(())).1 == Some(crop)
  {
  }

  /** A file picked but never cropped still makes a save upload the cropped image
      held from before, since that now differs from the page's `image`. */
  lemma PickWithoutCropUploadsOldCrop(p: PageState, dataUrl: string)
    requires Truthy(p.croppedImage) && p.croppedImage != Some(dataUrl)
    ensures SaveReceived(BeginSave(Picked(p, dataUrl)), Ok(())).1 == p.croppedImage
  {
  }

  /** A crop that fails leaves both pictures and only adds its toast. */
  lemma CropFailureToasts(p: PageState)
    requires Truthy(p.image)
    ensures Cropped(p, None).croppedImage == p.croppedImage && Cropped(p, None).image == p.image
    ensures Cropped(p, None).toasts == p.toasts + [ErrorToast(CropFailed)]
  {
  }

  /** `handleSubmit` up to its first `await`: loading, and the record sent is the
      current one. */
  function BeginSave(p: PageState): PageState
  {
    p.(isLoading := true, phase := Saving(p.settings, p.croppedImage, p.image))
  }

  /** A save finished without an upload: the success toast, and the record sent is
      written back. */
  function SaveSucceeded(p: PageState, snapshot: ProfileSettings, extra: seq<Toast>): PageState
  {
    p.(settings := snapshot, toasts := p.toasts + extra + [SuccessToast(SaveDone)],
       isLoading := false, phase := Idle)
  }

  /** `handleSubmit` once the save resolved to `resp`; the upload request, if any. */
  function SaveReceived(p: PageState, resp: Response<()>): (PageState, Option<string>)
    requires p.phase.Saving?
  {
    var Saving(snapshot, cropped, image) := p.phase;
    match resp
    case Ok(_) =>
      if PictureChanged(cropped, image) then (p.(phase := Uploading(snapshot)), Some(cropped.value))
      else (SaveSucceeded(p, snapshot, []), None)
    case Unauthorized =>
      (p.(navigations := p.navigations + [LoginPath], isLoading := false, phase := Idle), None)
    case _ =>
      (p.(toasts := p.toasts + [ErrorToast(ErrorText(resp, SaveThrown, SaveCaught))],
          isLoading := false, phase := Idle), None)
  }

  /** `handleSubmit` once the picture upload ended with `outcome`. A failed upload
      is toasted and the save still reports success; an unreadable image aborts the
      save with its error. */
  function UploadReceived(p: PageState, outcome: UploadOutcome): PageState
    requires p.phase.Uploading?
  {
    var snapshot := p.phase.snapshot;
    match outcome
    case BlobUnreadable(reason) =>
      p.(toasts := p.toasts + [ErrorToast(MessageOr(reason, SaveCaught))], isLoading := false, phase := Idle)
    case Uploaded(Ok(_)) => SaveSucceeded(p, snapshot, [])
    case Uploaded(_) => SaveSucceeded(p, snapshot, [ErrorToast(UploadFailed)])
  }

  /** One whole save: started, answered with `resp`, and, when an upload was asked
      for, the upload ended with `outcome`. Also says whether an upload was asked for. */
  function SaveRound(p: PageState, resp: Response<()>, outcome: UploadOutcome): (PageState, bool)
  {
    var (q, upload) := SaveReceived(BeginSave(p), resp);
    if upload.Some? then (UploadReceived(q, outcome), true) else (q, false)
  }

  /** The submit sequencing: the picture is uploaded exactly when the save succeeded
      and the cropped image is set and differs from the loaded one; the page is
      loading until the very end and idle afterwards; a successful save, with or
      without a failed upload, writes back the record that was sent. */
  lemma SaveSequencing(p: PageState, resp: Response<()>, outcome: UploadOutcome)
    ensures var q := BeginSave(p); q.isLoading && q.phase.Saving?
    ensures SaveRound(p, resp, outcome).1 <==> resp.Ok? && PictureChanged(p.croppedImage, p.image)
    ensures !SaveRound(p, resp, outcome).0.isLoading && SaveRound(p, resp, outcome).0.phase == Idle
    ensures resp.Ok? && !(SaveRound(p, resp, outcome).1 && outcome.BlobUnreadable?) ==>
      SaveRound(p, resp, outcome).0.settings == p.settings
      && SaveRound(p, resp, outcome).0.toasts[|SaveRound(p, resp, outcome).0.toasts| - 1] == SuccessToast(SaveDone)
    ensures resp.Unauthorized? ==> SaveRound(p, resp, outcome).0.navigations == p.navigations + [LoginPath]
    ensures SaveRound(p, resp, outcome).0.image == p.image
      && SaveRound(p, resp, outcome).0.croppedImage == p.croppedImage
  {
  }

  /** The page, with its state held in fields that its handlers update in place. */
  class SettingsPage {
    var settings: ProfileSettings
    var isLoading: bool
    var image: Option<string>
    var croppedImage: Option<string>
    var categories: seq<Category>
    var phase: SubmitPhase
    var navigations: seq<string>
    var toasts: seq<Toast>

    function State(): PageState
      reads this
    {
      PageState(settings, isLoading, image, croppedImage, phase, navigations, toasts)
    }

    /** The page as first rendered: a blank record, loading, no picture. */
    constructor ()
      ensures State() == PageState(BlankSettings, true, None, None, Idle, [], [])
      ensures categories == []
    {
      settings, isLoading, image, croppedImage := BlankSettings, true, None, None;
      categories, phase, navigations, toasts := [], Idle, [], [];
    }

    /** `fetchProfileSettings` once `GET /v1/profile` resolved to `resp`: the record is
        stored and its picture requested, still loading; 401 goes to the login page;
        anything else is toasted; either of those ends the loading. */
    method ReceiveProfile(resp: Response<ProfileSettings>) returns (pictureRequest: Option<string>)
      modifies this`settings, this`isLoading, this`navigations, this`toasts
      ensures pictureRequest.Some? <==> resp.Ok?
      ensures resp.Ok? ==>
        settings == resp.payload && pictureRequest.value == resp.payload.username
        && isLoading == old(isLoading) && navigations == old(navigations) && toasts == old(toasts)
      ensures resp.Unauthorized? ==>
        settings == old(settings) && !isLoading
        && navigations == old(navigations) + [LoginPath] && toasts == old(toasts)
      ensures !resp.Ok? && !resp.Unauthorized? ==>
        settings == old(settings) && !isLoading && navigations == old(navigations)
        && toasts == old(toasts) + [ErrorToast(ErrorText(resp, LoadThrown, LoadCaught))]
    {
      match resp {
        case Ok(data) =>
          settings := data;
          return Some(data.username);
        case Unauthorized =>
          navigations := navigations + [LoginPath];
        case _ =>
          toasts := toasts + [ErrorToast(ErrorText(resp, LoadThrown, LoadCaught))];
      }
      isLoading := false;
      pictureRequest := None;
    }

    /** The rest of `fetchProfileSettings`, once the picture request resolved to `resp`
        (its payload is the object URL of the picture): the picture becomes both the
        loaded and the cropped image; a non-ok answer is ignored, a rejected request
        is toasted; loading ends. */
    method ReceivePicture(resp: Response<string>)
      modifies this`image, this`croppedImage, this`isLoading, this`toasts
      ensures !isLoading
      ensures resp.Ok? ==> image == croppedImage == Some(resp.payload) && toasts == old(toasts)
      ensures !resp.Ok? ==> image == old(image) && croppedImage == old(croppedImage)
      ensures resp.NetworkError? ==> toasts == old(toasts) + [ErrorToast(MessageOr(resp.reason, LoadCaught))]
      ensures !resp.NetworkError? ==> toasts == old(toasts)
    {
      match resp {
        case Ok(url) =>
          image := Some(url);
          croppedImage := Some(url);
        case NetworkError(reason) =>
          toasts := toasts + [ErrorToast(MessageOr(reason, LoadCaught))];
        case _ =>
      }
      isLoading := false;
    }

    /** The settings page's own `fetchCategories`, which has no `finally`. */
    method ReceiveCategories(resp: Response<seq<Category>>)
      modifies this`categories, this`navigations, this`toasts
      ensures resp.Ok? ==> categories == resp.payload && navigations == old(navigations) && toasts == old(toasts)
      ensures resp.Unauthorized? ==>
        categories == old(categories) && navigations == old(navigations) + [LoginPath] && toasts == old(toasts)
      ensures !resp.Ok? && !resp.Unauthorized? ==>
        categories == old(categories) && navigations == old(navigations)
        && toasts == old(toasts) + [ErrorToast(ErrorText(resp, CategoriesThrown, CategoriesCaught))]
    {
      match resp {
        case Ok(list) =>
          categories := list;
        case Unauthorized =>
          navigations := navigations + [LoginPath];
        case _ =>
          toasts := toasts + [ErrorToast(ErrorText(resp, CategoriesThrown, CategoriesCaught))];
      }
    }

    /** Any edit of the form: the record changes as `ApplyEdit` says, nothing else does. */
    method Edit(e: SettingsEdit)
      modifies this`settings
      ensures settings == ApplyEdit(old(settings), e)
    {
      match e {
        case EditDisplayName(text) =>
          settings := settings.(displayName := Take(text, DisplayNameCap));
        case EditEmail(text) =>
          settings := settings.(email := Take(text, EmailCap));
        case EditDescription(text) =>
          settings := settings.(description := Take(text, DescriptionCap));
        case SwitchNotifications(on) =>
          settings := settings.(areNotificationsEnabled := on);
        case SwitchPublic(on) =>
          settings := settings.(isPublic := on);
        case ToggleCategory(c, kind) =>
          settings := ToggleCategoryIn(settings, c, kind);
      }
    }

    /** `handleAvatarChange` once the picked file has been read as `dataUrl`. */
    method HandleAvatarChange(dataUrl: string)
      modifies this`image
      ensures State() == Picked(old(State()), dataUrl)
      ensures image == Some(dataUrl) && croppedImage == old(croppedImage)
    {
      image := Some(dataUrl);
    }

    /** `handleCropComplete`, given what `getCroppedImg` gave (`None` when it threw). */
    method HandleCropComplete(result: Option<string>)
      modifies this`croppedImage, this`toasts
      ensures State() == Cropped(old(State()), result)
      ensures !Truthy(image) ==> croppedImage == old(croppedImage) && toasts == old(toasts)
      ensures Truthy(image) && result.Some? ==> croppedImage == result && toasts == old(toasts)
      ensures Truthy(image) && result.None? ==>
        croppedImage == old(croppedImage) && toasts == old(toasts) + [ErrorToast(CropFailed)]
    {
      if Truthy(image) {
        match result {
          case Some(_) =>
            croppedImage := result;
          case None =>
            toasts := toasts + [ErrorToast(CropFailed)];
        }
      }
    }

    /** `handleSubmit` up to its first `await`: loading, and the current record is sent. */
    method HandleSubmit() returns (request: ProfileSettings)
      modifies this`isLoading, this`phase
      ensures State() == BeginSave(old(State()))
      ensures isLoading && request == settings
    {
      isLoading := true;
      phase := Saving(settings, croppedImage, image);
      request := settings;
    }

    /** `handleSubmit` once the save resolved to `resp`: on success either the upload
        of the changed picture is asked for, or the save is over. */
    method ReceiveSave(resp: Response<()>) returns (upload: Option<string>)
      requires phase.Saving?
      modifies this
      ensures (State(), upload) == SaveReceived(old(State()), resp)
      ensures upload.Some? <==> resp.Ok? && PictureChanged(old(phase).cropped, old(phase).image)
      ensures upload.Some? ==> isLoading == old(isLoading) && phase == Uploading(old(phase).snapshot)
      ensures upload.None? ==> !isLoading && phase == Idle
      ensures categories == old(categories)
    {
      var snapshot, cropped, picture := phase.snapshot, phase.cropped, phase.image;
      upload := None;
      match resp {
        case Ok(_) =>
          if Truthy(cropped) && cropped != picture {
            phase := Uploading(snapshot);
            upload := Some(cropped.value);
          } else {
            assert old(toasts) + [] == old(toasts);
            toasts := toasts + [SuccessToast(SaveDone)];
            settings := snapshot;
            isLoading := false;
            phase := Idle;
          }
        case Unauthorized =>
          navigations := navigations + [LoginPath];
          isLoading := false;
          phase := Idle;
        case _ =>
          toasts := toasts + [ErrorToast(ErrorText(resp, SaveThrown, SaveCaught))];
          isLoading := false;
          phase := Idle;
      }
    }

    /** The rest of `handleSubmit`, once the picture upload ended with `outcome`. */
    method ReceiveUpload(outcome: UploadOutcome)
      requires phase.Uploading?
      modifies this
      ensures State() == UploadReceived(old(State()), outcome)
      ensures !isLoading && phase == Idle && categories == old(categories)
      ensures outcome.Uploaded? ==> settings == old(phase).snapshot
      ensures outcome.BlobUnreadable? ==> settings == old(settings)
    {
      var snapshot := phase.snapshot;
      match outcome {
        case BlobUnreadable(reason) =>
          toasts := toasts + [ErrorToast(MessageOr(reason, SaveCaught))];
        case Uploaded(resp) =>
          if !resp.Ok? {
            toasts := toasts + [ErrorToast(UploadFailed)];
          }
          toasts := toasts + [SuccessToast(SaveDone)];
          settings := snapshot;
      }
      isLoading := false;
      phase := Idle;
    }

    /** `handleDeleteAccount` once `DELETE /v1/profile` resolved to `resp` (its payload
        is the body's `redirect`): success is toasted and followed to the server's
        redirect, 401 goes to the login page, anything else is toasted. */
    method ReceiveDelete(resp: Response<string>)
      modifies this`navigations, this`toasts
      ensures resp.Ok? ==>
        navigations == old(navigations) + [resp.payload] && toasts == old(toasts) + [SuccessToast(DeleteDone)]
      ensures resp.Unauthorized? ==> navigations == old(navigations) + [LoginPath] && toasts == old(toasts)
      ensures !resp.Ok? && !resp.Unauthorized? ==>
        navigations == old(navigations) && toasts == old(toasts) + [ErrorToast(ErrorText(resp, DeleteThrown, DeleteCaught))]
    {
      match resp {
        case Ok(redirect) =>
          toasts := toasts + [SuccessToast(DeleteDone)];
          navigations := navigations + [redirect];
        case Unauthorized =>
          navigations := navigations + [LoginPath];
        case _ =>
          toasts := toasts + [ErrorToast(ErrorText(resp, DeleteThrown, DeleteCaught))];
      }
    }
  }
}
