/** The profile-fill wizard a new user walks through: panel 0 picks what to learn,
    panel 1 what to teach, panel 2 holds the username, display name and description
    behind an ordered validation, and panel 3, reached only by a successful submit,
    offers the profile picture upload. */
module ProfileFill {
  import opened Http
  import opened Text
  import opened Lists

  // The error texts of the form validation, in the order the checks run.
  const UsernameMissing: string := "Please enter a username"
  const UsernameTaken: string := "This username is already taken"
  const NameMissing: string := "Please enter your name"
  const DescriptionMissing: string := "Please enter a description"

  const UsernameCap: nat := 20
  const NameCap: nat := 20
  const DescriptionCap: nat := 500

  const ProfileThrown: string := "Failed to check profile status"
  const ProfileCaught: string := "Failed to check profile status. Please try again later."
  const CategoriesThrown: string := "Failed to fetch categories"
  const CategoriesCaught: string := "Failed to load categories. Please try again later."
  const CheckThrown: string := "Failed to check username availability"
  const CheckCaught: string := "Failed to check username availability. Please try again."
  const SubmitThrown: string := "Failed to submit profile"
  const SubmitCaught: string := "Failed to submit profile. Please try again."
  const SubmitDone: string := "Profile information submitted successfully!"
  const NoPictureText: string := "Please select and crop an image before uploading."
  const UploadDone: string := "Profile picture uploaded successfully!"
  const UploadFailed: string := "Failed to upload profile picture. Please try again."
  const CropFailed: string := "Failed to crop image. Please try again."

  /** The message of the first failing check of `validateForm`, or None when the
      form is acceptable. Each message is reported exactly when its own check fails
      and every earlier one passes. */
  function FirstFormError(username: string, available: bool, name: string, description: string): (r: Option<string>)
    ensures r == None <==>
      !AllWhitespace(username) && available && !AllWhitespace(name) && !AllWhitespace(description)
    ensures r == Some(UsernameMissing) <==> AllWhitespace(username)
    ensures r == Some(UsernameTaken) <==> !AllWhitespace(username) && !available
    ensures r == Some(NameMissing) <==> !AllWhitespace(username) && available && AllWhitespace(name)
    ensures r == Some(DescriptionMissing) <==>
      !AllWhitespace(username) && available && !AllWhitespace(name) && AllWhitespace(description)
  {
    if Trim(username) == "" then Some(UsernameMissing)
    else if !available then Some(UsernameTaken)
    else if Trim(name) == "" then Some(NameMissing)
    else if Trim(description) == "" then Some(DescriptionMissing)
    else None
  }

  /** The outcome of `POST /v1/profile/check-username`, which the page reads by raw
      status code rather than by `response.ok`. */
  datatype StatusResponse = Status(code: int, message: string) | StatusNetworkError(reason: string)

  /** Availability after a check answered with `resp`: 200 says available, 409 says
      taken, anything else keeps what was known. */
  function AvailabilityAfter(available: bool, resp: StatusResponse): bool
  {
    if resp.Status? && resp.code == 200 then true
    else if resp.Status? && resp.code == 409 then false
    else available
  }

  /** The toast a check answered with `resp` shows, if any. */
  function CheckToast(resp: StatusResponse): Option<Toast>
  {
    match resp
    case Status(code, message) =>
      if code == 200 || code == 409 then None else Some(ErrorToast(MessageOr(message, CheckThrown)))
    case StatusNetworkError(reason) => Some(ErrorToast(MessageOr(reason, CheckCaught)))
  }

  /** Editing the username marks it available, so only a 409 for the edited name
      disables Submit again; every other answer leaves Submit enabled, and exactly
      the answers that do not settle availability raise a toast. */
  lemma CheckAfterEdit(resp: StatusResponse)
    ensures !AvailabilityAfter(true, resp) <==> resp.Status? && resp.code == 409
    ensures CheckToast(resp).Some? <==> !(resp.Status? && (resp.code == 200 || resp.code == 409))
    ensures CheckToast(resp).Some? ==> CheckToast(resp).value.ErrorToast? && CheckToast(resp).value.text != ""
  {
  }

  /** The navigation buttons under the panels. */
  datatype Button = Back | Next | SubmitProfile | Skip | UploadAndFinish

  /** The buttons rendered under panel `panel`: Back on panels 1 and 2; then Next
      before panel 2, Submit on panel 2, and Skip with Upload after it. This is what
      the panel renders, not what can be clicked: while `isLoading` the page shows
      only a spinner, Submit is disabled while the username is not available, and
      Upload is disabled without a cropped image. */
  function Buttons(panel: int): (r: set<Button>)
    ensures Back in r <==> 0 < panel < 3
    ensures Next in r <==> panel < 2
    ensures SubmitProfile in r <==> panel == 2
    ensures (Skip in r <==> panel > 2) && (UploadAndFinish in r <==> panel > 2)
  {
    (if 0 < panel < 3 then {Back} else {})
    + (if panel < 2 then {Next} else if panel == 2 then {SubmitProfile} else {Skip, UploadAndFinish})
  }

  /** What moves the panel index: a click on a rendered button, or the answer to a
      profile submission (`ok` is `response.ok`). */
  datatype WizardEvent = Click(button: Button) | SubmitAnswered(ok: bool)

  /** The part of the page the panel machine reads and writes. */
  datatype WizardState = WizardState(panel: int, submitted: bool)
  {
    /** The panel index is one of the four panels, and the upload panel is shown
        only once the profile has been submitted. */
    predicate Valid() {
      0 <= panel <= 3 && (panel == 3 ==> submitted)
    }
  }

  /** One event on the panel machine. Back and Next move by one; Submit, Skip and
      Upload leave the panel alone (they issue requests or navigate away); a click on
      a button that is not rendered cannot happen and changes nothing; a successful
      submission moves to the upload panel. */
  function Step(w: WizardState, e: WizardEvent): WizardState
  {
    match e
    case Click(b) =>
      if b !in Buttons(w.panel) then w
      else if b == Back then w.(panel := w.panel - 1)
      else if b == Next then w.(panel := w.panel + 1)
      else w
    case SubmitAnswered(ok) =>
      if ok then WizardState(3, true) else w
  }

  function RunWizard(w: WizardState, events: seq<WizardEvent>): WizardState
    decreases |events|
  {
    if events == [] then w else RunWizard(Step(w, events[0]), events[1..])
  }

  /** The panel index stays within the four panels whatever happens. */
  lemma {:induction false} WizardStaysValid(w: WizardState, events: seq<WizardEvent>)
    requires w.Valid()
    ensures RunWizard(w, events).Valid()
    decreases |events|
  {
    if events != [] {
      WizardStaysValid(Step(w, events[0]), events[1..]);
    }
  }

  /** The upload panel is never left: it has no Back and no Next. */
  lemma {:induction false} UploadPanelIsFinal(w: WizardState, events: seq<WizardEvent>)
    requires w.panel == 3
    ensures RunWizard(w, events).panel == 3
    decreases |events|
  {
    if events != [] {
      UploadPanelIsFinal(Step(w, events[0]), events[1..]);
    }
  }

  /** The upload panel is reached from an earlier one only through a successful
      submission. */
  lemma {:induction false} UploadPanelNeedsSubmit(w: WizardState, events: seq<WizardEvent>)
    requires 0 <= w.panel < 3
    requires RunWizard(w, events).panel == 3
    ensures exists i :: 0 <= i < |events| && events[i] == SubmitAnswered(true)
    decreases |events|
  {
    if events == [] {
    } else if events[0] == SubmitAnswered(true) {
    } else {
      var v := Step(w, events[0]);
      assert 0 <= v.panel < 3;
      UploadPanelNeedsSubmit(v, events[1..]);
      var i :| 0 <= i < |events[1..]| && events[1..][i] == SubmitAnswered(true);
      assert events[i + 1] == SubmitAnswered(true);
    }
  }

  /** From either panel before the form, clicking Next as often as there are panels
      left reaches the form panel, where Submit is offered. */
  lemma {:induction false} NextsReachForm(w: WizardState, n: nat)
    requires 0 <= w.panel && w.panel + n == 2
    ensures RunWizard(w, seq(n, _ => Click(Next))) == w.(panel := 2)
    ensures SubmitProfile in Buttons(2)
    decreases n
  {
    var nexts := seq(n, _ => Click(Next));
    if n > 0 {
      assert nexts[0] == Click(Next) && nexts[1..] == seq(n - 1, _ => Click(Next));
      assert Step(w, Click(Next)) == w.(panel := w.panel + 1);
      NextsReachForm(w.(panel := w.panel + 1), n - 1);
    }
  }

  /** The cropped image after `handleCropComplete`, where `result` is what
      `getCroppedImg` gave (`None` when it threw): a crop replaces it, a failure
      leaves it. */
  function AfterCrop(cropped: Option<string>, result: Option<string>): Option<string>
  {
    if result.Some? then result else cropped
  }

  /** What `uploadProfilePicture` sends: the cropped image, if there is a truthy one. */
  function UploadRequest(cropped: Option<string>): Option<string>
  {
    if Truthy(cropped) then Some(cropped.value) else None
  }

  /** A successful crop is what the next upload sends, whatever was cropped before;
      a failed crop leaves the upload as it was. */
  lemma CropEnablesUpload(cropped: Option<string>, crop: string)
    requires crop != ""
    ensures UploadRequest(AfterCrop(cropped, Some(crop))) == Some(crop)
    ensures UploadRequest(AfterCrop(cropped, None)) == UploadRequest(cropped)
  {
  }

  /** The body of `POST /v1/profile/fill`. */
  datatype ProfileForm = ProfileForm(
    username: string,
    displayName: string,
    teachCategories: seq<Category>,
    learnCategories: seq<Category>,
    description: string)

  /** The wizard page, with its state held in fields that its handlers update in place. */
  class FillProfilePage {
    var categories: seq<Category>
    var learnCategories: seq<Category>
    var teachCategories: seq<Category>
    var username: string
    var name: string
    var description: string
    var croppedImage: Option<string>
    var currentPanel: int
    var error: Option<string>
    var isLoading: bool
    var isUsernameAvailable: bool
    var isCheckingUsername: bool
    var isProfileSubmitted: bool
    var navigations: seq<string>
    var toasts: seq<Toast>

    function Wizard(): WizardState
      reads this
    {
      WizardState(currentPanel, isProfileSubmitted)
    }

    /** The page as first rendered: empty form on panel 0, loading, username assumed available. */
    constructor ()
      ensures categories == [] && learnCategories == [] && teachCategories == []
      ensures username == "" && name == "" && description == "" && croppedImage == None
      ensures currentPanel == 0 && error == None && isLoading && isUsernameAvailable
      ensures !isCheckingUsername && !isProfileSubmitted && navigations == [] && toasts == []
      ensures Wizard().Valid()
    {
      categories, learnCategories, teachCategories := [], [], [];
      username, name, description, croppedImage := "", "", "", None;
      currentPanel, error, isLoading := 0, None, true;
      isUsernameAvailable, isCheckingUsername, isProfileSubmitted := true, false, false;
      navigations, toasts := [], [];
    }

    /** `checkProfileStatus` once `GET /v1/profile` resolved to `resp` (its payload is
        `is_registered`): a registered user is sent to the settings page, an
        unregistered one gets a categories request, 401 goes to the login page, and
        anything else is toasted. */
    method ReceiveProfileStatus(resp: Response<bool>) returns (fetchCategories: bool)
      modifies this`navigations, this`toasts
      ensures fetchCategories <==> resp == Ok(false)
      ensures resp == Ok(true) ==> navigations == old(navigations) + [SettingsPath] && toasts == old(toasts)
      ensures resp.Unauthorized? ==> navigations == old(navigations) + [LoginPath] && toasts == old(toasts)
      ensures resp == Ok(false) ==> navigations == old(navigations) && toasts == old(toasts)
      ensures !resp.Ok? && !resp.Unauthorized? ==>
        navigations == old(navigations)
        && toasts == old(toasts) + [ErrorToast(ErrorText(resp, ProfileThrown, ProfileCaught))]
    {
      fetchCategories := false;
      match resp {
        case Ok(isRegistered) =>
          if isRegistered {
            navigations := navigations + [SettingsPath];
          } else {
            fetchCategories := true;
          }
        case Unauthorized =>
          navigations := navigations + [LoginPath];
        case _ =>
          toasts := toasts + [ErrorToast(ErrorText(resp, ProfileThrown, ProfileCaught))];
      }
    }

    /** `fetchCategories` once `GET /v1/categories/list` resolved to `resp`; the page
        stops loading on every path. */
    method ReceiveCategories(resp: Response<seq<Category>>)
      modifies this`categories, this`navigations, this`toasts, this`isLoading
      ensures !isLoading
      ensures resp.Ok? ==> categories == resp.payload && navigations == old(navigations) && toasts == old(toasts)
      ensures resp.Unauthorized? ==>
        categories == old(categories)
        && navigations == old(navigations) + [LoginPath] && toasts == old(toasts)
      ensures !resp.Ok? && !resp.Unauthorized? ==>
        categories == old(categories) && navigations == old(navigations)
        && toasts == old(toasts) + [ErrorToast(ErrorText(resp, CategoriesThrown, CategoriesCaught))]
    {
      match resp {
        case Ok(list) =>
          categories := list;
        case Unauthorized =>
          navigations := navigations + [LoginPath];
        case _ =>
          toasts := toasts + [ErrorToast(ErrorText(resp, CategoriesThrown, CategoriesCaught))];
      }
      isLoading := false;
    }

    /** A click on a category of the learn panel flips its membership. */
    method ToggleLearn(category: Category)
      modifies this`learnCategories
      ensures learnCategories == Toggle(old(learnCategories), category)
    {
      if category in learnCategories {
        learnCategories := Without(learnCategories, category);
      } else {
        learnCategories := learnCategories + [category];
      }
    }

    /** A click on a category of the teach panel flips its membership. */
    method ToggleTeach(category: Category)
      modifies this`teachCategories
      ensures teachCategories == Toggle(old(teachCategories), category)
    {
      if category in teachCategories {
        teachCategories := Without(teachCategories, category);
      } else {
        teachCategories := teachCategories + [category];
      }
    }

    /** The username input: at most 20 characters are kept, and availability is
        assumed again until the next check. */
    method EditUsername(text: string)
      modifies this`username, this`isUsernameAvailable
      ensures username == Take(text, UsernameCap) && |username| <= UsernameCap
      ensures isUsernameAvailable
    {
      username := Take(text, UsernameCap);
      isUsernameAvailable := true;
    }

    /** The display name input: at most 20 characters are kept. */
    method EditName(text: string)
      modifies this`name
      ensures name == Take(text, NameCap) && |name| <= NameCap
    {
      name := Take(text, NameCap);
    }

    /** The description input: at most 500 characters are kept. */
    method EditDescription(text: string)
      modifies this`description
      ensures description == Take(text, DescriptionCap) && |description| <= DescriptionCap
    {
      description := Take(text, DescriptionCap);
    }

    /** `checkUsername` up to its `await`: the check for the current username goes out. */
    method BeginCheckUsername() returns (request: string)
      modifies this`isCheckingUsername
      ensures isCheckingUsername && request == username
    {
      isCheckingUsername := true;
      request := username;
    }

    /** The rest of `checkUsername`, once the check resolved to `resp`. */
    method ReceiveCheckUsername(resp: StatusResponse)
      modifies this`isUsernameAvailable, this`isCheckingUsername, this`toasts
      ensures isUsernameAvailable == AvailabilityAfter(old(isUsernameAvailable), resp)
      ensures toasts == old(toasts) + (match CheckToast(resp) case Some(t) => [t] case None => [])
      ensures !isCheckingUsername
    {
      match resp {
        case Status(code, message) =>
          if code == 200 {
            isUsernameAvailable := true;
          } else if code == 409 {
            isUsernameAvailable := false;
          } else {
            toasts := toasts + [ErrorToast(MessageOr(message, CheckThrown))];
          }
        case StatusNetworkError(reason) =>
          toasts := toasts + [ErrorToast(MessageOr(reason, CheckCaught))];
      }
      isCheckingUsername := false;
    }

    /** `validateForm`: the checks in order, each stopping at the first failure with
        its message in `error`; when all pass the error is cleared. */
    method ValidateForm() returns (ok: bool)
      modifies this`error
      ensures error == FirstFormError(username, isUsernameAvailable, name, description)
      ensures ok <==> error == None
    {
      ghost var expected := FirstFormError(username, isUsernameAvailable, name, description);
      if Trim(username) == "" {
        assert expected == Some(UsernameMissing);
        error := Some(UsernameMissing);
        return false;
      }
      if !isUsernameAvailable {
        assert expected == Some(UsernameTaken);
        error := Some(UsernameTaken);
        return false;
      }
      if Trim(name) == "" {
        assert expected == Some(NameMissing);
        error := Some(NameMissing);
        return false;
      }
      if Trim(description) == "" {
        assert expected == Some(DescriptionMissing);
        error := Some(DescriptionMissing);
        return false;
      }
      assert expected == None;
      error := None;
      return true;
    }

    /** `handleSubmit` up to its `await`: no request unless the form validates; the
        request carries the form as typed. */
    method HandleSubmit() returns (request: Option<ProfileForm>)
      modifies this`error
      ensures error == FirstFormError(username, isUsernameAvailable, name, description)
      ensures request.Some? <==> error == None
      ensures request.Some? ==>
        request.value == ProfileForm(username, name, teachCategories, learnCategories, description)
    {
      var ok := ValidateForm();
      if !ok {
        return None;
      }
      request := Some(ProfileForm(username, name, teachCategories, learnCategories, description));
    }

    /** The rest of `handleSubmit`, once the submission resolved to `resp`: success
        marks the profile submitted and moves to the upload panel; failure is toasted
        and the panel stays. */
    method ReceiveSubmit(resp: Response<()>)
      modifies this`isProfileSubmitted, this`currentPanel, this`toasts
      ensures Wizard() == Step(old(Wizard()), SubmitAnswered(resp.Ok?))
      ensures resp.Ok? ==>
        currentPanel == 3 && isProfileSubmitted
        && toasts == old(toasts) + [SuccessToast(SubmitDone)]
      ensures !resp.Ok? ==>
        currentPanel == old(currentPanel) && isProfileSubmitted == old(isProfileSubmitted)
        && toasts == old(toasts) + [ErrorToast(ErrorText(resp, SubmitThrown, SubmitCaught))]
    {
      if resp.Ok? {
        isProfileSubmitted := true;
        toasts := toasts + [SuccessToast(SubmitDone)];
        currentPanel := 3;
      } else {
        toasts := toasts + [ErrorToast(ErrorText(resp, SubmitThrown, SubmitCaught))];
      }
    }

    /** The Back button, rendered on panels 1 and 2. */
    method ClickBack()
      requires Back in Buttons(currentPanel)
      modifies this`currentPanel
      ensures Wizard() == Step(old(Wizard()), Click(Back))
      ensures currentPanel == old(currentPanel) - 1
    {
      currentPanel := currentPanel - 1;
    }

    /** The Next button, rendered before panel 2. */
    method ClickNext()
      requires Next in Buttons(currentPanel)
      modifies this`currentPanel
      ensures Wizard() == Step(old(Wizard()), Click(Next))
      ensures currentPanel == old(currentPanel) + 1
    {
      currentPanel := currentPanel + 1;
    }

    /** The Skip button on the upload panel goes to the home page. */
    method ClickSkip()
      requires Skip in Buttons(currentPanel)
      modifies this`navigations
      ensures navigations == old(navigations) + [HomePath]
    {
      navigations := navigations + [HomePath];
    }

    /** `handleCropComplete`, given what `getCroppedImg` gave for the picked image
        (`None` when it threw): a crop becomes the cropped image; a failure is
        toasted. Unlike the settings page there is no guard on the picked image. */
    method HandleCropComplete(result: Option<string>)
      modifies this`croppedImage, this`toasts
      ensures croppedImage == AfterCrop(old(croppedImage), result)
      ensures result.Some? ==> croppedImage == result && toasts == old(toasts)
      ensures result.None? ==> croppedImage == old(croppedImage) && toasts == old(toasts) + [ErrorToast(CropFailed)]
    {
      match result {
        case Some(_) =>
          croppedImage := result;
        case None =>
          toasts := toasts + [ErrorToast(CropFailed)];
      }
    }

    /** `uploadProfilePicture` up to its `await`: without a cropped image it refuses
        with a toast and no request; otherwise the cropped image is sent. */
    method BeginUpload() returns (request: Option<string>)
      modifies this`toasts
      ensures request == UploadRequest(croppedImage)
      ensures request.Some? <==> Truthy(croppedImage)
      ensures request.Some? ==> request.value == croppedImage.value && toasts == old(toasts)
      ensures request.None? ==> toasts == old(toasts) + [ErrorToast(NoPictureText)]
    {
      if !Truthy(croppedImage) {
        toasts := toasts + [ErrorToast(NoPictureText)];
        return None;
      }
      request := Some(croppedImage.value);
    }

    /** The rest of `uploadProfilePicture`: success goes to the home page; any failure,
        reading the image included, shows one fixed toast. */
    method ReceiveUpload(resp: Response<()>)
      modifies this`navigations, this`toasts
      ensures resp.Ok? ==>
        navigations == old(navigations) + [HomePath]
        && toasts == old(toasts) + [SuccessToast(UploadDone)]
      ensures !resp.Ok? ==> navigations == old(navigations) && toasts == old(toasts) + [ErrorToast(UploadFailed)]
    {
      if resp.Ok? {
        toasts := toasts + [SuccessToast(UploadDone)];
        navigations := navigations + [HomePath];
      } else {
        toasts := toasts + [ErrorToast(UploadFailed)];
      }
    }
  }
}
