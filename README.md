# skilly-frontend: a Dafny model of the client's page logic

skilly-frontend is a Next.js client. Most of it is markup. Behind the markup,
five pages hold real logic, and this project models that logic and proves
properties of it:

- **the chat list**: a paginated list behind a single-flight guard;
- **the user search**: filter chips, a validation gate, reset and append
  searches, and the mirror of the filters in the URL query;
- **the profile-fill wizard**: ordered form validation, category toggles,
  input caps, the username-availability check and a four-panel navigation;
- **the profile settings editor**: a record update that touches one category
  list, field caps, and the save-then-maybe-upload sequence;
- **the home page**: the response dispatch, the render precedence, and the
  iCalendar (RFC 5545) export of an event.

Every asynchronous handler is two transitions. The *begin* transition runs up
to the `await` and returns the request that goes out, if any. The *receive*
transition runs after the `await`, including the `catch` and `finally`
blocks. The response is a value of `Http.Response`:

- `Ok(payload)`;
- `Redirect307(path)`;
- `Unauthorized`;
- `OtherError(message)`;
- `NetworkError(reason)`.

Toasts are recorded in a `toasts` sequence. Router pushes are recorded in a
`navigations` sequence.

Every page is a `class` whose fields the handlers update in place, with one
method per handler. Where lemmas about runs of events are stated, the part of
the page they are about is also written as a value-level state datatype with
pure transition functions, and the methods that drive it have an `ensures`
tying the new state to the transition function:

- the chat list (`Chats.ChatListState`) and the home page (`Home.HomeState`):
  every handler method;
- the search page: the searches (`Search.SearchState`) and the filter edits
  (`Search.ApplyEdit`); `SyncUrl` states the new query directly;
- the profile settings page: the field edits (`ApplyEdit`) and the save
  sequence (`BeginSave`, `SaveReceived`, `UploadReceived`) and the picture
  handlers (`Picked`, `Cropped`); the load handlers
  `ReceiveProfile`, `ReceivePicture`, `ReceiveCategories` and `ReceiveDelete`
  state their new fields directly;
- the profile-fill page: only the panel machine (`WizardState`, with `Step`),
  the username availability (`AvailabilityAfter`) and the crop and upload
  (`AfterCrop`, `UploadRequest`); every other handler
  (`ReceiveProfileStatus`, `ReceiveCategories`, the edits, the username check,
  `ValidateForm`, `HandleSubmit`) states its new fields directly,
  through `Toggle`, `Take` and `FirstFormError` where those apply.

The lemmas about runs of events are stated over the transition functions.

Modules, one per file:

| module | file | what it holds |
|---|---|---|
| `Http` | http.dfy | options, responses, toasts, JavaScript `\|\|` on messages, consecutive page numbers |
| `Text` | text.dfy | `trim`, `slice(0, n)`, `split`, `join`, `filter(Boolean)`, `replace(/[…]/g, '')` |
| `Lists` | lists.dfy | list membership edits: remove, add if absent, toggle |
| `Chats` | chats.dfy | the chat list page |
| `SearchUrl` | search_url.dfy | `URLSearchParams`, and the save and load of the search filters |
| `Search` | search.dfy | the search page |
| `ProfileFill` | profile_fill.dfy | the profile-fill page |
| `ProfileSettingsEditor` | profile_settings.dfy | the profile settings page |
| `Calendar` | calendar.dfy | the `.ics` builder of the home page |
| `Home` | home.dfy | the home page loader and its render |

## Model

| member | source | states |
|---|---|---|
| Http.MessageOr | app/profile/fill/page.tsx:63-67 | `message \|\| fallback`: a non-empty message wins, an empty one gives the fallback; never empty when the fallback is not |
| Http.ErrorText | app/profile/fill/page.tsx:95-101 | the toast of a handler that throws: an error status shows its non-empty body message, or else the handler's thrown text; a failed fetch shows its non-empty reason, or else the catch-block text; 307 and 401 in a handler with no branch for them show the thrown text; the text is never empty |
| Text.Trim | app/search/page.tsx:43 | `trim()` is a slice of the input with only whitespace cut off before and after it; it is empty exactly when the string is all whitespace (with `TrimEdges` this fixes the result) |
| Text.TrimEdges | app/search/page.tsx:56 | a trimmed string neither starts nor ends with whitespace |
| Text.Take | app/profile/fill/page.tsx:366 | `slice(0, n)` is a prefix of the input, of length `min(n, len)` |
| Text.Split | app/search/page.tsx:33-34 | `split(sep)` gives at least one piece, no piece contains the separator, and the first piece is a prefix of the input |
| Text.SplitJoin | app/search/page.tsx:112-114 | joining pieces free of the separator and splitting again gives the pieces back |
| Text.JoinSplit | app/search/page.tsx:33 | splitting and joining again gives the string back |
| Text.NonEmpty | app/search/page.tsx:33-34 | `filter(Boolean)` keeps no empty entry, keeps every non-empty value that occurs, and keeps a list with no empty entry as it is |
| Text.NonEmptyCounts | app/search/page.tsx:33-34 | every non-empty entry is kept as often as it occurs: the multiset is the input's less its `""` |
| Text.NonEmptyAppend | app/search/page.tsx:33-34 | the filter goes entry by entry: filtering a concatenation concatenates the filtered parts, so the kept entries stay in order |
| Text.RemoveAll | app/home/page.tsx:105-106 | `replace(/[-:]/g, '')` leaves none of the removed characters and never grows the string |
| Text.RemoveAllAbsent | app/home/page.tsx:105-106 | removing characters that do not occur changes nothing |
| Text.RemoveAllOnlyRemoves | app/home/page.tsx:105-106 | removing characters brings in no new character |
| Lists.Without | app/search/page.tsx:153-159 | `filter(c => c !== x)` drops every `x` and keeps every other value that occurs; a list without `x` is kept as it is; a duplicate-free list stays duplicate-free |
| Lists.WithoutCounts | app/search/page.tsx:155 | every other entry is kept as often as it occurs: the multiset is the input's less its copies of `x` |
| Lists.WithoutAppend | app/search/page.tsx:155 | the filter goes entry by entry: filtering a concatenation concatenates the filtered parts, so the kept entries stay in order, duplicates or not |
| Lists.AddIfAbsent | app/search/page.tsx:137-138 | `includes` then append: a present entry leaves the list exactly as it was (duplicates included), an absent one is appended at the end; no duplicate is made |
| Lists.Toggle | app/profile/fill/page.tsx:296-300 | an absent entry is appended at the end; a present one is filtered out as `Without` does, the rest in order; membership of the entry flips, no other entry's does, and duplicate-freedom is kept |
| Lists.ToggleTwiceAbsent | app/profile/fill/page.tsx:331-335 | toggling an absent entry twice restores the list |
| Lists.ToggleTwicePresent | app/profile/fill/page.tsx:331-335 | toggling a present entry twice in a duplicate-free list moves it to the end, with the same multiset of entries |
| Http.Consecutive | app/search/page.tsx:71 | `n` page numbers, starting at `from` and each one more than the last |
| Chats.RunKeepsValid | app/chats/page.tsx:28-55 | every run keeps the page counter at least 1, with no request outstanding once the list is exhausted |
| Chats.ExhaustionIsFinal | app/chats/page.tsx:29 | once `hasMore` is false and nothing is outstanding, no event issues a request or changes anything |
| Chats.RunOnlyGrows | app/chats/page.tsx:38-42 | `hasMore` is never set back to true, the list only grows at its end, and the page counter never goes back |
| Chats.SingleFlight | app/chats/page.tsx:29-31 | requests issued and responses consumed balance against the one outstanding request, so two requests are never outstanding together |
| Chats.ClicksWhileLoadingIssueNothing | app/chats/page.tsx:29 | any number of "Load More" clicks during a fetch issue nothing |
| Chats.PagesAppendInOrder | app/chats/page.tsx:41-42 | non-empty pages are appended in arrival order; the pages requested are consecutive from `currentPage` |
| Chats.ChatsPage.constructor | app/chats/page.tsx:22-25 | no chats, page 1, idle, more to come: inside the invariant that every run keeps |
| Chats.ChatsPage.BeginFetch | app/chats/page.tsx:28-31 | the guard refuses, changing nothing, while loading or once exhausted; otherwise the page asked for goes out |
| Chats.ChatsPage.ReceivePage | app/chats/page.tsx:36-55 | an empty page exhausts the list; a full page is appended and the counter goes up by one; 401 goes to `/login`; other failures toast; loading always ends |
| Chats.ChatsPage.Mount | app/chats/page.tsx:57-59 | the first fetch asks for page 1 |
| Chats.ChatsPage.LoadMore | app/chats/page.tsx:62-64 | "Load More" asks for `currentPage` |
| SearchUrl.DeleteParam | app/search/page.tsx:111 | `delete` removes every pair of that name and leaves other names' values alone |
| SearchUrl.SetParam | app/search/page.tsx:110 | `set` makes the name read back as the value, leaves other names alone, and leaves one pair of that name |
| SearchUrl.LoadCategories | app/search/page.tsx:33-34 | the parsed category list holds no empty name and no comma |
| SearchUrl.LoadSavedCategories | app/search/page.tsx:112-114 | a category list of non-empty, comma-free names, written comma-joined, or deleted when empty, is read back as it was |
| SearchUrl.LoadSaved | app/search/page.tsx:29-37 | saving the filters and loading them again is the identity, when category names are non-empty and comma-free |
| SearchUrl.RoundTripNeedsJoinableNames | app/search/page.tsx:33 | without that condition the round trip fails: `a,b` comes back as two names, an empty name vanishes |
| SearchUrl.CriteriaImplyMountSearch | app/search/page.tsx:121-125 | every search the gate lets through would also start on mount; the mount searches only to be rejected when just `known` or a blank username is set |
| Search.MountSearch | app/search/page.tsx:121-125 | the mount search goes out exactly when some filter is set and the gate passes; with only `known` set no request goes out and the "enter a username or select a category" toast is added |
| Search.SearchThenLoadMore | app/search/page.tsx:56-73 | a fresh search asks for page 1, stores its users and moves to page 2; load-more pages then append in order |
| Search.LoadMoreStep | app/search/page.tsx:69-73 | one answered "Load More" appends its users, moves one page on, and sets `hasMore` from the page |
| Search.LoadMoreAppends | app/search/page.tsx:60-73 | "Load More" page by page concatenates the pages in order, asks for consecutive pages from `page`, and leaves `hasMore` set from the last page |
| Search.LoadMoreState | app/search/page.tsx:69-73 | the state half of that: filters unchanged, results concatenated, page advanced by the number of pages |
| Search.LoadMoreRequests | app/search/page.tsx:60 | the request half: the pages asked for are `page`, `page + 1`, … |
| Search.EditsKeepChipsClean | app/search/page.tsx:135-169 | chip lists stay duplicate-free, and stay free of empty and comma-holding names, through any edits |
| Search.WithoutKeepsEntries | app/search/page.tsx:155 | removing a chip leaves only chips that were there |
| Search.SearchPage.constructor | app/search/page.tsx:29-37 | the filters are read from the URL; empty results, page 1, idle, more to come |
| Search.SearchPage.HandleSearch | app/search/page.tsx:42-61 | no request, and the toast, exactly when the username is blank and no category is chosen; otherwise a request with the trimmed username, the chips, `known`, and page 1 on reset or `page` otherwise |
| Search.SearchPage.ReceiveSearch | app/search/page.tsx:64-84 | reset: results replaced and page 2; append: results concatenated and page + 1; `hasMore` is whether the page was non-empty; 401 goes to `/login`; other failures toast; loading ends |
| Search.SearchPage.Mount | app/search/page.tsx:121-125 | a reset search only when some filter is set |
| Search.SearchPage.LoadMore | app/search/page.tsx:127-129 | an append search |
| Search.SearchPage.HandleCategorySelect | app/search/page.tsx:135-151 | the chip joins its list only when absent; nothing else changes |
| Search.SearchPage.HandleCategoryRemove | app/search/page.tsx:153-159 | the chip's list becomes `Without` of it: every occurrence of the chip leaves, every other chip stays as often as before (`Lists.WithoutCounts`) and in the same order (`Lists.WithoutAppend`), also for lists read with duplicates from the URL; nothing else changes |
| Search.SearchPage.SetUsername | app/search/page.tsx:184 | only the username changes |
| Search.SearchPage.SetShowKnownPeople | app/search/page.tsx:236 | only `known` changes |
| Search.SearchPage.HandleReset | app/search/page.tsx:161-169 | all filters cleared, no results, page 1, more to come |
| Search.SearchPage.SyncUrl | app/search/page.tsx:108-119 | the URL holds the filters as saved, other parameters are untouched, and loading the URL gives the filters back |
| ProfileFill.FirstFormError | app/profile/fill/page.tsx:187-206 | the first failing check, in order (blank username, taken username, blank name, blank description), each message exactly when the earlier checks pass and its own fails; none when all pass |
| ProfileFill.CheckAfterEdit | app/profile/fill/page.tsx:118-131 | from an available username, only 409 makes it taken; a toast appears exactly for a status other than 200 and 409, and is never empty |
| ProfileFill.Buttons | app/profile/fill/page.tsx:500-541 | the buttons rendered: Back only on panels 1–2, Next only on panels 0–1, Submit only on panel 2, Skip and Upload only on panel 3 (the loading spinner and the `disabled` states are not part of it) |
| ProfileFill.WizardStaysValid | app/profile/fill/page.tsx:500-523 | every run keeps the panel within 0..3, and panel 3 only after a submitted profile |
| ProfileFill.UploadPanelIsFinal | app/profile/fill/page.tsx:516-541 | once on panel 3 the wizard stays there |
| ProfileFill.UploadPanelNeedsSubmit | app/profile/fill/page.tsx:229-232 | reaching panel 3 from an earlier panel takes a successful submit |
| ProfileFill.NextsReachForm | app/profile/fill/page.tsx:509-524 | from any panel `p` before the form, `2 - p` clicks on Next reach the form panel, where Submit is offered |
| ProfileFill.FillProfilePage.constructor | app/profile/fill/page.tsx:23-40 | the initial field values, in a valid wizard state |
| ProfileFill.FillProfilePage.ReceiveProfileStatus | app/profile/fill/page.tsx:47-69 | a registered user goes to `/profile/settings`, an unregistered one triggers a category fetch, 401 goes to `/login`, other failures toast |
| ProfileFill.FillProfilePage.ReceiveCategories | app/profile/fill/page.tsx:85-105 | ok stores the categories, 401 goes to `/login`, other failures toast, loading ends |
| ProfileFill.FillProfilePage.ToggleLearn | app/profile/fill/page.tsx:296-300 | the learn list is toggled |
| ProfileFill.FillProfilePage.ToggleTeach | app/profile/fill/page.tsx:331-335 | the teach list is toggled |
| ProfileFill.FillProfilePage.EditUsername | app/profile/fill/page.tsx:363-367 | the username is cut to 20 characters and marked available again |
| ProfileFill.FillProfilePage.EditName | app/profile/fill/page.tsx:394 | the display name is cut to 20 characters |
| ProfileFill.FillProfilePage.EditDescription | app/profile/fill/page.tsx:406 | the description is cut to 500 characters |
| ProfileFill.FillProfilePage.BeginCheckUsername | app/profile/fill/page.tsx:107-117 | the check is marked running and asks about the current username |
| ProfileFill.FillProfilePage.ReceiveCheckUsername | app/profile/fill/page.tsx:118-131 | 200 makes the username available, 409 taken, other outcomes keep it and toast; the check ends |
| ProfileFill.FillProfilePage.ValidateForm | app/profile/fill/page.tsx:187-206 | the error becomes the first failing check, and the form passes exactly when there is none |
| ProfileFill.FillProfilePage.HandleSubmit | app/profile/fill/page.tsx:208-227 | no request when validation fails; otherwise the form's fields go out |
| ProfileFill.FillProfilePage.ReceiveSubmit | app/profile/fill/page.tsx:229-240 | ok marks the profile submitted, toasts success and moves to panel 3; a failure toasts and stays |
| ProfileFill.FillProfilePage.ClickBack | app/profile/fill/page.tsx:500-503 | one panel back |
| ProfileFill.FillProfilePage.ClickNext | app/profile/fill/page.tsx:509-512 | one panel on |
| ProfileFill.FillProfilePage.ClickSkip | app/profile/fill/page.tsx:526-528 | goes to `/home` |
| ProfileFill.FillProfilePage.HandleCropComplete | app/profile/fill/page.tsx:146-155 | a crop becomes the cropped image with no toast; a failed crop keeps the old one and adds the crop-failure toast |
| ProfileFill.CropEnablesUpload | app/profile/fill/page.tsx:146-250 | after a successful non-empty crop the upload sends exactly that crop; a failed crop leaves what the upload sends unchanged |
| ProfileFill.FillProfilePage.BeginUpload | app/profile/fill/page.tsx:243-250 | no request, and a toast, exactly when there is no cropped image; otherwise the cropped image goes out |
| ProfileFill.FillProfilePage.ReceiveUpload | app/profile/fill/page.tsx:260-274 | ok toasts success and goes to `/home`; a failure toasts and stays |
| ProfileSettingsEditor.ToggleCategoryIn | app/profile/settings/page.tsx:228-237 | the chosen category list is toggled (appended when absent, removed when present) and every other field is unchanged |
| ProfileSettingsEditor.EditCaps | app/profile/settings/page.tsx:316-335 | display name at most 20, email at most 50, description at most 500; an edit touches only its own field |
| ProfileSettingsEditor.EditsKeepInvariants | app/profile/settings/page.tsx:228-335 | through any edits the caps hold, the username is unchanged and the category lists stay duplicate-free |
| ProfileSettingsEditor.SaveSequencing | app/profile/settings/page.tsx:113-166 | a save starts loading; the picture is uploaded exactly when the save succeeded and the cropped image is set and differs from the page's `image` (the loaded picture or the file picked last); loading always ends; 401 goes to `/login` |
| ProfileSettingsEditor.SettingsPage.constructor | app/profile/settings/page.tsx:32-48 | blank settings, loading, no image |
| ProfileSettingsEditor.SettingsPage.ReceiveProfile | app/profile/settings/page.tsx:58-91 | ok stores the settings and asks for the picture; 401 goes to `/login`; other failures toast |
| ProfileSettingsEditor.SettingsPage.ReceivePicture | app/profile/settings/page.tsx:68-90 | ok sets both images to the picture; a failed fetch toasts its reason; loading ends |
| ProfileSettingsEditor.SettingsPage.HandleAvatarChange | app/profile/settings/page.tsx:239-249 | the picked file, as read, becomes the page's `image`; the cropped image is left alone |
| ProfileSettingsEditor.SettingsPage.HandleCropComplete | app/profile/settings/page.tsx:251-262 | with no `image` nothing changes; a successful crop becomes the cropped image; a failed one is toasted and changes no picture |
| ProfileSettingsEditor.NewPictureUploads | app/profile/settings/page.tsx:239-262 | picking a file and cropping it to a new picture makes the next successful save request the upload of exactly that crop |
| ProfileSettingsEditor.PickWithoutCropUploadsOldCrop | app/profile/settings/page.tsx:239-249 | a file picked but not cropped makes a successful save upload the cropped image held from before |
| ProfileSettingsEditor.CropFailureToasts | app/profile/settings/page.tsx:258-261 | a failed crop keeps both pictures and adds the crop-failure toast |
| ProfileSettingsEditor.SettingsPage.ReceiveCategories | app/profile/settings/page.tsx:93-111 | ok stores the categories, 401 goes to `/login`, other failures toast |
| ProfileSettingsEditor.SettingsPage.Edit | app/profile/settings/page.tsx:316-335 | the settings become the edited record |
| ProfileSettingsEditor.SettingsPage.HandleSubmit | app/profile/settings/page.tsx:113-128 | loading starts and the current settings go out |
| ProfileSettingsEditor.SettingsPage.ReceiveSave | app/profile/settings/page.tsx:129-146 | an upload is asked for exactly when the save succeeded and the cropped image is set and differs from the page's `image`; otherwise loading ends |
| ProfileSettingsEditor.SettingsPage.ReceiveUpload | app/profile/settings/page.tsx:148-166 | the upload ends the save: loading ends, and the saved settings are adopted unless the image could not be read |
| ProfileSettingsEditor.SettingsPage.ReceiveDelete | app/profile/settings/page.tsx:206-226 | ok goes to the server's redirect, 401 goes to `/login`, other failures toast |
| Calendar.Stamp | app/home/page.tsx:105-106 | a timestamp holds no `-`, `:` or `.`, and ends in `Z` |
| Calendar.StampOnlyRemoves | app/home/page.tsx:105-106 | a timestamp brings in no character but its final `Z` |
| Calendar.StampOfIso | app/home/page.tsx:105-106 | for a `toISOString` string, the timestamp is its date digits, `T`, its time digits to the second, and `Z`: the UTC DATE-TIME form of section 3.3.5 of RFC 5545 |
| Calendar.StripIso | app/home/page.tsx:105 | removing `-` and `:` from a `toISOString` string leaves the digits, `T`, `.`, the milliseconds and `Z` |
| Calendar.IcsReadsBack | app/home/page.tsx:102-110 | with no line break in the event or the timestamps, the file's text splits back into the nine lines |
| Calendar.IcsStampsBasic | app/home/page.tsx:105-106 | with well-formed ISO timestamps, DTSTART and DTEND are in the UTC DATE-TIME form |
| Calendar.AddToCalendarFile | app/home/page.tsx:98-115 | the end is exactly 3 600 000 ms after the start; the file is `<name>.ics`; with no line break in the event or the timestamps, the content reads back as the nine fixed lines; DTSTART and DTEND are in the UTC DATE-TIME form |
| Home.Begin | app/home/page.tsx:54-55 | loading starts and any earlier error is cleared; nothing else changes |
| Home.RenderPrecedence | app/home/page.tsx:141-156 | each of loading, error, no data and content is shown exactly when none before it applies |
| Home.BeginShowsLoading | app/home/page.tsx:141-143 | during a fetch the page shows "Loading..." |
| Home.RoundShows | app/home/page.tsx:53-80 | after a fetch: content for ok, the error for a failure, and for 307 or 401 the data already held; never "Loading..." |
| Home.RoundNavigates | app/home/page.tsx:61-76 | 307 goes to the server's redirect, 401 to `/login`, nothing else navigates; only a failure toasts |
| Home.TryAgainRecovers | app/home/page.tsx:53-151 | after any number of failed fetches, each either a non-ok status other than 307 and 401 or a failed request, "Try Again" with an ok answer shows the content; each failure adds exactly one toast |
| Home.HomePage.constructor | app/home/page.tsx:44-46 | no data, loading, no error: the first render shows "Loading..." |
| Home.HomePage.BeginFetch | app/home/page.tsx:54-55 | loading starts and the error is cleared |
| Home.HomePage.ReceiveHome | app/home/page.tsx:61-79 | ok stores the data; 307 follows the redirect; 401 goes to `/login`; anything else sets the error and toasts it; loading ends |

## Left out

- Network I/O, `response.json()`, `router.push`/`replace` and toasts are not performed. Responses are input values; navigations and toasts are recorded in sequences.
- The bodies of 307 and 401 answers in handlers that have no branch for them are not modelled. Such an answer falls into the generic error branch with the handler's own fallback message.
- A JSON body that fails to parse is not modelled. Nor is a success body of the wrong shape.
- React hook timing is not modelled: `useEffect` dependency lists, stale closures, batching, and the 1000 ms debounce before the username check. Handlers run as sequential transitions.
- JavaScript `Date` is not modelled: parsing `datetime`, `getTime` and `toISOString`. The start instant and a `toISOString` function are parameters of `Calendar.AddToCalendar`.
- Blob, anchor and object-URL plumbing of the download is not modelled. Only the file's text, name and times are.
- Image cropping, FileReader, `getCroppedImg`, confetti and animation are not modelled. These are browser and graphics APIs; a cropped image is an optional data URL. On the settings page the file reader's result and `getCroppedImg`'s result (or its failure) are parameters of `HandleAvatarChange` and `HandleCropComplete`. On the profile-fill page `getCroppedImg`'s result is the parameter of `HandleCropComplete`, so the picked `image` it crops is not kept as a field there.
- The avatar dialog's open flag (`isAvatarDialogOpen`) is not modelled. It only shows and hides the crop dialog.
- URL percent-encoding and `toString` are not modelled. Nor is the path handed to `router.replace`. The query is a sequence of name-value pairs.
- Strings are sequences of Unicode scalar values. `slice(0, n)` caps count code units in JavaScript, so a character outside the Basic Multilingual Plane counts twice there and once here.
- The search page's category-list fetch (app/search/page.tsx:87-106) is not modelled. It only fills the options of a drop-down.
- Navigation handlers that only push a path are not modelled: user, chat and event clicks, and search result clicks.
- `handleLogout` on the home page (app/home/page.tsx:121-139) is not modelled. It has no state beyond a toast and a push.
- The signup page, the sign-in page (app/page.tsx) and the account settings page (app/settings/page.tsx, as distinct from the modelled app/profile/settings/page.tsx) are not part of this model. Neither are the chat list's presentation components and its fetch wrapper.
- Records are not deduplicated across pages, because the code does not do it.
- `handleSearch` has no in-flight guard in the code. Only the disabled buttons keep a second search from starting, so `Search.Begin` starts one even while loading.
- The iCalendar export follows the code, not full RFC 5545. Text is not escaped (section 3.3.11). There is no UID or DTSTAMP (section 3.6.1). Lines are joined with a line feed, not CRLF.
- Calendar.Stamp: its own contract covers any input. The exact basic-form result is proved only for 24-character `toISOString` output (years 0 to 9999), in `Calendar.StampOfIso`.
