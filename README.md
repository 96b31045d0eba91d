# Byggarportalen: request gate and project pages, modelled in Dafny

Byggarportalen is a Next.js front end on a Supabase backend, used for construction projects. This
project models its core:

- the request gate that routes signed-in and signed-out visitors (`middleware.dfy`, module `RequestGate`);
- the project list with its "new project" form (`projects_list.dfy`, `ProjectList`);
- the project page: load, status change, detail edit and delete (`project_page.dfy`, `ProjectPage`);
- the members section: load, profile search, add and remove members (`members.dfy`, `ProjectMembers`);
- the timeline image section: replace and remove the uploaded schedule image (`timeline.dfy`,
  `TimelineImage`);
- the project chat: load, realtime inserts, send and delete (`chat.dfy`, `ProjectChat`);
- the profile settings form (`settings.dfy`, `Settings`);
- the user search page (`user_search.dfy`, `UserSearch`);
- the mobile navigation menu (`mobile_nav.dfy`, `Navigation`).

Shared helper modules:

- `Base` holds `Option` and `Reply`.
- `Text` holds JavaScript `trim` over the exact ECMAScript white-space set, `startsWith`, `indexOf`,
  the `s || null` idiom and decimal numerals.
- `Paths` holds the "equal to or below this path" test that both the request gate and the menu use.
- `Lists` holds the "drop every element with this key" filter.
- `Records` holds the `projects` and `profiles` rows.

How the model is built:

- Every React component becomes a `class`. Its `useState` variables are fields.
- Each event handler becomes a method that states the complete new state in terms of the old one.
- Backend calls are not performed. Each awaited reply is a parameter of type `Reply<T>`:
  - `Ok(value)` is a success.
  - `Failed(message)` is the `{ error }` result.
  - `Threw` is a rejected promise. Where the handler has a `catch`, a `Threw` reply produces the
    technical error message. Where it has none, nothing after the `await` runs.
- Most handlers are one atomic method. A handler is split into a start method and a finish method
  where, while it waits, another event reads a flag it has set:
  - the load effects, whose `isMounted` flag is cleared on unmount. The `mounted` field and an
    `epoch` token make a result from an earlier activation (for the chat, members and project page, one for an
    older `projectId`) a no-op;
  - the chat delete (`deletingMessage`);
  - the image removal (`deletingImage`);
  - the status change (`updatingStatus`);
  - the settings load, which awaits the user and then the profile.
- Sequences of backend calls with branching outcomes are written as pure plan functions:
  - `TimelineImage.ReplacePlan` and `TimelineImage.RemovalPlan` return the calls made, the error
    shown and whether the handler completed;
  - `Settings.SavePlan` does the same for the settings form.

  The lemmas about the handlers are stated over these plan functions, and each handler's method is
  proved to follow its plan.

## Model

| member | source | states |
|---|---|---|
| Text.TrimStartSpec | app/components/ProjectChatSection.tsx:119 | the left-trimmed string is a suffix of the input, starts with a non-space character (or is empty), and only white space was removed |
| Text.TrimEndSpec | app/components/ProjectChatSection.tsx:119 | the right-trimmed string is a prefix of the input, ends with a non-space character (or is empty), and only white space was removed |
| Text.TrimIsInfix | app/components/ProjectsClient.tsx:102-104 | `trim()` returns a contiguous slice of its input with white space on both sides removed and nothing else, so it is empty or starts and ends with a non-space character |
| Text.TrimEmptyIff | app/components/ProjectsClient.tsx:93 | `!s.trim()` holds exactly when every character of `s` is white space (both directions) |
| Text.TrimIdempotent | app/components/ProjectPageClient.tsx:129-131 | trimming twice gives the same string as trimming once |
| Text.Trim | app/components/ProjectChatSection.tsx:119 | `String.prototype.trim` over the ECMAScript white-space set; never longer than its input; characterised by Text.TrimStartSpec, Text.TrimEndSpec, Text.TrimIsInfix, Text.TrimEmptyIff and Text.TrimIdempotent |
| Text.TrimmedOrNull | app/components/ProjectsClient.tsx:103-104 | `s.trim() \|\| null` is null exactly for blank input, and is otherwise the non-empty trimmed text |
| Text.IndexOfFrom | app/components/ProjectTimeTableSection.tsx:126 | returns an occurrence at or after the start, with no occurrence between the start and it, or -1 when there is none |
| Text.IndexOf | app/components/ProjectTimeTableSection.tsx:126-127 | -1 exactly when the marker does not occur; otherwise the first index at which it occurs |
| Text.Decimal | app/components/ProjectTimeTableSection.tsx:57 | a decimal numeral has at least one digit, and at least two from ten upwards |
| Text.DecimalInjective | app/components/ProjectTimeTableSection.tsx:57 | different numbers give different numerals |
| Paths.Segment | utils/supbase/middleware.ts:40-42 | the first path segment is a prefix without '/', which ends at the end of the string or at a '/' |
| Paths.SegmentStops | utils/supbase/middleware.ts:40-42 | the segment of `w + t` is `w` when `w` has no '/' and `t` is empty or starts with '/' |
| Paths.AtOrBelowSegment | utils/supbase/middleware.ts:41 | `p === "/" + n \|\| p.startsWith("/" + n + "/")` holds exactly when `p` starts with '/' and its first segment is `n` |
| Paths.AtOrBelowTransitive | app/components/MobileNav.tsx:63-64 | a path below a path that is below a base is itself below the base |
| Paths.SiblingNotBelow | app/components/MobileNav.tsx:63-64 | a path that continues the base with a character other than '/' is not below the base |
| Lists.DropKey | app/components/ProjectChatSection.tsx:182-183 | `prev.filter((m) => m.id !== id)`; never longer than its input; characterised by Lists.DropKeyMembers, Lists.DropKeyLength, Lists.DropKeyConcat and Lists.DropKeyAbsent |
| Lists.DropKeyMembers | app/components/ProjectChatSection.tsx:182 | filtering by `m.id !== id` keeps exactly the elements whose key differs, and only elements of the input |
| Lists.DropKeyConcat | app/components/ProjectMembersSection.tsx:207 | filtering a concatenation filters each part |
| Lists.DropKeyLength | app/components/ProjectMembersSection.tsx:207 | the filter removes exactly as many elements as carry the key |
| Lists.DropKeyAbsent | app/components/ProjectMembersSection.tsx:207 | a list containing no element with the key is left as it is |
| Lists.CountKeyConcat | app/components/ProjectChatSection.tsx:99-103 | the number of elements with a key adds up over a concatenation |
| RequestGate.IsPublic | utils/supbase/middleware.ts:39-42 | `publicPaths.some(...)`; a public path starts with '/'; characterised by RequestGate.PublicIffFirstSegment |
| RequestGate.Decide | utils/supbase/middleware.ts:44-61 | the gate's answer; a redirect goes to "/dashboard" or "/login", carries `next` exactly for a signed-out visitor, and then `next` is the requested path; see the lemmas below |
| RequestGate.PublicIffFirstSegment | utils/supbase/middleware.ts:39-42 | a path is public exactly when it is "/" or its first segment is login, register, integritet or kontakt (a longer word such as "/loginx" is not public) |
| RequestGate.NotPublicWord | utils/supbase/middleware.ts:39-42 | a one-segment path whose word is not one of the public words is not public |
| RequestGate.LoginxNotPublic | utils/supbase/middleware.ts:40-42 | "/loginx" is not public: the prefix test requires a '/' after the public word |
| RequestGate.AboutContactNotPublic | utils/supbase/middleware.ts:39 | "/about" and "/contact" are not public, although the app has pages at those paths (the public list names "/kontakt" and "/integritet") |
| RequestGate.InitialNotPublic | utils/supbase/middleware.ts:39-42 | no path whose first segment starts with a character that no public word starts with is public, at any depth |
| RequestGate.DashboardTreeNotPublic | utils/supbase/middleware.ts:39-42 | the dashboard and every path that extends "/dashboard" need a session |
| RequestGate.SignedInRedirects | utils/supbase/middleware.ts:45-49 | a signed-in visitor is redirected exactly on "/" and "/login", always to "/dashboard" with no `next` |
| RequestGate.SignedOutRedirects | utils/supbase/middleware.ts:52-61 | a signed-out visitor passes on public paths and is sent elsewhere to "/login" with `next` set to the requested path |
| RequestGate.SignedInNeverToLogin | utils/supbase/middleware.ts:45-58 | a signed-in visitor is never redirected to the login page |
| RequestGate.NoRedirectLoop | utils/supbase/middleware.ts:45-61 | the target of any redirect passes through for the same visitor, so no redirect chain forms |
| RequestGate.NextPassesAfterSignIn | utils/supbase/middleware.ts:52-58 | the `next` path remembered for a signed-out visitor is the requested one, and it passes once the visitor is signed in |
| ProjectChat.IsMine | app/components/ProjectChatSection.tsx:210 | `msg.user_id === currentUserId`, false when no user is known |
| ProjectChat.SenderLabel | app/components/ProjectChatSection.tsx:211-212 | the label shown above a message, never empty; its cases are ProjectChat.SenderLabelCases |
| ProjectChat.SenderLabelCases | app/components/ProjectChatSection.tsx:210-212 | the sender label is the profile name when there is one; otherwise "Du" exactly for own messages and "Okänd användare" exactly for others |
| ProjectChat.RealtimeRowFromOtherIsUnknown | app/components/ProjectChatSection.tsx:99-103 | a realtime row without a joined profile, sent by someone else, is labelled "Okänd användare" |
| ProjectChat.EchoAppearsTwice | app/components/ProjectChatSection.tsx:99-103 | appending the sent row and then its realtime echo holds that id twice more than before |
| ProjectChat.DeleteRemovesAllWithId | app/components/ProjectChatSection.tsx:182-183 | deleting a message removes every message with its id, including duplicates, and keeps the others in order |
| ProjectChat.ChatView.constructor | app/components/ProjectChatSection.tsx:29-36 | initial state: no messages, loading, empty input, no dialog |
| ProjectChat.ChatView.Activate | app/components/ProjectChatSection.tsx:48-53 | a (re)run of the load effect for a project sets loading, clears the error and issues a fresh token |
| ProjectChat.ChatView.Teardown | app/components/ProjectChatSection.tsx:107-110 | the effect cleanup marks this activation unmounted |
| ProjectChat.ChatView.FinishLoad | app/components/ProjectChatSection.tsx:54-84 | a stale or unmounted result changes nothing; an error keeps the list and shows the load error; success replaces the list with the rows (or an empty list for null) |
| ProjectChat.ChatView.RealtimeInsert | app/components/ProjectChatSection.tsx:99-103 | a realtime insert is appended as it is, only while the subscription of this activation is live |
| ProjectChat.ChatView.EditInput | app/components/ProjectChatSection.tsx:268 | typing sets the input text |
| ProjectChat.ChatView.Send | app/components/ProjectChatSection.tsx:113-164 | without a user the not-signed-in error is shown; blank input does nothing; otherwise the trimmed text is inserted, the returned row is appended and the input cleared on success, and the input is kept with the matching error on failure |
| ProjectChat.ChatView.SelectForDelete | app/components/ProjectChatSection.tsx:238-246 | the delete button on one of the user's own messages opens the dialog for that message |
| ProjectChat.ChatView.CloseDeleteDialog | app/components/ProjectChatSection.tsx:294-296 | closing the dialog is ignored while a delete is in flight |
| ProjectChat.ChatView.StartDelete | app/components/ProjectChatSection.tsx:166-172 | confirming starts a delete only when a message is selected |
| ProjectChat.ChatView.FinishDelete | app/components/ProjectChatSection.tsx:173-190 | success removes every message with the id and closes the dialog; failure keeps the list and the dialog and shows the matching error |
| ProjectChat.SendThenEcho | app/components/ProjectChatSection.tsx:99-157 | a successful send followed by the realtime echo of the same row lists it twice |
| ProjectMembers.MemberUserIds | app/components/ProjectMembersSection.tsx:124-126 | the set of member user ids holds exactly the non-empty joined profile ids |
| ProjectMembers.RoleToSend | app/components/ProjectMembersSection.tsx:136 | a role is sent exactly when one was typed for that user and it is non-empty |
| ProjectMembers.RoleLine | app/components/ProjectMembersSection.tsx:371-375 | the role line shows the project role, or else the profile's occupation, or nothing, and is never an empty string |
| ProjectMembers.AddedProfileIsMember | app/components/ProjectMembersSection.tsx:168-171 | after a profile's row is appended, the profile counts as a member |
| ProjectMembers.MembersView.constructor | app/components/ProjectMembersSection.tsx:28-38 | initial state: no members, loading, empty search, no typed roles |
| ProjectMembers.MembersView.StartLoad | app/components/ProjectMembersSection.tsx:41-46 | a run of the load effect, on mount or for a new project, takes the new `projectId`, sets loading, clears the error and issues a fresh token |
| ProjectMembers.MembersView.Teardown | app/components/ProjectMembersSection.tsx:81-83 | the effect cleanup marks this activation unmounted |
| ProjectMembers.MembersView.FinishLoad | app/components/ProjectMembersSection.tsx:48-78 | a stale result changes nothing; an error shows the load error; success replaces the members with the rows |
| ProjectMembers.MembersView.EditSearch | app/components/ProjectMembersSection.tsx:237 | typing sets the search text |
| ProjectMembers.MembersView.EditRole | app/components/ProjectMembersSection.tsx:296-300 | typing a role is recorded for that user only |
| ProjectMembers.MembersView.Search | app/components/ProjectMembersSection.tsx:87-122 | a blank search clears the results without a query; otherwise it queries name, company and email by the trimmed term and shows the rows or the matching error |
| ProjectMembers.MembersView.AddToProject | app/components/ProjectMembersSection.tsx:128-185 | nothing happens for a non-owner, a missing id or an existing member; otherwise the insert carries the typed role, and on success the row is appended and the typed role forgotten |
| ProjectMembers.MembersView.RemoveMember | app/components/ProjectMembersSection.tsx:187-212 | only a confirmed removal by the owner is issued; on success every member with that id is removed, on failure the list is kept and the error shown |
| TimelineImage.ExtractPathFromUrl | app/components/ProjectTimeTableSection.tsx:120-132 | no path exactly when there is no URL, it does not parse or its pathname lacks the marker; otherwise the text after the first marker |
| TimelineImage.MarkerSlashes | app/components/ProjectTimeTableSection.tsx:125 | the marker has 18 characters, with a '/' at both ends and none in between |
| TimelineImage.ExtractRoundTrip | app/components/ProjectTimeTableSection.tsx:120-132 | a path placed behind the marker is recovered, provided the prefix neither contains the marker nor ends with its first 17 characters |
| TimelineImage.MarkerOverlapCounterexample | app/components/ProjectTimeTableSection.tsx:126 | a prefix ending in "/project-tidsplan" overlaps the marker, so the extracted path is not the one placed after it |
| TimelineImage.SizeAllowed | app/components/ProjectTimeTableSection.tsx:36 | the size check `file.size > 25 * 1024 * 1024`; its boundary is TimelineImage.SizeCapBoundary |
| TimelineImage.StoragePath | app/components/ProjectTimeTableSection.tsx:56-57 | the upload path lies under the project's folder and ends in ".jpg"; distinct timestamps give distinct paths (TimelineImage.StoragePathInjective) |
| TimelineImage.ReplacePlan | app/components/ProjectTimeTableSection.tsx:44-113 | the calls of a replacement after the size check; it completes exactly when it leaves no error, issues at most four steps and starts with the upload; see the three lemmas below |
| TimelineImage.SizeCapBoundary | app/components/ProjectTimeTableSection.tsx:36-39 | exactly 25 MiB passes the size check and one byte more is refused |
| TimelineImage.StoragePathInjective | app/components/ProjectTimeTableSection.tsx:56-57 | uploads at different timestamps get different storage paths |
| TimelineImage.ReplaceAbortKeepsOldFile | app/components/ProjectTimeTableSection.tsx:48-113 | if compression, upload or row update fails, the old file is never removed and the parent is not notified |
| TimelineImage.ReplaceCleanupRule | app/components/ProjectTimeTableSection.tsx:99-110 | after a successful update the parent is notified, and the old file is removed exactly when there was one and it differs from the new path |
| TimelineImage.ReplaceRemovalFailureIsWarning | app/components/ProjectTimeTableSection.tsx:102-110 | a failed removal of the old file does not show an error or undo the replacement |
| TimelineImage.RemovalPlan | app/components/ProjectTimeTableSection.tsx:206-241 | the calls of an image removal; it completes exactly when it leaves no error, and then its last step notifies the parent |
| TimelineImage.RemovalOrder | app/components/ProjectTimeTableSection.tsx:211-234 | a storage removal that reports an error is only logged: the row is still cleared, and the run completes and notifies the parent exactly when the row update succeeds |
| TimelineImage.RemovalThrowStops | app/components/ProjectTimeTableSection.tsx:211-241 | a storage removal that throws stops the sequence before the row is cleared and shows "Tekniskt fel vid borttagning." |
| TimelineImage.TimelineSection.constructor | app/components/ProjectTimeTableSection.tsx:7-27 | initial state: the image from the props, not uploading, no error, no dialog |
| TimelineImage.TimelineSection.ReceiveProps | app/components/ProjectTimeTableSection.tsx:7-21 | a parent re-render replaces the project id, the owner flag and the shown image URL and path, and keeps the local state |
| TimelineImage.TimelineSection.ReplaceImage | app/components/ProjectTimeTableSection.tsx:29-118 | no file does nothing; a file over the cap shows the size error; otherwise the steps and error follow the replace plan, and the shown image is not changed by the section itself |
| TimelineImage.TimelineSection.OpenDeleteDialog | app/components/ProjectTimeTableSection.tsx:270-278 | the owner's delete button opens the dialog when an image is shown |
| TimelineImage.TimelineSection.CloseDeleteDialog | app/components/ProjectTimeTableSection.tsx:339-341 | closing the dialog is ignored while a removal is in flight |
| TimelineImage.TimelineSection.StartRemoveImage | app/components/ProjectTimeTableSection.tsx:199-210 | confirming starts a removal only when there is an image URL or path, and records the path to remove |
| TimelineImage.TimelineSection.FinishRemoveImage | app/components/ProjectTimeTableSection.tsx:211-245 | the steps and error follow the removal plan; the dialog closes only when the removal completed |
| ProjectList.NewProjectRow | app/components/ProjectsClient.tsx:98-110 | the insert object built from the form; characterised by ProjectList.NewProjectRowNormalises and ProjectList.NewProjectRowIdempotent |
| ProjectList.NewProjectRowNormalises | app/components/ProjectsClient.tsx:98-110 | the insert carries the owner, the trimmed name, the trimmed address and description or null when blank, the raw dates or null, and status "planned" |
| ProjectList.NewProjectRowIdempotent | app/components/ProjectsClient.tsx:102-104 | submitting an already trimmed form gives the same insert |
| ProjectList.ListStatusLabel | app/components/ProjectsClient.tsx:274-278 | "Planerat" exactly for planned, "Pågår" exactly for ongoing, "Avslutat" for every other status |
| ProjectList.ProjectsView.constructor | app/components/ProjectsClient.tsx:19-31 | initial state: no projects, loading, form hidden and empty |
| ProjectList.ProjectsView.StartLoad | app/components/ProjectsClient.tsx:33-38 | mounting sets loading and clears the error |
| ProjectList.ProjectsView.Teardown | app/components/ProjectsClient.tsx:72-74 | unmounting clears the mounted flag |
| ProjectList.ProjectsView.FinishLoad | app/components/ProjectsClient.tsx:40-70 | projects are queried exactly for a signed-in user; no user shows the sign-in error; a failed query shows the load error; success with rows replaces the list, and null data keeps the old list; results after unmount change nothing |
| ProjectList.ProjectsView.ToggleForm | app/components/ProjectsClient.tsx:142 | the new-project button shows or hides the form |
| ProjectList.ProjectsView.HideForm | app/components/ProjectsClient.tsx:225 | cancel hides the form |
| ProjectList.ProjectsView.EditForm | app/components/ProjectsClient.tsx:162-211 | typing sets the form fields |
| ProjectList.ProjectsView.CreateProject | app/components/ProjectsClient.tsx:77-134 | an insert is issued exactly for a signed-in user with a non-blank name; success prepends the row, resets and hides the form; every failure keeps list and form and shows its own error |
| ProjectPage.FieldsOf | app/components/ProjectPageClient.tsx:76-78 | the edit fields seeded from a project, `?? ""` for the optional texts; used by load and cancel |
| ProjectPage.DetailsPatch | app/components/ProjectPageClient.tsx:128-132 | the update object of a details save; characterised by ProjectPage.DetailsPatchNormalises and ProjectPage.SaveUneditedIsIdentity |
| ProjectPage.DetailsPatchNormalises | app/components/ProjectPageClient.tsx:128-132 | the update keeps the current name when the typed one is blank, and stores trimmed address and description, or null when blank |
| ProjectPage.SaveUneditedIsIdentity | app/components/ProjectPageClient.tsx:118-132 | saving the form as loaded from an already normalised project writes back the same values |
| ProjectPage.NormalRoundTrip | app/components/ProjectPageClient.tsx:130-131 | a normalised optional text survives `?? ""`, `trim()` and `\|\| null` unchanged |
| ProjectPage.BadgeLabel | app/components/ProjectPageClient.tsx:183-203 | the badge reads "Pågår" exactly for ongoing, "Avslutat" exactly for completed and "Planerat" for any other status |
| ProjectPage.LabelsAgreeIffKnown | app/components/ProjectPageClient.tsx:183-203 | the badge and the project list's label agree exactly on "planned", "ongoing" and "completed"; for any other status the list says "Avslutat" and the badge "Planerat" |
| ProjectPage.ProjectView.constructor | app/components/ProjectPageClient.tsx:28-39 | initial state: no project, loading, not editing, empty form |
| ProjectPage.ProjectView.Activate | app/components/ProjectPageClient.tsx:41-46 | a run of the load effect sets loading, clears the error and issues a fresh token |
| ProjectPage.ProjectView.Teardown | app/components/ProjectPageClient.tsx:87-89 | the effect cleanup marks this activation unmounted |
| ProjectPage.ProjectView.FinishLoad | app/components/ProjectPageClient.tsx:48-85 | the project is queried exactly for a signed-in user; no user shows the sign-in error; the result sets the project and fills the form, or shows the not-found or load error; stale results change nothing |
| ProjectPage.ProjectView.BeginStatusChange | app/components/ProjectPageClient.tsx:92-100 | a status update starts only with a project loaded and none in flight |
| ProjectPage.ProjectView.FinishStatusChange | app/components/ProjectPageClient.tsx:101-116 | success sets the new status on the shown project; failure keeps it and shows the matching error |
| ProjectPage.ProjectView.ToggleEdit | app/components/ProjectPageClient.tsx:251-254 | the edit button switches edit mode |
| ProjectPage.ProjectView.EditForm | app/components/ProjectPageClient.tsx:316-342 | typing sets the edit fields |
| ProjectPage.ProjectView.CancelEdit | app/components/ProjectPageClient.tsx:351-356 | cancel leaves edit mode and restores the fields from the project |
| ProjectPage.ProjectView.SaveDetails | app/components/ProjectPageClient.tsx:118-151 | with a project loaded the normalised patch is sent; success shows the returned row and leaves edit mode; failure keeps the project and shows the matching error |
| ProjectPage.ProjectView.DeleteProject | app/components/ProjectPageClient.tsx:153-181 | only a confirmed delete of a loaded project is issued, and the page navigates to the project list only on success |
| Navigation.IsActive | app/components/MobileNav.tsx:63-64 | the highlight test `pathname === href \|\| pathname.startsWith(href + "/")`; see Navigation.ActiveHrefs and the lemmas below |
| Navigation.ActiveHrefs | app/components/MobileNav.tsx:62-64 | lists exactly the links whose href equals the pathname or is a parent of it |
| Navigation.ProjectPageActivatesTwo | app/components/MobileNav.tsx:8-12 | on a project page both "Översikt" and "Projekt" are highlighted |
| Navigation.SiblingNotActive | app/components/MobileNav.tsx:63-64 | "/app/projectsX" does not highlight "Projekt" |
| Navigation.UnderAppActivatesOverview | app/components/MobileNav.tsx:63-64 | every page under "/app/" highlights "Översikt" |
| Navigation.ProjectsAndSettingsExclusive | app/components/MobileNav.tsx:8-12 | "Projekt" and "Inställningar" are never highlighted together |
| Navigation.MobileMenu.constructor | app/components/MobileNav.tsx:15 | the menu starts closed |
| Navigation.MobileMenu.Open | app/components/MobileNav.tsx:25-26 | the menu button opens the menu |
| Navigation.MobileMenu.Close | app/components/MobileNav.tsx:41-54 | the overlay and the close button close the menu |
| Navigation.MobileMenu.FollowLink | app/components/MobileNav.tsx:66-70 | following a link navigates to its href and closes the menu |
| Settings.EmailChanged | app/components/SettingsForm.tsx:104 | `email && email !== initialEmail` |
| Settings.EmailFailureText | app/components/SettingsForm.tsx:111-114 | `emailError.message \|\|` the fallback text |
| Settings.SavePlan | app/components/SettingsForm.tsx:95-141 | the calls and messages of a save; exactly one of the success message and an error is left, and at most two calls are made; see the five lemmas below |
| Settings.EmailUpdateOnlyWhenChanged | app/components/SettingsForm.tsx:103-118 | the e-mail change is sent only for a signed-in user whose e-mail is non-empty and differs from the loaded one, and then it is the first call |
| Settings.EmailFailureAborts | app/components/SettingsForm.tsx:109-116 | a rejected e-mail change shows its message (or the fallback text) and the profile is not saved |
| Settings.SavedOnlyAfterUpsert | app/components/SettingsForm.tsx:121-138 | "Profil uppdaterad." is shown exactly when the profile upsert was sent and succeeded |
| Settings.InitialEmailFollowsAcceptedChange | app/components/SettingsForm.tsx:117 | the loaded e-mail becomes the new one exactly when the change was accepted |
| Settings.SecondSaveSkipsEmail | app/components/SettingsForm.tsx:104-117 | after an accepted change, saving again does not send the e-mail change again |
| Settings.SettingsView.constructor | app/components/SettingsForm.tsx:14-25 | initial state: empty e-mail and profile, loading, no messages |
| Settings.SettingsView.StartLoad | app/components/SettingsForm.tsx:27-32 | mounting sets loading and clears the error |
| Settings.SettingsView.Teardown | app/components/SettingsForm.tsx:81-83 | unmounting clears the mounted flag |
| Settings.SettingsView.UserArrived | app/components/SettingsForm.tsx:34-58 | the profile is queried exactly for a signed-in user, whose e-mail fills both e-mail fields; no user shows the sign-in error |
| Settings.SettingsView.ProfileArrived | app/components/SettingsForm.tsx:60-79 | the row fills the profile fields, a missing row leaves them, an error shows the load error; loading ends |
| Settings.SettingsView.EditEmail | app/components/SettingsForm.tsx:161 | typing sets the e-mail field |
| Settings.SettingsView.EditProfile | app/components/SettingsForm.tsx:176-220 | typing sets the profile fields |
| Settings.SettingsView.Submit | app/components/SettingsForm.tsx:86-145 | the calls, messages and new loaded e-mail follow the save plan, and saving ends |
| UserSearch.SearchView.constructor | app/components/UsersSearchClient.tsx:16-20 | initial state: empty query, no results, nothing searched |
| UserSearch.SearchView.EditQuery | app/components/UsersSearchClient.tsx:72 | typing sets the query |
| UserSearch.SearchView.Search | app/components/UsersSearchClient.tsx:22-56 | a blank query clears the results without a request; otherwise name and company are searched by the trimmed term; the "no users" message shows exactly after a search that found nothing and did not fail |

## Left out

- Cookie plumbing of the request gate (utils/supbase/middleware.ts:5-33) is left out. The model takes
  "is there a signed-in user" as a boolean input.
- URL parsing (`new URL(url)`) is an abstract function from URL to pathname that may fail, passed to
  the timeline section.
- compressImage (app/components/ProjectTimeTableSection.tsx:134-197) is left out: canvas, image
  decoding and JPEG quality are browser APIs. Its outcome is a boolean input (`compressed`) and the
  file extension is fixed.
- `Date.now()` is the `now` input of the upload.
- The queries' filtering and ordering (`ilike`, `order`, `eq`) are performed by the database. The model
  records the query sent (term, columns, order) and takes the rows as input.
- Concurrency: React batching and the interleaving of two handlers while one is awaiting are not modelled.
  The exception is the handlers split into start and finish methods. For example, a cancel that happens
  during the wait of a details save is not interleaved with it.
- The parent callback `onImageChange` is unseen code. The model records it as a `NotifyParent` step and
  provides `ReceiveProps` to take new props. It does not assume the parent re-renders.
- `window.confirm` is a boolean input and `router.push` a `navigate` output. `scrollIntoView`,
  clearing the file input, `console` logging, date formatting and the JSX and CSS are left out.
- The sign-out button, login and registration forms and static pages are not part of this model.
- ProjectChat.ChatView.FinishLoad: a failed load shows the error and leaves the list as it was. After
  a project switch that is the previous project's messages, not an empty list.
- TimelineImage.ExtractRoundTrip: the round trip holds only under a side condition on the URL's
  prefix, because the marker can overlap the end of the prefix
  (TimelineImage.MarkerOverlapCounterexample). The stored paths the section itself creates have no such
  prefix.
- ProjectMembers.MembersView.constructor: the `isOwner` prop is fixed for the lifetime of the section,
  so a re-render that changes only `isOwner` is not modelled. A change of `projectId` is modelled by
  `StartLoad`, which re-runs the load for the new project.
