# Lumos profile system: a verified model of its core

Lumos is a club's member directory. Members keep a profile. They choose which parts of it other members may see. Administrators approve new registrations. A small Go backend serves the member list out of Firestore.

This project models the logic inside the React components and the Go member handlers, one Dafny module per source file:

- `Common` (common.dfy): helpers the modules share.
  - JavaScript truthiness and the `||` fallback on optional strings.
  - `charAt(0)`, `slice(0, n)` and `split(c)[0]`.
  - The LINE / Discord / GitHub service order.
  - The role-badge truncation.
- `ProfileEdit` (profile_edit.dfy): the settings editor of `components/profile-edit.tsx`.
  - A profile record with one privacy flag per disclosure group. The single `name` flag gates both `lastName` and `firstName`.
  - The per-field setters. The bio keeps only its first 500 characters.
  - The edit view, and the preview that other members see.
  - The edit/preview mode, as a class.
- `ProfilePage` (profile_page.dfy): the second profile variant, `frontend/app/profile/page.tsx`.
  - Nine entries, each with a publication flag (`公開設定`).
  - The Markdown toolbar, which appends fixed snippets to `自己紹介`.
  - The preview filter, which folds `名` into a combined `姓 名` entry.
  - The JSON payload that `handlePublish` sends, and the alert that follows.
- `AdminDashboard` (admin_dashboard.dfy): the approval queue of `components/admin-dashboard.tsx`. `approveUser` and `rejectUser` move entries between `pendingUsers` and `approvedUsers`. The statistics cards show list sizes.
- `Members` (members.dfy): `GetApiMembers` and `GetApiMembersId` of `backend/pkg/handler/members.go`.
  - The Firestore iterator is the sequence of what its successive `Next()` calls return. The end of the sequence stands for `iterator.Done`.
  - The loop is an imperative `while` loop, proved equal to a recursive specification `ListFrom`.
- `MemberList` (member_list.dfy): the member directory of `components/member-list.tsx`.
  - Cards with avatar and name fallbacks, role badges and link icons.
  - The detail dialog.
  - The cancellable load effect, which discards late results.
- `FrontendMemberList` (frontend_member_list.dfy): the simpler directory of `frontend/components/member-list.tsx`. It has account flags instead of URLs and a fixed member list.

React state (`useState`) is a class whose fields the handler methods reassign. What the components render is a set of pure functions of that state.

Side effects are parameters:
- `fetch` outcomes;
- the current time as an ISO string;
- the Firestore results.

`alert`, `console.error` and `slog` are reduced to the outcome they report.

Behaviour of the code worth knowing before reading the contracts:
- **Hidden fields are omitted, not always marked.** The `profile-edit.tsx` preview drops the bio section when `privacy.bio` is false. The `page.tsx` preview drops every hidden key. Only the other four fields of `profile-edit.tsx` show the `非公開` marker.
- **Bio length cap.** `profile-edit.tsx` keeps the first 500 characters of the bio. `page.tsx` has no cap on `自己紹介`.
- **Visibility keys.** The `page.tsx` payload sends the LINE and Discord flags under `x` and `instagram`. It does not send the GitHub, 学籍番号, ニックネーム or 学部 flags. This is modelled as written.
- **Owner and visitor.** The edit view is what the owner works in, and the preview is how other members see the profile. No code loads a stored profile into either editor; both start from a built-in record.
- **Unused `handleSave`.** Nothing on the `page.tsx` page calls its `handleSave`.

## Model

| member | source | states |
|---|---|---|
| Common.ServicesWhere | components/profile-edit.tsx:381-398 | a service is listed iff its condition holds, and the list is in the order LINE, Discord, GitHub |
| Common.OrElse | components/member-list.tsx:179 | the JavaScript `or` fallback on an optional string: `a` when it is present and non-empty, else `b` |
| Common.FirstChar | components/member-list.tsx:181 | `charAt(0)`: at most one character; empty iff the string is empty; otherwise the string's first character |
| Common.Take | components/profile-edit.tsx:230 | `slice(0, n)`: a prefix of the input whose length is `min(n, length)` |
| Common.BeforeFirst | components/admin-dashboard.tsx:129 | `split(c)[0]`: a prefix without `c`; it is either the whole string or stops right before the first `c` |
| Common.ShownRoles | components/member-list.tsx:187 | the role badges are the first `min(2, n)` roles, in order |
| Common.MoreRoles | components/member-list.tsx:192-196 | the `+k` badge exists iff there are more than two roles, and then `k` is the number of roles beyond the first two |
| Common.RoleBadgesCoverAll | components/member-list.tsx:187-196 | shown badges plus `k` account for every role, and the shown ones are the list's prefix |
| ProfileEdit.Privacy.Toggled | components/profile-edit.tsx:66-69 | the flag map with exactly the chosen flag negated |
| ProfileEdit.GroupOf | components/profile-edit.tsx:163-189 | `lastName` and `firstName`, and only they, are gated by the `name` flag; `firstName` has no flag of its own |
| ProfileEdit.StoredBio | components/profile-edit.tsx:230 | the stored bio is a prefix of the input of at most 500 characters: verbatim when the input fits, exactly 500 characters otherwise |
| ProfileEdit.WithField | components/profile-edit.tsx:126-230 | a setter replaces only its own field (the bio through the 500-character cap); other fields, privacy and accounts are unchanged |
| ProfileEdit.WithToggled | components/profile-edit.tsx:63-71 | `togglePrivacy(f)` negates `privacy[f]` and changes no other flag, no field and no account |
| ProfileEdit.Connected | components/profile-edit.tsx:381-398 | the preview lists exactly the connected services, in the order LINE, Discord, GitHub |
| ProfileEdit.EditViewOf | components/profile-edit.tsx:218-310 | the edit view shows every field verbatim, the bio counter as the bio's length, the switches as the flags, and one row per service that shows the account id iff it is connected, else `未連携` |
| ProfileEdit.PreviewDisclosure | components/profile-edit.tsx:344-398 | student id, department and nickname appear verbatim iff their flag is set, else as `非公開`; the name is `lastName firstName` iff `name` is set, else `非公開`; the bio section is present iff `bio` is set; the connected services are listed |
| ProfileEdit.NameGroupToggle | components/profile-edit.tsx:348 | the single `name` switch turns the displayed name `lastName firstName` into `非公開`, and switching it back restores the preview |
| ProfileEdit.TogglePrivacyInvolution | components/profile-edit.tsx:63-71 | toggling the same flag twice gives back the original record |
| ProfileEdit.BioWriteIdempotent | components/profile-edit.tsx:230 | writing the same bio input twice, or writing back the stored value, stores the same value |
| ProfileEdit.HiddenFieldDoesNotLeak | components/profile-edit.tsx:344-374 | changing a private field other than `firstName` leaves the whole preview unchanged |
| ProfileEdit.AvatarInitialLeaksFirstName | components/profile-edit.tsx:344 | with the name private, the as-written preview still changes when only `firstName` changes, through the avatar initial |
| ProfileEdit.RedactedHiddenFieldDoesNotLeak | components/profile-edit.tsx:344-374 | with the initial redacted, changing any private field, `firstName` included, leaves the preview unchanged |
| ProfileEdit.ProfileEditor.constructor | components/profile-edit.tsx:27-60 | the editor starts in edit mode on the default record |
| ProfileEdit.ProfileEditor.TogglePrivacy | components/profile-edit.tsx:63-71 | the record becomes `WithToggled` of the old one; the mode is unchanged |
| ProfileEdit.ProfileEditor.SetField | components/profile-edit.tsx:126-230 | the record becomes `WithField` of the old one; the mode is unchanged |
| ProfileEdit.ProfileEditor.HandleSave | components/profile-edit.tsx:73-76 | saving leaves edit mode and never changes the record |
| ProfileEdit.ProfileEditor.SelectTab | components/profile-edit.tsx:83 | edit mode iff the chosen tab is `edit`; the record is unchanged |
| ProfileEdit.ProfileEditor.ReturnToEdit | components/profile-edit.tsx:410 | the back button re-enters edit mode; the record is unchanged |
| ProfileEdit.ProfileEditor.Render | components/profile-edit.tsx:98-415 | edit view iff in edit mode, else the preview as rendered. That preview equals the redacted one when the name is public; when it is private, they differ only in the avatar initial, which still shows `firstName`'s first character |
| ProfilePage.Position | frontend/app/profile/page.tsx:146-147 | every key has its place in the record's key order, with `公開設定` excluded |
| ProfilePage.Flags.With | frontend/app/profile/page.tsx:236-239 | `{ ...公開設定, [key]: checked }` sets that flag and keeps every other flag |
| ProfilePage.Profile.With | frontend/app/profile/page.tsx:204-224 | an input's `onChange` sets its own key and keeps every other key and all flags |
| ProfilePage.Profile.WithFlag | frontend/app/profile/page.tsx:233-240 | a switch sets its key's flag to `checked` and keeps the other flags and every value |
| ProfilePage.WithSnippet | frontend/app/profile/page.tsx:161-193 | a toolbar button makes `自己紹介` the old text followed by the button's fixed suffix, with no length cap; every other key and flag is unchanged |
| ProfilePage.EditRows | frontend/app/profile/page.tsx:146-242 | the form has one row per key, in key order, with its value and its switch, whatever the flags say |
| ProfilePage.PreviewEntry | frontend/app/profile/page.tsx:252-266 | a key has a preview entry iff its flag is set and it is not `名` |
| ProfilePage.PreviewFrom | frontend/app/profile/page.tsx:249-271 | the filtered preview has no more entries than keys |
| ProfilePage.PreviewFromEntries | frontend/app/profile/page.tsx:249-271 | the preview's entries are exactly the entries of the listed keys |
| ProfilePage.PreviewShowsKey | frontend/app/profile/page.tsx:249-252 | a key appears in the preview iff its flag is set and it is not `名`; hidden keys are omitted |
| ProfilePage.PreviewShowsValue | frontend/app/profile/page.tsx:266 | a shown plain key displays its stored value verbatim under its own caption |
| ProfilePage.GivenNameFollowsFamilyFlag | frontend/app/profile/page.tsx:253-264 | `姓 名` is shown under `氏名` iff `姓`'s flag is set; `名` never has an entry of its own; `名`'s flag does not affect the preview |
| ProfilePage.PreviewFromIgnoresGivenNameFlag | frontend/app/profile/page.tsx:253 | over any key list, the preview does not depend on `名`'s flag |
| ProfilePage.PreviewShowsIntroduction | frontend/app/profile/page.tsx:259-260 | `自己紹介` appears under its own caption as Markdown of the stored text iff its flag is set |
| ProfilePage.PreviewInKeyOrder | frontend/app/profile/page.tsx:249-251 | preview entries follow the record's key order |
| ProfilePage.PreviewFromOrdered | frontend/app/profile/page.tsx:249-251 | filtering an ordered key list keeps the order |
| ProfilePage.PayloadValues | frontend/app/profile/page.tsx:69-75 | 学籍番号, 学部, 姓, 名, ニックネーム and 自己紹介 are sent verbatim under their JSON keys; the LINE, Discord and GitHub handles are not sent |
| ProfilePage.PayloadVisibility | frontend/app/profile/page.tsx:76-81 | `visibility.name` iff both name flags are set; `self_introduction`, `x` and `instagram` carry the 自己紹介, LINE and Discord flags |
| ProfilePage.PayloadIgnoresFlags | frontend/app/profile/page.tsx:76-81 | the 学籍番号, ニックネーム, 学部 and GitHub flags do not affect the payload |
| ProfilePage.PreviewDisagreesWithPayload | frontend/app/profile/page.tsx:261-264 | with `名` unpublished, the as-written preview shows `山田 太郎` while the payload marks the name not visible |
| ProfilePage.CorrectedPreviewMatchesPayload | frontend/app/profile/page.tsx:77 | the corrected preview shows the full name iff the payload's `visibility.name` holds, and still has no separate `名` entry |
| ProfilePage.ProfilePageState.constructor | frontend/app/profile/page.tsx:37-59 | the page starts editing the default record |
| ProfilePage.ProfilePageState.SetValue | frontend/app/profile/page.tsx:204-224 | the record becomes `With(k, v)` of the old one; the mode is unchanged |
| ProfilePage.ProfilePageState.SetFlag | frontend/app/profile/page.tsx:233-240 | the record becomes `WithFlag(k, checked)` of the old one; the mode is unchanged |
| ProfilePage.ProfilePageState.AppendSnippet | frontend/app/profile/page.tsx:161-193 | the record becomes `WithSnippet` of the old one; the mode is unchanged |
| ProfilePage.ProfilePageState.SetEditing | frontend/app/profile/page.tsx:115-125 | the two mode buttons set the mode and keep the record |
| ProfilePage.ProfilePageState.HandleSave | frontend/app/profile/page.tsx:63-66 | saving leaves edit mode and keeps the record |
| ProfilePage.ProfilePageState.HandlePublish | frontend/app/profile/page.tsx:68-102 | sends the payload of the current record and changes no state; success iff the response status is 2xx, refusal for any other status, error report iff `fetch` threw; the alert is that outcome's message |
| ProfilePage.ProfilePageState.Render | frontend/app/profile/page.tsx:144-271 | edit rows iff editing, else the preview as rendered, which equals the corrected preview unless `姓` is published and `名` is not |
| AdminDashboard.Find | components/admin-dashboard.tsx:118 | `find`: none iff no entry has the id; otherwise the first entry that has it |
| AdminDashboard.Without | components/admin-dashboard.tsx:120 | `filter(u => u.id !== id)`: the entries kept are exactly those with another id, and the list does not grow |
| AdminDashboard.WithoutAppend | components/admin-dashboard.tsx:120-136 | filtering distributes over concatenation, so the remaining entries keep their relative order |
| AdminDashboard.WithoutAbsent | components/admin-dashboard.tsx:118-119 | filtering by an id nobody has changes nothing |
| AdminDashboard.WithoutPresentShrinks | components/admin-dashboard.tsx:120 | filtering by a pending id makes the queue strictly shorter |
| AdminDashboard.DatePart | components/admin-dashboard.tsx:129 | the approval date is the part of the ISO timestamp before the first `T` |
| AdminDashboard.ApprovedFrom | components/admin-dashboard.tsx:123-130 | the approved entry copies id, name, nickname and department, has no roles and carries today's date |
| AdminDashboard.ApproveMoves | components/admin-dashboard.tsx:117-131 | approving a pending id shortens the queue, removes every entry with that id, and appends exactly one approved entry with that id at the end |
| AdminDashboard.Dashboard.constructor | components/admin-dashboard.tsx:100-101 | both lists start as the mock lists |
| AdminDashboard.Dashboard.ApproveUser | components/admin-dashboard.tsx:117-133 | present id: pending is filtered and the approved entry of the first match is appended; absent id: nothing changes |
| AdminDashboard.Dashboard.RejectUser | components/admin-dashboard.tsx:135-137 | pending is filtered by the id and approved is unchanged |
| AdminDashboard.Dashboard.CurrentStats | components/admin-dashboard.tsx:151-193 | the cards show the current lengths of the pending and approved lists, the number of Discord users and the number of roles |
| Members.WithIdFallback | backend/pkg/handler/members.go:48-50 | an empty `Id` is replaced by the document ID, a non-empty one is kept, and the result is non-empty when the document ID is |
| Members.Summarize | backend/pkg/handler/members.go:51-57 | the summary copies `Id`, `Name`, `Nickname`, `Roles` and `Avatar` |
| Members.ListFrom | backend/pkg/handler/members.go:26-92 | reading a stream yields at most one summary per item |
| Members.ListResponse | backend/pkg/handler/members.go:37-95 | 200 iff the listing completed, 500 iff it was aborted |
| Members.GetApiMembers | backend/pkg/handler/members.go:16-96 | the loop, with its `continue`, `break` and early return, responds exactly as the specification `ListFrom` says |
| Members.AbortedIffError | backend/pkg/handler/members.go:36-39 | the request fails iff some item is an iterator error, and then with the first error's message |
| Members.ListFromAppend | backend/pkg/handler/members.go:26-58 | the summaries of an error-free part come first and in order, before those of the rest |
| Members.OneDocument | backend/pkg/handler/members.go:44-59 | a decodable document gives exactly its summary, and an undecodable one gives none |
| Members.SkipUndecodable | backend/pkg/handler/members.go:89-91 | an undecodable document anywhere in the stream, before or after an iterator error, does not change the response |
| Members.SummariesFromDocuments | backend/pkg/handler/members.go:44-57 | every summary comes from a decodable document, with its `Id` filled from the document ID when empty |
| Members.EmptyCollection | backend/pkg/handler/members.go:23-95 | an empty collection gives 200 with an empty array |
| Members.GetApiMembersId | backend/pkg/handler/members.go:99-121 | 404 with `member not found` iff NotFound; 500 with the message for any other read error or a decode failure; otherwise 200 with the detail, its `Id` filled from the document ID when empty |
| MemberList.LinkedServices | components/member-list.tsx:199-213 | a service is linked iff its URL is non-empty, in the order LINE, Discord, GitHub |
| MemberList.LinkIcons | components/member-list.tsx:199-213 | one icon per linked service, in that order, each opening that service's URL |
| MemberList.LinkIconsExactly | components/member-list.tsx:199-213 | the icon of each service is present iff its URL is non-empty, and icons appear in service order |
| MemberList.CardFallbacks | components/member-list.tsx:179-184 | the avatar is the Discord avatar, else the member's own, else `/placeholder-user.jpg`; the title is the Discord name, else the name |
| MemberList.CardRoles | components/member-list.tsx:187-196 | the first `min(2, n)` roles are shown in order, and `+k` is shown iff there are more than two, with `k = n - 2` |
| MemberList.DetailOf | components/member-list.tsx:223-294 | the dialog's avatar is the member's own or `/placeholder.svg`; it lists all roles and the same link icons as the card |
| MemberList.MemberListState.constructor | components/member-list.tsx:138-142 | the mock list is shown, nothing is selected, and the effect is live |
| MemberList.MemberListState.Cleanup | components/member-list.tsx:151-153 | the cleanup cancels the effect and keeps the list and the selection |
| MemberList.MemberListState.Deliver | components/member-list.tsx:143-150 | an array replaces the list only if the effect is not cancelled; a failure, a non-array or a late result leaves the list unchanged |
| MemberList.MemberListState.Select | components/member-list.tsx:174 | clicking a card selects that member |
| MemberList.MemberListState.Close | components/member-list.tsx:221 | closing the dialog clears the selection |
| MemberList.MemberListState.Cards | components/member-list.tsx:170-217 | one card per member, in list order |
| MemberList.MemberListState.Dialog | components/member-list.tsx:221-223 | the dialog is open iff a member is selected, and then shows that member's detail |
| FrontendMemberList.CardRoles | frontend/components/member-list.tsx:151-160 | the first `min(2, n)` roles are shown in order, and `+k` is shown iff there are more than two, with `k = n - 2` |
| FrontendMemberList.CardAvatar | frontend/components/member-list.tsx:143 | the avatar is the member's own when non-empty, else `/placeholder.svg` |
| FrontendMemberList.AccountBadges | frontend/components/member-list.tsx:224-241 | a badge is shown exactly for each service whose flag is true, in the order LINE, Discord, GitHub |
| FrontendMemberList.DetailOf | frontend/components/member-list.tsx:170-241 | the dialog has the card's avatar and all roles, and a badge exactly for each flagged service |
| FrontendMemberList.MemberListState.constructor | frontend/components/member-list.tsx:127-129 | the fixed list is shown and nothing is selected |
| FrontendMemberList.MemberListState.Select | frontend/components/member-list.tsx:139 | clicking a card selects that member |
| FrontendMemberList.MemberListState.Close | frontend/components/member-list.tsx:168 | closing the dialog clears the selection |
| FrontendMemberList.MemberListState.Cards | frontend/components/member-list.tsx:135-164 | one card per member, in list order |
| FrontendMemberList.MemberListState.Dialog | frontend/components/member-list.tsx:168-170 | the dialog is open iff a member is selected, and then shows that member's detail |

## Left out

- String lengths and `charAt(0)` are counted in Unicode scalar values (`seq<char>`). JavaScript counts UTF-16 code units, so for text outside the Basic Multilingual Plane (such as the emoji in the default bio), `StoredBio`'s 500-character cap and `FirstChar` differ from the browser's.
- Markdown rendering (`ReactMarkdown` with its plugins) is a foreign library. Bios and `自己紹介` are opaque strings, and the preview marks them as Markdown without rendering them.
- `fetch`, `alert`, `console.error`, `slog` and `new Date()` are not modelled. Their results are parameters (`FetchResult`, `FetchOutcome`, `GetResult`, the ISO timestamp), and an alert is the message text `HandlePublish` returns with its `PublishOutcome`.
- The Firestore client, the Gin context and JSON encoding are not modelled. The iterator is a sequence of `Next()` results, and a response is a status with a body value.
- `MemberDetail` has only the five fields the summaries copy. The `api` package that declares the rest is not part of this model.
- The mock member records of both member lists are a constructor parameter. The dashboard's mock lists are reproduced.
- `links` and `events` of the member records are not displayed by either list, so they are not modelled.
- The dashboard's new-role input sets `newRoleName` on every keystroke, but no handler reads it, and the add and remove buttons have no `onClick`. `newRoleName` is not modelled, and the role list is constant.
- The rest of the repository is not part of this model:
  - the OAuth and basic-info handlers;
  - configuration loading;
  - the theme toggle;
  - page and layout shells;
  - the admin login gate;
  - JSX markup and styling.
- MemberList.MemberListState.Deliver: every element of a fetched array is taken to be a well-formed member. `Array.isArray` checks only that the data is an array. An array whose elements lack `accounts` (for example the five-field summaries of `GetApiMembers`) replaces the list all the same, and the cards then fail to render. The model does not capture that failure, so `Cards` promises one card per member only for well-formed elements.

## Findings

| source | as written | input that shows it | evidently intended | confidence | as-written member | corrected member |
|---|---|---|---|---|---|---|
| components/profile-edit.tsx:344 | the preview's avatar fallback shows `firstName.charAt(0)` whatever `privacy.name` says | the default record with `privacy.name` false: the name reads `非公開`, the avatar shows `太`, and `firstName := "花子"` changes it to `花` | the initial is hidden with the name it comes from | not executed | ProfileEdit.AvatarInitialLeaksFirstName | ProfileEdit.RedactedHiddenFieldDoesNotLeak |
| frontend/app/profile/page.tsx:261-264 | the preview shows `姓 名` gated only by `姓`'s flag, while the payload sends `visibility.name = 姓 && 名` (line 77) | the default record with `名`'s flag off: the preview shows `山田 太郎`, and the payload says the name is not visible | the preview shows the full name iff the payload publishes it | not executed | ProfilePage.PreviewDisagreesWithPayload | ProfilePage.CorrectedPreviewMatchesPayload |
