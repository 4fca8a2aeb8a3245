# Blog dashboard frontend: a Dafny model of its core

This project models the core logic of a Next.js blog with an admin dashboard:

- **Mock REST back end.** This is the in-memory data store and the `/api/posts`, `/api/comments` and `/api/newsletter/subscribe` route handlers.
- **Redux slices.** These are the post filters, the editor draft and the UI state (mobile menu, theme).
- **Page helpers.** This group covers:
  - the role check;
  - the user page's error text, link normalisation, detail unwrapping, header name and loading / action flags;
  - the header's avatar initials and Write-link gate;
  - the placement card's class joiner, placement normalisation and labels;
  - the comment section's response normalisation and ownership check.
- **Modal dialogs.** These are the administrator's change-password modal, the change-status modal, the account change-password modal and the avatar editor.
- **Asynchronous workflows.** These are the generic delete confirmation, the placement change and the comment submit / edit / delete handlers.

## How the model is built

**Plain JavaScript values.** Values whose shape the code does not trust are `JsValues.Val`:

- undefined, null, booleans, integers, strings, arrays and objects;
- JavaScript truthiness, `??`, `?.` and `String(...)`.

Error-message chains such as `err?.data?.message || err?.error || ...` are therefore modelled as written, including non-string truthy values.

**Strings and sequences.**

- `JsStrings` gives:
  - ASCII case mapping;
  - the JavaScript whitespace set, `trim`, `includes`, `split(/\s+/)`, `replace(/\s+/g, ...)`;
  - decimal rendering of naturals.
- `Seqs` gives `filter`, `reverse` and `Array.prototype.slice` with negative and out-of-range bounds.

**Shared state.** Anything the source updates in place is a class:

- the data store;
- each slice;
- each modal;
- the avatar editor;
- the comment section.

Each of these handlers is a method that states the whole new state. Most handlers are specified by a pure function (`Confirm`, `Submit`, `Persist`, `Reduce`) whose properties are proved as lemmas.

**Asynchronous inputs.** The user's answer to a dialog and the settlement of each request are parameters (`Outcome = Resolved | Rejected`). The dialogs, toasts, requests and callbacks a handler makes come back as a trace of events, in order. An optional callback prop that a handler calls inside its `try` (`onSuccess`, `onUpdated`) is a `Callback` parameter: not given, returning, or throwing an error, which then lands in the handler's `catch`.

## Model

| member | source | states |
|---|---|---|
| DataStore.Store.constructor | src/mock/data-store.ts:4-6 | the three collections start as the seed arrays |
| DataStore.Store.GetPosts | src/mock/data-store.ts:8-10 | returns the current posts |
| DataStore.Store.SetPosts | src/mock/data-store.ts:12-14 | replaces the posts and leaves comments and subscribers alone |
| DataStore.Store.GetComments | src/mock/data-store.ts:16-18 | returns the current comments |
| DataStore.Store.SetComments | src/mock/data-store.ts:20-22 | replaces the comments and leaves the other two collections alone |
| DataStore.Store.GetSubscribers | src/mock/data-store.ts:24-26 | returns the current subscribers |
| DataStore.Store.SetSubscribers | src/mock/data-store.ts:28-30 | replaces the subscribers and leaves the other two collections alone |
| DataStore.SetThenGet | src/mock/data-store.ts:8-30 | each getter reads back what its setter stored, independently of the other setters |
| PostsRoute.ListPosts | src/app/api/posts/route.ts:5-37 | `total` is the number of posts that pass the filters, counted before paging |
| PostsRoute.Selected | src/app/api/posts/route.ts:14-31 | the search, category and tag stages applied in turn to a copy of the store, then reversed under `sort=oldest`; its meaning is stated by `SelectedIsOneFilter` and `SelectedMembership` |
| PostsRoute.BySearch | src/app/api/posts/route.ts:15-22 | the search stage; stated by `BySearchIsFilter` |
| PostsRoute.ByCategory | src/app/api/posts/route.ts:23-25 | the category stage; stated by `ByCategoryIsFilter` |
| PostsRoute.ByTag | src/app/api/posts/route.ts:26-28 | the tag stage; stated by `ByTagIsFilter` |
| PostsRoute.PageSlice | src/app/api/posts/route.ts:34-35 | `data.slice(start, start + limit)` with `start = (page - 1) * limit`; stated by `PageSliceWindow` and `PageZeroIsEmpty` |
| PostsRoute.PageStart | src/app/api/posts/route.ts:34 | the start index `(page - 1) * limit` is non-negative from page 1 on |
| PostsRoute.BySearchIsFilter | src/app/api/posts/route.ts:15-22 | the search stage keeps exactly the posts whose lower-cased title, category or a tag contains the lower-cased term; an empty term keeps all |
| PostsRoute.ByCategoryIsFilter | src/app/api/posts/route.ts:23-25 | the category stage keeps exact category matches unless the category is absent, empty or `All` |
| PostsRoute.ByTagIsFilter | src/app/api/posts/route.ts:26-28 | the tag stage keeps posts that carry the tag unless it is absent, empty or `All` |
| PostsRoute.SelectedIsOneFilter | src/app/api/posts/route.ts:14-31 | the three stages are one filter by "passes every active filter", reversed exactly when `sort` is `oldest` |
| PostsRoute.SelectedMembership | src/app/api/posts/route.ts:14-31 | a post is listed if and only if it is stored and passes every active filter |
| PostsRoute.SelectedAreKept | src/app/api/posts/route.ts:14-31 | every listed post is a stored post that passes every active filter |
| PostsRoute.OrderFollowsStore | src/app/api/posts/route.ts:14-31 | listing keeps store order: for any split of the store into `a + b`, the listed posts of `a` come before those of `b`, and after them under `sort=oldest` |
| PostsRoute.PageSliceWindow | src/app/api/posts/route.ts:34-35 | from page 1 on, a page is the window of at most `limit` items starting at `(page-1)*limit`, clamped to the list |
| PostsRoute.PageWindow | src/app/api/posts/route.ts:33-37 | the response is that window of the listed posts, with the unpaged total |
| PostsRoute.DefaultPageIsFirstSix | src/app/api/posts/route.ts:11-12 | without `page` and `limit` the response holds the first six listed posts |
| PostsRoute.PageZeroIsEmpty | src/app/api/posts/route.ts:34-35 | `page=0` gives an empty page, because the slice ends at index 0, while `total` still counts every listed post |
| PostsRoute.ListedPostsAreKept | src/app/api/posts/route.ts:14-37 | every post on any page is stored and passes every active filter |
| PostsRoute.HandleGet | src/app/api/posts/route.ts:5-38 | the handler answers `ListPosts` of the stored posts |
| PostsRoute.ReplaceWsRunsEmpty | src/app/api/posts/route.ts:47 | replacing whitespace runs with a non-empty text gives "" only for "" |
| PostsRoute.ReplaceWsRunsNoWsId | src/app/api/posts/route.ts:47 | a whitespace-free text is unchanged by the replacement |
| PostsRoute.SlugFromTitle | src/app/api/posts/route.ts:47 | the title-derived slug is the lower-cased title with its whitespace runs replaced by `-` (each run by exactly one `-`, by JsStrings.ReplaceWsRunsSplit); it has no whitespace, is empty only for a missing or empty title, and is the lower-cased title when that has no whitespace |
| PostsRoute.SlugFromTitleFacts | src/app/api/posts/route.ts:47 | the same three facts about lower-casing then replacing whitespace runs with `-` |
| PostsRoute.Slug | src/app/api/posts/route.ts:47 | the slug is non-empty and whitespace-free; for a non-empty title it is the lower-cased title with each whitespace run replaced by one `-`; `post-{n}` for a missing or empty title |
| JsStrings.ReplaceWsRunsSplit | src/app/api/posts/route.ts:47 | one whitespace run between parts that do not touch it with whitespace becomes exactly one copy of the replacement, and the parts are replaced independently |
| JsStrings.ReplaceWsRunsAppend | src/app/api/posts/route.ts:47 | a part ending in a non-whitespace character is replaced independently of what follows it |
| PostsRoute.SlugOfTwoWords | src/app/api/posts/route.ts:47 | two whitespace-free words joined by any whitespace run give the lower-cased words joined by a single `-` |
| PostsRoute.HelloWorldSlug | src/app/api/posts/route.ts:47 | the title `Hello  World` (two spaces) gives the slug `hello-world` |
| PostsRoute.NewPost | src/app/api/posts/route.ts:41-57 | the id is the next count; the slug is `Slug` of the title and count; each of title, excerpt, content, cover image and category is copied when supplied and non-empty, and takes its default (`Untitled`, "", "", the first stored post's cover image or "", `General`) when missing or empty; tags are copied when supplied, else none; the author is the first stored post's, or the fixed editor author; the given date; `5 min read` |
| PostsRoute.HandlePost | src/app/api/posts/route.ts:40-62 | answers 201; the new post is prepended, the old posts follow unchanged, and comments and subscribers are untouched |
| CommentsRoute.ListComments | src/app/api/comments/route.ts:5-12 | no filter for an absent, empty or `all` postId; otherwise exactly the stored comments of that post |
| CommentsRoute.PostIdFilterActive | src/app/api/comments/route.ts:9 | `postId && postId !== 'all'`: the filter applies only to a present, non-empty id other than `all` |
| CommentsRoute.ListCommentsKeepsOrder | src/app/api/comments/route.ts:9-11 | the filtered list distributes over any split of the store, so store order is kept |
| CommentsRoute.ListCommentsIdempotent | src/app/api/comments/route.ts:9-11 | filtering again for the same post changes nothing |
| CommentsRoute.HandleGet | src/app/api/comments/route.ts:5-13 | the handler answers `ListComments` of the stored comments |
| CommentsRoute.NewComment | src/app/api/comments/route.ts:18-26 | id `c{n+1}`; unapproved; postId, name, email and message are copied when supplied and non-empty, and a missing or empty one takes its default (`Anonymous` for the name, "" otherwise); the given date |
| CommentsRoute.HandlePost | src/app/api/comments/route.ts:15-29 | answers 201 and prepends the new comment; posts and subscribers are untouched |
| SubscribeRoute.NewSubscriber | src/app/api/newsletter/subscribe/route.ts:11-15 | id `n{n+1}`, the given email and date |
| SubscribeRoute.Status | src/app/api/newsletter/subscribe/route.ts:8-17 | 400 for the refusal, 201 for a created subscriber; stated by `HandleSubscribe` |
| SubscribeRoute.HandleSubscribe | src/app/api/newsletter/subscribe/route.ts:5-18 | 400 `Email required` if and only if the email is missing or empty, with the store unchanged; otherwise 201 and the subscriber is prepended |
| SubscribeRoute.SubscribeGrowsByOne | src/app/api/newsletter/subscribe/route.ts:10-17 | a successful subscription adds exactly one subscriber, at the front, with the given email |
| FiltersSlice.Reduce | src/features/blog/filters-slice.ts:22-38 | each action sets its own field to the payload; every other field is kept |
| FiltersSlice.ReduceIdempotent | src/features/blog/filters-slice.ts:22-38 | dispatching an action twice equals dispatching it once |
| FiltersSlice.FilterChangesKeepPage | src/features/blog/filters-slice.ts:23-34 | changing search, category, tag or sort does not reset the page |
| FiltersSlice.LastWriteWins | src/features/blog/filters-slice.ts:22-38 | of two actions of the same kind, the second wins |
| FiltersSlice.FiltersState.constructor | src/features/blog/filters-slice.ts:11-17 | starts as `''`, `All`, `All`, `latest`, page 1 |
| FiltersSlice.FiltersState.SetSearch | src/features/blog/filters-slice.ts:23-25 | the new state is the reducer applied to the old one |
| FiltersSlice.FiltersState.SetCategory | src/features/blog/filters-slice.ts:26-28 | the new state is the reducer applied to the old one |
| FiltersSlice.FiltersState.SetTag | src/features/blog/filters-slice.ts:29-31 | the new state is the reducer applied to the old one |
| FiltersSlice.FiltersState.SetSort | src/features/blog/filters-slice.ts:32-34 | the new state is the reducer applied to the old one |
| FiltersSlice.FiltersState.SetPage | src/features/blog/filters-slice.ts:35-37 | the new state is the reducer applied to the old one |
| FiltersSlice.FiltersState.Dispatch | src/features/blog/filters-slice.ts:19-41 | dispatching any action applies the reducer in place |
| EditorSlice.Reduce | src/features/blog/editor-slice.ts:16-23 | each action sets its own field and keeps the other |
| EditorSlice.LastWriteWins | src/features/blog/editor-slice.ts:16-23 | of two sets of the same field, the second wins |
| EditorSlice.TitleAndContentCommute | src/features/blog/editor-slice.ts:16-23 | setting the title and setting the content commute |
| EditorSlice.EditorState.constructor | src/features/blog/editor-slice.ts:8-11 | starts with an empty title and empty content |
| EditorSlice.EditorState.SetDraftTitle | src/features/blog/editor-slice.ts:17-19 | the new state is the reducer applied to the old one |
| EditorSlice.EditorState.SetDraftContent | src/features/blog/editor-slice.ts:20-22 | the new state is the reducer applied to the old one |
| UiSlice.Reduce | src/features/ui/ui-slice.ts:16-23 | toggle negates the menu flag; setTheme sets the theme; each keeps the other field |
| UiSlice.ToggleTwiceIsIdentity | src/features/ui/ui-slice.ts:17-19 | toggling twice restores the state |
| UiSlice.ToggleFlipsMenuOnly | src/features/ui/ui-slice.ts:17-19 | a toggle always changes the state but never the theme |
| UiSlice.UiState.constructor | src/features/ui/ui-slice.ts:8-11 | starts with the menu closed and the light theme |
| UiSlice.UiState.ToggleMobileMenu | src/features/ui/ui-slice.ts:17-19 | the new state is the reducer applied to the old one |
| UiSlice.UiState.SetTheme | src/features/ui/ui-slice.ts:20-22 | the new state is the reducer applied to the old one |
| Rbac.HasRole | src/lib/rbac.ts:3-11 | a granted check implies a present, non-empty role |
| Rbac.NoRoleHasNothing | src/lib/rbac.ts:4-6 | a missing role never passes |
| Rbac.AnyOfIffMember | src/lib/rbac.ts:7-9 | a list requirement holds exactly for a role the list contains |
| Rbac.OneIffEqual | src/lib/rbac.ts:10 | a single requirement holds exactly for an equal role |
| Rbac.EmptyListNeverSatisfied | src/lib/rbac.ts:7-9 | no role satisfies an empty list |
| Rbac.MoreRolesKeepAccess | src/lib/rbac.ts:7-9 | adding roles to a list never withdraws access |
| Header.InitialOf | src/components/layout/header.tsx:22 | one upper-cased first character, or nothing for an empty word |
| Header.FirstTwoInitials | src/components/layout/header.tsx:21-22 | at most two characters |
| Header.GetInitials | src/components/layout/header.tsx:19-23 | one or two characters; `U` for a missing or empty name |
| Header.BlankNameIsU | src/components/layout/header.tsx:21-22 | a whitespace-only name gives `U` |
| Header.FirstTwoInitialsOfWords | src/components/layout/header.tsx:21-22 | for non-empty words, the upper-cased first letters of the first two |
| Header.InitialsOfText | src/components/layout/header.tsx:19-23 | a name with text gives the upper-cased first non-blank character, plus a second initial exactly when there is a second word |
| Header.LeadingWords | src/components/layout/header.tsx:21 | the first word of a trimmed text starts with its first character, and a second word is never empty |
| Header.WriteLinkIsRoleCheck | src/components/layout/header.tsx:119-121 | the Write link's gate is the role check with admin, super-admin and editor |
| Header.ShowsWriteLink | src/components/layout/header.tsx:119-121 | the menus' three role comparisons; `WriteLinkIsRoleCheck` proves it equals the role check |
| UserView.RtkMessage | src/components/users/UserView.tsx:104-108 | string `data.message`, else array `data.message` joined with ", ", else string `error`, else string `message`, else none, each case stated exactly |
| UserView.GetRtkErrorMessage | src/components/users/UserView.tsx:100-110 | a falsy error or one without those fields gives `Something went wrong.`; otherwise the message found |
| UserView.ThrownErrorShowsMessage | src/components/users/UserView.tsx:108 | a thrown `Error` shows its own message |
| UserView.ValidationMessagesJoined | src/components/users/UserView.tsx:105-106 | a list of validation messages is shown joined with ", " |
| UserView.ThrownStringIsGeneric | src/components/users/UserView.tsx:103-109 | a thrown bare string falls back to the generic text |
| UserView.HttpsPrefixed | src/components/users/UserView.tsx:116 | prefixing `https://` gives a URL with a scheme that is still trimmed |
| UserView.HasHttpScheme | src/components/users/UserView.tsx:115 | `/^https?:\/\//i`: an `http://` or `https://` prefix in any letter case |
| UserView.EnsureHttp | src/components/users/UserView.tsx:112-117 | "" exactly for blank input; otherwise a trimmed URL with an http(s) scheme, either the trimmed input or `https://` before it |
| UserView.EnsureHttpIdempotent | src/components/users/UserView.tsx:112-117 | normalising twice equals normalising once |
| UserView.TrimmedOr | src/components/users/UserView.tsx:201 | the trimmed value, or "" when absent; "" exactly for an absent or blank value |
| UserView.UuidParam | src/components/users/UserView.tsx:201 | the page's uuid is trimmed, and empty exactly when the parameter is absent or blank |
| UserView.Details | src/components/users/UserView.tsx:213-218 | with a non-nullish `data`, details are `data` exactly when `data.user` is truthy; with a nullish `data`, details are the response itself exactly when its own `user` is truthy; none for a nullish response |
| UserView.DataShadowsTopLevelUser | src/components/users/UserView.tsx:213-218 | a response with a `data` field whose `user` is falsy has no details, even with a truthy top-level `user` |
| UserView.WrappedDetails | src/components/users/UserView.tsx:212-218 | the `{ data: { user, profile } }` shape unwraps to its inner object |
| UserView.BareDetails | src/components/users/UserView.tsx:212-218 | the bare `{ user, profile }` shape is taken as it is |
| UserView.HeaderName | src/components/users/UserView.tsx:225-229 | a non-empty trimmed name: the display name, else the username, else `User` |
| UserView.NoUuidNeverLoads | src/components/users/UserView.tsx:231 | without a usable uuid the page never shows as loading |
| UserView.ActionsNeedIdleUser | src/components/users/UserView.tsx:231-233 | actions are enabled only for a loaded user with a uuid while nothing for the page's uuid is loading |
| UserView.Loading | src/components/users/UserView.tsx:231 | the page shows as loading only with a uuid while the details load or refetch; stated by `NoUuidNeverLoads` |
| UserView.CanAct | src/components/users/UserView.tsx:231-233 | actions need a user uuid and no pending load; stated by `ActionsNeedIdleUser` |
| AdminPassword.Validate | src/components/users/ChangePassword.tsx:79-87 | passes if and only if there is a uuid and the trimmed password is non-empty and at least the minimum long; otherwise the first failing check's message |
| AdminPassword.SevenCharactersTooShort | src/components/users/ChangePassword.tsx:45 | with the default minimum, seven characters are refused with the exact message |
| AdminPassword.DisabledCoversFirstChecks | src/components/users/ChangePassword.tsx:213 | the Confirm button is disabled whenever the uuid or password check would fail; an enabled button means those two pass |
| AdminPassword.ConfirmDisabled | src/components/users/ChangePassword.tsx:213 | the Confirm button is disabled while submitting, without a uuid, or with a blank password; related to validation by `DisabledCoversFirstChecks` |
| AdminPassword.GuardedConfirmSendsNothing | src/components/users/ChangePassword.tsx:89-97 | a validation failure is shown, nothing is sent and nothing else changes |
| AdminPassword.Confirm | src/components/users/ChangePassword.tsx:89-119 | `handleConfirm` as a function of the modal state, the `onSuccess` prop and the request's settlement; stated by `GuardedConfirmSendsNothing`, `ConfirmSendsTrimmedPassword` and `ConfirmSettlement` |
| AdminPassword.ConfirmSendsTrimmedPassword | src/components/users/ChangePassword.tsx:99-104 | a request is sent exactly when validation passes, with the uuid and the trimmed password |
| AdminPassword.ConfirmSettlement | src/components/users/ChangePassword.tsx:105-118 | a failed request shows its error and releases the modal; a successful one shows the success text and calls `onSuccess` exactly when given; the modal stays submitting unless `onSuccess` throws, whose error is then shown and the modal released |
| AdminPassword.AdminPasswordModal.constructor | src/components/users/ChangePassword.tsx:39-56 | starts closed with the reset state |
| AdminPassword.AdminPasswordModal.HandleOpen | src/components/users/ChangePassword.tsx:58-72 | only with a uuid and not disabled: reset and open; otherwise nothing changes |
| AdminPassword.AdminPasswordModal.HandleClose | src/components/users/ChangePassword.tsx:74-77 | refused while submitting; otherwise only `open` becomes false |
| AdminPassword.AdminPasswordModal.PasswordChanged | src/components/users/ChangePassword.tsx:174-178 | the new text is stored and both messages go away |
| AdminPassword.AdminPasswordModal.ToggleShowPassword | src/components/users/ChangePassword.tsx:185 | only the visibility flag flips |
| AdminPassword.AdminPasswordModal.HandleConfirm | src/components/users/ChangePassword.tsx:89-119 | the new state and the calls are exactly `Confirm` of the old state, for the `onSuccess` prop as this call finds it |
| AdminPassword.AdminPasswordModal.Submit | src/components/users/ChangePassword.tsx:99-118 | sends the uuid and trimmed password, then `onSuccess` if given; a failed request, or an `onSuccess` that throws, is caught: its error is shown and submitting released, the success text staying in the second case |
| AdminPassword.AdminPasswordModal.CloseTimerFired | src/components/users/ChangePassword.tsx:111-114 | the timer closes the modal and clears submitting |
| ChangeUserRole.Capitalize | src/components/users/ChangeUserRole.tsx:64 | same length; first character upper-cased, the rest unchanged |
| ChangeUserRole.RolesData | src/components/users/ChangeUserRole.tsx:61-68 | exactly the items `Active`/active and `Disabled`/disabled |
| ChangeUserRole.GetErrorMessage | src/components/users/ChangeUserRole.tsx:25-40 | the RTK message chain, then the JSON text of the error, then the generic text |
| ChangeUserRole.ErrorMessageAgreesWithRtk | src/components/users/ChangeUserRole.tsx:25-40 | it differs from the user page's helper only for a truthy error that carries no message and can be stringified |
| ChangeUserRole.Guard | src/components/users/ChangeUserRole.tsx:99-110 | passes if and only if there is a uuid and a selection that differs from the current status; otherwise the first failing check's message |
| ChangeUserRole.ButtonMatchesGuards | src/components/users/ChangeUserRole.tsx:71-75 | a failing guard always disables the button; when not submitting, the button is enabled exactly when the guards pass |
| ChangeUserRole.ConfirmDisabled | src/components/users/ChangeUserRole.tsx:71-75 | the Confirm button is disabled while submitting, without a uuid or selection, or when the selection equals the current status; related to the guards by `ButtonMatchesGuards` |
| ChangeUserRole.Reset | src/components/users/ChangeUserRole.tsx:77-82 | messages and submitting are cleared and the selection returns to the current status |
| ChangeUserRole.StatusModal.constructor | src/components/users/ChangeUserRole.tsx:42-57 | starts closed with the current status selected |
| ChangeUserRole.StatusModal.ResetModalState | src/components/users/ChangeUserRole.tsx:77-82 | the new state is `Reset` of the old one |
| ChangeUserRole.StatusModal.HandleOpen | src/components/users/ChangeUserRole.tsx:84-88 | only with a uuid and not disabled: reset and open; otherwise nothing changes |
| ChangeUserRole.StatusModal.HandleClose | src/components/users/ChangeUserRole.tsx:90-93 | refused while submitting; otherwise only `open` becomes false |
| ChangeUserRole.StatusModal.Select | src/components/users/ChangeUserRole.tsx:185-189 | the choice is stored and both messages go away |
| ChangeUserRole.StatusModal.CurrentRoleChanged | src/components/users/ChangeUserRole.tsx:131-135 | runs when the current status changes: a closed modal follows the new status; an open one keeps its selection |
| ChangeUserRole.StatusModal.HandleConfirm | src/components/users/ChangeUserRole.tsx:95-129 | a failing guard shows its message and sends nothing; otherwise one update with the uuid and selection; on success the success text, `onSuccess` with the selection when given, and the modal kept submitting unless `onSuccess` throws; a failed update or a throwing `onSuccess` shows its error and releases the modal |
| ChangeUserRole.StatusModal.Submit | src/components/users/ChangeUserRole.tsx:112-128 | sends the update, then `onSuccess` with the new status if given; a failed update, or an `onSuccess` that throws, is caught: its error is shown and submitting released, the success text staying in the second case |
| ChangeUserRole.StatusModal.CloseTimerFired | src/components/users/ChangeUserRole.tsx:121-124 | the timer closes the modal and clears submitting |
| AccountPassword.ToStringCall | src/components/auth/ChangePassword.tsx:73 | undefined for a nullish error, otherwise its string form |
| AccountPassword.FailureMessage | src/components/auth/ChangePassword.tsx:70-74 | always truthy: `data.message`, else `error`, else the error's string form, else the fixed text |
| AccountPassword.ObjectErrorShowsObjectText | src/components/auth/ChangePassword.tsx:70-74 | an object error without those fields shows `[object Object]`, never the fixed text |
| AccountPassword.FallbackOnlyForEmptyErrors | src/components/auth/ChangePassword.tsx:70-74 | the fixed text appears exactly for a nullish error or one whose string form is empty or that same text |
| AccountPassword.SubmitCallsOnlyWhenFilled | src/components/auth/ChangePassword.tsx:57-67 | a call is made if and only if both fields are filled in, and it carries the form as typed |
| AccountPassword.SubmitShowsOneMessage | src/components/auth/ChangePassword.tsx:57-77 | after a submit exactly one message is shown, and an error message is truthy |
| AccountPassword.Submit | src/components/auth/ChangePassword.tsx:57-77 | `handleSubmit` as a function of the modal state and the request's settlement; stated by `SubmitCallsOnlyWhenFilled` and `SubmitShowsOneMessage` |
| AccountPassword.AccountPasswordModal.constructor | src/components/auth/ChangePassword.tsx:25-35 | starts closed with an empty form and no messages |
| AccountPassword.AccountPasswordModal.ResetState | src/components/auth/ChangePassword.tsx:39-45 | empty form, no messages, both passwords hidden; `open` kept |
| AccountPassword.AccountPasswordModal.HandleOpen | src/components/auth/ChangePassword.tsx:47-50 | reset and open |
| AccountPassword.AccountPasswordModal.HandleClose | src/components/auth/ChangePassword.tsx:52-55 | refused while loading; otherwise only `open` becomes false |
| AccountPassword.AccountPasswordModal.FormChanged | src/components/auth/ChangePassword.tsx:132-136 | the form takes the new values and both messages go away |
| AccountPassword.AccountPasswordModal.HandleSubmit | src/components/auth/ChangePassword.tsx:57-77 | the new state and the calls are exactly `Submit` of the old state |
| AvatarEdit.NewUrl | src/components/users/AvatarEdit.tsx:83-87 | truthy exactly when one of the four URL fields is; the first truthy field in the source's order |
| AvatarEdit.NewUrlOfBothShapes | src/components/users/AvatarEdit.tsx:79-87 | both documented upload response shapes yield their URL |
| AvatarEdit.FailureMessage | src/components/users/AvatarEdit.tsx:114-119 | always truthy: `data.message`, else `error`, else `message`, else the fixed text |
| AvatarEdit.MissingUrlShowsItsText | src/components/users/AvatarEdit.tsx:89-91 | the missing-URL error is shown with its own text |
| AvatarEdit.ReplacesOld | src/components/users/AvatarEdit.tsx:97 | `avatarUrl && avatarUrl !== newUrl`: the old photo is set and differs from the new URL |
| AvatarEdit.Submit | src/components/users/AvatarEdit.tsx:65-121 | `handleSubmit` as a function of the file, the `onUpdated` prop and the settlement of each request; stated by the lemmas below |
| AvatarEdit.Persist | src/components/users/AvatarEdit.tsx:93-120 | the steps after a successful upload: the profile update and what follows it |
| AvatarEdit.Saved | src/components/users/AvatarEdit.tsx:96-107 | the steps after the profile update: the best-effort delete, success, `onUpdated`, the refetch; a throwing `onUpdated` or failing refetch sets the error |
| AvatarEdit.NoFileNoCalls | src/components/users/AvatarEdit.tsx:69-72 | without a file only the error is set and no request is made |
| AvatarEdit.NoUrlNoUpdate | src/components/users/AvatarEdit.tsx:89-91 | an upload without a URL stops before the profile is touched |
| AvatarEdit.UploadThenUpdate | src/components/users/AvatarEdit.tsx:82-94 | requests start with the upload; when it yields a URL, the profile update with that URL comes second |
| AvatarEdit.DeleteOnlyAfterUpdate | src/components/users/AvatarEdit.tsx:94-103 | the old photo is deleted if and only if the profile update succeeded and the old URL differs from the new one, and only right after that update |
| AvatarEdit.PersistDeletesAfterUpdate | src/components/users/AvatarEdit.tsx:94-103 | after an upload, the only possible delete is of the old photo, directly after the profile update |
| AvatarEdit.UpdatedIffProfileSaved | src/components/users/AvatarEdit.tsx:94-107 | success and `onUpdated` happen exactly when the profile update succeeded (and `onUpdated` is given), even if the delete, `onUpdated` or the refetch fails |
| AvatarEdit.RefetchUnlessNotifyThrows | src/components/users/AvatarEdit.tsx:105-107 | the profile is refetched exactly when it was saved, `refetchProfile` is given and `onUpdated` did not throw; a throwing `onUpdated` leaves its error beside the success text |
| AvatarEdit.AvatarEditor.constructor | src/components/users/AvatarEdit.tsx:28-37 | starts closed with no file, no messages and no calls |
| AvatarEdit.AvatarEditor.OpenEditor | src/components/users/AvatarEdit.tsx:145 | opens and changes nothing else |
| AvatarEdit.AvatarEditor.Close | src/components/users/AvatarEdit.tsx:57-63 | refused while busy; otherwise closes and forgets the file and messages |
| AvatarEdit.AvatarEditor.FileChosen | src/components/users/AvatarEdit.tsx:208-213 | the picked file is kept and the messages go away |
| AvatarEdit.AvatarEditor.HandleSubmit | src/components/users/AvatarEdit.tsx:65-121 | the messages and the appended calls are exactly `Submit` of the old state, for the `onUpdated` prop as this call finds it |
| AvatarEdit.AvatarEditor.PersistPhoto | src/components/users/AvatarEdit.tsx:93-120 | after an upload, the messages and calls are exactly `Persist` |
| AvatarEdit.AvatarEditor.FinishSave | src/components/users/AvatarEdit.tsx:96-107 | after the profile update, the messages and calls are exactly `Saved` |
| PlacementCard.CxDropsFalsy | src/components/blog/PlacementCard.tsx:25-27 | a falsy entry anywhere does not change the class string |
| PlacementCard.CxOfClassStrings | src/components/blog/PlacementCard.tsx:25-27 | non-empty class strings are joined in order with single spaces |
| PlacementCard.Cx | src/components/blog/PlacementCard.tsx:25-27 | `classes.filter(Boolean).join(" ")`; stated by `CxDropsFalsy` and `CxOfClassStrings` |
| PlacementCard.CardClasses | src/components/blog/PlacementCard.tsx:158-162 | the card's `className` is appended after one space only when non-empty |
| PlacementCard.LabelOr | src/components/blog/PlacementCard.tsx:118-120 | the label of a known placement, the raw value otherwise; empty only for "" |
| PlacementCard.Labels | src/components/blog/PlacementCard.tsx:29-33 | the labels of the three known placements |
| PlacementCard.ConfirmHtml | src/components/blog/PlacementCard.tsx:118-120 | the confirmation text, with both placements' labels |
| PlacementCard.UpdatedText | src/components/blog/PlacementCard.tsx:148 | the success toast's text, with the new placement's label |
| PlacementCard.Normalize | src/components/blog/PlacementCard.tsx:63 | a non-empty lower-case value: `general` for a missing or empty placement, the lower-cased value otherwise |
| PlacementCard.NormalizeIgnoresCase | src/components/blog/PlacementCard.tsx:63 | normalisation ignores letter case and is idempotent |
| PlacementCard.PillClass | src/components/blog/PlacementCard.tsx:35-42 | the featured and popular colours exactly for those normalised placements, the default colours for every other value |
| PlacementCard.PillClassIgnoresCase | src/components/blog/PlacementCard.tsx:35-42 | the pill colour does not depend on letter case |
| PlacementCard.Preselect | src/components/blog/PlacementCard.tsx:98 | the select dialog preselects the current placement if it is an option, else `general` |
| PlacementCard.ApiErrorMessage | src/components/blog/PlacementCard.tsx:77-83 | always truthy: the generic text, the string itself, `data.message`, `error`, or the fixed text, each case stated exactly |
| PlacementCard.HandleChangePlacement | src/components/blog/PlacementCard.tsx:85-155 | the update is sent with the post id and the lower-cased choice if and only if the choice is a change and was confirmed; otherwise no update; the exact dialogs and toast in each case |
| PlacementCard.SameChoiceInOtherCaseIsNoChange | src/components/blog/PlacementCard.tsx:108-112 | choosing the current placement in any letter case is not a change |
| PlacementCard.Next | src/components/blog/PlacementCard.tsx:108 | the chosen value, lower-cased |
| PlacementCard.IsChange | src/components/blog/PlacementCard.tsx:108-112 | a choice is a change when its lower-cased value is non-empty and differs from the current placement; stated by `HandleChangePlacement` and `SameChoiceInOtherCaseIsNoChange` |
| PlacementCard.SettledToast | src/components/blog/PlacementCard.tsx:140-154 | the success toast, or the failure toast with `getApiErrorMessage` of the error |
| CommentSection.PayloadNeverContributes | src/components/blog/comment-section.tsx:84-105 | the `payload` fallbacks never change the list or the meta |
| CommentSection.Payload | src/components/blog/comment-section.tsx:84-95 | the `payload` chain as written |
| CommentSection.List | src/components/blog/comment-section.tsx:97-102 | `raw.data.data.data ?? raw.data.data ?? raw.data ?? payload.data ?? []` |
| CommentSection.Meta | src/components/blog/comment-section.tsx:104-105 | `raw.data.data.meta ?? raw.data.meta ?? payload.meta ?? null` |
| CommentSection.NormalizeComment | src/components/blog/comment-section.tsx:107-119 | keeps `_id`, `createdAt`, `status` and `repliesCount`; content is `content ?? ""`, never nullish; the author name is truthy and is the first truthy of display name, name and username, else `Anonymous`; the author uuid is kept when present and null when nullish |
| CommentSection.Normalize | src/components/blog/comment-section.tsx:81-125 | defined if and only if the list is falsy or an array; one comment per item; the total is the meta total, else the count |
| CommentSection.PaginatedEnvelope | src/components/blog/comment-section.tsx:97-105 | `{ data: { data: [..], meta } }` yields its inner list and the meta total |
| CommentSection.BareArray | src/components/blog/comment-section.tsx:97-123 | `{ data: [..] }` yields that list, and the total is its length |
| CommentSection.NothingLoaded | src/components/blog/comment-section.tsx:97-123 | with nothing loaded there are no comments and the total is 0 |
| CommentSection.CanEditIffSameAuthor | src/components/blog/comment-section.tsx:129-130 | editable exactly when the author uuid is the session's non-empty uuid |
| CommentSection.AnonymousNotEditable | src/components/blog/comment-section.tsx:118-130 | a comment without an author uuid is never editable |
| CommentSection.CanEdit | src/components/blog/comment-section.tsx:129-130 | `canEdit`: the session has a uuid and it is the comment's author uuid; stated by `CanEditIffSameAuthor` |
| CommentSection.RequestError | src/components/blog/comment-section.tsx:159-163 | truthy for a non-empty fallback: `data.message`, else `error`, else the fallback |
| CommentSection.EditedText | src/components/blog/comment-section.tsx:170-176 | the sent text is trimmed, and empty exactly for blank input |
| CommentSection.EditText | src/components/blog/comment-section.tsx:170 | `edit.content || ""`, before trimming |
| CommentSection.UpdateReady | src/components/blog/comment-section.tsx:170-176 | an id is open and its text trims to something: an update may be asked for |
| CommentSection.EditBlank | src/components/blog/comment-section.tsx:170-176 | an id is open but its text is blank: the empty-comment error |
| CommentSection.CommentSectionState.constructor | src/components/blog/comment-section.tsx:45-58 | empty form, no messages, edit dialog closed |
| CommentSection.CommentSectionState.MessageChanged | src/components/blog/comment-section.tsx:400 | only the form text changes |
| CommentSection.CommentSectionState.OpenEdit | src/components/blog/comment-section.tsx:132-135 | the dialog opens on the comment's id and text, with no error |
| CommentSection.CommentSectionState.CloseEdit | src/components/blog/comment-section.tsx:137-140 | closed, no id, empty text, no error |
| CommentSection.CommentSectionState.EditChanged | src/components/blog/comment-section.tsx:465-466 | only the edit text changes |
| CommentSection.CommentSectionState.HandleSubmit | src/components/blog/comment-section.tsx:142-165 | blank text shows the write-first error and sends nothing; otherwise one create with the trimmed text, then on success clears the form and refetches; on failure shows the error |
| CommentSection.CommentSectionState.SendComment | src/components/blog/comment-section.tsx:152-164 | the create request and its settlement |
| CommentSection.CommentSectionState.SuccessTimerFired | src/components/blog/comment-section.tsx:157 | only the success message goes away |
| CommentSection.CommentSectionState.HandleUpdate | src/components/blog/comment-section.tsx:167-226 | nothing is sent without an id, with blank text (error shown) or without confirmation; otherwise one update with the trimmed text, then a refetch and close on success, or the error on failure |
| CommentSection.CommentSectionState.SendUpdate | src/components/blog/comment-section.tsx:199-225 | the update request and its settlement |
| CommentSection.CommentSectionState.HandleDelete | src/components/blog/comment-section.tsx:228-278 | nothing without confirmation; otherwise one delete of the id, then a refetch on success or the error on failure |
| SwalConfirmation.SettingOf | src/components/layout/SwalConfiramation.ts:35-52 | a given setting is used as given, even empty; an omitted one takes its default |
| SwalConfirmation.NoOptionsGiveDefaults | src/components/layout/SwalConfiramation.ts:35-52 | with no options every text is its non-empty default |
| SwalConfirmation.Default | src/components/layout/SwalConfiramation.ts:35-52 | the destructuring default of each setting |
| SwalConfirmation.AskDialog | src/components/layout/SwalConfiramation.ts:54-64 | the first dialog: the title and text settings with the warning icon |
| SwalConfirmation.FailureMessage | src/components/layout/SwalConfiramation.ts:103-108 | never nullish: the response message, else the error's message, else the error text |
| SwalConfirmation.ThrownErrorShowsItsMessage | src/components/layout/SwalConfiramation.ts:103-108 | a thrown `Error` shows its message, even an empty one; a bare string falls back to the error text |
| SwalConfirmation.ResponseMessageWins | src/components/layout/SwalConfiramation.ts:105 | an axios-style response message wins over the error's own message |
| SwalConfirmation.DeleteCallsConcat | src/components/layout/SwalConfiramation.ts:90 | the delete calls of a joined trace are those of its parts |
| SwalConfirmation.DeleteCalls | src/components/layout/SwalConfiramation.ts:90 | the ids of the `onDelete` calls in a trace, in order |
| SwalConfirmation.ConfirmDeleteById | src/components/layout/SwalConfiramation.ts:30-118 | `NotConfirmed` if and only if dismissed; `onDelete(id)` is called exactly once when confirmed and never otherwise; the exact dialogs for cancel, other dismissals, success and failure |
| SwalConfirmation.RunDelete | src/components/layout/SwalConfiramation.ts:77-117 | loading, one `onDelete(id)`, close, then the success or error dialog and result |

The helper modules `Wrappers`, `JsValues`, `JsStrings` and `Seqs` model JavaScript built-ins, not repository code. Their lemmas are proof tools for the rows above: trim, split, case mapping, filter, reverse and slice. The two `JsStrings` rows state what `replace(/\s+/g, '-')` does to the post slug.

## Left out

- **Rendering.** The JSX, icons (`placementIcon`), styling, toasts' placement and duration, and Swal decoration options are not modelled. Colours and `focusCancel` are examples. Only the texts and icons that carry meaning are kept.
- **Comment-section dialogs.** The comment section's own Swal dialogs are not in its event trace: the confirmation, loading, success and failure dialogs. Their outcome enters as the `confirmed` and `settled` parameters.
- **Timers.** `setTimeout` callbacks are methods the caller invokes: `CloseTimerFired`, `SuccessTimerFired`, and `Close(false)` for the avatar editor's auto-close. A modal's close timer is armed exactly by a settlement that leaves it submitting, so the caller fires `CloseTimerFired` only then. `clearTimeout` and unmount clean-up are not modelled.
- **Requests.** Network requests, RTK Query caching, `isLoading`/`isFetching` and `unwrap()` are inputs: an `Outcome` per request, or a boolean flag.
- **Case mapping.** Only ASCII letters are mapped. `toLowerCase`/`toUpperCase` on other Unicode letters, and UTF-16 string lengths, are not modelled.
- **Numbers.** Numbers are integers. `Number(...)` of a non-numeric `page` or `limit` (NaN), fractional values and floating point are not modelled.
- **Dates and browser values.** `new Date().toISOString()`, `Intl` date formatting, object URLs (`URL.createObjectURL`) and `FormData` are left out. Dates enter as an opaque `today` string, and files are known by name.
- **ChangeUserRole.GetErrorMessage.** The result of `JSON.stringify(e)` is an input (`Option<string>`, none when it throws). The serialiser itself is not modelled.
- **Error objects.** `Error.prototype.toString`, prototype-less objects and property getters are not modelled. An object's string form is `[object Object]`, and an `Error` is an object with a `message` field.
- **Prototype keys.** `PLACEMENT_LABEL[x]` for keys inherited from `Object.prototype` (`constructor`, `__proto__`) is not modelled; such keys are treated as unknown placements.
- **Identity and aliasing.** Object identity and the aliasing of arrays returned by the store's getters are not modelled. Collections are values, so a caller mutating a returned array is outside the model.
- **Seed data and layout.** The seed posts, comments and subscribers in `src/mock/posts.ts` are constructor parameters. The post title fallback `Untitled post` in the placement card is rendering only.
- **SwalConfirmation.ConfirmDeleteById.** "onDelete is called once" is stated through the list of `OnDelete` events in the trace. Promise scheduling is not modelled.
- **Posts search.** The search also matches the lower-cased category, as the code does (line 19); the model follows the code.
- **Comment payload.** The `payload` variable of the comment section never changes the list or the meta; the model proves this and keeps the definitions as written.
