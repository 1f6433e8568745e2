# Oshikatsu front end and member entity, modelled in Dafny

This project models the logic of the oshikatsu ("favourite idol") client:

- the form and search schemas (`validation.dfy`);
- the single request function every backend call goes through, with:
  - the bearer-token store,
  - header, URL and body construction,
  - error normalisation into `ApiError`,
  - the value an answered request resolves to (`api_client.dfy`);
- the four request builders of the group API (`oshi_group_api.dfy`);
- the search / create / edit workflow of the group page, as a class whose fields are the page's state cells (`oshi_group_page.dfy`);
- the backend's `OshiMember` entity, with the clock passed in (`oshi_member.dfy`).

The records of `frontend/src/types/api.ts` are in `api_types.dfy`. `Option` (for `null`/`undefined`) is in `wrappers.dfy`.

The model carries no I/O. Where the program calls `fetch` or touches browser storage, the model takes the outcome as an argument:
- `FetchOutcome` is what `fetch` answered;
- the `raises` flags say whether a storage access threw;
- `Outcome` is how a request settled, as the page sees it.

The requests the page issues are recorded in its `sent` field. This makes "no request is issued" and "exactly this request is issued" statable. `Network.calls` does the same for `apiRequest`.

Where the prose design and the code differ, the model follows the code:

- A transport failure becomes `ApiError` with status 0 and the thrown error's own message. The generic network message is used only when the thrown value is not an `Error`.
- A company search ignores the full/fuzzy flags.
- In group-name mode the page checks the flags itself. With neither flag set, it reports the schema's message. With both flags set, it reports a message of its own (`BothModesMessage`).
- Callers do not only ever see `ApiError`. A 2xx reply whose Content-Type names JSON but whose body does not parse rejects with a non-`ApiError` (`OtherFailure`). The page shows its fixed "failed" text for that.
- An error body that already has the `ApiErrorResponse` shape is passed through as it is, status included. Status 0 is therefore not reserved for transport failures. `HttpStatusKept` states that every other error keeps the HTTP status.
- `ApiRequest` and `Settle` model the request exactly as written, through `ParseErrorResponseAsWritten`. The corrected error normalisation is `ParseErrorResponse` (see "## Findings"). `SettleCorrected` is the request settling with it, and `SettleCorrection` states exactly where the two differ.

## Model

| member | source | states |
|---|---|---|
| `Validation.LoginSchema` | frontend/src/lib/validation.ts:9-16 | accepts iff username and password are both non-empty; each empty field reports exactly its own message; accepted values come back unchanged |
| `Validation.RegisterSchema` | frontend/src/lib/validation.ts:21-33 | accepts iff 3 ≤ length(username) ≤ 50, the e-mail is non-empty and well formed, and the password is non-empty; shorter and longer usernames get the "3文字以上" and "50文字以内" messages; an empty e-mail's first message is the required one; a non-empty e-mail reports only the format message, and only when the format check fails |
| `Validation.GroupFormSchema` | frontend/src/lib/validation.ts:38-48 | an empty groupName is rejected with its message; company never reports an error; description is accepted iff absent, empty or at most 1000 long, otherwise it reports the 1000-characters message |
| `Validation.SearchModeSchema` | frontend/src/lib/validation.ts:55-61 | accepts iff exactly one of full/fuzzy is true; otherwise there are no field errors and the single form-level message |
| `Validation.Optional` | frontend/src/lib/validation.ts:42-47 | `.optional()`: an absent value reports no issue, a present one exactly the issues of its checks |
| `Validation.Or` | frontend/src/lib/validation.ts:46-47 | `.or(...)`: no issue iff the first alternative passes or the second does; otherwise the first alternative's issues stand |
| `Validation.ReparseIsStable` | frontend/src/lib/validation.ts:9-61 | for each of the four schemas, accepted data fed back into the same schema is accepted again, unchanged |
| `Validation.DescriptionBoundary` | frontend/src/lib/validation.ts:43-47 | a 1001-character description is rejected with exactly the length message, and its 1000-character prefix is accepted |
| `ApiClient.TokenStore.GetStoredToken` | frontend/src/lib/apiClient.ts:17-23 | returns the stored entry, or null when the storage read raises; never raises |
| `ApiClient.TokenStore.SetStoredToken` | frontend/src/lib/apiClient.ts:28-34 | the entry becomes the token; a failed write leaves the entry as it was and is swallowed |
| `ApiClient.TokenStore.ClearStoredToken` | frontend/src/lib/apiClient.ts:39-45 | the entry becomes null; a failed removal leaves it and is swallowed |
| `ApiClient.TokenLifecycle` | frontend/src/lib/apiClient.ts:17-45 | after a successful set, get returns the token; after a clear it returns null |
| `ApiClient.Headers.Set` | frontend/src/lib/apiClient.ts:104-113 | the value under the lower-cased header name is replaced, and no other header changes |
| `ApiClient.RequestHeaders` | frontend/src/lib/apiClient.ts:104-113 | Content-Type is application/json when a JSON payload is given, else the caller's; Authorization is "Bearer " + token exactly when skipAuth is false and the token read is non-empty, else the caller's; every other header is as the caller gave it |
| `ApiClient.BuildHeaders` | frontend/src/lib/apiClient.ts:104-113 | the fresh headers object built by in-place sets equals RequestHeaders for the token the store answers (null when the read raises) |
| `ApiClient.ResolveUrl` | frontend/src/lib/apiClient.ts:115 | a path starting with "http" is used verbatim, any other is prefixed with the base URL; the result always starts with "http" |
| `ApiClient.ResolveUrlIdempotent` | frontend/src/lib/apiClient.ts:115 | resolving a resolved URL changes nothing |
| `ApiClient.SelectBody` | frontend/src/lib/apiClient.ts:116 | a supplied JSON payload is sent serialised and overrides the raw body; otherwise the raw body (or none) is sent as given |
| `ApiClient.SerializedBodyIsLabelledJson` | frontend/src/lib/apiClient.ts:104-116 | whenever the body sent is a serialisation, the Content-Type sent is application/json, whatever the caller's headers said |
| `ApiClient.ParseErrorResponseAsWritten` | frontend/src/lib/apiClient.ts:50-69 | the code as written: a JSON error body without the error shape and without a message yields exactly the status text, so the last fallback never applies |
| `ApiClient.AsWrittenEmptyMessage` | frontend/src/lib/apiClient.ts:65-68 | as written, status 500 with an empty status text and body `{}` gives an empty message |
| `ApiClient.ParseErrorResponse` | frontend/src/lib/apiClient.ts:50-69 | unparsable body: HTTP status, and statusText or "通信エラーが発生しました"; a body with both status and message passes through unchanged, field errors included; any other body: HTTP status, the body's message if present, no field errors; the message is non-empty unless the server sent an empty one |
| `ApiClient.ParseErrorResponseCorrection` | frontend/src/lib/apiClient.ts:65-68 | the corrected and the as-written versions differ exactly on message-less, non-error-shaped JSON bodies with an empty status text |
| `ApiClient.ContainsInside` | frontend/src/lib/apiClient.ts:136 | `includes` finds a string wherever it occurs inside another |
| `ApiClient.ContainsOnlyInside` | frontend/src/lib/apiClient.ts:136 | `includes` holds only when the string does occur at some position |
| `ApiClient.ContainsExactly` | frontend/src/lib/apiClient.ts:136 | `includes` holds iff the string occurs at some position |
| `ApiClient.IsJsonContentType` | frontend/src/lib/apiClient.ts:135-136 | the reply counts as JSON iff it has a Content-Type header and "application/json" occurs somewhere in it |
| `ApiClient.TransportMessage` | frontend/src/lib/apiClient.ts:126 | a thrown `Error` gives its own message; any other thrown value gives the non-empty network fallback |
| `ApiClient.Settle` | frontend/src/lib/apiClient.ts:118-139 | a transport failure becomes ApiError(status 0, the error's message or the network fallback, no field errors); a non-2xx reply becomes ApiError built from ParseErrorResponseAsWritten, as the code is written; a 2xx reply resolves to the parsed body iff Content-Type contains application/json, to undefined otherwise, and rejects with a non-ApiError when that JSON body does not parse; that is the only non-ApiError rejection |
| `ApiClient.SettleCorrected` | frontend/src/lib/apiClient.ts:130-133 | with the corrected error normalisation, a non-2xx reply becomes ApiError built from ParseErrorResponse; every other outcome settles as Settle |
| `ApiClient.SettleCorrection` | frontend/src/lib/apiClient.ts:130-133 | the written and the corrected request settle differently exactly on a non-2xx reply with a message-less, non-error-shaped JSON body and an empty status text |
| `ApiClient.AsWrittenRequestEmptyMessage` | frontend/src/lib/apiClient.ts:130-133 | as written, a 500 with an empty status text and body `{}` rejects with ApiError("", 500); corrected, with the generic message |
| `ApiClient.JsonWithParametersIsReturned` | frontend/src/lib/apiClient.ts:135-138 | a 2xx reply typed application/json with parameters (such as a charset) resolves to its body |
| `ApiClient.HttpStatusKept` | frontend/src/lib/apiClient.ts:130-133 | a non-2xx reply whose body lacks the error shape yields an ApiError with the HTTP status itself |
| `ApiClient.Network.Fetch` | frontend/src/lib/apiClient.ts:120-124 | a fetch appends exactly its call to the log of calls |
| `ApiClient.ApiRequest` | frontend/src/lib/apiClient.ts:98-140 | exactly one fetch is issued, with the resolved URL, the caller's method, RequestHeaders and SelectBody; the request settles as Settle (the code as written) on the fetch outcome, with no retry |
| `OshiGroupApi.ListOshiGroupsByGroupName` | frontend/src/api/oshiGroupApi.ts:20-33 | path /api/oshi-groups/list-group; params full, fuzzy, groupName in that order, the flags rendered "true"/"false"; default (GET) method, no body, auth not skipped |
| `OshiGroupApi.ListOshiGroupsByCompany` | frontend/src/api/oshiGroupApi.ts:39-46 | path /api/oshi-groups/list-company with the single param company; default options |
| `OshiGroupApi.CreateOshiGroup` | frontend/src/api/oshiGroupApi.ts:52-59 | POST /api/oshi-groups/create with json equal to the request unchanged, no extra headers, no raw body, no query, auth not skipped |
| `OshiGroupApi.UpdateOshiGroup` | frontend/src/api/oshiGroupApi.ts:65-72 | POST /api/oshi-groups/update with json equal to the request unchanged, no extra headers, no raw body, no query, auth not skipped |
| `OshiGroupApi.RequestPath` | frontend/src/api/oshiGroupApi.ts:31-44 | the path handed to apiRequest starts with the builder's path; with a query, a "?" follows and then exactly the encoded parameters; without one it is the path alone |
| `OshiGroupApi.BoolStringRoundTrip` | frontend/src/api/oshiGroupApi.ts:25-28 | `String` of a boolean reads back as that boolean |
| `OshiGroupApi.GroupNameQueryRoundTrip` | frontend/src/api/oshiGroupApi.ts:25-32 | the three arguments of a group-name search are read back exactly from its query |
| `OshiGroupApi.BuildersCarryBearer` | frontend/src/api/oshiGroupApi.ts:20-72 | none of the four builders skips auth, so each call carries "Bearer " + token whenever a non-empty token is stored |
| `OshiGroupApi.WritesSendJson` | frontend/src/api/oshiGroupApi.ts:52-72 | create and update send their request serialised as the body, with Content-Type application/json |
| `OshiGroupApi.BuilderUrlsUseBaseUrl` | frontend/src/api/oshiGroupApi.ts:31-68 | every builder path is relative, so its URL is the base URL followed by the path and query |
| `OshiGroupPage.FailureBanner` | frontend/src/pages/OshiGroupPage.tsx:69-75 | a failed call shows the ApiError itself, anything else the fixed fallback text |
| `OshiGroupPage.SearchCall` | frontend/src/pages/OshiGroupPage.tsx:47-67 | no request iff group-name mode with both or neither flag; company mode issues the company request whatever the flags; group-name mode with exactly one flag issues the group-name request |
| `OshiGroupPage.SearchResult` | frontend/src/pages/OshiGroupPage.tsx:44-79 | a search stopped by the mode check empties the list and shows that check's message; an answered one replaces the list with the response and clears the banner; a failed one empties the list and shows the failure |
| `OshiGroupPage.SearchCheckMatchesSchema` | frontend/src/pages/OshiGroupPage.tsx:52-61 | the handler's mode check accepts exactly what searchModeSchema accepts; for neither flag it reports the schema's message, for both flags a different one |
| `OshiGroupPage.EmptyToAbsent` | frontend/src/pages/OshiGroupPage.tsx:137-138 | an empty or absent optional field is sent as absent, anything else as it is |
| `OshiGroupPage.SaveCall` | frontend/src/pages/OshiGroupPage.tsx:133-146 | an update keyed by editingGroup.id iff a group is being edited, a create otherwise; POST with the form's name and with empty company/description sent as absent |
| `OshiGroupPage.EditForm` | frontend/src/pages/OshiGroupPage.tsx:96-100 | the edit form carries the group's name; a stored company or description is copied as it is, a null one becomes the empty string |
| `OshiGroupPage.UnchangedEditSendsGroupBack` | frontend/src/pages/OshiGroupPage.tsx:94-146 | a group with a non-empty name and a description of at most 1000 characters opens in a form that validates; saving it unchanged sends an update keyed by its id with its own name, company and description (an empty company or description is sent as absent) |
| `OshiGroupPage.FirstFieldMessages` | frontend/src/pages/OshiGroupPage.tsx:119-126 | the loop maps exactly the fields that have a non-empty first message to that first message |
| `OshiGroupPage.RejectionBanner` | frontend/src/pages/OshiGroupPage.tsx:127 | a rejected form shows its first form-level message, or "入力内容を確認してください" when there is none |
| `OshiGroupPage.Page.constructor` | frontend/src/pages/OshiGroupPage.tsx:23-41 | initial state: group-name mode, full=true, fuzzy=false, empty query, empty list, modal closed, empty form, no request issued |
| `OshiGroupPage.Page.SelectGroupNameSearch` | frontend/src/pages/OshiGroupPage.tsx:192 | only the search type changes, to group name |
| `OshiGroupPage.Page.SelectCompanySearch` | frontend/src/pages/OshiGroupPage.tsx:201 | only the search type changes, to company |
| `OshiGroupPage.Page.SelectFull` | frontend/src/pages/OshiGroupPage.tsx:214-217 | full becomes true and fuzzy false, so exactly one mode is selected |
| `OshiGroupPage.Page.SelectFuzzy` | frontend/src/pages/OshiGroupPage.tsx:226-229 | fuzzy becomes true and full false, so exactly one mode is selected |
| `OshiGroupPage.Page.SetSearchQuery` | frontend/src/pages/OshiGroupPage.tsx:244 | only the query changes |
| `OshiGroupPage.Page.DismissError` | frontend/src/pages/OshiGroupPage.tsx:254 | only the search banner is cleared |
| `OshiGroupPage.Page.RunSearch` | frontend/src/pages/OshiGroupPage.tsx:44-79 | issues exactly the requests of SearchCall (none or one); the list and banner become SearchResult; loading ends false; criteria and modal untouched |
| `OshiGroupPage.Page.ApplySearchOutcome` | frontend/src/pages/OshiGroupPage.tsx:62-75 | an answer replaces the list; a failure empties it and sets the banner |
| `OshiGroupPage.Page.HandleSearch` | frontend/src/pages/OshiGroupPage.tsx:81-84 | with the search button enabled (not loading), runs the search with the effect of RunSearch |
| `OshiGroupPage.Page.OpenCreateModal` | frontend/src/pages/OshiGroupPage.tsx:86-92 | opens the modal with an all-empty form, no target, no errors |
| `OshiGroupPage.Page.OpenEditModal` | frontend/src/pages/OshiGroupPage.tsx:94-104 | opens the modal on the group, pre-filled by EditForm, with field and submit errors cleared |
| `OshiGroupPage.Page.CloseModal` | frontend/src/pages/OshiGroupPage.tsx:106-110 | closes the modal, drops the target and the submit banner; form values and field errors stay |
| `OshiGroupPage.Page.EditGroupName` | frontend/src/pages/OshiGroupPage.tsx:314 | only the form's groupName changes |
| `OshiGroupPage.Page.EditCompany` | frontend/src/pages/OshiGroupPage.tsx:327 | only the form's company changes |
| `OshiGroupPage.Page.EditDescription` | frontend/src/pages/OshiGroupPage.tsx:337 | only the form's description changes |
| `OshiGroupPage.Page.DismissSubmitError` | frontend/src/pages/OshiGroupPage.tsx:308 | only the submit banner is cleared |
| `OshiGroupPage.Page.HandleModalSubmit` | frontend/src/pages/OshiGroupPage.tsx:112-158 | invalid form: no request, modal open on the same target, first message per field, RejectionBanner; saved: exactly SaveCall then the current search's request, modal closed, target null, list refreshed by SearchResult; failed save: exactly SaveCall, modal open, failure shown; form values and criteria never change; submitting ends false |
| `OshiGroupPage.Page.ShowRejection` | frontend/src/pages/OshiGroupPage.tsx:117-128 | field errors become the first message per field, and the banner becomes RejectionBanner |
| `OshiGroupPage.Page.Save` | frontend/src/pages/OshiGroupPage.tsx:131-157 | issues SaveCall; on success closes the modal and runs the search again; on failure keeps the modal and shows the failure; submitting ends false |
| `OshiGroupPage.RadiosKeepOneMode` | frontend/src/pages/OshiGroupPage.tsx:214-229 | from the initial state, two sample click sequences on the radios leave exactly one mode selected; the general fact follows from the constructor, from SelectFull and SelectFuzzy each ensuring exactly one mode, and from every other handler's frame, which excludes both flags |
| `OshiMemberModel.OshiMember.ForJpa` | backend/oshikatsu/src/main/java/com/oshikatsu_pj/oshikatsu/oshimember/domain/model/OshiMember.java:48 | the JPA constructor leaves every field at its Java default |
| `OshiMemberModel.OshiMember.constructor` | backend/oshikatsu/src/main/java/com/oshikatsu_pj/oshikatsu/oshimember/domain/model/OshiMember.java:51-59 | memberName, gender and birthDay are the arguments; createdAt and updatedAt are the first and second clock reads; id and oshiGroup stay unset |
| `OshiMemberModel.OshiMember.Update` | backend/oshikatsu/src/main/java/com/oshikatsu_pj/oshikatsu/oshimember/domain/model/OshiMember.java:61-68 | memberName, gender, birthDay become the arguments and updatedAt the clock value; its frame leaves id, oshiGroup and createdAt untouched |
| `OshiMemberModel.CreateThenUpdate` | backend/oshikatsu/src/main/java/com/oshikatsu_pj/oshikatsu/oshimember/domain/model/OshiMember.java:40-68 | a member created at one time and then updated at another holds the update's name, gender and birthday; createdAt is still the creation time, updatedAt is the update time, and id and group stay unset |

## Left out

- `fetch`, `localStorage`, `response.json()` and `JSON.stringify` are not modelled: their results are inputs, and a serialised body is the symbolic `Serialized(payload)`.
- `console.error` logging in `setStoredToken` is not modelled (I/O).
- The `VITE_API_BASE_URL` override of the base URL is build-time configuration. The model uses the default `http://localhost:8080`.
- The e-mail format check of the schema library is a parameter (`isEmail`) of `RegisterSchema`.
- Percent-encoding by `URLSearchParams` is a parameter (`encode`) of `RequestPath`. Parameters are an ordered key/value list.
- Validation.LoginSchema: type-mismatch issues for values that are not strings, and for missing keys, are not modelled. The same holds for the other schemas. The forms always supply strings and booleans.
- Validation.RegisterSchema: lengths count Dafny characters. The source counts UTF-16 code units, so a character outside the Basic Multilingual Plane counts twice there. The same holds for `GroupFormSchema`.
- ApiClient.Headers.constructor: the initial headers are taken as a map that is already keyed by lower-cased name. Merging of duplicate names from a `HeadersInit` is not modelled.
- ApiClient.ApiRequest: of the remaining `fetch` options (`...rest`), only `method` is modelled. Credentials, signal and the rest are passed through untouched by the source.
- ApiClient.ApiRequest: always issues exactly one fetch. The source can also reject with a non-`ApiError` before any fetch, and that is not modelled: `new Headers` can be given an invalid header, `headers.set` can be given a token with a newline or a non-Latin-1 character, and `JSON.stringify` can be given a cyclic or BigInt payload. `Headers.set` also strips leading and trailing whitespace from a value, which the model does not do.
- ApiClient.ParseErrorResponse: an error body key that is present but holds `null` or a value of another JSON type is not modelled. Each of `status`, `message` and `errors` is either absent or of its declared type.
- The `name` property of `ApiError`, and its being a subclass of `Error`, are not modelled.
- OshiGroupPage.Page.HandleModalSubmit: it runs as one sequential step. The fire-and-forget `runSearch()` after a save is modelled as completing before `submitting` is reset. Events interleaved with pending requests, and React's batching of state updates, are not modelled.
- OshiGroupPage.Page.RunSearch: `loading` is true only inside the step. The state "a search is outstanding" is not observable between steps.
- JSX rendering, the `ErrorMessage` component, CSS and the empty-list wording are not modelled (UI).
- `formatDate` is not modelled: it is locale-dependent date formatting.
- `App.tsx`, `DashboardPage.tsx` and `OshiMemberPage.tsx` are not part of this model: they are routing and static UI.
- `OshiMemberRepository.java` is not part of this model: it is a Spring Data interface whose behaviour lives in the framework.
- OshiMemberModel.OshiMember.Update: JPA's `@Version` optimistic locking is not modelled. Neither are the `@OnDelete` cascade and the `updatable = false` column rule (persistence framework).
- OshiMemberModel.OshiMember.constructor: the arguments are values, so a Java `null` argument is not modelled. The `OshiGroup` association is represented by the group's id only. Dates and times are plain records, with no calendar validity.

## Findings

| source | as written | input that shows it | evidently intended | confidence | as-written member | corrected member |
|---|---|---|---|---|---|---|
| frontend/src/lib/apiClient.ts:67 | `body.message ?? response.statusText ?? 'エラーが発生しました'`. `statusText` is always a string, so `??` never reaches the fallback. | A non-2xx reply with an empty status text (every HTTP/2 reply has one) and JSON body `{}` yields the message `""`. `ApiClient.AsWrittenEmptyMessage` shows this for status 500. | Fall back on an empty status text (`statusText \|\| 'エラーが発生しました'`), as line 57 already does for an unparsable body. | medium, not executed | `ApiClient.ParseErrorResponseAsWritten` | `ApiClient.ParseErrorResponse` |
