# kb_assistant_web, modelled in Dafny

A model of the deterministic rules inside the knowledge-base assistant's React
front end, with proofs about them. It covers:

- **Request layer.** The `API_CONFIG` endpoint templates, `buildApiUrl`, and
  how `ApiClient.request` builds a `fetch` call: URL, headers and body. It also
  covers how a response becomes a value or an error message.
- **Admin service.** Each endpoint of `AdminApiService`, with its own
  Authorization header and error rule.
- **Routing.** The `ProtectedRoute` and `PublicRoute` guards and the
  `AppRoutes` route table.
- **Registration.** The form, the ordered validation chain with its email
  pattern, and the submit flow.
- **Admin screens.** The list operations and state of the knowledge-base,
  permission, user and role screens: filters, delete, update, create,
  code toggles and upload forms.
- **Admin layout.** The active-menu rule, the header title, and the user
  name and avatar fallbacks.
- **Chat.** The chat screen's state machine: greeting, send guard, message
  ids, reply, session adoption, Enter key and quick questions.

## How it is modelled

- **External effects as inputs.** The network, `localStorage`, the session
  provider and `window.confirm` are inputs:
  - the stored token is an `Option<string>`;
  - a response is a status with a body that parsed to a `Json` value or did
    not;
  - the guards take `loading` and `isAuthenticated` as given;
  - a confirmation is a `bool`;
  - a `Date.now()` id is a `freshId` parameter.
- **Screen state.** A screen's React state is a Dafny `class` whose fields the
  handler methods reassign.
- **Asynchronous handlers.** A handler that awaits a request is split in two.
  The first method runs up to the request and returns what is sent. The second
  runs once the request settles and takes the outcome as a parameter.
- **Pure rules.** Filters, merges, toggles and lookups are functions. Each is
  specified against its meaning: an order-preserving sub-list holding exactly
  the matching elements, "nothing else changes", first match wins, or an
  inverse.
- **Shared helpers.** Three modules give JavaScript's built-ins the meaning the
  source relies on:
  - `Js`: truthiness, `||` on strings, `String(v)`.
  - `Text`: the ECMAScript white-space set for `trim`, `includes`,
    `startsWith`, `indexOf`, and `replace` with a string pattern including its
    `$` replacement patterns.
  - `Lists`: `filter`.

## Model

| member | source | states |
|---|---|---|
| Lists.FilterMultiset | src/components/admin/rbac/RBACUsers.jsx:101-105 | `Array.prototype.filter` keeps every copy of each element its predicate accepts and no copy of any other, so with the order lemma the kept list is fixed. |
| Lists.RemoveAll | src/components/admin/rbac/RBACUsers.jsx:281 | `prev.filter(code => code !== roleCode)`: no copy of the code remains, every other element keeps its copies, in order, and a list without the code comes back unchanged. |
| ApiConfig.BaseUrl | src/config/api.js:4 | The base URL is the environment value when that is a non-empty string, and `http://localhost:8000` otherwise. |
| ApiConfig.BuildApiUrl | src/config/api.js:46-52 | The URL is the base URL followed by the template after each parameter, in key order, has replaced the first `{key}` then present. With no parameters it is the base URL followed by the template. |
| Text.ReplaceFirstSpec | src/config/api.js:49 | `replace` with a string pattern leaves a string without the pattern unchanged. Otherwise it keeps the text before the first occurrence and everything after it, and a `$`-free value goes in verbatim. |
| ApiConfig.SubstituteWithoutPlaceholders | src/config/api.js:46-51 | A template containing none of the keys' placeholders comes back unchanged. |
| ApiConfig.SubstituteOne | src/config/api.js:48-50 | For one key whose placeholder occurs, the first copy becomes the value and the rest of the template is kept. |
| ApiConfig.SubstituteSingle | src/config/api.js:48-50 | When no `{` precedes the placeholder, the value takes the placeholder's place verbatim. |
| ApiConfig.RepeatedPlaceholderKeepsLaterCopy | src/config/api.js:49 | A placeholder written twice keeps its second copy. |
| ApiConfig.ClientRequest | src/config/api.js:60-73 | The URL is `baseURL + endpoint`, and the method and body are the options'. Without caller headers, the headers are exactly Content-Type `application/json`, plus `Authorization: Bearer <token>` exactly when the stored token is non-empty. Caller headers replace the whole header object. |
| ApiConfig.WrapperRequests | src/config/api.js:90-114 | `get` and `delete` send no body; `post` and `put` send the data. Each fixes its method and sends the default headers. |
| ApiConfig.ErrorMessage | src/config/api.js:80 | The error message is `String(detail)` when `detail` is truthy, and the fallback otherwise. A non-empty string `detail` is the message itself. |
| ApiConfig.ClientOutcome | src/config/api.js:75-87 | A 2xx response with a parsed body succeeds with that body, and nothing else succeeds. A rejected `fetch` is a network error, and a 2xx body that cannot be read is the parse error. A non-2xx response fails with `请求失败` when its body is unreadable, with the `null`-body error exactly when its body is `null`, and otherwise with `ErrorMessage` of the body: the body's truthy `detail` as a string, else `请求失败`. |
| AdminApi.AdminRequest | src/services/adminApi.js:6-17 | The URL is the base URL followed by the endpoint. Without caller headers, the headers are exactly Content-Type and `Authorization: Bearer <token or empty>`. Caller headers replace the whole object. |
| AdminApi.AuthorizationHeaders | src/services/adminApi.js:13 | With a stored token, both request layers send the same headers. Without one, only the admin service sends Authorization, as the bare `Bearer `. |
| AdminApi.ListRoles | src/services/adminApi.js:35-37 | A GET of the configured `LIST_ROLES` path, with no body and no caller headers. |
| AdminApi.SetRoles | src/services/adminApi.js:39-44 | A POST of the role data, as given, to the configured `SET_ROLES` path. |
| AdminApi.ListPermissions | src/services/adminApi.js:46-49 | A GET whose path starts with the configured `LIST_PERMISSIONS` path, and is exactly that path for an absent or empty module. |
| AdminApi.GetRolePermissions | src/services/adminApi.js:51-53 | A GET, with no body, of the `GET_ROLE_PERMISSIONS` template filled with the role code (for a code without `$`). |
| AdminApi.SetRolePermissions | src/services/adminApi.js:55-60 | A PUT of `{perm_codes}`, the codes as a string array, to the `SET_ROLE_PERMISSIONS` template filled with the role code (for a code without `$`). |
| AdminApi.GetUserRoles | src/services/adminApi.js:63-65 | A GET, with no body, of the `GET_USER_ROLES` template filled with the username (for a name without `$`). |
| AdminApi.SetUserRoles | src/services/adminApi.js:67-72 | A PUT of `{role_codes}`, the codes as a string array, to the `SET_USER_ROLES` template filled with the username (for a name without `$`). |
| AdminApi.ListKBs | src/services/adminApi.js:75-77 | A GET of the configured `KB.LIST` path, with no body. |
| AdminApi.CreateKB | src/services/adminApi.js:79-84 | A POST of the knowledge-base data, as given, to the configured `KB.CREATE` path. |
| AdminApi.UpdateKB | src/services/adminApi.js:86-91 | A PUT of the data to the `KB.UPDATE` template filled with the id (for an id without `$`). |
| AdminApi.DeleteKB | src/services/adminApi.js:93-97 | A bodiless DELETE of the `KB.DELETE` template filled with the id (for an id without `$`). |
| AdminApi.GetKBDetail | src/services/adminApi.js:99-101 | A GET, with no body, of the `KB.DETAIL` template filled with the id (for an id without `$`). |
| AdminApi.GetAdminStats | src/services/adminApi.js:104-106 | A GET of the configured `ADMIN.STATS` path, with no body. |
| AdminApi.ListPermissionsQuery | src/services/adminApi.js:46-49 | `?module=<m>` is appended exactly when the module is a non-empty string. The call is a GET with no body. |
| AdminApi.AssignmentCalls | src/services/adminApi.js:51-72 | The read and the write of a role's permissions, and of a user's roles, share one path. The read is the default GET. The write is PUT with `{perm_codes}` or `{role_codes}`. |
| AdminApi.KbItemCalls | src/services/adminApi.js:86-101 | Update, delete and detail use `/kb/<id>/update`, `/delete` and `/detail`, with PUT, DELETE and the default GET. Only update carries a body. |
| AdminApi.RoleCallsMatchTemplates | src/services/adminApi.js:51-60 | For a role code without `$`, the interpolated paths equal the `API_CONFIG` templates filled in by `buildApiUrl`'s rule. |
| AdminApi.UserCallsMatchTemplates | src/services/adminApi.js:63-72 | The same holds for a username and the user-role templates. |
| AdminApi.UpdateKbMatchesTemplate | src/services/adminApi.js:86-91 | The same holds for the knowledge-base update template. |
| AdminApi.DeleteKbMatchesTemplate | src/services/adminApi.js:93-97 | The same holds for the delete template. |
| AdminApi.KbDetailMatchesTemplate | src/services/adminApi.js:99-101 | The same holds for the detail template. |
| AdminApi.StrArray | src/services/adminApi.js:58 | The code list is sent as a JSON array of the same strings in the same order. |
| AdminApi.AdminOutcome | src/services/adminApi.js:19-31 | This is the generic client's outcome, except that a non-2xx response whose body is not JSON fails with the parse error. A non-2xx JSON body fails with the `null`-body error when it is `null`, and otherwise with its truthy `detail` as a string, else `请求失败`. |
| AppRoutes.ProtectedRoute | src/App.jsx:17-32 | While loading, the guard shows the loading view. Otherwise it renders exactly when authenticated, and redirects to `/login` exactly when not. |
| AppRoutes.PublicRoute | src/App.jsx:35-50 | While loading, the guard shows the loading view. Otherwise it renders exactly when anonymous, and redirects to `/chat` exactly when authenticated. |
| AppRoutes.ExactlyOneGuardRedirects | src/App.jsx:31-49 | Once loading has finished, exactly one guard redirects whatever the authentication state. While loading, neither does. |
| AppRoutes.Resolve | src/App.jsx:52-113 | A path shows the 404 screen exactly when the table does not declare it. Only `/login` and `/register` are public. Every screen inside the admin layout is protected. |
| AppRoutes.Page | src/App.jsx:17-113 | The loading view appears only on a guarded path while loading. A redirect goes only to `/login` or `/chat`. |
| AppRoutes.HomeAlwaysReachable | src/App.jsx:56 | `/` shows the home page in every session state. |
| AppRoutes.ProtectedPaths | src/App.jsx:75-98 | `/chat` and every declared `/admin` path show their screen exactly when the user is authenticated and loading has finished. A signed-out user is sent to `/login`. |
| AppRoutes.UndeclaredPathsNotFound | src/App.jsx:101-110 | Every undeclared path shows the 404 screen in every session state. |
| AppRoutes.RedirectsSettleInOneStep | src/App.jsx:31-49 | Following a redirect once, in the same session state, always ends on a screen. |
| Register.SetField | src/components/Register.jsx:21-26 | The named field takes the new value, and every other field keeps its old one. |
| Register.Utf16Length | src/components/Register.jsx:40 | A password's length counts UTF-16 code units. It lies between the number of characters and twice that, and equals it for text inside the Basic Multilingual Plane. |
| Register.Validate | src/components/Register.jsx:31-53 | The form passes exactly when all five checks hold. Each message is produced exactly when its own check fails and every earlier check holds. |
| Register.WhitespaceUsernameRefused | src/components/Register.jsx:32-35 | A username made only of white space is refused first. |
| Register.ShortPasswordRefused | src/components/Register.jsx:40-43 | Once a username is given, a non-empty password of fewer than six Basic Multilingual Plane characters is refused as too short, whatever the confirmation and the email. |
| Register.EmptyEmailAccepted | src/components/Register.jsx:48 | An empty email is never checked against the pattern. |
| Register.EmailPatternUnanchored | src/components/Register.jsx:48 | The pattern is not anchored: an address inside longer text, surrounded by spaces, still matches. |
| Register.EmailNeedsAt | src/components/Register.jsx:48 | A text without `@` never matches. |
| Register.PayloadOf | src/components/Register.jsx:66 | The payload holds every field of the form except `confirmPassword`. |
| Register.RegisterScreen.constructor | src/components/Register.jsx:7-17 | The form starts with every field empty, no error, not loading and not yet registered. |
| Register.RegisterScreen.HandleChange | src/components/Register.jsx:21-29 | One field changes, any error is cleared, and loading and success are kept. |
| Register.RegisterScreen.Submit | src/components/Register.jsx:55-67 | A failing validation sets its message and calls nothing. A passing one starts loading, clears the error and hands over the payload. |
| Register.RegisterScreen.Complete | src/components/Register.jsx:67-81 | Success is set only by a successful registration. A rejection shows its error, or the default text. A thrown call shows the default text. Loading always ends. |
| KBManagement.FilterDocuments | src/components/admin/kb/KBManagement.jsx:80-96 | The result is an order-preserving sub-list. A document is kept exactly when it has the chosen visibility (any visibility for `all`) and, for a non-empty term, matches by filename, id or uploader. `all` with an empty term returns the list unchanged. |
| KBManagement.DeleteById | src/components/admin/kb/KBManagement.jsx:202 | Exactly the documents with other ids remain, in order. Their count plus the count removed is the original length. |
| KBManagement.SetVisibility | src/components/admin/kb/KBManagement.jsx:214-216 | Length and order are kept. A matching document changes only its visibility, and every other document is unchanged. |
| KBManagement.NextVisibility | src/components/admin/kb/KBManagement.jsx:418 | `public` goes to `private`, and every other value, `private` included, goes to `public`; the target is never the current value. |
| KBManagement.NextVisibilityInvolution | src/components/admin/kb/KBManagement.jsx:418 | On `public` and `private`, toggling twice gives the value back. |
| KBManagement.ToggleTwiceRestores | src/components/admin/kb/KBManagement.jsx:214-216 | With unique ids, pressing a document's toggle twice restores the list. |
| KBManagement.StatsOf | src/components/admin/kb/KBManagement.jsx:335-347 | The four numbers are the list's length, the number of documents whose visibility is exactly `public`, the number exactly `private` (each as the length of the matching filter), and the sum of the chunk counts. The two counts add up to at most the total, and exactly to it when every document is public or private. |
| KBManagement.StatsAfterUpdates | src/components/admin/kb/KBManagement.jsx:202-347 | A visibility change keeps the total and the chunk sum. A delete removes exactly the chunks of the deleted documents. |
| KBManagement.ChunkSumSplit | src/components/admin/kb/KBManagement.jsx:347 | The chunk sum splits between two complementary filters. |
| KBManagement.OptionParts | src/components/admin/kb/KBManagement.jsx:142-146 | `visibility` comes first and `overwrite` last, as the text `true` or `false`. A `doc_id` part is present exactly when the id is non-empty, and then holds it. |
| KBManagement.SingleUploadParts | src/components/admin/kb/KBManagement.jsx:140-146 | The file goes under `file`, followed by the option fields. |
| KBManagement.BuildBatchParts | src/components/admin/kb/KBManagement.jsx:166-175 | There is one `files` part per file, in order, followed by the option fields. |
| KBManagement.UploadAuthorization | src/components/admin/kb/KBManagement.jsx:151 | The header is `Bearer <token>`, or `Bearer null` when no token is stored. |
| KBManagement.UploadOutcome | src/components/admin/kb/KBManagement.jsx:156-192 | An upload settles as the admin service does, with the fallback message `上传失败` or `批量上传失败`. |
| KBManagement.KBScreen.constructor | src/components/admin/kb/KBManagement.jsx:7-22 | The screen starts with no documents and no chosen files, the upload form at `public`, no id and no overwrite, not uploading, at progress 0. |
| KBManagement.KBScreen.SelectFiles | src/components/admin/kb/KBManagement.jsx:98-101 | Choosing files replaces the chosen list and changes nothing else. |
| KBManagement.KBScreen.SetUploadVisibility | src/components/admin/kb/KBManagement.jsx:506 | The visibility select sets only the form's visibility. |
| KBManagement.KBScreen.SetUploadDocId | src/components/admin/kb/KBManagement.jsx:519 | The id input sets only the form's document id. |
| KBManagement.KBScreen.SetUploadOverwrite | src/components/admin/kb/KBManagement.jsx:531 | The overwrite checkbox sets only the form's overwrite flag. |
| KBManagement.KBScreen.BeginUpload | src/components/admin/kb/KBManagement.jsx:103-118 | With no files nothing is sent. One file goes to `/kb/ingest` as a single-file form. Several files go to `/kb/ingest/batch` with one part each. An upload starts at progress 0. |
| KBManagement.KBScreen.FinishUpload | src/components/admin/kb/KBManagement.jsx:120-136 | A success clears the files and resets the form. Either way, uploading stops and progress returns to 0. |
| KBManagement.KBScreen.DeleteDoc | src/components/admin/kb/KBManagement.jsx:195-209 | Only a confirmed delete changes the list, and it changes it by `DeleteById`. |
| KBManagement.KBScreen.UpdateVisibility | src/components/admin/kb/KBManagement.jsx:211-223 | The list becomes `SetVisibility` of the old list, and the upload state is unchanged. |
| KBManagement.KBScreen.ToggleVisibility | src/components/admin/kb/KBManagement.jsx:417-419 | The card's button sets the document's next visibility. |
| RBACPermissions.Merge | src/components/admin/rbac/RBACPermissions.jsx:134 | The form's five fields override, and `id` and `is_system` are kept. |
| RBACPermissions.MergeOwnForm | src/components/admin/rbac/RBACPermissions.jsx:134-206 | Merging a permission's own form changes nothing. |
| RBACPermissions.Create | src/components/admin/rbac/RBACPermissions.jsx:115-120 | Exactly one entry is added at the end, built from the form with the fresh id and `is_system` 0, so it is not locked. The existing entries are untouched. |
| RBACPermissions.Edit | src/components/admin/rbac/RBACPermissions.jsx:132-136 | Length, order, ids and `is_system` are kept. The entries with the edited id take the form's fields, and every other entry is unchanged. |
| RBACPermissions.EditWithOwnFormIsIdentity | src/components/admin/rbac/RBACPermissions.jsx:132-206 | With unique ids, opening an entry for editing and saving it unchanged leaves the list as it was. |
| RBACPermissions.EditKeepsCodes | src/components/admin/rbac/RBACPermissions.jsx:129-136 | With unique ids, saving an edit whose form still carries the entry's own code leaves every entry's code as it was. |
| RBACPermissions.RowActions | src/components/admin/rbac/RBACPermissions.jsx:330-346 | A row's edit and delete buttons are live exactly when its `is_system` is 0; for any other value both are disabled. |
| RBACPermissions.SetFormField | src/components/admin/rbac/RBACPermissions.jsx:388-446 | An input's change sets its own one of the five form fields and leaves the other four as they were. |
| RBACPermissions.Delete | src/components/admin/rbac/RBACPermissions.jsx:154 | Exactly the entries with other ids remain, in order, each with as many copies as before; no copy of an entry with the id remains. |
| RBACPermissions.ToggleRolePermission | src/components/admin/rbac/RBACPermissions.jsx:517-523 | Checking appends the code. Unchecking removes every occurrence and keeps the order of the rest, with every other code's copies kept. No other code's membership changes. |
| RBACPermissions.CheckThenUncheck | src/components/admin/rbac/RBACPermissions.jsx:517-523 | Checking and then unchecking an unselected code restores the selection. |
| RBACPermissions.FindName | src/components/admin/rbac/RBACPermissions.jsx:215 | The lookup finds the first entry with the code, or none when no entry has it. |
| RBACPermissions.NameOr | src/components/admin/rbac/RBACPermissions.jsx:214-217 | `getModuleName` over the `modules` list: an unlisted code is shown as itself, and a listed code by the name of its first entry. |
| RBACPermissions.PermissionsScreen.constructor | src/components/admin/rbac/RBACPermissions.jsx:7-25 | The screen starts with no permissions, no filtered list, no selection, the empty form, no edit mode, module `all`, an empty search and no current role; the modal invariant holds. |
| RBACPermissions.PermissionsScreen.Refilter | src/components/admin/rbac/RBACPermissions.jsx:94-110 | The stored list is the single filter by module (any module for `all`) and search term. Nothing else changes. |
| RBACPermissions.PermissionsScreen.SelectModule | src/components/admin/rbac/RBACPermissions.jsx:41-247 | The module select sets the module, and the filter effect stores the permissions kept by the new module and the current term. |
| RBACPermissions.PermissionsScreen.Search | src/components/admin/rbac/RBACPermissions.jsx:41-264 | The search box sets the term, and the filter effect stores the permissions kept by the current module and the new term. |
| RBACPermissions.PermissionsScreen.OpenCreateModal | src/components/admin/rbac/RBACPermissions.jsx:197-212 | With a permission, the modal enters edit mode with its five fields. Without one, it enters create mode with an empty form. |
| RBACPermissions.PermissionsScreen.PressEdit | src/components/admin/rbac/RBACPermissions.jsx:331-338 | The edit button opens the modal on the row's permission exactly when it is not a system permission; on a system permission nothing changes. The modal invariant (an edited permission is unlocked and the form carries its code) is kept. |
| RBACPermissions.PermissionsScreen.ChangeField | src/components/admin/rbac/RBACPermissions.jsx:405-413 | In edit mode a change to the disabled code input changes nothing; every other change sets its one field. Edit mode and the lists are untouched and the modal invariant is kept. |
| RBACPermissions.PermissionsScreen.Submit | src/components/admin/rbac/RBACPermissions.jsx:112-145 | In edit mode the entry being edited is merged with the form; otherwise one is created. The form is reset and edit mode ends. When the modal was consistent, every entry with the edited id ends up with the edited permission's own code and every other entry keeps its code. |
| RBACPermissions.PermissionsScreen.DeletePermission | src/components/admin/rbac/RBACPermissions.jsx:147-160 | Only a confirmed delete changes the list. |
| RBACPermissions.PermissionsScreen.PressDelete | src/components/admin/rbac/RBACPermissions.jsx:339-346 | The delete button removes the row's permission only when it is not a system permission and the deletion is confirmed; a system permission is never deleted from the screen. |
| RBACPermissions.PermissionsScreen.CancelEdit | src/components/admin/rbac/RBACPermissions.jsx:368-372 | The edit modal's close and cancel buttons end edit mode and reset the form to empty, which keeps the modal invariant. |
| RBACPermissions.PermissionsScreen.OpenAssignModal | src/components/admin/rbac/RBACPermissions.jsx:174-185 | The chosen role becomes the current one, and the selection is the fetched codes, or empty when the list is missing or the request fails. |
| RBACPermissions.PermissionsScreen.AssignCall | src/components/admin/rbac/RBACPermissions.jsx:548-552 | The save button sends `PUT /rbac/roles/<code>/permissions` with `perm_codes` as the current selection, for the current role; with no current role there is no call. |
| RBACPermissions.PermissionsScreen.ToggleCode | src/components/admin/rbac/RBACPermissions.jsx:517-523 | A checkbox change applies `ToggleRolePermission`. |
| RBACPermissions.PermissionsScreen.FinishAssign | src/components/admin/rbac/RBACPermissions.jsx:162-172 | A successful save clears the current role and the selection, and a failed one keeps both. |
| RBACPermissions.PermissionsScreen.CancelAssign | src/components/admin/rbac/RBACPermissions.jsx:480-484 | The assignment modal's close and cancel buttons clear the current role and the selection, so no assignment call can follow. |
| RBACUsers.FilterUsers | src/components/admin/rbac/RBACUsers.jsx:101-110 | The result is an order-preserving sub-list of exactly the users matching by username, full name or email, each matching user with as many copies as in the input. An empty term keeps everyone. |
| RBACUsers.AsWrittenAgrees | src/components/admin/rbac/RBACUsers.jsx:101-110 | Where the filter as written does not throw, it equals the corrected filter. It never throws when every user has a full name and an email. |
| RBACUsers.MissingFullNameThrows | src/components/admin/rbac/RBACUsers.jsx:103-104 | A user with no full name whose username does not match makes the filter as written throw. |
| RBACUsers.AsWrittenCounterexample | src/components/admin/rbac/RBACUsers.jsx:103-104 | For example, user `admin` with no full name, searched for `x`, makes it throw. |
| RBACUsers.EmptySearchNeverThrows | src/components/admin/rbac/RBACUsers.jsx:101-110 | With an empty term the filter as written keeps every user and never throws. |
| RBACUsers.AvatarInitial | src/components/admin/rbac/RBACUsers.jsx:198 | The avatar is the upper-cased first character of a non-empty full name, otherwise of the username. |
| RBACUsers.DisplayName | src/components/admin/rbac/RBACUsers.jsx:201 | The name is the full name when it is non-empty, and the username otherwise. |
| RBACUsers.ToggleRole | src/components/admin/rbac/RBACUsers.jsx:278-286 | A present code is removed everywhere, and an absent code is appended at the end. |
| RBACUsers.ToggleFlipsOnlyItsCode | src/components/admin/rbac/RBACUsers.jsx:278-286 | A toggle flips the membership of its own code and of no other. |
| RBACUsers.ToggleTwiceAbsent | src/components/admin/rbac/RBACUsers.jsx:278-286 | Toggling an absent code twice restores the selection. |
| RBACUsers.ToggleTwicePresent | src/components/admin/rbac/RBACUsers.jsx:278-286 | Toggling a present code twice removes its duplicates and moves it to the end. |
| RBACUsers.FilterUsersAsWritten | src/components/admin/rbac/RBACUsers.jsx:101-110 | The filter as written, which fails on a user it throws on; when it does not fail, it keeps at most the users given and only users from the list. |
| RBACUsers.UserRoleModal.constructor | src/components/admin/rbac/RBACUsers.jsx:275-276 | The initial selection is `currentRoles`, or empty when it is absent. |
| RBACUsers.UserRoleModal.HandleRoleToggle | src/components/admin/rbac/RBACUsers.jsx:278-286 | The selection becomes `ToggleRole` of the old one. |
| RBACUsers.UserRoleModal.CheckboxClick | src/components/admin/rbac/RBACUsers.jsx:320-330 | A click on a role's checkbox runs the toggle twice, from the checkbox and from its row: an absent role stays absent, and a present role loses its duplicates and moves to the end. |
| RBACUsers.UserRoleModal.BeginSave | src/components/admin/rbac/RBACUsers.jsx:288-291 | Loading starts and the current selection is handed on unchanged. |
| RBACUsers.UserRoleModal.FinishSave | src/components/admin/rbac/RBACUsers.jsx:292-294 | Whatever `onSave` did, loading ends and the selection is kept. |
| RBACUsers.UsersScreen.constructor | src/components/admin/rbac/RBACUsers.jsx:6-14 | The screen starts with no users, empty search and role filter, no current user, no roles and the modal closed. |
| RBACUsers.UsersScreen.SetSearchTerm | src/components/admin/rbac/RBACUsers.jsx:148 | The search box sets the term, and the visible rows become `FilterUsers` of the users with it. |
| RBACUsers.UsersScreen.SetRoleFilter | src/components/admin/rbac/RBACUsers.jsx:107-156 | Choosing a role filter leaves the visible rows unchanged. |
| RBACUsers.UsersScreen.ViewUserRoles | src/components/admin/rbac/RBACUsers.jsx:57-67 | On success the modal opens for the user with `roles`, or empty when that is missing. On failure nothing changes. |
| RBACUsers.UsersScreen.SaveCall | src/components/admin/rbac/RBACUsers.jsx:69-71 | Saving the modal sends `PUT /rbac/users/<username>/roles` with `role_codes` as the selection, for the current user; with no current user there is no call. |
| RBACUsers.UsersScreen.CancelRoleModal | src/components/admin/rbac/RBACUsers.jsx:262-266 | The modal's cancel closes it and clears the user and the roles, so no save call can follow. |
| RBACUsers.UsersScreen.FinishUpdateUserRoles | src/components/admin/rbac/RBACUsers.jsx:69-79 | A success closes the modal and clears the user and the roles, and a failure keeps everything. |
| RBACRoles.FilterRoles | src/components/admin/rbac/RBACRoles.jsx:97-101 | The result is an order-preserving sub-list of exactly the roles matching by name, code or description, each matching role with as many copies as in the input. An empty term keeps all. |
| RBACRoles.DeleteRole | src/components/admin/rbac/RBACRoles.jsx:66 | Exactly the roles with other codes remain, in order, each with as many copies as before; no role with the code remains. |
| RBACRoles.CardActions | src/components/admin/rbac/RBACRoles.jsx:168-183 | A badged system role never offers delete. A missing or unusual `is_system` shows neither the badge nor delete. |
| RBACRoles.InitForm | src/components/admin/rbac/RBACRoles.jsx:269-274 | Without a role the form is empty with `is_system` 0. Otherwise it takes the role's fields, with `is_system` defaulting to 0. |
| RBACRoles.RoleModal.constructor | src/components/admin/rbac/RBACRoles.jsx:268-274 | The form starts from `InitForm` of the role being edited, or empty for a new role. |
| RBACRoles.RoleModal.EditCode | src/components/admin/rbac/RBACRoles.jsx:299-302 | A locked code input changes nothing, and an unlocked one sets the code only. |
| RBACRoles.RoleModal.EditName | src/components/admin/rbac/RBACRoles.jsx:311 | The name input sets only the name. |
| RBACRoles.RoleModal.EditDescription | src/components/admin/rbac/RBACRoles.jsx:320 | The description input sets only the description. |
| RBACRoles.RoleModal.Submit | src/components/admin/rbac/RBACRoles.jsx:276-283 | Nothing is saved exactly when the code or the name is blank. Otherwise the form is saved unchanged. |
| RBACRoles.EditSystemRoleCode | src/components/admin/rbac/RBACRoles.jsx:269-302 | Whatever is typed into a system role's code input, the saved code is the role's own. |
| RBACRoles.RolesScreen.constructor | src/components/admin/rbac/RBACRoles.jsx:6-13 | The screen starts with no roles, an empty search, no current role and every modal closed. |
| RBACRoles.RolesScreen.SetSearchTerm | src/components/admin/rbac/RBACRoles.jsx:137 | The search box sets the term, and the visible cards become `FilterRoles` of the roles with it. |
| RBACRoles.RolesScreen.CancelEdit | src/components/admin/rbac/RBACRoles.jsx:245-248 | The edit modal's cancel closes it and clears the current role. |
| RBACRoles.RolesScreen.CancelDelete | src/components/admin/rbac/RBACRoles.jsx:257-260 | The delete modal's cancel closes it and clears the current role, and removes no role. |
| RBACRoles.RolesScreen.SaveCall | src/components/admin/rbac/RBACRoles.jsx:39-61 | Create and edit make the same call whichever modal the form came from: `setRoles` (POST `/rbac/set_roles`) with the form. |
| RBACRoles.RolesScreen.FinishSave | src/components/admin/rbac/RBACRoles.jsx:39-61 | A success closes the modal it came from, and an edit also clears the current role. A failure changes nothing. |
| RBACRoles.RolesScreen.Delete | src/components/admin/rbac/RBACRoles.jsx:63-74 | The list becomes `DeleteRole` of the old one, and the delete modal closes. |
| AdminLayout.IsActivePath | src/components/admin/AdminLayout.jsx:54-59 | `/admin` is active only at exactly `/admin`, and any other path, an absent one read as `undefined`, when the location starts with it; `ActivePathRule` states both cases. |
| AdminLayout.ActivePathRule | src/components/admin/AdminLayout.jsx:54-59 | `/admin` is active only at exactly `/admin`. Any other path is active exactly when it is a prefix of the location. A group without a path is never active at a location starting with `/`. |
| AdminLayout.PrefixMatchIsPlain | src/components/admin/AdminLayout.jsx:58 | A menu path is active at every extension of it, so `/admin/kb` is active at `/admin/kbx`. |
| AdminLayout.FindActive | src/components/admin/AdminLayout.jsx:146 | The lookup returns an active entry none of whose predecessors is active, that is the first active entry, or none exactly when no entry is active. |
| AdminLayout.PageTitle | src/components/admin/AdminLayout.jsx:146 | The title is the default `仪表盘` or some top-level item's label: the label of the first active item when it is non-empty, the default when no item is active. |
| AdminLayout.TitleFallsBackBelowAdmin | src/components/admin/AdminLayout.jsx:17-146 | At `/admin`, and at any location below `/admin/` outside `/admin/kb`, the title is `仪表盘`. |
| AdminLayout.ChildPageTitle | src/components/admin/AdminLayout.jsx:17-146 | Every location `/admin/<name>` whose name has two or more characters and does not start with `k` shows `仪表盘`. |
| AdminLayout.RbacPagesShowDefaultTitle | src/components/admin/AdminLayout.jsx:24-146 | The role, user and permission pages show `仪表盘`, not their own labels. |
| AdminLayout.TitleUnderKb | src/components/admin/AdminLayout.jsx:46-146 | At any location starting with `/admin/kb`, the title is `知识库管理`. |
| AdminLayout.IntendedRolesTitle | src/components/admin/AdminLayout.jsx:29-146 | With the group's children searched too, the role page's title is `角色管理`. |
| AdminLayout.IntendedUsersTitle | src/components/admin/AdminLayout.jsx:34-146 | With the children searched, the user page's title is `用户管理`. |
| AdminLayout.IntendedPermissionsTitle | src/components/admin/AdminLayout.jsx:39-146 | With the children searched, the permission page's title is `权限管理`. |
| AdminLayout.IntendedKbTitle | src/components/admin/AdminLayout.jsx:46-146 | With the children searched, the knowledge-base title is still `知识库管理`. |
| AdminLayout.IntendedDashboardTitle | src/components/admin/AdminLayout.jsx:17-146 | At `/admin`, the corrected lookup gives the same title as the lookup as written. |
| AdminLayout.AvatarLetter | src/components/admin/AdminLayout.jsx:126 | The avatar is the upper-cased first letter of a non-empty username, and `U` when there is no user or name. |
| AdminLayout.DisplayName | src/components/admin/AdminLayout.jsx:129 | The name is the username when it is non-empty, and `管理员` otherwise. |
| Chat.ChatState.constructor | src/components/Chat.jsx:7-17 | The chat starts with the assistant greeting with id 1, an empty input, no loading and no session. The quick questions are showing. |
| Chat.ChatState.Accept | src/components/Chat.jsx:33-51 | A blank input or a request in flight changes nothing. Otherwise the trimmed text is appended as a user message with id `n + 1`, the input clears and loading starts. The request carries the text and the session as they stood. Sequential ids are preserved. |
| Chat.ChatBody | src/components/Chat.jsx:48-51 | The body has exactly the keys `text` and `session_id`, holding the text and the captured session. |
| Chat.ChatRequest | src/components/Chat.jsx:48-51 | The request is a POST of that body to the base URL followed by `/chat`. |
| Chat.Reply | src/components/Chat.jsx:58-76 | The reply has id `n + 2` and comes from the assistant. It is an error exactly when the request failed or answered `null`, and then holds the error text. Otherwise it holds a truthy `answer` or the fallback text, with `active_route`. |
| Chat.NextSession | src/components/Chat.jsx:54-56 | A session known when the send was accepted is never replaced, and a failed request changes nothing. Any new value is the response's truthy `session_id`. |
| Chat.SessionAdoptedOnce | src/components/Chat.jsx:54-56 | Once a session id is held, no later response replaces it. |
| Chat.ChatState.Complete | src/components/Chat.jsx:52-79 | Exactly the one reply is appended, the session follows `NextSession` and loading ends. Sequential ids are preserved after the matching accept. |
| Chat.ChatState.KeyPress | src/components/Chat.jsx:82-87 | Enter without Shift sends, and any other key changes nothing. |
| Chat.ChatState.QuickQuestion | src/components/Chat.jsx:103-105 | Choosing a question only fills the input. |
| Chat.ChatState.InputChange | src/components/Chat.jsx:29-31 | Typing only changes the input. |
| Chat.ChatState.QuickQuestionsVisible | src/components/Chat.jsx:198 | The quick questions show exactly while the list holds one message, the greeting; the constructor establishes it and `Send` ends it. |
| Chat.ChatState.Send | src/components/Chat.jsx:33-80 | An accepted send adds the user message and then one assistant reply after the earlier messages. It leaves the screen idle with the quick questions hidden, and ids stay sequential. |

## Findings

| source | as written | input that shows it | evidently intended | confidence | as-written member | corrected member |
|---|---|---|---|---|---|---|
| src/components/admin/AdminLayout.jsx:146 | The header title is looked up over the top-level menu items only. The RBAC group has no path, so its pages never match. | The location `/admin/roles` shows `仪表盘` (also `/admin/users` and `/admin/permissions`). | Each page shows its own menu label (`角色管理`, `用户管理`, `权限管理`), as the sidebar highlights it. | medium, not executed | AdminLayout.RbacPagesShowDefaultTitle | AdminLayout.IntendedRolesTitle |
| src/components/admin/rbac/RBACUsers.jsx:320-330 | The role row's `onClick` and its checkbox's `onChange` both call `handleRoleToggle` with a functional update, and a click on the checkbox bubbles to the row. | In the role modal, clicking the unchecked checkbox of role `editor` runs the toggle twice, so `editor` stays unselected. | One click toggles the role once: an absent role is added, a present one removed. | medium, not executed | RBACUsers.UserRoleModal.CheckboxClick | RBACUsers.UserRoleModal.HandleRoleToggle |
| src/components/admin/rbac/RBACUsers.jsx:103-105 | The filter calls `toLowerCase` on `full_name` and `email` without a guard, although both are optional on a user and the avatar guards `full_name` with `?.`. | A user `admin` with no full name, searched for `x`, makes the filter throw. | A missing field does not match. | medium, not executed | RBACUsers.AsWrittenCounterexample | RBACUsers.FilterUsers |

For the first row, `AdminLayout.IntendedPageTitle` is the corrected lookup. It searches each group's children in sidebar order. `IntendedUsersTitle`, `IntendedPermissionsTitle`, `IntendedKbTitle` and `IntendedDashboardTitle` prove what it shows on the other pages.

For the second row, `RBACUsers.ToggleTwiceAbsent` and `ToggleTwicePresent` give the net effect of the double toggle, and `ToggleFlipsOnlyItsCode` proves that the single toggle `HandleRoleToggle` applies flips exactly the clicked role. A click on the row outside the checkbox runs the toggle once, as intended.

For the third row, `RBACUsers.FilterUsersAsWritten` is the filter with `||`'s short circuit. `MissingFullNameThrows` and `AsWrittenAgrees` show that it throws exactly in the case above and otherwise equals `FilterUsers`. The screen's `Visible` rows use `FilterUsers`.

## Left out

- Network, storage and JSON text. `fetch`, `localStorage`, `response.json()` and `JSON.stringify` are not modelled. The token, the status and the parsed or unparsable body are inputs. A JSON body is recorded as the value passed to `JSON.stringify`.
- Number formatting. JSON numbers are integers only, so `String(v)` of a fractional number is not modelled.
- Session provider. `src/contexts/AuthContext` is not part of this model. The guards take `loading` and `isAuthenticated` as inputs, and login, logout, token persistence and `register` itself are outside.
- Register.RegisterScreen.Complete: does not model the two-second `setTimeout` that navigates to `/login` after success.
- Toasts and logging. The toast messages of `src/utils/messageUtils.js` and the screens' own `showSuccessMessage`/`showErrorMessage`, `alert` and `console.error` are presentation side effects. This includes the `上传失败: ` toast text built from an upload error.
- Floating-point and locale formatting. `formatFileSize` uses `Math.log` and `Math.pow`; `formatDate` and `formatTime` use locale formatting.
- Timestamps. `new Date()` and `Date.now()` are not modelled; a created permission's id is the `freshId` parameter.
- Case mapping. `toLowerCase` and `toUpperCase` are modelled on ASCII letters only, because Unicode case mapping is not available. The filter properties are stated relative to this mapping.
- Confirmations. `window.confirm` is a `confirmed` boolean.
- Screen chrome. Modal open and close flags that affect nothing else, loading spinners, the sidebar's collapsed state and JSX rendering are not modelled.
- Demo data and reloads. The hard-coded lists in `fetchDocuments`, `fetchPermissions`, `fetchRoles` and `fetchUsers` are not modelled, nor the reloads (`fetchDocuments` after an upload or re-embed, `fetchRoles` after a role save). A reload replaces the list with the same demo data, or with a server list that cannot be seen here.
- KBManagement re-embed and detail. `handleReembed` only shows a toast and reloads, and `handleViewDetail` only opens a modal, so neither is modelled.
- RBACPermissions.PermissionsScreen.Submit: does not model the modal closing.
- RBACRoles.FilterRoles: models `description` as always present, because the role records in `fetchRoles` all carry one; `role.description.toLowerCase()` would throw on a role without it.
- Modal open flags. The permission screen's cancel handlers also close their modal, and the modal-closing `setShow...Modal(false)` calls are not modelled there; the edit modal's second cancel button (RBACPermissions.jsx:454-458) and the assignment modal's second one (:541-545) run the same code as `CancelEdit` and `CancelAssign`.
- KBManagement.KBScreen.FinishUpload: the step to progress 100 inside a successful upload is overwritten in the same handler's `finally`, so only the final 0 is stated.
- ApiConfig.BuildApiUrl: the `params` object is a sequence of key and string-value pairs in the order `Object.keys` lists them, so `String` conversion of other values is not modelled.
- Admin layout chrome. Logout and the sidebar's collapse toggle only call the session provider or change presentation, so neither is modelled.
- User status. The status filter and the enable/disable button on a user row only render the status and change no state, so neither is modelled.
- Routing details. React Router's case-insensitive matching and tolerance of a trailing slash are not modelled; paths match the table exactly.
- Chat logout. The chat header's logout button calls an undefined `logout` and `window.navigate`, so it is not modelled.
- Chat scrolling. Scrolling to the newest message is not modelled.
- Thin screens. `src/components/HomePage.jsx`, `src/components/Login.jsx` and `src/components/admin/AdminDashboard.jsx` are navigation and static display, and `vite.config.js` is build configuration.
- Browser form validation. The `required` and `type="email"` attributes in `src/components/Register.jsx` and in the permission form of `src/components/admin/rbac/RBACPermissions.jsx` make the browser refuse to submit an empty required field or a malformed address before `handleSubmit` runs. The model starts at `handleSubmit`, so `Validate` and `PermissionsScreen.Submit` also cover inputs the browser would stop, such as an empty password or `a b@c.d`.
- AvatarLetter: states an upper-cased whole first character, while `charAt(0)` takes one UTF-16 code unit. For a name starting outside the Basic Multilingual Plane the source shows a lone high surrogate, which a Dafny `char` (a Unicode scalar value) cannot hold.
- AvatarInitial: states an upper-cased whole first character, while `charAt(0)` takes one UTF-16 code unit. For a name starting outside the Basic Multilingual Plane the source shows a lone high surrogate, which a Dafny `char` cannot hold.
- Assignment modal search. The permission search input in the assignment modal computes a value and discards it, so it has no effect to model.
