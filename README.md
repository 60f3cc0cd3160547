# Category manager and registration wizard: a verified model

The repository holds two small React front-ends.

- **server-app** talks to a REST backend. It has a login page, a registration
  page and a category page. The category page lists, adds, edits and deletes
  `{id, name, description}` records.
- **multi-step-form** is a three-step registration wizard: personal data,
  address, then account. It keeps a step counter and one nine-field record
  that each step merges into.

This project models the sequential logic of both front-ends and proves
properties of it:

- the category page's state machine (list, dialogs, draft, error, loading);
- the wizard controller and its three step forms;
- the validation rules: required fields, minimum lengths, the two ZIP code
  patterns and the password pattern;
- the login decision.

Modules:

- `Rules` (rules.dfy): field rules and the errors map of a schema.
  - Each rule yields `None` when the value passes and `Some(message)` when it fails.
  - A schema reports every failing field.
- `Patterns` (patterns.dfy): the regular expressions of the source.
  - Each is written twice: as a step-by-step matcher that follows the
    expression's structure, and as a declarative reading.
  - Each pair is proved equivalent.
- `Callbacks`, `PersonalInfoForm`, `AddressInfoForm`, `AccountInfoForm`: the
  step forms.
  - A form's submit handler is the list of callbacks it invokes, in order.
- `Wizard` (wizard.dfy): the wizard.
  - `Transition` gives the meaning of one user action on the screen shown.
  - The class `MultiStepForm` holds `step` and `formData` and is proved
    against `Transition`.
- `Register` (register.dfy): the registration schema.
- `Login` (login.dfy): the login schema, the first-match lookup, the
  password decision and the class `LoginPage`. The page's effects are
  explicit fields: the message, the stored token and the route.
- `Categories` (categories.dfy): the category page.
  - Each handler is a function on a `PageState` snapshot.
  - The class `CategoryPage` holds the same state in fields, and its methods
    are proved against those functions.
  - Every backend round trip is an input `Response`: `Ok(payload)`,
    `NotOk`, or `Threw(message)`.

Inputs the model does not compute are parameters:

- the e-mail syntax check (`isEmail`);
- the bcrypt comparison (`verify(plain, hash)`);
- the clock reading taken when the registration schema is built (`schemaBuiltAt`).

The model follows the code as written, including where its behaviour differs from what its design intends:

- **Category ids.** The page does not keep ids unique. A fetched list or an
  added record with a duplicate id is shown as it is, and delete and update
  act on every entry with that id.
  - `Categories.UniqueIdsPreserved` proves uniqueness only under the
    assumption that the server sends unique ids.
- **No optimistic update.** The category list changes only after a
  successful response.
- **Date of birth on the registration page.** It may equal the bound, because
  the bound is inclusive. The bound is the instant the schema was built,
  not the moment of submission.
- **Errors hide the page.** Once a category request fails, the error is set
  and no handler sets it back to nothing. The page tests the error for
  truthiness, so the list stays on screen when a thrown error carries an
  empty message, even over an alert shown before.
- **Lengths.** Minimum lengths count UTF-16 code units, as JavaScript strings
  do: a character beyond the Basic Multilingual Plane counts twice.
- **The stored login token.** The login page stores the string "undefined"
  rather than the user's token (see Findings).

## Model

| member | source | states |
|---|---|---|
| Rules.Required | server-app/src/pages/Register.tsx:30 | a required string rule fails exactly on the empty string, with its message |
| Rules.Utf16Length | server-app/src/pages/Register.tsx:45 | a string's JavaScript length lies between its number of characters and twice that, and is zero only for the empty string |
| Rules.Utf16LengthOfBmp | server-app/src/pages/Register.tsx:45 | for characters within the Basic Multilingual Plane the JavaScript length is the number of characters |
| Rules.MinLength | server-app/src/pages/Register.tsx:45 | a minimum-length rule fails exactly when the value has fewer UTF-16 code units than the bound |
| Rules.FirstOf | server-app/src/pages/Register.tsx:43-45 | two rules of a field pass together exactly when both pass; the first declared failure is the message |
| Rules.Report | server-app/src/pages/Register.tsx:29-53 | a field appears in the errors map exactly when its rules fail, with that message, and no other key appears |
| Rules.Combine | server-app/src/pages/Register.tsx:29-53 | the errors of a schema's groups together: their fields, empty exactly when every group is, each field with the message of the group reporting it |
| Rules.NoErrorsInUnion | server-app/src/pages/Register.tsx:29-53 | a union of per-field error maps is empty exactly when each part is empty |
| Patterns.MatchDigitsMeaning | multi-step-form/src/components/AddressInfoForm.tsx:21 | matching n digits consumes exactly n leading ASCII digits, or fails when there are fewer |
| Patterns.Zip5Correct | server-app/src/pages/Register.tsx:41 | `^\d{5}$` matches exactly the strings of five ASCII digits |
| Patterns.ZipPlus4Correct | multi-step-form/src/components/AddressInfoForm.tsx:21 | `^\d{5}(-\d{4})?$` matches exactly five digits, or five digits, a hyphen and four digits |
| Patterns.Zip5AlsoZipPlus4 | multi-step-form/src/components/AddressInfoForm.tsx:21 | every five-digit ZIP is also accepted by the ZIP+4 pattern |
| Patterns.ZipExamples | multi-step-form/src/components/AddressInfoForm.tsx:21 | "12345" passes both patterns, "12345-6789" only ZIP+4, "1234" and "12345-678" neither |
| Patterns.PasswordCharsPlusMeaning | multi-step-form/src/components/AccountInfoForm.tsx:18 | the body `[A-Za-z\d@$!%*?&#]+` matches exactly the non-empty strings drawn from that class |
| Patterns.DotStarThenMeaning | multi-step-form/src/components/AccountInfoForm.tsx:18 | a lookahead `(?=.*[k])` over such a string succeeds exactly when some character is in class k |
| Patterns.StrongPasswordLength | server-app/src/pages/Register.tsx:46-52 | a strong password is ASCII, so its JavaScript length is its number of characters |
| Patterns.PasswordCorrect | multi-step-form/src/components/AccountInfoForm.tsx:18 | the password pattern matches exactly the non-empty strings over the allowed class with a lower-case letter, an upper-case letter, a digit and a special character |
| Patterns.StrongPasswordExample | multi-step-form/src/components/AccountInfoForm.tsx:18 | "Abcdef1!" matches the password pattern |
| Patterns.SpaceInPasswordRejected | multi-step-form/src/components/AccountInfoForm.tsx:18 | "Abcdef1 " does not match: a space is outside the allowed class |
| Callbacks.Merge | multi-step-form/src/components/MultiStepForm.tsx:29-31 | shallow merge: keys of the update take its values, every other field is unchanged (also the values a step form submits: its defaults with the registered fields overwritten) |
| Callbacks.Lookup | multi-step-form/src/components/PersonalInfoForm.tsx:20-23 | a form field starts from the record's value, or empty when the record has none |
| PersonalInfoForm.Errors | multi-step-form/src/components/PersonalInfoForm.tsx:14-18 | full name, e-mail and date of birth are each reported exactly when missing (the e-mail also when malformed), with their messages; no future-date check |
| PersonalInfoForm.HandleSubmit | multi-step-form/src/components/PersonalInfoForm.tsx:25-28 | callbacks run exactly when the schema passes: onChange with the entered fields, then onNext |
| PersonalInfoForm.DefaultsOfEntered | multi-step-form/src/components/PersonalInfoForm.tsx:20-23 | a record that absorbed the entered values shows them again as the form's defaults |
| AddressInfoForm.Errors | multi-step-form/src/components/AddressInfoForm.tsx:15-22 | street, city and state are reported exactly when empty; the ZIP code exactly when it is not five digits with an optional four-digit suffix |
| AddressInfoForm.HandleSubmit | multi-step-form/src/components/AddressInfoForm.tsx:29-32 | callbacks run exactly when the schema passes: onChange with the entered fields, then onNext |
| AddressInfoForm.DefaultsOfEntered | multi-step-form/src/components/AddressInfoForm.tsx:24-27 | a record that absorbed the entered address shows it again as the form's defaults |
| AccountInfoForm.PasswordRule | multi-step-form/src/components/AccountInfoForm.tsx:14-20 | the password passes exactly when it has at least 8 UTF-16 code units and satisfies the pattern; the message follows the first failing rule |
| AccountInfoForm.Errors | multi-step-form/src/components/AccountInfoForm.tsx:12-21 | the username is reported exactly when empty (no minimum length), the password exactly when its rule fails |
| AccountInfoForm.HandleSubmit | multi-step-form/src/components/AccountInfoForm.tsx:28-31 | a valid submit calls onChange only; onNext is never called |
| AccountInfoForm.DefaultsOfEntered | multi-step-form/src/components/AccountInfoForm.tsx:23-26 | a record that absorbed the entered account shows it again as the form's defaults |
| AccountInfoForm.SchemaExamples | multi-step-form/src/components/AccountInfoForm.tsx:12-21 | an empty username and a four-character password are both reported, the password with the length message; a good pair passes |
| Wizard.MergeIdempotent | multi-step-form/src/components/MultiStepForm.tsx:29-31 | merging the same data twice equals merging it once |
| Wizard.MergeOfSubmittedValues | multi-step-form/src/components/MultiStepForm.tsx:29-31 | merging the whole submitted record equals merging just the step's fields |
| Wizard.StepStaysInRange | multi-step-form/src/components/MultiStepForm.tsx:35-37 | from a step in 1..3 every user action leaves the step in 1..3 |
| Wizard.RecordKeepsItsFields | multi-step-form/src/components/MultiStepForm.tsx:9-19 | the record keeps exactly its nine fields |
| Wizard.PersonalSubmit | multi-step-form/src/components/PersonalInfoForm.tsx:25-28 | on step 1 a valid submit merges the fields and then moves to step 2; an invalid one changes nothing |
| Wizard.AddressSubmit | multi-step-form/src/components/AddressInfoForm.tsx:29-32 | on step 2 a valid submit merges the fields and then moves to step 3; an invalid one changes nothing |
| Wizard.AccountSubmit | multi-step-form/src/components/AccountInfoForm.tsx:28-31 | on step 3 a valid submit merges the fields and stays on step 3; an invalid one changes nothing |
| Wizard.PreviousKeepsRecord | multi-step-form/src/components/AddressInfoForm.tsx:65 | Previous steps back one without validating or merging; step 1 has no Previous |
| Wizard.TransitionCases | multi-step-form/src/components/MultiStepForm.tsx:35-37 | every action on every step either changes nothing, steps back, or merges the entered fields of the submitted step into the record and advances (or stays on step 3) |
| Wizard.BackReshowsAcceptedValues | multi-step-form/src/components/MultiStepForm.tsx:35 | after a valid first step and Previous, the first form shows the accepted values again |
| Wizard.BackReshowsAcceptedAddress | multi-step-form/src/components/MultiStepForm.tsx:36 | after a valid address step and Previous, the address form shows the accepted values again |
| Wizard.ReentryIsIdempotent | multi-step-form/src/components/MultiStepForm.tsx:29-31 | going back and resubmitting the same values reaches the same state |
| Wizard.CompletedRecord | multi-step-form/src/components/MultiStepForm.tsx:8-37 | three valid submits from the start reach step 3 with all nine fields holding what each step entered |
| Wizard.LaterStepsKeepDefaults | multi-step-form/src/components/MultiStepForm.tsx:29-31 | merging other steps' fields leaves a step's own fields unchanged |
| Wizard.MultiStepForm.constructor | multi-step-form/src/components/MultiStepForm.tsx:8-19 | the wizard starts at step 1 with all nine fields empty |
| Wizard.MultiStepForm.HandleNextStep | multi-step-form/src/components/MultiStepForm.tsx:21-23 | the step goes up by one; the record is unchanged |
| Wizard.MultiStepForm.HandlePrevStep | multi-step-form/src/components/MultiStepForm.tsx:25-27 | the step goes down by one; the record is unchanged |
| Wizard.MultiStepForm.HandleFormDataChange | multi-step-form/src/components/MultiStepForm.tsx:29-31 | the record becomes the shallow merge; the step is unchanged |
| Wizard.MultiStepForm.Perform | multi-step-form/src/components/MultiStepForm.tsx:33-39 | one user action on the rendered form changes the state as `Transition` says |
| Register.DateOfBirthRule | server-app/src/pages/Register.tsx:32-34 | the date of birth passes exactly when present and not after the instant the schema was built |
| Register.ZipRule | server-app/src/pages/Register.tsx:39-41 | the ZIP code passes exactly when it is five ASCII digits |
| Register.UsernameRule | server-app/src/pages/Register.tsx:43-45 | the username passes exactly when it has at least 4 UTF-16 code units; empty gives the required message |
| Register.PasswordRule | server-app/src/pages/Register.tsx:46-52 | the password passes exactly when it has at least 8 UTF-16 code units and satisfies the pattern |
| Register.PersonalErrors | server-app/src/pages/Register.tsx:30-34 | full name, e-mail and date of birth are each reported exactly when their rules fail |
| Register.AddressErrors | server-app/src/pages/Register.tsx:35-42 | each nested address field is reported exactly when its rule fails |
| Register.AccountErrors | server-app/src/pages/Register.tsx:43-52 | username and password are each reported exactly when their rules fail |
| Register.Errors | server-app/src/pages/Register.tsx:29-53 | the schema reports the union of the three groups, each field with its group's message, and passes exactly when every group passes |
| Register.AcceptedIff | server-app/src/pages/Register.tsx:29-53 | the form is accepted exactly when all nine field rules hold |
| Register.StaleUpperBound | server-app/src/pages/Register.tsx:34 | a date after schema construction is rejected as future even if already past at submission |
| Register.ZipPlus4Rejected | server-app/src/pages/Register.tsx:39-41 | "12345-6789" is rejected here though it matches the wizard's ZIP+4 pattern |
| Register.ShortUsernameRejected | server-app/src/pages/Register.tsx:43-45 | "bob" is rejected with the minimum-length message |
| Register.AstralUsernameAccepted | server-app/src/pages/Register.tsx:43-45 | two letters and an emoji, three characters but four code units, pass the username rule |
| Register.AstralLength | server-app/src/pages/Register.tsx:45 | "ab" followed by an emoji has JavaScript length 4 |
| Login.SchemaErrors | server-app/src/pages/Login.tsx:22-25 | username and password are each reported exactly when empty |
| Login.FindUser | server-app/src/pages/Login.tsx:39 | the lookup finds the first user whose username is exactly equal, or none exists |
| Login.Decide | server-app/src/pages/Login.tsx:39-51 | not found exactly when no username matches; incorrect exactly when the first match's hash rejects; authenticated as that first match exactly when it accepts |
| Login.OnlyFirstNamesakeIsTried | server-app/src/pages/Login.tsx:39-51 | a later namesake whose hash would accept does not rescue a rejected first match |
| Login.AsWrittenCounterexample | server-app/src/pages/Login.tsx:53 | alice authenticates, the token meant to be stored is "token-a", and the value written as the code stands differs from it |
| Login.TokenToStore | server-app/src/pages/Login.tsx:53 | a token is stored exactly on authentication, and it is the first matching user's token |
| Login.LoginPage.HandleSubmit | server-app/src/pages/Login.tsx:31-61 | each failure sets its message without storing or navigating; success stores "undefined", as the code does, and goes to /category |
| Login.LoginPage.Submit | server-app/src/pages/Login.tsx:84-87 | with schema errors nothing changes; a valid input with an accepted first match stores "undefined" and goes to /category; the token changes only then |
| Login.AsWrittenLogin | server-app/src/pages/Login.tsx:53 | alice's successful login through the page stores "undefined" where "token-a" was meant |
| Categories.Count | server-app/src/pages/Category.tsx:76 | the number of entries with an id is zero exactly when none has it |
| Categories.RemoveById | server-app/src/pages/Category.tsx:76 | the filter keeps every entry without the id, in order and with its multiplicity, drops all with it, and shrinks by their count |
| Categories.ReplaceById | server-app/src/pages/Category.tsx:105-107 | the map replaces exactly the entries with the id and keeps the length |
| Categories.CountUnique | server-app/src/pages/Category.tsx:76 | with unique ids an id occurs at most once |
| Categories.SubsequenceKeepsUniqueIds | server-app/src/pages/Category.tsx:76 | dropping entries keeps ids unique |
| Categories.ReplaceKeepsIds | server-app/src/pages/Category.tsx:105-107 | replacing by a record with the same id keeps every id and their uniqueness |
| Categories.AppendUniqueIds | server-app/src/pages/Category.tsx:131 | appending keeps ids unique exactly when the new id is fresh |
| Categories.ErrorAfter | server-app/src/pages/Category.tsx:54-55 | success keeps the error; a bad status sets the handler's message; a thrown error sets its own message |
| Categories.DeleteOutcome | server-app/src/pages/Category.tsx:66-81 | no target is a no-op; success removes all entries with the id, keeps the rest in order and closes the confirmation; failure keeps list and confirmation and sets the error |
| Categories.DeleteRemovesOne | server-app/src/pages/Category.tsx:76 | with unique ids, deleting a present id removes exactly one entry |
| Categories.UpdateOutcome | server-app/src/pages/Category.tsx:89-114 | no edit is a no-op; success replaces exactly the entries with the id, closes the dialog, resets the draft, clears the edit; failure changes only the error |
| Categories.AddOutcome | server-app/src/pages/Category.tsx:116-137 | success appends the server's record last, closes the dialog and resets the draft; failure changes only the error |
| Categories.EditThenCloseKeepsList | server-app/src/pages/Category.tsx:139-143 | opening for edit and closing leaves the list as it was, with the dialog state as after a close |
| Categories.ErrorIsNeverCleared | server-app/src/pages/Category.tsx:54-55 | once set, the error stays set through every event |
| Categories.ListChangesOnlyOnSuccess | server-app/src/pages/Category.tsx:53 | the list changes only on a successful fetch, delete or save |
| Categories.DraftTracksEditPreserved | server-app/src/pages/Category.tsx:221 | while a category is under edit the draft keeps its id, through every event |
| Categories.UniqueIdsPreserved | server-app/src/pages/Category.tsx:46-137 | ids stay unique through every event if the server sends unique ids and fresh ids for added records |
| Categories.Render | server-app/src/pages/Category.tsx:145-198 | a spinner exactly while loading; otherwise the alert exactly when the error is set and non-empty; otherwise the list with the dialog's state and its title |
| Categories.AlertStays | server-app/src/pages/Category.tsx:153-159 | once shown, the alert stays through every event except a request throwing an empty message |
| Categories.EmptyThrowShowsList | server-app/src/pages/Category.tsx:153 | a fetch throwing an empty message sets the error yet shows the list |
| Categories.CategoryPage.constructor | server-app/src/pages/Category.tsx:29-40 | the page starts loading with an empty list, no error, closed dialogs and the empty draft |
| Categories.CategoryPage.FetchCategories | server-app/src/pages/Category.tsx:46-59 | success replaces the list, failure sets the error, loading ends either way |
| Categories.CategoryPage.HandleDelete | server-app/src/pages/Category.tsx:61-64 | the category is remembered and the confirmation opens |
| Categories.CategoryPage.ConfirmDelete | server-app/src/pages/Category.tsx:66-81 | the state changes as `DeleteConfirmed` says |
| Categories.CategoryPage.CancelDelete | server-app/src/pages/Category.tsx:235 | the confirmation closes; nothing else changes |
| Categories.CategoryPage.HandleEdit | server-app/src/pages/Category.tsx:83-87 | the category becomes the edit and the draft, and the dialog opens |
| Categories.CategoryPage.OpenAdd | server-app/src/pages/Category.tsx:172 | the dialog opens with the draft as it is |
| Categories.CategoryPage.ChangeName | server-app/src/pages/Category.tsx:206 | only the draft's name changes |
| Categories.CategoryPage.ChangeDescription | server-app/src/pages/Category.tsx:213 | only the draft's description changes |
| Categories.CategoryPage.HandleUpdate | server-app/src/pages/Category.tsx:89-114 | the state changes as `Updated` says |
| Categories.CategoryPage.HandleAdd | server-app/src/pages/Category.tsx:116-137 | the state changes as `Added` says |
| Categories.CategoryPage.HandleClose | server-app/src/pages/Category.tsx:139-143 | the dialog closes and the edit and draft are cleared |
| Categories.CategoryPage.PressPrimary | server-app/src/pages/Category.tsx:221 | updates exactly when a category is under edit, adds otherwise |
| Categories.EditThenCancel | server-app/src/pages/Category.tsx:83-87 | editing then cancelling leaves the list untouched and the dialog closed and reset |

## Left out

- HTTP requests, JSON parsing and status codes are not modelled. Each round trip is an input (`Response`, `UsersResponse`) carrying its outcome.
- The registration page's submit handler is not modelled, because it is I/O:
  - it posts the form to the server;
  - it applies server-supplied field errors;
  - it stores the returned token, navigates to /login and resets the form.
- The bcrypt comparison is the parameter `verify`, because it is a foreign hash primitive.
- The e-mail syntax check is the parameter `isEmail`, because the form library's rule is not part of this model.
- Date parsing and the clock are not modelled.
  - A date of birth is an optional integer instant.
  - The schema's bound is the parameter `schemaBuiltAt`.
- Browser effects are modelled only as fields of `LoginPage`:
  - local storage is `authToken`;
  - navigation is `navigatedTo`.

  The console log and the wizard's completion alert are not modelled, because they are output only.
- Which message a form library shows when several rules of one field fail is not modelled, because it is a library choice. The model reports the first declared failing rule. Which fields are reported does not depend on that choice.
- `Rules.FirstOf` on the e-mail field puts the syntax test first, as declared. Yup skips that test on an empty value, so the model tests "empty or valid syntax".
- Submission counters, touched state, `setSubmitting` and `resetForm` are not modelled, because they do not affect the modelled state.
- Rendering, styling and routing are not modelled, including the protected route and its auth context.
  - The category page's visible outcome is `Categories.Render`.
  - The wizard's is the step's screen.
- Concurrent async handlers are not modelled.
  - Each handler is one atomic step on the current state.
  - Handlers that capture stale state across an `await` are not modelled.
- Login user records are modelled only as username, password hash and token, because the page reads no other fields.
- `Categories.UniqueIdsPreserved` assumes the server sends unique ids and a fresh id for each added record. The page itself does not enforce uniqueness.

## Findings

| source | as written | input that shows it | evidently intended | confidence | as-written member | corrected member |
|---|---|---|---|---|---|---|
| server-app/src/pages/Login.tsx:53 | the token written on login is `users.token`, a property read on the parsed user array, which is undefined and is stored as the string "undefined" | users `[{username: "alice", password: <hash>, token: "token-a"}]`, login as alice with a password the hash accepts | store the authenticated user's own token (`user.token`) | not executed; high | Login.LoginPage.HandleSubmit, Login.AsWrittenLogin | Login.TokenToStore |
