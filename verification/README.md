# Task dashboard: a verified model of its rules

This project models the rules of a small task-management dashboard for a CV-writing
service, in Dafny. The dashboard has a web client and one server function file.

On the server, the callable `createTask` endpoint checks four things in order and
only then writes the task:

1. the caller is authenticated;
2. the caller's role claim is exactly `"Admin"` or `"Manager"`;
3. every required payload field is present;
4. `services` is a non-empty array.

It then normalises the payload into the stored task document. The `setUserRole`
trigger acts only on a new identity that has both an email and a uid. It first sets
the role claim `"designer"`, and only when that succeeds writes a profile with the
same role.

On the client, the model covers:

- the new-task form: its schema, its service picker, the payload it sends, and its submit handler;
- the task table's search and status filter, and its role-dependent columns and actions;
- the navigation's role table;
- the session (login and logout);
- the display language with its direction and translation fallback;
- the five-star rating control;
- the task and account records with their fixtures.

Modules follow the source files:

| module | file |
|---|---|
| `Functions` | `functions/src/index.ts` |
| `Form` | `task-form.tsx` |
| `Table` | `task-table.tsx` |
| `Nav` | `main-nav.tsx` |
| `Auth` | `auth-context.tsx` |
| `Language` | `language-context.tsx` |
| `Stars` | `star-rating.tsx` |
| `Data` | `data.ts` |

Supporting modules model the JavaScript built-ins the code relies on:

- `Lists`: `filter` and `map`.
- `Text`: `split` on one character, `join`, `trim`, ASCII `toLowerCase` and `includes`.
- `Json`: payload values, truthiness and `Number()`.
- `Skills`: the comma-splitting skills normaliser, which the form and the endpoint both apply.

The module `Consistency` relates the client's rules to the server's.

Where state changes in place, the model uses a class with `modifies` clauses:

- `Functions.Backend` holds claims, user profiles and tasks.
- `Auth.AuthContext` holds the session.
- `Language.LanguageContext` holds the current language.
- `Stars.StarRating` holds the hover value.
- `Form.TaskFormState` holds the submitting flag.

The rest is functions and lemmas.

Two facts about provisioning shape the model:

- **Default role.** The claim and the profile role are spelled `"designer"`, in lower case (functions/src/index.ts:17 and :24). That spelling names none of the four client roles (`Auth.LowerCaseDesignerIsNoRole`), and the endpoint refuses it (`Functions.DefaultRoleMayNotCreate`, `Functions.ProvisionedIdentityMayNotCreate`).
- **Provisioning in two steps.** The claim is set first and the profile is written second, and a failure in either step is caught and only logged. `Functions.Backend.SetUserRole` states that a claim can then exist without a profile.

## Model

| member | source | states |
|---|---|---|
| Functions.MissingFieldsExact | functions/src/index.ts:55-58 | the missing-field list holds exactly the required fields that are `undefined` or `null`, in list order; it is empty iff every required field is present |
| Functions.UnauthenticatedFirst | functions/src/index.ts:42-45 | without caller identity the result is `unauthenticated` with its fixed message, whatever the payload |
| Functions.PermissionDeniedExactly | functions/src/index.ts:48-52 | an identified caller gets `permission-denied` iff its role claim is not exactly the string "Admin" or "Manager" |
| Functions.DefaultRoleMayNotCreate | functions/src/index.ts:17-49 | the default claim "designer", and the spellings "Designer" and "admin", do not pass the role check |
| Functions.MissingFieldsReported | functions/src/index.ts:55-61 | a permitted caller with a field missing gets `invalid-argument` whose message lists every missing field, joined by ", " in list order |
| Functions.EmptyStringIsPresent | functions/src/index.ts:56 | a field holding the empty string is never reported missing |
| Functions.ServicesChecked | functions/src/index.ts:64-68 | with all fields present, a `services` that is not a non-empty array gives `invalid-argument`; otherwise the document is prepared |
| Functions.PrepareSucceedsIff | functions/src/index.ts:42-68 | the checks pass iff the caller is identified, holds a creator role, sends every required field and a non-empty services array |
| Functions.PreparedIsTaskData | functions/src/index.ts:58-88 | a prepared document is the normalised payload for the caller's uid, and the payload passed both field checks |
| Functions.ServerOwnedFields | functions/src/index.ts:71-88 | the stored task has status "not_started", empty attachments, server timestamps and the caller's uid whatever the payload held; the plain required fields are copied; the contact info is the payload's when truthy, so a contact object is kept, and `{}` otherwise; every other payload key passes through unchanged and no key is added |
| Functions.SkillsNormalized | functions/src/index.ts:79 | an array of skills is kept; a string becomes its trimmed non-empty comma-free pieces; anything else becomes `[]` |
| Functions.ExperienceYearsCoerced | functions/src/index.ts:78 | a value with no numeric reading gives 0 years; a numeric one passes through unchanged, negatives included |
| Functions.BirthdateNormalized | functions/src/index.ts:74 | the stored task's birthdate is a date built from the payload's birthdate when that is truthy, so a non-empty date string gives a date; a missing, null or empty birthdate is stored as `null` |
| Functions.ProvisionedIdentityMayNotCreate | functions/src/index.ts:17-52 | an identity holding only the claim the trigger sets is refused with `permission-denied` |
| Functions.Backend.constructor | functions/src/index.ts:7 | the store starts with no claims, profiles or tasks |
| Functions.Backend.AddTask | functions/src/index.ts:92 | a successful add stores the document under the generated id; a failed one changes nothing |
| Functions.Backend.CreateTask | functions/src/index.ts:40-100 | a failed check returns that check's error and writes nothing; a failed write returns `internal` with the fixed message; success stores the prepared document and returns `{status: "success", taskId}`; the task store changes iff the call succeeds |
| Functions.Backend.SetUserRole | functions/src/index.ts:13-33 | only an identity with email and uid is provisioned; the claim becomes `{role: "designer"}`; the profile is written only after the claim succeeds; with both steps done the claim's and the profile's roles agree; when the profile fails the claim stays without a profile |
| Form.SchemaErrorsEmptyIff | src/components/tasks/task-form.tsx:51-67 | the schema reports no error iff every field constraint holds; no two errors are about the same field, so there are at most nine; a years value that is not a number and a payment method outside its options are reported with the library's messages |
| Form.DefaultValuesRejected | src/components/tasks/task-form.tsx:88-101 | the initial form values do not pass the schema; the client-name error is among those reported |
| Form.CatalogMatchesTaskServices | src/components/tasks/task-form.tsx:71-75 | the picker's service values are the three task services, in order |
| Form.ToggleFlipsMembership | src/components/tasks/task-form.tsx:271-274 | toggling makes the chosen value selected iff it was not before, and no other value's membership changes |
| Form.ToggleKeepsOthersInOrder | src/components/tasks/task-form.tsx:271-274 | the other selected values keep their relative order |
| Form.ToggleTwiceRestores | src/components/tasks/task-form.tsx:271-274 | toggling an unselected value twice restores the list |
| Form.ToggleTwiceMovesToEnd | src/components/tasks/task-form.tsx:271-274 | toggling a selected value twice drops its copies and puts it once at the end |
| Form.TogglePreservesSelection | src/components/tasks/task-form.tsx:271-274 | a duplicate-free selection drawn from the catalog stays so after a toggle |
| Form.SpreadCopiesText | src/components/tasks/task-form.tsx:118-119 | the payload carries the client name, job title and education as entered |
| Form.SpreadCopiesPayment | src/components/tasks/task-form.tsx:118-119 | the payload carries the payment method and status as chosen |
| Form.SpreadCopiesStructured | src/components/tasks/task-form.tsx:118-119 | the payload carries the years, the services array and the contact object as entered |
| Form.SpreadHoldsConverted | src/components/tasks/task-form.tsx:118-122 | the payload's `skills` and `birthdate` are the converted values, overriding the form's own |
| Form.OptionalsHold | src/components/tasks/task-form.tsx:58-65 | each optional text field is present iff defined, with its value |
| Form.SpreadAddress | src/components/tasks/task-form.tsx:118-119 | the payload has an address iff the form does, with the same value |
| Form.SpreadNotes | src/components/tasks/task-form.tsx:118-119 | the payload has designer and reviewer notes iff the form does, with the same values |
| Form.PayloadNormalizesSkillsAndBirthdate | src/components/tasks/task-form.tsx:120-121 | the payload's skills are trimmed, non-empty, comma-free pieces in input order; its birthdate is the ISO rendering or `null` |
| Form.SchemaAcceptsCommaOnlySkills | src/components/tasks/task-form.tsx:120 | a valid form with skills "," still passes the schema and sends an empty skills list |
| Form.SchemaRejectsUntouchedEmail | src/components/tasks/task-form.tsx:56-90 | an e-mail left at its initial "" is checked against the format and fails it |
| Form.IntendedSchemaAcceptsUntouchedEmail | src/components/tasks/task-form.tsx:56-90 | under the corrected rule an empty e-mail is judged like an absent one |
| Form.IntendedSchemaSendsSkills | src/components/tasks/task-form.tsx:120 | under the corrected rule the payload always carries at least one well-formed skill |
| Form.IntendedSchemaVersusWritten | src/components/tasks/task-form.tsx:51-69 | away from an empty e-mail, every form the corrected schema accepts passes the written one; a form the written schema accepts passes the corrected one when its skills text yields a skill |
| Form.TaskFormState.constructor | src/components/tasks/task-form.tsx:82 | the form starts not submitting |
| Form.TaskFormState.OnSubmit | src/components/tasks/task-form.tsx:104-142 | without a user only the sign-in toast, nothing sent; otherwise the payload is sent, and afterwards the form is not submitting; success gives the created toast and goes to the task list; failure shows the error's message or the fallback |
| Table.FilteredTasksSpec | src/components/tasks/task-table.tsx:62-69 | the filtered list is an order-preserving subsequence holding exactly the tasks matching search and status, each as often as it occurs |
| Table.MatchesSearchIffOccurs | src/components/tasks/task-table.tsx:64-65 | a task matches the search iff the lowered term occurs in its lowered client name or its lowered services joined by ", " |
| Table.InitialFilterKeepsAll | src/components/tasks/task-table.tsx:52-69 | the initial empty search with status "All" lists every task unchanged |
| Table.StatusOptionSelects | src/components/tasks/task-table.tsx:66-89 | choosing a status option keeps exactly the tasks with that status |
| Table.EveryStatusOffered | src/components/tasks/task-table.tsx:42-89 | every status appears among the filter options |
| Table.EmptyRowSpansHeader | src/components/tasks/task-table.tsx:71-146 | the assignee column appears iff the role is Admin or Manager, and the empty row spans the whole header: 7 then, 6 otherwise |
| Table.DeleteOnlyForAdmin | src/components/tasks/task-table.tsx:138-139 | the delete action appears iff the role is Admin; edit always appears |
| Table.RatingCellShowsRating | src/components/tasks/task-table.tsx:126 | a rating from 1 to 5 shows as stars with exactly that many filled; no rating, or 0, shows the unrated text |
| Table.FixtureRatingCells | src/components/tasks/task-table.tsx:126 | in the fixture the completed tasks show stars and the others the unrated text |
| Nav.RenderNavHrefs | src/components/main-nav.tsx:49-101 | every signed-in user gets the logo link to /dashboard and the logout button; the hrefs of the table links drawn between them are exactly the role's visible hrefs, in order |
| Nav.NoUserNoNav | src/components/main-nav.tsx:49 | with no user nothing is rendered |
| Nav.RenderLinksSpec | src/components/main-nav.tsx:51-89 | a link is drawn iff the user's role is among its roles, in table order, and is active iff its href is the current path |
| Nav.ShownLinks | src/components/main-nav.tsx:32-52 | the links a role sees are the six links, each kept iff the role is among its roles |
| Nav.VisibleHrefsAdmin | src/components/main-nav.tsx:32-42 | Admin sees /dashboard, /all-tasks, /tasks/new, /accounts, /profile |
| Nav.VisibleHrefsDesigner | src/components/main-nav.tsx:32-42 | Designer sees /dashboard, /my-tasks, /tasks/new, /profile |
| Nav.VisibleHrefsReviewer | src/components/main-nav.tsx:32-42 | Reviewer sees /dashboard, /my-tasks, /profile |
| Nav.VisibleHrefsManager | src/components/main-nav.tsx:32-42 | Manager sees /dashboard, /all-tasks, /profile |
| Auth.RoleOf | src/contexts/auth-context.tsx:6 | a name that denotes a role is that role's spelling |
| Auth.RoleOfName | src/contexts/auth-context.tsx:6 | every role is recovered from its spelling, so the four spellings are distinct |
| Auth.LowerCaseDesignerIsNoRole | src/contexts/auth-context.tsx:6 | the lower-case "designer" is none of the four roles |
| Auth.MockUser | src/contexts/auth-context.tsx:22-27 | each role's mock identity has that role and is named after it |
| Auth.MockUsersDistinct | src/contexts/auth-context.tsx:22-27 | distinct roles have distinct mock identities |
| Auth.AuthContext.constructor | src/contexts/auth-context.tsx:32 | the session starts signed out |
| Auth.AuthContext.Restore | src/contexts/auth-context.tsx:35-45 | a non-empty stored value that parses becomes the session; an absent, empty or unparsable one leaves it unchanged |
| Auth.AuthContext.Login | src/contexts/auth-context.tsx:47-62 | after login the user is the role's mock identity, whatever the session was, and is authenticated with that role |
| Auth.AuthContext.Logout | src/contexts/auth-context.tsx:54-62 | after logout there is no user and the session is not authenticated |
| Language.LangOf | src/contexts/language-context.tsx:20-21 | a stored value is adopted only when it is the code of a language |
| Language.LangOfCode | src/contexts/language-context.tsx:21 | each language's code is accepted as that language |
| Language.Toggled | src/contexts/language-context.tsx:29 | toggling always changes the language |
| Language.ToggledTwice | src/contexts/language-context.tsx:29 | toggling twice restores the language |
| Language.ToggledFlipsDir | src/contexts/language-context.tsx:26-29 | toggling flips the direction |
| Language.TranslateEnglish | src/contexts/language-context.tsx:35 | in English the lookup is the English entry |
| Language.TranslateSource | src/contexts/language-context.tsx:35 | a result always comes from the current language or English; there is none iff English lacks the key and the current entry is absent or empty |
| Language.LanguageContext.constructor | src/contexts/language-context.tsx:17 | the language starts as English |
| Language.LanguageContext.LoadStored | src/contexts/language-context.tsx:19-24 | a stored "en" or "ar" is adopted; anything else leaves the language unchanged |
| Language.LanguageContext.ToggleLanguage | src/contexts/language-context.tsx:28-32 | English becomes Arabic and Arabic English, and the direction flips |
| Stars.FilledIsPrefix | src/components/shared/star-rating.tsx:18-27 | the filled stars always form a prefix |
| Stars.CountAtLeast | src/components/shared/star-rating.tsx:18-27 | over the stars 1..n, a whole value v in 0..n keeps exactly v of them |
| Stars.WholeRatingFillsExactly | src/components/shared/star-rating.tsx:18-27 | with no hover, a whole rating v in 0..5 fills exactly the first v stars |
| Stars.StarRating.constructor | src/components/shared/star-rating.tsx:13-14 | the control starts with no hover |
| Stars.StarRating.Click | src/components/shared/star-rating.tsx:21 | `onChange` gets the clicked star's number, in 1..5, iff the control is not read-only and has a callback |
| Stars.StarRating.MouseEnter | src/components/shared/star-rating.tsx:22-27 | the star becomes the hover value and is shown, unless read-only, when nothing changes |
| Stars.StarRating.MouseLeave | src/components/shared/star-rating.tsx:23-27 | the hover is cleared unless read-only, and the display shows the rating again |
| Data.StatusOf | src/lib/data.ts:6 | a text that denotes a status is that status's label |
| Data.StatusOfLabel | src/lib/data.ts:6 | every status is recovered from its label |
| Data.StatusLabelsClosed | src/lib/data.ts:6 | a text denotes a status iff it is one of the four labels |
| Data.ServerStatusIsNoLabel | src/lib/data.ts:6 | the stored status "not_started" is none of the client's labels |
| Data.FixtureRatedIffCompleted | src/lib/data.ts:7-16 | in the fixture a task is rated iff completed, with ratings in 1..5 |
| Data.FixtureServicesFromCatalog | src/lib/data.ts:12-16 | every fixture task has services, all from the three services |
| Data.FixtureIdsUnique | src/lib/data.ts:12-29 | fixture task ids are distinct, and so are account ids |
| Skills.SplitSkillsAreSkills | src/components/tasks/task-form.tsx:120 | every skill produced is non-empty, trimmed and comma-free |
| Skills.SplitSkillsInInputOrder | src/components/tasks/task-form.tsx:120 | the skills are the trimmed pieces in input order, some dropped |
| Skills.SplitSkillsKeepsEveryNonEmptyPiece | functions/src/index.ts:79 | every non-empty trimmed piece is kept as often as it occurs |
| Skills.SplitSkillsOfJoin | src/components/tasks/task-form.tsx:120 | skills listed with ", " between them split back into exactly that list |
| Skills.SplitSkillsExample | src/components/tasks/task-form.tsx:120 | three skills separated by ", " and ",  " split into those three skills |
| Skills.SplitSkillsOfLoneComma | src/components/tasks/task-form.tsx:120 | a lone comma yields no skill |
| Text.JoinSplit | functions/src/index.ts:79 | joining the pieces of a split with the separator gives back the string |
| Text.SplitJoin | functions/src/index.ts:79 | splitting a join of separator-free pieces gives back the pieces |
| Text.TrimSpec | functions/src/index.ts:79 | the trimmed text is a slice with only white space around it and none at its ends |
| Text.IncludesIffOccurs | src/components/tasks/task-table.tsx:64-65 | `includes` holds iff the needle occurs at some position |
| Lists.FilterIsSubsequence | src/components/tasks/task-table.tsx:63 | filtering keeps the surviving elements in order |
| Lists.FilterCount | src/components/tasks/task-table.tsx:63 | filtering keeps every occurrence of a satisfying element and none of another |
| Consistency.ClientRolesThatMayCreate | functions/src/index.ts:49 | a client role sent as a claim may create iff it is Admin or Manager, the roles that see the assignee column |
| Consistency.SpreadPassesFieldChecks | functions/src/index.ts:55-68 | a form passing its schema carries every required field and a non-empty services array |
| Consistency.ValidFormAccepted | functions/src/index.ts:40-88 | a form passing its schema, sent by a creator, is accepted; the stored task keeps its client name, its split skills, its years, and the caller's uid |
| Consistency.StoredFormFields | functions/src/index.ts:71-88 | the task stored for a spread form keeps the client name, the skills array, the number of years, and the uid |
| Consistency.IntendedSpreadPassesFieldChecks | functions/src/index.ts:55-68 | a form passing the corrected schema, an untouched empty e-mail included, carries every required field and a non-empty services array |
| Consistency.IntendedFormStoresSkills | functions/src/index.ts:79 | under the corrected schema, an untouched empty e-mail included, a creator's form is accepted and the stored task always has at least one skill |
| Consistency.NewTaskLinkDisagreesWithEndpoint | src/components/main-nav.tsx:36 | the new-task page is offered to Designer, whom the endpoint refuses, and hidden from Manager, whom it accepts |
| Consistency.IntendedNewTaskLinkAgrees | src/components/main-nav.tsx:36 | with the corrected link, a role is offered the page iff the endpoint lets it create |

## Left out

- The Firebase services (the claim setter, the `users` and `tasks` collections, the server timestamp) become the fields of `Functions.Backend`. Whether a write succeeds is a parameter. The generated task id is given by the write outcome. The timestamp is a placeholder value.
- Error logging to the console is left out.
- A store add that fails after partially writing cannot happen in the model.
- JavaScript `Number()` on a string becomes the parameter `parseNumber`. NaN is `None`. Other values follow JavaScript coercion: `null`, booleans, numbers, and arrays through their string form.
- `new Date(...)` is kept as the value it was built from.
- `toISOString` is the parameter `iso`.
- The e-mail format check of the form's validation library is the parameter `isEmail`.
- The validation library's own messages are the parameter `library`. The schema gives no message for the years rule or the two payment enums, so their texts are the library's: not a number, below the minimum, and an invalid enum value.
- Form number coercion: the form's `experienceYears` is the number its input coerces to, or `None` for NaN.
- Floating point: numbers are reals, without NaN or infinities.
- `toLowerCase` lowers ASCII letters only. Other Unicode case mappings are left out.
- String lengths count characters, not UTF-16 code units.
- `localStorage`, `document.documentElement`, router navigation and toast rendering are left out.
- Restore and load parameters: the stored session and stored language are parameters, and the session's JSON parse is the parameter `parse`.
- Form.TaskFormState.OnSubmit: the intermediate `isSubmitting = true` during the call is not observable. Only the state before and after is stated.
- All JSX rendering, icons and CSS classes are left out: the badge variants, status translations, tooltips and the export button.
- The form's `attachments` field accepts any value and the payload spreads it along. The model's form values and payload omit that key, because the endpoint always stores `[]` in its place (`Functions.ServerOwnedFields`). File uploads themselves are left out.
- The translation table is not part of this model. It is a parameter mapping each language to its entries.
- Task status transitions, assignment and rating gating are left out: the code declares the statuses but implements no transitions.
- Concurrency is left out. Callable invocations and the trigger are modelled one at a time.
- Ratings are whole numbers, as in the fixtures. Fractional ratings are not modelled.
- Table.EveryStatusOffered, Table.StatusOptionSelects: the table's task status is the four-label type of src/lib/data.ts. The endpoint stores the status "not_started" (`Data.ServerStatusIsNoLabel`), and the task pages hand stored documents to the table through a type cast. Such a task matches only the "All" option, and its badge has no variant and no text. The table model cannot represent it, so these two lemmas cover only tasks whose status is one of the four labels.
- Nav.RenderNav: the logout button is recorded as drawn. Its click runs the session's logout, which `Auth.AuthContext.Logout` models, and the model does not connect the two. The logo link is not marked active on any page, so it carries only its href.
- Stars.StarRating.Click: the `onChange` call is returned as the value it would receive. The callback's own effect is left out.
- Functions.Prepare: the payload is always an object. A call with no data or with `null` data throws a `TypeError` at the required-field filter (functions/src/index.ts:56), which the callable framework reports as `internal`. That path is not modelled, and the same holds for `Functions.Backend.CreateTask`.
- Functions.Backend.SetUserRole: console logging on success and failure is left out. The email and display name are optional strings, and an empty string counts as absent.

## Findings

| source | as written | input that shows it | evidently intended | confidence | as-written member | corrected member |
|---|---|---|---|---|---|---|
| src/components/tasks/task-form.tsx:62,120 | the skills rule asks for at least one character, but the payload keeps only non-empty trimmed pieces | skills text "," passes the schema and sends `skills: []`, so the stored task has no skill | the skills text must hold at least one skill | not executed | Form.SchemaAcceptsCommaOnlySkills | Form.IntendedSchemaSendsSkills |
| src/components/tasks/task-form.tsx:56,90 | the optional e-mail starts as "" and "" is checked against the e-mail format | a form whose e-mail field was never touched fails with "Invalid email format" | an empty e-mail counts as no e-mail | not executed | Form.SchemaRejectsUntouchedEmail | Form.IntendedSchemaAcceptsUntouchedEmail |
| src/components/main-nav.tsx:36 | the new-task link is shown to Admin and Designer | a Designer sees the link and is refused by the endpoint; a Manager may create but never sees the link | the link is shown to the roles the endpoint accepts, Admin and Manager | not executed | Consistency.NewTaskLinkDisagreesWithEndpoint | Consistency.IntendedNewTaskLinkAgrees |
