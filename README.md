# OPM code generator — a verified model of its core

The OPM code generator turns a photographed Object-Process Methodology
diagram into source code in Python, Java, C# or C++. A React frontend holds
the pages and a FastAPI backend holds the routes; generation itself is
delegated to a Gemini model. This project models, in Dafny, the parts of the
system that decide things:

- the upload gate and generation form of the generator page (`UploadGate`);
- the refinement loop of the success page (`Refinement`);
- the five-stage progress narrator shown while a request is outstanding (`LoadingModal`);
- the "My OPM Projects" page (`ProjectsPage`);
- the backend's generation routes and their ordered guard chains (`OpmRouter`);
- the backend's projects routes over the collection of stored generations (`ProjectsRouter`);
- the AI agent's response normaliser and request assembly (`GeminiAgent`);
- the sign-up page (`SignupPage`), the login page (`LoginPage`) and the email rule they share (`EmailRule`);
- the sign-up route over the user store (`AuthRouter`);
- the application's route table (`Routes`).

Four small support modules carry no source behaviour of their own:
`Text` holds whitespace, trimming, lower-casing and splitting;
`FormErrors` holds the error object that the sign-up and login submit
handlers both build by visiting the form's keys in order; `Remote`
holds the shape of an awaited frontend call, which either returns a body
or throws a normalised error; `Http` holds `HTTPException` results and the
outcome of a call into code outside the model.

Modelling conventions:

- Each React handler is one atomic step of a `class` whose fields are the
  component's state.
- Every awaited call (`generateCode`, `refineCode`, `getUserProjects`,
  `deleteProject`, `loginUser`, `signupUser`) is an input `Outcome` that
  either returns a body or throws.
- `window.confirm` is a boolean input. The Gemini call and `json.loads`
  are function parameters. `bcrypt.hash` is a function parameter.
- Timers of the progress narrator are discrete `Fire` steps; the pending
  timer is represented by its delay.
- JavaScript `trim` and Python `strip` use different whitespace sets, and
  both are modelled (`Text.Flavor`). JavaScript `length` counts UTF-16
  code units (`Text.JsLength`). A regular expression's `.` refuses line
  terminators.
- Lower-casing is ASCII. That is exact for every comparison the core makes:
  no non-ASCII character lower-cases to a letter of `.jpg`, `.jpeg`, `.png`
  or of a route path.
- `os.path.splitext` is the POSIX form: the last `.` of the last path
  component counts, unless it belongs to the dots that start that component.
- React Router's default matching ignores case and trailing slashes.

Facts about the code that shape the model:

- The refine route is a `POST` (backend/routers/opm.py:87).
- Fetching one project by id checks no owner (backend/routers/projects.py:44-55).
- A valid generation downloads the code and resets the form; the generator
  page never navigates to the success page
  (frontend/src/pages/OpmCodeGeneratorPage.jsx:165-180).
- A second submission while one is in flight is prevented only by the
  disabled button (`UploadGate.GeneratorPage.CanSubmit`).

## Model

| member | source | states |
|---|---|---|
| UploadGate.Extension | frontend/src/pages/OpmCodeGeneratorPage.jsx:38 | a lower-cased suffix of the name: from its last '.' when it has one, otherwise the whole name; `ExtensionCheckIffSuffix` and `NoDotFailsExtension` state what the check built on it accepts |
| UploadGate.ValidateFile | frontend/src/pages/OpmCodeGeneratorPage.jsx:33-52 | the format error exactly when neither the declared type nor the extension is accepted; the size error exactly when the format passes and the size exceeds 5 MiB; no error exactly when both pass |
| UploadGate.DeclaredTypeSuffices | frontend/src/pages/OpmCodeGeneratorPage.jsx:23-37 | a declared image/jpeg, image/png or image/jpg never gives the format error, whatever the file name |
| UploadGate.ExtensionCheckIffSuffix | frontend/src/pages/OpmCodeGeneratorPage.jsx:24-39 | the lower-cased part from the last '.' is an accepted extension iff the name ends, ignoring case, in .jpg, .jpeg or .png |
| UploadGate.NoDotFailsExtension | frontend/src/pages/OpmCodeGeneratorPage.jsx:38-42 | a name without any '.' never passes the extension check |
| UploadGate.FormatBeforeSize | frontend/src/pages/OpmCodeGeneratorPage.jsx:37-49 | a bad-format file reports only the format message, whatever its size |
| UploadGate.SizeBoundary | frontend/src/pages/OpmCodeGeneratorPage.jsx:25-48 | a well-formatted file of exactly 5 MiB passes, one byte more fails with the size error |
| UploadGate.GeneratorPage.constructor | frontend/src/pages/OpmCodeGeneratorPage.jsx:13-18 | no file, language "python", no errors, nothing loading |
| UploadGate.GeneratorPage.OfferFiles | frontend/src/pages/OpmCodeGeneratorPage.jsx:71-118 | more than one file sets the one-file error and keeps the file; none changes nothing; one invalid file sets its error and clears the file; one valid file clears the errors and becomes the file |
| UploadGate.GeneratorPage.RemoveFile | frontend/src/pages/OpmCodeGeneratorPage.jsx:124-131 | file cleared, errors empty, progress 0, language kept |
| UploadGate.GeneratorPage.SelectLanguage | frontend/src/pages/OpmCodeGeneratorPage.jsx:336 | the language becomes the chosen value, file and errors kept |
| UploadGate.GeneratorPage.GenerateCode | frontend/src/pages/OpmCodeGeneratorPage.jsx:133-198 | no file: exactly the upload error and nothing sent; no language: exactly the language error; otherwise the file and language are sent, and then "valid" downloads the code, clears file and errors and restores "python", another status sets the diagram error (explanation or "Diagram is invalid.") keeping the file, a throw sets the submit error (detail, message or fallback); afterwards nothing is loading and progress is 0 |
| Refinement.SuccessPage.constructor | frontend/src/pages/OpmSuccessPage.jsx:15-34 | entered only with state holding non-empty code and explanation, and starts with exactly those, the panel closed and no error |
| Refinement.SuccessPage.DownloadCode | frontend/src/pages/OpmSuccessPage.jsx:53-55 | the download holds the current code under the original file name |
| Refinement.SuccessPage.AddFixInstructions | frontend/src/pages/OpmSuccessPage.jsx:57-61 | the panel opens with empty instructions and no error; code and explanation kept |
| Refinement.SuccessPage.CancelFixInstructions | frontend/src/pages/OpmSuccessPage.jsx:63-67 | the panel closes with empty instructions and no error; code and explanation kept |
| Refinement.SuccessPage.TypeInstructions | frontend/src/pages/OpmSuccessPage.jsx:136 | the instructions become the typed text and nothing else changes |
| Refinement.SuccessPage.SendFixInstructions | frontend/src/pages/OpmSuccessPage.jsx:69-117 | blank instructions set "Please enter fix instructions" and send nothing; otherwise the diagram, the language, the current code and the instructions are sent; "valid" replaces code and explanation, closes the panel and clears instructions and error; another status or a throw keeps code, explanation, instructions and panel and sets the matching error; nothing is refining afterwards |
| Refinement.SuccessPage.Settle | frontend/src/pages/OpmSuccessPage.jsx:75-116 | with the request in flight and the error cleared: "valid" replaces code and explanation and closes and empties the instructions panel; another status sets the explanation, or "Could not apply fix instructions." when it is empty; a throw sets `detail`, else `message`, else "Failed to refine code"; both keep code, explanation, instructions and panel; `isRefining` ends false |
| Remote.ErrorText | frontend/src/pages/OpmSuccessPage.jsx:112 | the first non-empty of `detail`, `message` and the fallback, so empty only when all three are; the generator page uses the same form at OpmCodeGeneratorPage.jsx line 191 |
| LoadingModal.Timeline | frontend/src/components/LoadingModal.jsx:12-57 | the last stage is entered after 153000 ms of timer time; the five durations total 163000 ms, under the announced 3 minutes |
| LoadingModal.Narrator.Rendered | frontend/src/components/LoadingModal.jsx:43-53 | nothing when closed, otherwise the current stage's message |
| LoadingModal.Narrator.Start | frontend/src/components/LoadingModal.jsx:9-36 | opening resets to stage 0 and its message and arms the 3000 ms timer |
| LoadingModal.Narrator.constructor | frontend/src/components/LoadingModal.jsx:5-41 | mounting open arms the first timer; mounting closed arms none |
| LoadingModal.Narrator.SetOpen | frontend/src/components/LoadingModal.jsx:9-41 | an unchanged prop does nothing; closing clears the pending timer; reopening restarts at stage 0 |
| LoadingModal.Narrator.Fire | frontend/src/components/LoadingModal.jsx:23-33 | below the last stage the index advances by exactly one, the message follows and the next timer waits for the stage just entered; at the last stage nothing changes and nothing is scheduled; the index stays in range and the message is always that stage's |
| ProjectsPage.LanguageIcon | frontend/src/pages/UserProjectsPage.jsx:92-101 | python, java, csharp and cpp map to their fixed icons, every other value to the laptop |
| ProjectsPage.DefaultIconIffUnknown | frontend/src/pages/UserProjectsPage.jsx:92-101 | the default icon appears iff the language is outside the table, and the four table icons are distinct |
| ProjectsPage.Normalise | frontend/src/pages/UserProjectsPage.jsx:31 | an array is kept and any other body becomes the empty list |
| ProjectsPage.Page.ViewOf | frontend/src/pages/UserProjectsPage.jsx:103-133 | the spinner iff loading; the empty state iff loaded and empty; the grid of exactly the projects iff loaded and non-empty |
| ProjectsPage.Page.Modal | frontend/src/pages/UserProjectsPage.jsx:103-198 | the modal renders iff the page is not loading (the spinner is returned alone), it is shown and a project is selected, and then for that project |
| ProjectsPage.Page.FetchProjects | frontend/src/pages/UserProjectsPage.jsx:26-37 | a returned body replaces the list after normalisation, a throw keeps it; never loading afterwards |
| ProjectsPage.Page.constructor | frontend/src/pages/UserProjectsPage.jsx:14-24 | the fetch runs only for a user with an email; without one the page stays on the spinner |
| ProjectsPage.Page.ViewProject | frontend/src/pages/UserProjectsPage.jsx:39-43 | the project is selected and its modal shown, rendered for that project unless the page is loading |
| ProjectsPage.Page.CloseModal | frontend/src/pages/UserProjectsPage.jsx:199-205 | the modal is hidden and the selection kept |
| ProjectsPage.Page.DeleteProject | frontend/src/pages/UserProjectsPage.jsx:63-78 | declining sends nothing and changes nothing; confirming sends the id and the user's email; a throw changes nothing and fetches nothing; a success re-fetches and closes the modal iff the open project has the deleted id |
| OpmRouter.Splitext | backend/routers/opm.py:18 | a non-empty extension is a suffix of the name starting with '.' and holding no other '.' and no '/' |
| OpmRouter.ValidateExtension | backend/routers/opm.py:17-19 | the lower-cased `splitext` extension is one of the three accepted ones; its meaning is stated by `ValidateExtensionIff` and `ValidateExtensionIgnoresCase` |
| OpmRouter.ValidateExtensionIff | backend/routers/opm.py:12-19 | the check passes iff the name ends, ignoring case, in .jpg, .jpeg or .png and the rest of its last path component is not all dots |
| OpmRouter.ValidateExtensionIgnoresCase | backend/routers/opm.py:18 | lower-casing the whole name never changes the verdict |
| OpmRouter.DotfileHasNoExtension | backend/routers/opm.py:18 | ".png" and "..jpeg" have no extension and fail |
| OpmRouter.DirectoryDotIgnored | backend/routers/opm.py:18 | a '.' in a directory name does not make an extension |
| OpmRouter.UploadCheck | backend/routers/opm.py:44-60 | no error iff the language is allowed, the extension accepted and the size at most 5 MiB; otherwise the first failing rule in the order language, format, size gives its 400 |
| OpmRouter.RefineCheck | backend/routers/opm.py:107-130 | the upload checks first, then a 400 for previous code that `strip()` leaves empty, then one for such fix instructions; no error iff all pass |
| OpmRouter.GenerateCode | backend/routers/opm.py:26-76 | the first failing check's 400, else the agent's body, else a 500 "Failed to generate code: " with the exception text; stated by `RejectionsPrecedeAgent` and `AgentOutcomeDecides` |
| OpmRouter.RefineCode | backend/routers/opm.py:87-147 | the first failing refine check's 400, else the agent's body, else a 500 "Failed to refine code: " with the exception text; stated by `RejectionsPrecedeAgent` and `AgentOutcomeDecides` |
| OpmRouter.RejectionsPrecedeAgent | backend/routers/opm.py:44-130 | every rejection before the agent call is a 400 and does not depend on the agent's outcome |
| OpmRouter.AgentOutcomeDecides | backend/routers/opm.py:63-147 | past the checks, the agent's body is the answer and an exception becomes a 500 "Failed to generate code: …" or "Failed to refine code: …" |
| OpmRouter.ContentTypeIgnored | backend/routers/opm.py:48-111 | the declared content type never changes either route's answer |
| OpmRouter.SizeBoundary | backend/routers/opm.py:13-119 | exactly 5 MiB is accepted, one byte more gives the size error |
| ProjectsRouter.Owned | backend/routers/projects.py:20-21 | exactly the records of that email, projected |
| ProjectsRouter.SortedListing | backend/routers/projects.py:26 | the date sort puts the newest first and is a permutation |
| ProjectsRouter.Find | backend/routers/projects.py:44-45 | the position of the first record with the id, or none when no record has it |
| ProjectsRouter.StatsOf | backend/routers/projects.py:163-175 | code lines are 0 for empty code and otherwise one more than the number of '\n'; characters are the code's length; refined iff `updated_at` differs from `created_at` |
| ProjectsRouter.ProjectStore.ListProjects | backend/routers/projects.py:19-28 | newest first, a permutation of the user's projected records, every one of the user's and no one else's |
| ProjectsRouter.ProjectStore.GetProject | backend/routers/projects.py:44-55 | 404 "Project not found" iff no record has the id; otherwise the first such record, projected |
| ProjectsRouter.ProjectStore.DownloadPdf | backend/routers/projects.py:66-90 | 404 for a missing project, a distinct 404 when the first record with that id has no diagram, otherwise exactly that record's diagram bytes and `pdf_filename` |
| ProjectsRouter.ProjectStore.GetStats | backend/routers/projects.py:144-178 | 404 iff no record has the id, otherwise that record's statistics |
| ProjectsRouter.ProjectStore.DeleteProject | backend/routers/projects.py:104-133 | 404 when absent and 403 when another email owns it, with the store unchanged; otherwise the deletion message and id, and exactly the first record with the id is removed, the rest kept in order |
| ProjectsRouter.DeletedLeavesListing | backend/routers/projects.py:20-122 | with unique ids, after a user's delete the project is gone from that user's listing and their other projects stay |
| GeminiAgent.EmptyInvalidResponse | backend/ai/gemini_agent.py:41-43 | exactly the four keys, status "invalid", empty file name and code, and the given explanation |
| GeminiAgent.CallGeminiAsWritten | backend/ai/gemini_agent.py:45-66 | `_call_gemini` as written: a failed call and unparsable text give their invalid response, and the key check raises on anything but an object; stated by `ArrayOutputRaises` and `AsWrittenAgreesOnObjects` |
| GeminiAgent.CallGemini | backend/ai/gemini_agent.py:45-66 | `_call_gemini` with the key check applied to objects only; stated by `CallGeminiOutcomes` |
| GeminiAgent.CallGeminiOutcomes | backend/ai/gemini_agent.py:45-66 | with the key check corrected to apply to objects only: every result has the four keys; a failed call, unparsable text and missing keys each give their invalid response; a result with all keys is returned unchanged |
| GeminiAgent.FailureExplained | backend/ai/gemini_agent.py:53-64 | a failure result has status "invalid" and empty code, and an API failure's explanation starts "API call failed: " |
| GeminiAgent.ArrayOutputRaises | backend/ai/gemini_agent.py:57-63 | as written, model output parsing to an array raises `AttributeError`; the corrected check answers "missing required fields" |
| GeminiAgent.AsWrittenAgreesOnObjects | backend/ai/gemini_agent.py:57-66 | as written and corrected agree whenever the parsed output is an object |
| GeminiAgent.RefinementContextOrder | backend/ai/gemini_agent.py:112-119 | the refinement text contains the language, the previous code and the instructions whole, in that order, without overlap |
| GeminiAgent.GenerateContents | backend/ai/gemini_agent.py:85-90 | the knowledge files first, then the system prompt, then the uploaded diagram as a PDF-typed bytes part, and the language text part last |
| GeminiAgent.RefineContents | backend/ai/gemini_agent.py:121-126 | the knowledge files first, then the system prompt, then the uploaded diagram as a PDF-typed bytes part, and the refinement text part last |
| GeminiAgent.GenerateCodeFromDiagram | backend/ai/gemini_agent.py:68-91 | the corrected agent call on the generation contents; `FilenameUnused` and `AcceptedRequestAnswered` state what it returns |
| GeminiAgent.RefineGeneratedCode | backend/ai/gemini_agent.py:93-126 | the corrected agent call on the refinement contents; `FilenameUnused` and `AcceptedRequestAnswered` state what it returns |
| GeminiAgent.FilenameUnused | backend/ai/gemini_agent.py:68-127 | the file name plays no part in what either entry point sends or returns |
| GeminiAgent.AcceptedRequestAnswered | backend/routers/opm.py:63-76 | with the corrected key check and the agent called with its declared `pdf_bytes` parameter, a generation or refinement request that passes the route's checks is answered with an object holding all four keys |
| GeminiAgent.NonObjectOutputFailsRequest | backend/ai/gemini_agent.py:63 | with the agent called with its declared `pdf_bytes` parameter but the key check as written, non-object model output turns an accepted generation request into a 500 |
| GeminiAgent.CallByKeyword | backend/ai/gemini_agent.py:68 | a call passing the diagram under the declared keyword has the body's outcome; under any other keyword it raises the unexpected-keyword `TypeError` |
| GeminiAgent.KeywordMismatchFailsEveryRequest | backend/routers/opm.py:65-69 | as written, every generation request that passes the checks, and every refinement request that passes its checks, is answered with a 500 whose detail carries the `TypeError` for `diagram_bytes` |
| EmailRule.MatchesIffBuilt | frontend/src/pages/SignupPage.jsx:39 | the pattern test passes iff the address is a local part over [A-Za-z0-9_.-], '@', one or more labels over [A-Za-z0-9_-] each followed by '.', and a final label of 2 to 4 such characters |
| EmailRule.EmailError | frontend/src/pages/SignupPage.jsx:38-39 | "Email is required" iff blank after trimming; "Email is invalid" iff not blank and not matching; no error iff neither |
| SignupPage.Set | frontend/src/pages/SignupPage.jsx:59 | the changed field holds the value and every other field is kept |
| SignupPage.PasswordStrength | frontend/src/pages/SignupPage.jsx:20-27 | the strength label of a password; stated by `StrengthLevels` and `LineBreakIsWeak` |
| SignupPage.StrengthLevels | frontend/src/pages/SignupPage.jsx:20-27 | "" iff the password is empty; "strong" iff the strong pattern matches; "medium" iff medium but not strong; "weak" otherwise; every strong password meets the medium pattern |
| SignupPage.LineBreakIsWeak | frontend/src/pages/SignupPage.jsx:22-23 | a password holding a line terminator is weak |
| SignupPage.ValidateField | frontend/src/pages/SignupPage.jsx:29-55 | each field's rule and its messages; stated by `ValidateFieldIff` and `ValidateFieldReadsPartner` |
| SignupPage.ValidateFieldIff | frontend/src/pages/SignupPage.jsx:29-55 | a field's rule passes iff: names are not blank; the email is not blank and matches; the password is non-empty, at least 6 units, and equal to the confirmation when that is non-empty; the confirmation is non-empty and equals the password |
| SignupPage.ValidateFieldReadsPartner | frontend/src/pages/SignupPage.jsx:44-49 | a rule reads only its value and its partner password field |
| SignupPage.ChangeErrorsAsWritten | frontend/src/pages/SignupPage.jsx:65-80 | the change handler's revalidation as written, which checks the partner field against the form before the change; stated by `StaleConfirmationError` |
| SignupPage.ChangeErrors | frontend/src/pages/SignupPage.jsx:65-80 | the corrected revalidation against the changed form; stated by `ChangeErrorsCurrent` |
| SignupPage.ChangeErrorsCurrent | frontend/src/pages/SignupPage.jsx:65-80 | an untouched field's change leaves the errors; a touched one refreshes its error and its touched partner's against the changed form, and moves no other entry |
| SignupPage.StaleConfirmationError | frontend/src/pages/SignupPage.jsx:69-74 | as written, matching the password to the confirmation leaves a stale mismatch error; the corrected revalidation clears it |
| SignupPage.SubmitErrors | frontend/src/pages/SignupPage.jsx:93-97 | exactly the failing fields, each with its rule's message |
| SignupPage.SubmitErrorsEmptyIff | frontend/src/pages/SignupPage.jsx:93-102 | nothing is reported iff every rule accepts, and then the passwords agree, have at least 6 units and the email matches |
| SignupPage.Page.constructor | frontend/src/pages/SignupPage.jsx:7-18 | empty form, no errors, nothing touched, no strength |
| SignupPage.Page.Change | frontend/src/pages/SignupPage.jsx:57-82 | the field is stored, the strength follows a password change, and the errors are those of the corrected revalidation |
| SignupPage.Page.Blur | frontend/src/pages/SignupPage.jsx:84-88 | the field becomes touched and its error is its rule's verdict |
| SignupPage.Page.CollectErrors | frontend/src/pages/SignupPage.jsx:93-97 | the loop builds exactly the submit error object |
| SignupPage.ErrorsOverFieldOrder | frontend/src/pages/SignupPage.jsx:93-97 | visiting the five keys in order gives exactly the fields whose rule fails, each with its message |
| SignupPage.Page.Submit | frontend/src/pages/SignupPage.jsx:90-126 | any failing field replaces the errors and sends nothing; otherwise the account data without the confirmation is sent, a success resets all five fields and a failure keeps them |
| LoginPage.Set | frontend/src/pages/LoginPage.jsx:43 | the changed field holds the value and the other is kept |
| LoginPage.ValidateField | frontend/src/pages/LoginPage.jsx:26-28 | the password passes iff it is non-empty, with no trimming and no length rule |
| LoginPage.RulesAgainstSignup | frontend/src/pages/LoginPage.jsx:21-28 | the email rule is the sign-up rule; a password of spaces or of one character passes here |
| LoginPage.SubmitErrors | frontend/src/pages/LoginPage.jsx:53-57 | exactly the failing fields, each with its rule's message |
| LoginPage.Page.constructor | frontend/src/pages/LoginPage.jsx:10-16 | empty form, no errors, nothing touched, no user |
| LoginPage.Page.Blur | frontend/src/pages/LoginPage.jsx:35-39 | the field becomes touched and its error is its rule's verdict |
| LoginPage.Page.Change | frontend/src/pages/LoginPage.jsx:41-48 | the field is stored and its error refreshed only when it was touched |
| LoginPage.Page.CollectErrors | frontend/src/pages/LoginPage.jsx:53-57 | the loop builds exactly the submit error object |
| LoginPage.ErrorsOverFieldOrder | frontend/src/pages/LoginPage.jsx:53-57 | visiting the two keys in order gives exactly the fields whose rule fails, each with its message |
| FormErrors.CollectFailing | frontend/src/pages/LoginPage.jsx:53-57 | the `forEach` loop leaves the error object that visiting the keys in order defines |
| FormErrors.ErrorsOverFailing | frontend/src/pages/SignupPage.jsx:93-97 | visiting keys in order records exactly the keys whose message is non-empty, with that message |
| Text.TrimsToEmpty | frontend/src/pages/OpmSuccessPage.jsx:70 | the `!s.trim()` test holds exactly when every character is whitespace |
| LoginPage.Page.Submit | frontend/src/pages/LoginPage.jsx:50-75 | any failing field sets exactly those errors and sends nothing; otherwise the form is sent, a success stores the user and clears both fields, a failure keeps the form |
| AuthRouter.UserStore.Signup | backend/routers/auth.py:11-28 | a stored address gives 400 "Email already registered" and no change; otherwise exactly one document with the names, the address and the hash of the password is appended and "Signup successful!" returned; the address is registered afterwards and addresses stay unique |
| Routes.Route | frontend/src/App.jsx:14-37 | the screen the route table renders for a sign-in state and a path; stated by `ScreensByState`, `ProtectedPagesNeedUser`, `AboutInBothStates`, `RedirectsSettle` and `OwnPathsRender` |
| Routes.StripTrailingSlashes | frontend/src/App.jsx:18-34 | the longest prefix of the path not ending in '/', with only '/' removed |
| Routes.ScreensByState | frontend/src/App.jsx:19-33 | signed out only login, sign-up, about or a redirect to /login; signed in only generator, success, about, projects or a redirect to /opm_code_generator |
| Routes.ProtectedPagesNeedUser | frontend/src/App.jsx:19-33 | the generator, success and projects pages are never shown without a user |
| Routes.AboutInBothStates | frontend/src/App.jsx:23-30 | /about, in any case and with any trailing slashes, shows the about page in both states |
| Routes.RedirectsSettle | frontend/src/App.jsx:24-32 | each redirect lands on a path that renders in the same state |
| Routes.OwnPathsRender | frontend/src/App.jsx:21-31 | /login, /signup, /projects and /opm_success render their own pages |

## Left out

- Drag-hover highlighting (`isDragActive`), markup, CSS, `alert`, `toast`, `console` logging and the clipboard copy with its 1500 ms feedback timer: presentation only.
- Blob and anchor downloads: a download is the `Download` value it would hand the browser.
- UploadGate.Message: the size message keeps its fixed text; the `toFixed(2)` MB figure after it is a display-only float.
- OpmRouter.UploadCheck: the size error keeps its fixed text "File exceeds 5MB."; the `:.2f` MB figure after it is a display-only float.
- ProjectsRouter.StatsOf: the KB sizes are `round(…/1024, 2)` floats and are not modelled. `created_at` is an integer present in every record.
- ProjectsRouter.ProjectStore.DeleteProject: the 500 for a zero delete count is modelled, but a sequential store never reaches it after a successful lookup.
- The network wrappers and their endpoint constants: every awaited call is an input that returns or throws. Some names the pages import are absent from the wrappers shown.
- As written, every generation or refinement request that passes the route's checks fails with a 500, because the routes pass `diagram_bytes=` to entry points that declare `pdf_bytes` (see Findings). The rows about the agent's answer reaching the client (`AcceptedRequestAnswered`, `NonObjectOutputFailsRequest`) assume the corrected call.
- UnexpectedKeyword: the `TypeError` text is the wording of Python 3.10 and later, which name the method by its qualified name; older versions name it without the class.
- The Gemini client, the knowledge-file uploads, the constructor and the older client module: foreign-library plumbing. The model call is a parameter.
- The prompt texts: static instructions to the model. `SystemPrompt` stands for the system prompt.
- GeminiAgent.DiagramPart: the diagram is sent under the PDF media type whatever the image's real type, exactly as written; the model does not say what the model service does with that.
- `response.text` being `None`, which makes `json.loads` raise `TypeError`: the parser parameter returns a value or reports a decode error, nothing else.
- `EmailStr` normalisation in the backend schema and the browser's `type="email"` value sanitisation: not part of this model. The schema's 72-character password bound is a precondition of `AuthRouter.UserStore.Signup`.
- The login route is not part of this model; `LoginPage.UserRecord` stands for the user it returns.
- bcrypt's random salt: the hash is a function parameter fixed for one call.
- ProjectsPage.LanguageIcon: the icon table is looked up as a plain map. Names inherited from JavaScript's `Object.prototype` (such as `toString`) would give a non-default value, but the backend only admits the four languages.
- Date formatting in the projects grid (`formatDate`): locale output only.
- Async interleaving: each handler is one atomic step. The re-fetch after a delete, which runs without `await`, is taken to finish within the step. Results that arrive after unmounting are not modelled.
- LoadingModal: real time is not modelled; a timer firing is one step. The cleanup on unmount is the same clearing that `SetOpen(false)` models.
- React Router's percent-decoding of paths and non-ASCII case folding: the patterns are ASCII, so neither affects them.
- The about page and both navigation bars: presentation only.

## Findings

| source | as written | input that shows it | evidently intended | confidence | as-written member | corrected member |
|---|---|---|---|---|---|---|
| frontend/src/pages/SignupPage.jsx:69-80 | the partner password field is re-validated against `formData` as it was before the change | both fields touched, password "abcdef", confirmation "abcdefg"; the password is changed to "abcdefg" | the confirmation's error is computed against the changed form and clears | not executed | SignupPage.StaleConfirmationError | SignupPage.ChangeErrorsCurrent |
| backend/ai/gemini_agent.py:63 | `result.keys()` is called on whatever `json.loads` returned | model text "[]" parses to a list, and the agent raises `AttributeError` | non-object output is answered with "Model output missing required fields." | not executed | GeminiAgent.ArrayOutputRaises | GeminiAgent.CallGeminiOutcomes |
| backend/routers/opm.py:65-69 | both routes pass the diagram as `diagram_bytes=`, while `generate_code_from_diagram` and `refine_generated_code` declare it as `pdf_bytes` | language "python" and a 10-byte file "d.png": the checks pass and the call raises `TypeError` | the diagram is bound to `pdf_bytes` and the agent's answer is returned | not executed | GeminiAgent.KeywordMismatchFailsEveryRequest | GeminiAgent.AcceptedRequestAnswered |
