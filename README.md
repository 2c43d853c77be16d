# CRAB AI front end: resume builder, saved resumes, password reset and page widgets

CRAB AI (Career Resume Assistant Bot) is a React web application for job seekers. This project models
the state logic of six parts of its front end:

- the resume builder page: the personal-details form, the experience and education entry lists, and
  the live preview;
- the `useResumes` hook: it lists, creates, updates and deletes the signed-in user's saved resumes
  in a remote table, with a limit of three resumes per user;
- the reset-password page: a session check, the password rules, and a reset step followed by
  a success step;
- the portfolio generator page: section switches, the generate button and the section preview;
- the interview preparation page: a resume file, a target role, canned questions and their hint panels;
- the help page's FAQ, whose items open and close.

Each page is a `class` whose fields are the component's state variables. Its methods are the
component's event handlers, and each method's contract says what the new state is. The pure parts
(list edits, the preview, the row updates made by the remote table) are functions, and lemmas state
their properties.

Shared modules:

- `Seqs` holds JavaScript's `Array.filter`.
- `Strings` holds `String.prototype.trim` over the ECMAScript white-space and line-terminator set,
  plus a one-character `split` and its inverse `join`.
- `EntryList` holds the id-keyed list edits that the experience and education lists share.

Every call to the remote service is replaced by a parameter that gives its outcome: whether a session
exists, what the password update reported, the insert response, and whether an update, delete or
refetch failed. The remote table itself
is a class holding a sequence of rows.

Points where the code's behaviour may differ from what one would expect of these pages:

- The reset-password form opens for any session the identity provider reports, not only a
  password-recovery session: a user who is simply signed in also reaches the form.
- The preview hides an entry whose title (or degree) is the empty string. A title of only blanks is
  shown, because the filter tests the untrimmed string.
- A resume update writes only the fields present in the partial record.
- Fetching with no signed-in user clears the list but keeps the previous resume count.
- Switching a portfolio section that is not in the record adds it at the end.
- A second click on a help item restores its previous state.

## Model

| member | source | states |
|---|---|---|
| Seqs.Filter | src/pages/ResumeBuilder.tsx:147 | `Array.filter`: the result holds exactly the input elements that satisfy the predicate, and it is the input itself when every element does |
| Seqs.FilterAppend | src/pages/ResumeBuilder.tsx:147 | filtering a concatenation is the concatenation of the filtered parts |
| Seqs.FilterSubsumed | src/hooks/useResumes.ts:81-85 | filtering by a weaker predicate first and then by a stronger one is the same as filtering by the stronger one alone |
| Strings.Trim | src/pages/ResumeBuilder.tsx:138 | the result has no leading or trailing white space; it uses only characters of the input; it is empty exactly when the input is all white space |
| Strings.TrimExact | src/pages/ResumeBuilder.tsx:138 | trimming white-space padding around an already trimmed string gives back that string |
| Strings.TrimIdempotent | src/pages/ResumeBuilder.tsx:138 | trimming twice is trimming once |
| Strings.Split | src/pages/ResumeBuilder.tsx:136 | `split(",")` gives one more piece than there are separators, and no piece contains the separator |
| Strings.Contains | src/hooks/useResumes.ts:150 | `includes` holds exactly when the substring occurs at some position of the string |
| Strings.JoinSplit | src/pages/ResumeBuilder.tsx:136 | joining the pieces of a split with the separator gives back the original string |
| Strings.SplitJoin | src/pages/ResumeBuilder.tsx:136 | splitting a join of pieces without the separator gives back the pieces |
| EntryList.Add | src/pages/ResumeBuilder.tsx:43-51 | adding appends one blank entry with the new id after the old list, and keeps the ids distinct when the new id is fresh |
| EntryList.WithoutId | src/pages/ResumeBuilder.tsx:55 | the filter keeps exactly the entries whose id differs; an unknown id leaves the list unchanged |
| EntryList.WithoutIdAppend | src/pages/ResumeBuilder.tsx:55 | removing from a concatenation removes from each part, so the surviving entries keep their order and multiplicity |
| EntryList.WithoutIdRemovesAtMostOne | src/pages/ResumeBuilder.tsx:53-57 | with distinct ids, removing an id drops at most one entry and keeps the ids distinct |
| EntryList.Remove | src/pages/ResumeBuilder.tsx:53-57 | the remove guard: a list of one entry (or an unknown id) is left as it is, a longer one loses exactly the entries with that id; with distinct ids the list never becomes empty |
| EntryList.UpdateWhere | src/pages/ResumeBuilder.tsx:59-63 | the update changes only the entries carrying the id, keeps every id and the length, and keeps ids distinct |
| EntryList.EditsKeepNonEmpty | src/pages/ResumeBuilder.tsx:43-84 | any sequence of add (with a fresh id), remove and update clicks, starting from one entry, leaves a non-empty list with distinct ids |
| EntryList.SharedIdEmptiesList | src/pages/ResumeBuilder.tsx:53-57 | the one-entry guard depends on distinct ids: two entries that share an id are both removed, which empties the list |
| ResumeBuilder.WithExperienceValue | src/pages/ResumeBuilder.tsx:59-63 | `{ ...e, [field]: value }` sets the named field and leaves the other three fields unchanged |
| ResumeBuilder.WithEducationValue | src/pages/ResumeBuilder.tsx:80-84 | `{ ...e, [field]: value }` sets the named field and leaves the other two fields unchanged |
| ResumeBuilder.UpdatedExperiences | src/pages/ResumeBuilder.tsx:59-63 | after `updateExperience`, only the named field of the entries carrying the id has the new value; every other field and entry, the ids and the length are kept |
| ResumeBuilder.UpdatedEducation | src/pages/ResumeBuilder.tsx:80-84 | the same as UpdatedExperiences, for `updateEducation` |
| ResumeBuilder.WithFormValue | src/pages/ResumeBuilder.tsx:188-230 | each details input sets its own form field and no other |
| ResumeBuilder.SkillChips | src/pages/ResumeBuilder.tsx:132-140 | the skills line shows one chip per comma-separated piece (commas + 1 of them); each chip is the trimmed piece and contains no comma |
| ResumeBuilder.VisibleExperiences | src/pages/ResumeBuilder.tsx:147 | the preview lists exactly the experiences whose title is non-empty |
| ResumeBuilder.VisibleEducation | src/pages/ResumeBuilder.tsx:163 | the preview lists exactly the education entries whose degree is non-empty |
| ResumeBuilder.RenderPreview | src/pages/ResumeBuilder.tsx:116-175 | the heading is the full name, or "Your Name" when the name is empty; phone, summary and skills are shown exactly when non-empty; the skills line is the list of trimmed comma pieces; experience and education sections hold the visible entries |
| ResumeBuilder.AddedExperienceHidden | src/pages/ResumeBuilder.tsx:43-51 | a freshly added blank experience does not change the preview |
| ResumeBuilder.AddedEducationHidden | src/pages/ResumeBuilder.tsx:65-72 | a freshly added blank education entry does not change the preview |
| ResumeBuilder.NonTitleEditKeepsVisibility | src/pages/ResumeBuilder.tsx:59-63 | editing company, duration or description never changes which experiences the preview lists |
| ResumeBuilder.Builder.constructor | src/pages/ResumeBuilder.tsx:25-41 | the page starts with an empty form, one blank experience and one blank education entry (both with id "1"), and the preview hidden |
| ResumeBuilder.Builder.Render | src/pages/ResumeBuilder.tsx:116-175 | the preview drawn from the current state |
| ResumeBuilder.Builder.TogglePreview | src/pages/ResumeBuilder.tsx:104 | the preview button flips the preview |
| ResumeBuilder.Builder.SetFormField | src/pages/ResumeBuilder.tsx:188-230 | a details input replaces one form field |
| ResumeBuilder.Builder.AddExperience | src/pages/ResumeBuilder.tsx:43-51 | appends a blank experience with the fresh id and keeps both lists non-empty with distinct ids |
| ResumeBuilder.Builder.RemoveExperience | src/pages/ResumeBuilder.tsx:53-57 | removes by id unless only one experience is left; keeps the lists non-empty with distinct ids |
| ResumeBuilder.Builder.UpdateExperience | src/pages/ResumeBuilder.tsx:59-63 | sets one field of the experience with that id |
| ResumeBuilder.Builder.AddEducation | src/pages/ResumeBuilder.tsx:65-72 | appends a blank education entry with the fresh id, keeping the invariant |
| ResumeBuilder.Builder.RemoveEducation | src/pages/ResumeBuilder.tsx:74-78 | removes by id unless only one education entry is left, keeping the invariant |
| ResumeBuilder.Builder.UpdateEducation | src/pages/ResumeBuilder.tsx:80-84 | sets one field of the education entry with that id |
| ResumeStore.IsQuotaRejection | src/hooks/useResumes.ts:150 | an insert error is the server's quota rejection exactly when its message contains "Maximum of 3 resumes" |
| ResumeStore.NewRow | src/hooks/useResumes.ts:130-147 | the inserted row belongs to the user, carries every content field of the draft, and gets the id and timestamps the server assigns |
| ResumeStore.Patched | src/hooks/useResumes.ts:177-187 | an update writes the name, form data and seven lists when the patch gives them, and never changes the id, owner, profile type, template or timestamps |
| ResumeStore.OwnedBy | src/hooks/useResumes.ts:81-84 | the `user_id` filter returns exactly the user's rows |
| ResumeStore.Targets | src/hooks/useResumes.ts:188-189 | `.eq('id', id).eq('user_id', user.id)`: a row is addressed exactly when both its id and its owner match |
| ResumeStore.UpdatedRows | src/hooks/useResumes.ts:188-189 | the update touches exactly the rows with that id and that owner, patching them, and keeps the rest |
| ResumeStore.DeletedRows | src/hooks/useResumes.ts:212-214 | the delete removes exactly the rows with that id and that owner |
| ResumeStore.DeleteIdempotent | src/hooks/useResumes.ts:210-214 | deleting the same resume twice is deleting it once |
| ResumeStore.UpdateIsolation | src/hooks/useResumes.ts:188-189 | one user's update never changes another user's rows |
| ResumeStore.DeleteIsolation | src/hooks/useResumes.ts:212-214 | one user's delete never changes another user's rows |
| ResumeStore.InsertNewestFirst | src/hooks/useResumes.ts:85 | inserting into a list ordered newest-updated first keeps it ordered and adds exactly the one row |
| ResumeStore.SortNewestFirst | src/hooks/useResumes.ts:85 | `order('updated_at', { ascending: false })` is a permutation ordered newest first |
| ResumeStore.Fetched | src/hooks/useResumes.ts:81-85 | the fetch returns the user's rows and only those, each once, newest first |
| ResumeStore.InsertThenFetch | src/hooks/useResumes.ts:130-158 | after an insert, the refetch contains the new row and one more resume than before |
| ResumeStore.ResumesHook.constructor | src/hooks/useResumes.ts:67-71 | the hook starts with no resumes, loading, and a count of 0 |
| ResumeStore.ResumesHook.FetchResumes | src/hooks/useResumes.ts:73-110 | with no user it clears the list and stops loading; otherwise a successful fetch sets the list to the user's rows newest first and the count to their number, a failed one keeps both; loading ends either way |
| ResumeStore.ResumesHook.CanCreateResume | src/hooks/useResumes.ts:116 | creating is allowed exactly when fewer than three resumes are counted |
| ResumeStore.ResumesHook.CreateResume | src/hooks/useResumes.ts:118-166 | no user fails without writing; at three resumes it fails with the quota error without writing; otherwise an insert error fails (a quota message from the server is reported as the quota error) and a success adds the new row to the table, refetches and returns the row |
| ResumeStore.ResumesHook.UpdateResume | src/hooks/useResumes.ts:168-201 | succeeds exactly when there is a user and the request does not fail; on success the table holds the patched rows and the list is refetched; on failure nothing changes |
| ResumeStore.ResumesHook.DeleteResume | src/hooks/useResumes.ts:203-226 | succeeds exactly when there is a user and the request does not fail; on success the user's row with that id is gone and the list is refetched; on failure nothing changes |
| ResetPassword.PasswordsMatch | src/pages/ResetPassword.tsx:23 | `passwordsMatch`: the two fields are equal and the confirmation is non-empty |
| ResetPassword.PasswordValid | src/pages/ResetPassword.tsx:24 | `passwordValid`: the password has at least 8 characters |
| ResetPassword.SubmitRuleIff | src/pages/ResetPassword.tsx:23-24 | the match rule and the length rule together accept exactly equal passwords of at least 8 characters |
| ResetPassword.ResetPasswordPage.constructor | src/pages/ResetPassword.tsx:14-21 | the page starts on the reset step, with empty fields, hidden passwords, not loading, and checking the session |
| ResetPassword.ResetPasswordPage.Render | src/pages/ResetPassword.tsx:67-80 | while the session is being checked the page shows the verifying message; an invalid session shows nothing; otherwise it shows the form on the reset step and the success message after it |
| ResetPassword.ResetPasswordPage.SubmitDisabled | src/pages/ResetPassword.tsx:211 | the submit button is enabled exactly when not loading and the two passwords are equal and at least 8 characters long |
| ResetPassword.ResetPasswordPage.CheckSession | src/pages/ResetPassword.tsx:26-41 | any session (a recovery session or an ordinary sign-in) marks the page valid; no session sends the user to the forgot-password page; the check ends either way |
| ResetPassword.ResetPasswordPage.SetPassword | src/pages/ResetPassword.tsx:158 | typing sets the new password |
| ResetPassword.ResetPasswordPage.SetConfirmPassword | src/pages/ResetPassword.tsx:188 | typing sets the confirmation |
| ResetPassword.ResetPasswordPage.ToggleShowPassword | src/pages/ResetPassword.tsx:165 | the eye button flips the password's visibility |
| ResetPassword.ResetPasswordPage.ToggleShowConfirmPassword | src/pages/ResetPassword.tsx:194 | the eye button flips the confirmation's visibility |
| ResetPassword.ResetPasswordPage.HandleResetSubmit | src/pages/ResetPassword.tsx:43-65 | the update is requested exactly when both rules pass; only an update with no error moves to the success step; loading is over afterwards |
| Portfolio.Lookup | src/pages/PortfolioGenerator.tsx:25 | `prev[id]` read as a boolean: only a key present in the record can read true |
| Portfolio.Assign | src/pages/PortfolioGenerator.tsx:25 | `{ ...prev, [key]: value }` keeps the key order when the key exists and appends the key otherwise |
| Portfolio.AssignLookup | src/pages/PortfolioGenerator.tsx:25 | after the assignment the key reads the new value and every other key reads as before |
| Portfolio.Reduce | src/pages/PortfolioGenerator.tsx:18-20 | folding sections into the record never reorders or drops the keys already in it |
| Portfolio.ReduceAppends | src/pages/PortfolioGenerator.tsx:18-20 | folding sections with fresh ids into the record appends one flag per section, holding its default, in order |
| Portfolio.SectionIdsFresh | src/pages/PortfolioGenerator.tsx:8-15 | the six section ids are distinct |
| Portfolio.InitialSelection | src/pages/PortfolioGenerator.tsx:18-20 | the initial record has the six section ids in order, all switched on |
| Portfolio.Toggle | src/pages/PortfolioGenerator.tsx:24-26 | switching flips that key's reading, leaves every other reading unchanged, and keeps the keys of an existing key |
| Portfolio.ToggleTwice | src/pages/PortfolioGenerator.tsx:24-26 | switching an existing section twice gives back the same record |
| Portfolio.ToggleTwiceLookups | src/pages/PortfolioGenerator.tsx:24-26 | switching any key twice gives back every reading |
| Portfolio.SomeOn | src/pages/PortfolioGenerator.tsx:83 | `Object.values(...).some(Boolean)` holds exactly when some key is switched on |
| Portfolio.GenerateDisabled | src/pages/PortfolioGenerator.tsx:83 | the generate button is enabled exactly when nothing is being generated and the preview would list at least one section |
| Portfolio.OnKeys | src/pages/PortfolioGenerator.tsx:121-122 | the entries filter keeps exactly the keys whose switch is on |
| Portfolio.PreviewKeys | src/pages/PortfolioGenerator.tsx:121-124 | the preview shows the first min(4, number switched on) switched-on keys, in record order |
| Portfolio.LookupOn | src/pages/PortfolioGenerator.tsx:121-122 | with distinct keys, a key reads true exactly when some entry for it is on |
| Portfolio.OnKeysAreLookups | src/pages/PortfolioGenerator.tsx:121-122 | with distinct keys, the preview's candidate keys are exactly the keys that read true |
| Portfolio.AllOnKeys | src/pages/PortfolioGenerator.tsx:83 | with every switch on, every key is a candidate and (when there is one) generating is enabled |
| Portfolio.InitialPreview | src/pages/PortfolioGenerator.tsx:18-20 | on first render generating is enabled and the preview would list about, skills, experience and projects |
| Portfolio.AllOffDisablesGenerate | src/pages/PortfolioGenerator.tsx:83 | with every switch off, generating is disabled and the preview is empty |
| Portfolio.InitialDistinct | src/pages/PortfolioGenerator.tsx:18-20 | the initial record holds each section key once |
| Portfolio.ToggleKeepsDistinct | src/pages/PortfolioGenerator.tsx:24-26 | switching a section never repeats a key in the record |
| Portfolio.PortfolioGenerator.constructor | src/pages/PortfolioGenerator.tsx:18-22 | the page starts with the initial record, not generating and nothing generated, and its record holds each key once |
| Portfolio.PortfolioGenerator.SectionChecked | src/pages/PortfolioGenerator.tsx:70 | a section's switch shows on exactly when the preview and the generate gate count that section as switched on |
| Portfolio.PortfolioGenerator.ToggleSection | src/pages/PortfolioGenerator.tsx:24-26 | a switch replaces the record by its toggled form and keeps each key once |
| Portfolio.PortfolioGenerator.HandleGenerate | src/pages/PortfolioGenerator.tsx:28-29 | the generate button starts generating |
| Portfolio.PortfolioGenerator.FinishGenerate | src/pages/PortfolioGenerator.tsx:30-33 | when the timer fires, generating stops and the portfolio counts as generated |
| Portfolio.PortfolioGenerator.PreviewSections | src/pages/PortfolioGenerator.tsx:108-124 | before generation the preview shows no sections, afterwards at most four: the record's preview keys |
| InterviewPrep.GeneratedQuestionsShape | src/pages/InterviewPrep.tsx:31-68 | the generated list has six questions with distinct ids, all closed |
| InterviewPrep.ToggledQuestions | src/pages/InterviewPrep.tsx:73-77 | a click flips the open state of exactly the questions with that id and keeps every text and id |
| InterviewPrep.ToggleUnknownId | src/pages/InterviewPrep.tsx:73-77 | a click on an id no question carries changes nothing |
| InterviewPrep.ToggleQuestionTwice | src/pages/InterviewPrep.tsx:73-77 | two clicks on a question give back the list |
| InterviewPrep.TogglesCommute | src/pages/InterviewPrep.tsx:73-77 | clicks on two questions commute |
| InterviewPrep.ChosenFile | src/pages/InterviewPrep.tsx:22-26 | the first chosen file replaces the kept file; a missing or empty file list keeps it |
| InterviewPrep.InterviewPrepPage.constructor | src/pages/InterviewPrep.tsx:17-20 | the page starts with no file, an empty role, not generating and no questions |
| InterviewPrep.InterviewPrepPage.GenerateButtonDisabled | src/pages/InterviewPrep.tsx:145 | the generate button is enabled exactly when a file is chosen, the role is non-empty and nothing is being generated |
| InterviewPrep.InterviewPrepPage.ShowsQuestions | src/pages/InterviewPrep.tsx:153 | the question list replaces the placeholder exactly when there are questions |
| InterviewPrep.InterviewPrepPage.HandleFileChange | src/pages/InterviewPrep.tsx:22-26 | the kept file becomes the chosen file |
| InterviewPrep.InterviewPrepPage.SetTargetRole | src/pages/InterviewPrep.tsx:135 | typing sets the target role |
| InterviewPrep.InterviewPrepPage.HandleGenerate | src/pages/InterviewPrep.tsx:28-29 | the generate button starts generating |
| InterviewPrep.InterviewPrepPage.FinishGenerate | src/pages/InterviewPrep.tsx:30-70 | when the timer fires the six questions are installed and generating stops |
| InterviewPrep.InterviewPrepPage.ToggleQuestion | src/pages/InterviewPrep.tsx:73-77 | a question click replaces the list by its toggled form |
| InterviewPrep.GenerateFlow | src/pages/InterviewPrep.tsx:17-77 | from a fresh page, choosing a file and typing a role enables generating; once the timer fires, the six questions are shown |
| Help.IsOpen | src/pages/Help.tsx:37-39 | `prev[index]` read as a boolean: an item never clicked is closed, a clicked one reads its stored state |
| Help.Toggled | src/pages/Help.tsx:37-39 | a click flips that item's open state and no other item's |
| Help.ToggleTwice | src/pages/Help.tsx:37-39 | two clicks on an item give back every item's state |
| Help.HelpPage.constructor | src/pages/Help.tsx:35 | the page starts with every item closed |
| Help.HelpPage.ItemOpen | src/pages/Help.tsx:101 | an item's `open` prop equals its stored state, and an item with no stored state is closed |
| Help.HelpPage.ToggleItem | src/pages/Help.tsx:37-39 | an item click replaces the record by its toggled form |
| Help.Count | src/pages/Help.tsx:37-39 | the number of clicks on an item is zero exactly when it was never clicked |
| Help.OpenAfterClicks | src/pages/Help.tsx:37-39 | after any sequence of clicks, an item's state has flipped exactly when it was clicked an odd number of times |

## Left out

- Toast notifications, console logging, and page navigation are not modelled. The one exception is the reset page's redirect, which is a flag.
- Timers are not modelled. Each `setTimeout` callback is a separate method (`FinishGenerate`), and the model does not capture the 2-second delay itself.
- React effect scheduling and batching are not modelled. A handler's state updates are applied in order, as one method call.
- The remote service is not modelled: Supabase authentication and the resumes table's network calls. Their outcomes are parameters.
- The table's `updated_at` trigger is not modelled. An update keeps the row's timestamps, and timestamps are natural numbers rather than ISO strings.
- `Date.now()` ids are not modelled. `AddExperience` and `AddEducation` take the new id as a parameter and require it to be fresh.
- The `keyof Experience` and `keyof Education` field names include `id`. The update enums leave it out, because no input of the page passes it.
- The builder page's "Download PDF" button is not modelled; it has no handler in the code.
- The portfolio's Preview and Download buttons are not modelled; they also have no handler.
- The profile-type and template choices and the five other resume sublists (projects, profile links, achievements, certifications, internships) are stored by the hook but not edited by the builder page. The builder models only personal details, experience and education.
- The login, signup, forgot-password, dashboard, file library, matcher and profile pages are not part of this model.
- Strings are sequences of characters, not UTF-16 code units. The `split` limit argument is not used by the code and is not modelled.
- The phone separator glyph in the preview heading is not modelled: the preview records whether the phone is shown and its text.
- The FAQ question and answer texts are not modelled. The page's behaviour is the open state of each item, keyed by its index.
- A help item whose state is missing is treated as closed. The collapsible widget's uncontrolled mode for an `undefined` open state is not modelled.
- ResumeStore.SortNewestFirst: the order of two rows with the same `updated_at` is the model's choice; the database leaves it unspecified.
