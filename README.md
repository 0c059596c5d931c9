# IndicSubtitleNet core, modelled in Dafny

IndicSubtitleNet is a subtitling and translation platform for Indian languages. It has
an Express backend that admits transcription jobs onto BullMQ lanes, and React front
ends over a hosted database. The backend decides logic in a few places. The front ends
decide it in many small handlers and derived values. This project models those
deterministic decisions and transformations and proves their properties:

- **Job admission.** The lane rule `chooseQueue`, the single enqueue of `publishJob`
  and its retry options, the `modelsRun`/`jobStatus` request checks and responses, and
  the defaults the error middleware fills in.
- **Job state on the client.** The `useJobMonitor` socket handlers and listener
  bookkeeping, the job list merge and log append of the jobs page, the job monitor's
  duration format and guards, the workflow runner's language toggle and submit
  sequence, and the file uploader's validation.
- **Access control.** `hasPermission`, the permission flattening, the role flags,
  `getFeatureAccess`, the sign-up defaults and the `ProtectedRoute` decision.
- **Onboarding.** The onboarding record updates (start, complete a step, skip), the
  notification updates, the welcome wizard's step counter, and the checklist,
  announcement and notification views.
- **Validators and string transforms.** The IFFI registration form, the API key
  shape, prefix and hex encoding, the two slug generators, and `trim`, `toLowerCase`,
  `split` and `includes` as JavaScript defines them, and `parseInt` on decimal
  digits (the hexadecimal prefix is not read, see below).
- **Aggregations, filters and formatters.**
  - The per-language group-by, sum, mean, sort and top eight.
  - The date pivot of the trend rows and relative-time buckets.
  - Uptime and duration decomposition.
  - The order-preserving page filters.
  - The dashboard counts and rounded percentages.

There is one module per source file. Shared modules hold what several files use:
`Base` for options, JavaScript truthiness and a rounded percentage, `Text` for
strings, `TextLemmas` for the laws that relate `trim` and `parseInt` to their parts,
`Lists` for filters, and `Analytics` for the code that the two performance APIs
share.

State the source changes in place becomes a `class` with `modifies` clauses. That
covers the wizard counter, the FAQ accordion, the socket listener bookkeeping, the
queue `add`, and the state of pages and forms that handlers set step by step. Pure
updaters and derived values become functions. The source's loops become methods with
`while` loops, each proved against a specification function: the key generation loop,
the hex encoding, and the `forEach` tallies and pivots.

The database, the sockets, the clock, `Math.random`, `uuidv4` and the SHA-256 digest
are outside the model. What they return arrives as parameters. Where a handler writes
to the database, a `written` flag says whether the write succeeded.

Some behaviours the proofs make explicit:

- No checklist button completes the 'welcome' step. So completing steps from the
  interface never completes onboarding; only skipping ends it
  (`QuickStartChecklist.UiNeverCompletes`).
- The FAQ accordion restores its state after two toggles of the same index only when
  no entry or that entry was open. From another open entry, two toggles close
  everything (`Faq.ToggleTwiceFromOther`).
- The system health page always reports the database and Redis as connected, because
  of `connected || true`. A failed request is caught as status 'unknown'. The
  field defaults ('healthy', 86400 seconds and so on) apply to every missing or falsy
  field, also in a non-null body without `status`. The catch block's fixed record
  applies only when a body is null.
- In the analytics pivot, the `date` cell keeps its label only while no entity is
  itself named "date"; such an entity overwrites it (`Analytics.EntryDate`).
- A negative uptime gives hours down to -24 and minutes down to -60, because the
  source floors a negative JavaScript remainder.

## Model

| member | source | states |
|---|---|---|
| Orchestrator.LaneName | ISN_MVP/backend/src/services/orchestratorService.js:9-11 | each lane is named by the queue string `chooseQueue` returns: 'realtime', 'standard', 'bulk' |
| Orchestrator.LaneNameInjective | ISN_MVP/backend/src/services/orchestratorService.js:9-11 | two lanes share a queue name exactly when they are the same lane |
| Orchestrator.ChooseQueue | ISN_MVP/backend/src/services/orchestratorService.js:8-12 | realtime iff the class is 'realtime' or the duration is at most 120 s (120 itself included); standard iff not realtime and 120 < d ≤ 900; bulk iff not realtime and d > 900 |
| Orchestrator.ChooseQueueMonotone | ISN_MVP/backend/src/services/orchestratorService.js:8-12 | for a fixed class a longer medium never goes to a faster lane |
| Orchestrator.PayloadLane | ISN_MVP/backend/src/services/orchestratorService.js:16 | the lane of a payload is `chooseQueue` of its duration and its class defaulting to 'auto'; a missing duration never routes to standard and routes to realtime only for class 'realtime' |
| Orchestrator.QueueBroker.constructor | ISN_MVP/backend/src/services/orchestratorService.js:17 | a fresh queue connection has recorded no add |
| Orchestrator.QueueBroker.Add | ISN_MVP/backend/src/services/orchestratorService.js:19 | an add appends exactly one call to the record and changes nothing else |
| Orchestrator.EnqueueCall | ISN_MVP/backend/src/services/orchestratorService.js:19 | the add goes to the payload's lane queue with job name 'process_segment', data {job_id, tenant_id, payload}, 3 attempts, exponential backoff from 2000 ms, removed on completion |
| Orchestrator.PublishJob | ISN_MVP/backend/src/services/orchestratorService.js:14-21 | on success exactly one add is recorded and the result is {job_id 'JOB-'+uuid, status 'queued', the clock reading, the queue name}; a rejected add records nothing and passes the error on |
| JobsController.InvalidRun | ISN_MVP/backend/src/controllers/jobs.controller.js:11-13 | the refusal of a run request is a 400 ERR_INVALID_REQUEST envelope carrying the fresh trace id |
| JobsController.ModelsRun | ISN_MVP/backend/src/controllers/jobs.controller.js:8-21 | an inadmissible body gets the 400 envelope and enqueues nothing; an admissible one is published exactly once for the tenant (default 'demo') and answers 202 with job id, 'queued' and the enqueue time, or 500 ERR_JOB_ENQUEUE with the error's message and nothing enqueued |
| JobsController.AdmissibleIff | ISN_MVP/backend/src/controllers/jobs.controller.js:11 | a request is refused exactly when the body is missing, the input is missing or empty, or the duration is missing or 0 |
| JobsController.JobStatus | ISN_MVP/backend/src/controllers/jobs.controller.js:26-31 | a missing or empty job id gets 400 'job_id required'; any other id is echoed as queued, 0 percent, no manifest |
| ErrorMiddleware.Handle | ISN_MVP/backend/src/middleware/error.middleware.js:1-6 | status, code, message, details and trace id each take the error's (or header's) value when truthy and otherwise 500, 'ERR_INTERNAL', 'Internal Error', {} and the random trace |
| ErrorMiddleware.HandleDefaults | ISN_MVP/backend/src/middleware/error.middleware.js:3-4 | an error carrying nothing is answered 500 ERR_INTERNAL 'Internal Error' with empty details |
| ErrorMiddleware.HandlePassesThrough | ISN_MVP/backend/src/middleware/error.middleware.js:2-5 | every field the error supplies, and a present trace header, reaches the response unchanged |
| UseJobMonitor.OnJobUpdate | src/hooks/useJobMonitor.ts:23-27 | an update for the monitored job replaces the held status with the event's; an update for another job leaves it as it was |
| UseJobMonitor.OnJobProgress | src/hooks/useJobMonitor.ts:29-39 | for the monitored job and a held status only `progress` changes, to the event's value; another job, or no held status, leaves the state unchanged |
| UseJobMonitor.UpdateStages | src/hooks/useJobMonitor.ts:47-51 | same length; each stage with the event's name gets the event's status and progress, every other stage is kept as it was |
| UseJobMonitor.UpdateStagesKeepsOrder | src/hooks/useJobMonitor.ts:47-51 | stage names and their order survive a stage update, and applying the same update twice equals applying it once |
| UseJobMonitor.OnStageUpdate | src/hooks/useJobMonitor.ts:41-55 | for the monitored job and a held status only the stages change, through the per-stage update; otherwise the state is unchanged |
| UseJobMonitor.JobMonitorHook.constructor | src/hooks/useJobMonitor.ts:6-7 | initially no status, not connected, no listener and nothing sent |
| UseJobMonitor.JobMonitorHook.OnConnect | src/hooks/useJobMonitor.ts:14-17 | connecting sets `connected` and sends exactly one 'subscribe:job' for the captured id; nothing else changes |
| UseJobMonitor.JobMonitorHook.OnDisconnect | src/hooks/useJobMonitor.ts:19-21 | disconnecting clears `connected` and changes nothing else |
| UseJobMonitor.JobMonitorHook.Mount | src/hooks/useJobMonitor.ts:9-65 | without a job id nothing happens; with one, exactly the five listeners are registered and, if the socket is already connected, the connect handler runs (connected, one subscribe) |
| UseJobMonitor.JobMonitorHook.Cleanup | src/hooks/useJobMonitor.ts:67-74 | cleanup sends one 'unsubscribe:job' for the captured id and removes all five listeners, keeping status and connection flag |
| UseJobMonitor.JobMonitorHook.ReceiveJobUpdate | src/hooks/useJobMonitor.ts:23-59 | a registered `job:update` listener applies the update rule to the held status and nothing else changes; without listeners nothing changes |
| UseJobMonitor.JobMonitorHook.ReceiveJobProgress | src/hooks/useJobMonitor.ts:29-60 | a registered `job:progress` listener applies the progress rule and nothing else changes |
| UseJobMonitor.JobMonitorHook.ReceiveStageUpdate | src/hooks/useJobMonitor.ts:41-61 | a registered `job:stage:update` listener applies the stage rule and nothing else changes |
| UseJobMonitor.OtherJobIgnored | src/hooks/useJobMonitor.ts:24-42 | events for another job leave the held status unchanged, under each of the three handlers |
| JobsPage.MergeUpdate | ISN_MVP/frontend/src/pages/Jobs.tsx:34-39 | same length and order; a row whose id equals the event's gets the update's fields over its own (its own kept where the update is silent); every other row is untouched |
| JobsPage.MergeUpdateIdempotent | ISN_MVP/frontend/src/pages/Jobs.tsx:34-39 | an update that does not rewrite `id` keeps which rows match, and delivering it twice equals delivering it once |
| JobsPage.AppendLogAsRegistered | ISN_MVP/frontend/src/pages/Jobs.tsx:20-47 | the `job:log` listener registered once on mount compares with the first render's null selection, so it leaves the log lines unchanged |
| JobsPage.StaleLogListener | ISN_MVP/frontend/src/pages/Jobs.tsx:43-47 | the registered listener drops a streamed line for the open job, where comparing with the current selection appends it |
| JobsPage.AppendLog | ISN_MVP/frontend/src/pages/Jobs.tsx:44-46 | a line is appended exactly when the event is for the selected job; otherwise the lines are unchanged |
| JobsPage.LogsOrPlaceholder | ISN_MVP/frontend/src/pages/Jobs.tsx:85 | a response's `logs` array is kept (an empty array included, being truthy); a missing one becomes the single 'No logs available' line |
| JobsPage.JobsFromResponse | ISN_MVP/frontend/src/pages/Jobs.tsx:54 | an array body is the list; anything else is an empty list |
| JobsPage.StatusVariant | ISN_MVP/frontend/src/pages/Jobs.tsx:99-110 | completed→success, failed→danger, running→info, each iff; every other status→warning |
| JobsPage.JobsView.constructor | ISN_MVP/frontend/src/pages/Jobs.tsx:14-18 | no jobs, loading, modal closed, no selection, no log lines |
| JobsPage.JobsView.FetchJobs | ISN_MVP/frontend/src/pages/Jobs.tsx:50-79 | the list becomes the response's array (or empty), or the two demo jobs when the request fails; loading ends; the log viewer is untouched |
| JobsPage.JobsView.ReceiveJobUpdate | ISN_MVP/frontend/src/pages/Jobs.tsx:34-39 | the list becomes the merge of the update; nothing else changes |
| JobsPage.JobsView.ReceiveLog | ISN_MVP/frontend/src/pages/Jobs.tsx:43-47 | the log lines follow `AppendLog` with the current selection (the corrected listener); nothing else changes |
| JobsPage.JobsView.ViewJobLogs | ISN_MVP/frontend/src/pages/Jobs.tsx:81-97 | the job is selected and the modal opened, with the response's logs or placeholder, or the four demo lines when the request fails |
| JobsPage.JobsView.CloseLogs | ISN_MVP/frontend/src/pages/Jobs.tsx:197-201 | closing hides the modal, clears the selection and drops the lines; the list is untouched |
| JobMonitorPage.FormatDuration | src/pages/JobMonitor.tsx:98-102 | minutes are the floor of seconds/60 (so minutes·60 ≤ s < minutes·60 + 60); for s ≥ 0, minutes·60 + seconds = s with 0 ≤ seconds < 60; a negative count keeps JavaScript's sign on the remainder |
| JobMonitorPage.BadgeVariant | src/pages/JobMonitor.tsx:83-96 | completed→success, running→primary, failed→danger, cancelled→secondary, each iff; anything else→default |
| JobMonitorPage.ControlsExclusive | src/pages/JobMonitor.tsx:147-243 | the running controls and the result actions never show together; result actions come with the success badge, running controls with the primary one |
| JobMonitorPage.DownloadTarget | src/pages/JobMonitor.tsx:77-81 | a URL is opened iff there is a job with a result whose output path is non-empty, and it is that path |
| JobMonitorPage.JobMonitorView.constructor | src/pages/JobMonitor.tsx:16-18 | no job, no preview, loading |
| JobMonitorPage.JobMonitorView.FetchJobStatus | src/pages/JobMonitor.tsx:31-47 | without a job id nothing changes and no preview is requested; otherwise a successful poll stores the job and requests the preview iff the job is completed and no preview is held, a failed poll keeps the job, and loading ends |
| JobMonitorPage.JobMonitorView.ReceivePreview | src/pages/JobMonitor.tsx:49-58 | a fetched preview is stored; without a job id or on failure the preview is unchanged; job and loading untouched |
| WorkflowRunner.ToggleTargetLanguage | src/pages/WorkflowRunner.tsx:71-78 | only the target list changes: the language is in it afterwards iff it was not before, every other language keeps its membership, and an absent language is appended at the end |
| WorkflowRunner.ToggleTargetLanguageTwice | src/pages/WorkflowRunner.tsx:71-78 | toggling the same language twice restores every language's membership |
| WorkflowRunner.BuildRequest | src/pages/WorkflowRunner.tsx:97-113 | the request carries the file's name as video path and each form field in its slot |
| WorkflowRunner.CheckSubmission | src/pages/WorkflowRunner.tsx:84-92 | a missing file is reported first, then an empty target list; a request is produced iff both are present, and it is the one built from the form |
| WorkflowRunner.InitialConfigSubmits | src/pages/WorkflowRunner.tsx:55-92 | with a file chosen the initial form (en → [hi], not streaming) passes validation |
| WorkflowRunner.RunnerView.constructor | src/pages/WorkflowRunner.tsx:51-64 | no file, not loading, no error, the initial form, nothing sent |
| WorkflowRunner.RunnerView.SelectFile | src/pages/WorkflowRunner.tsx:66-69 | the file is kept and the error cleared; nothing else changes |
| WorkflowRunner.RunnerView.ToggleLanguage | src/pages/WorkflowRunner.tsx:71-78 | the form becomes the toggled form; nothing else changes |
| WorkflowRunner.RunnerView.Submit | src/pages/WorkflowRunner.tsx:80-125 | an invalid form only sets the validation message and sends nothing; a valid one is sent exactly once, then navigates to the job's page on success or shows the server's message (else 'Failed to start workflow') on failure; loading ends |
| FileUploader.AcceptedTypes | src/components/ui/FileUploader.tsx:33 | one entry per comma-separated piece of `accept`, each trimmed |
| FileUploader.Validate | src/components/ui/FileUploader.tsx:25-43 | a file passes iff it is within the size limit and is a video or audio type or an exact entry of `accept`; an oversized file is reported first, with the limit rounded to whole MB, then a wrong type |
| FileUploader.SizeUnit | src/components/ui/FileUploader.tsx:91-95 | bytes below 1024 print in B, below 1024·1024 in KB, otherwise in MB (each iff) |
| FileUploader.UploaderView.constructor | src/components/ui/FileUploader.tsx:13-22 | the given `accept` and size limit, no file, no error, no drag highlight, nothing reported |
| FileUploader.UploaderView.HandleFile | src/components/ui/FileUploader.tsx:45-50 | a valid file is selected and reported to the parent exactly once with the error cleared; an invalid one only sets the error message |
| FileUploader.UploaderView.HandleFiles | src/components/ui/FileUploader.tsx:62-77 | a drop ends the drag highlight; only the first file is handled, and no file changes nothing |
| FileUploader.UploaderView.HandleRemove | src/components/ui/FileUploader.tsx:83-89 | removing clears the selection and the error and reports nothing |
| Auth.RowPermissions | src/contexts/AuthContext.tsx:84-86 | one 'resource:action' string per action of a permission row, in the order of its actions |
| Auth.Flatten | src/contexts/AuthContext.tsx:84-86 | the flattened list has one entry per action over all rows |
| Auth.FlattenMember | src/contexts/AuthContext.tsx:84-86 | a string is in the flattened list exactly when some row grants that action on that resource |
| Auth.PermissionList | src/contexts/AuthContext.tsx:84-86 | no permission rows gives the empty list; otherwise one entry per granted action |
| Auth.LoadUser | src/contexts/AuthContext.tsx:57-102 | a failed role lookup leaves the user with id and email only, no role and no permissions; otherwise the role row and the flattened permissions are kept |
| Auth.RoleFlags | src/contexts/AuthContext.tsx:200-206 | admin means admin or super admin; a client user is never an admin; a super admin is an admin |
| Auth.HasPermission | src/contexts/AuthContext.tsx:193-198 | nobody signed in has no permission, a super admin has every one, anyone else has exactly the 'resource:action' strings in the list, the action defaulting to 'read' |
| Auth.HasPermissionFromRows | src/contexts/AuthContext.tsx:79-198 | for a loaded user who is not super admin, a permission holds exactly when one of the user's rows grants that action on that resource |
| Auth.GetFeatureAccess | src/contexts/AuthContext.tsx:224-246 | dashboard, workflows, history, billing and API keys for everyone; provider management and routing exactly for super admins; every other capability exactly for admins |
| Auth.FeatureAccessOrdered | src/contexts/AuthContext.tsx:224-246 | capabilities only grow with the role: anyone's are within a super admin's, a non-super-admin's within an admin's, an admin's within a super admin's |
| Auth.NewOrganization | src/contexts/AuthContext.tsx:136-148 | the inserted organization keeps the name, is slugged by lower-casing and replacing white-space runs with '-' (so the slug has no white space), on a trial plan and status with 100 minutes |
| Auth.SignUpWrites | src/contexts/AuthContext.tsx:133-168 | an organization is inserted iff a non-empty name is given; the role row is active, admin iff a name is given (else client_user), and points at the organization only when its creation succeeded |
| ProtectedRoute.ParsePermission | src/components/ProtectedRoute.tsx:42 | a permission without ':' is all resource with no action (checked as 'read'); with a ':' the resource and the action are the colon-free pieces around the first one, resource then ':' then action beginning the string and followed by its end or another ':' |
| ProtectedRoute.SplitNoSepIff | src/components/ProtectedRoute.tsx:42 | `split(':')` gives a single piece exactly when the string holds no ':', and that piece is the whole string |
| ProtectedRoute.Guard | src/components/ProtectedRoute.tsx:13-49 | loading shows the spinner; no user goes to /login; the page renders exactly when the user has one of the required roles (if a role is required) and the required permission (if one is required); every other outcome is a redirect to /client |
| ProtectedRoute.GuardPermissions | src/components/ProtectedRoute.tsx:41-46 | a super admin passes every permission requirement; for anyone else a colon-free permission renders exactly when its 'read' action is in their list |
| ProtectedRoute.EmptyRoleListRedirects | src/components/ProtectedRoute.tsx:32-39 | an empty role list is truthy and matches nobody, so every signed-in user is sent to /client |
| Onboarding.StartOnboarding | src/contexts/OnboardingContext.tsx:147-163 | a fresh record of the user at the 'welcome' step, no completed steps, neither completed nor skipped, started now; it does not count as all steps done |
| Onboarding.CompleteStep | src/contexts/OnboardingContext.tsx:171-198 | no record, no change; otherwise the step is appended, the record is completed exactly when all five steps are among the completed ones, and the step and completion time read 'complete'/now exactly then; user, skip flag and start time are kept |
| Onboarding.SkipOnboarding | src/contexts/OnboardingContext.tsx:210-224 | the record becomes skipped and completed, completed now, everything else unchanged |
| Onboarding.CompleteAllAppends | src/contexts/OnboardingContext.tsx:175 | completing steps one after another appends them all, in order, to the completed steps, and leaves the skipped flag as it was |
| Onboarding.CompletionFromStart | src/contexts/OnboardingContext.tsx:175-183 | from a fresh start, after a non-empty run of steps onboarding is completed exactly when all five steps occur in the run, in any order and with repeats |
| Onboarding.CompleteAllLast | src/contexts/OnboardingContext.tsx:183-190 | after any non-empty run of steps the completion flag agrees with the five-step test on the completed steps |
| Onboarding.CompletionStable | src/contexts/OnboardingContext.tsx:175-190 | once all five steps are in, completing any further step keeps onboarding completed |
| Onboarding.MarkRead | src/contexts/OnboardingContext.tsx:259-261 | the list keeps its length; exactly the notifications with the id become read, all others are unchanged |
| Onboarding.Dismiss | src/contexts/OnboardingContext.tsx:275 | a notification stays exactly when its id differs from the dismissed one; the survivors keep their order |
| Onboarding.MarkReadThenDismiss | src/contexts/OnboardingContext.tsx:251-275 | marking read twice is marking once, and dismissing after marking shows only notifications that dismissing alone would show |
| Onboarding.OnboardingStore.constructor | src/contexts/OnboardingContext.tsx:27-29 | the context starts with no record and no notifications |
| Onboarding.OnboardingStore.Start | src/contexts/OnboardingContext.tsx:147-168 | a successful write stores the fresh record; a failed one keeps the old state; notifications untouched |
| Onboarding.OnboardingStore.Complete | src/contexts/OnboardingContext.tsx:171-207 | a successful write stores the completed-step record, a failed one or a missing record changes nothing; notifications untouched |
| Onboarding.OnboardingStore.Skip | src/contexts/OnboardingContext.tsx:210-230 | a successful write stores the skipped record; a failed one keeps the old state |
| Onboarding.OnboardingStore.MarkNotificationRead | src/contexts/OnboardingContext.tsx:251-265 | a successful write marks the notification read in the list; a failed one keeps the list; the record untouched |
| Onboarding.OnboardingStore.DismissNotification | src/contexts/OnboardingContext.tsx:267-279 | a successful write removes the notification from the list; a failed one keeps the list; the record untouched |
| WelcomeWizard.StepCount | src/components/onboarding/WelcomeWizard.tsx:256 | the wizard has as many steps as the chosen list has titles: four for client users, three for administrators |
| WelcomeWizard.Actions | src/components/onboarding/WelcomeWizard.tsx:28-254 | a step outside the list, and the first step, has no body buttons |
| WelcomeWizard.WizardSteps | src/components/onboarding/WelcomeWizard.tsx:97-246 | a body button completes 'demo_workflow', 'api_key_setup', 'profile_setup' or 'complete'; client buttons never complete 'profile_setup'; administrator buttons complete only 'profile_setup' or 'complete' |
| WelcomeWizard.NextStep | src/components/onboarding/WelcomeWizard.tsx:259-263 | Next stays within the steps and moves one on exactly when the current step is not the last |
| WelcomeWizard.BackStep | src/components/onboarding/WelcomeWizard.tsx:265-269 | Back stays within the steps and moves one back exactly when the current step is not the first |
| WelcomeWizard.NextBackInverse | src/components/onboarding/WelcomeWizard.tsx:259-269 | Back undoes Next from every step but the last; Next undoes Back from every step but the first |
| WelcomeWizard.ProgressLabel | src/components/onboarding/WelcomeWizard.tsx:313 | the label shows the one-based step number and the step count |
| WelcomeWizard.FooterButtons | src/components/onboarding/WelcomeWizard.tsx:303-342 | Finish replaces Next exactly at the last step, Next shows exactly where it moves the counter, Back exactly where Back moves it, and the lit progress segments are those up to the labelled step |
| WelcomeWizard.WizardView.constructor | src/components/onboarding/WelcomeWizard.tsx:24-26 | the wizard opens at the first step, with nothing completed, skipped or navigated |
| WelcomeWizard.WizardView.Next | src/components/onboarding/WelcomeWizard.tsx:259-263 | the counter becomes NextStep of the old one and stays within the steps; nothing else changes |
| WelcomeWizard.WizardView.Back | src/components/onboarding/WelcomeWizard.tsx:265-269 | the counter becomes BackStep of the old one and stays within the steps; nothing else changes |
| WelcomeWizard.WizardView.RunAction | src/components/onboarding/WelcomeWizard.tsx:97-101 | a body button pushes its route, asks to complete its step and closes the wizard, the counter unchanged |
| WelcomeWizard.WizardView.Finish | src/components/onboarding/WelcomeWizard.tsx:330-337 | Finish at the last step asks to complete 'complete' and closes the wizard |
| WelcomeWizard.WizardView.Skip | src/components/onboarding/WelcomeWizard.tsx:271-274 | Skip asks to skip onboarding and closes the wizard |
| QuickStartChecklist.CompletedCount | src/components/onboarding/QuickStartChecklist.tsx:24-61 | the count is at most the three items, is three exactly when every item's step is among the completed steps, 0 exactly when none is, and 0 without an onboarding record |
| QuickStartChecklist.SkipHidesCard | src/components/onboarding/QuickStartChecklist.tsx:69-71 | once onboarding is skipped the card renders nothing, whatever the local flag and the welcome preference |
| QuickStartChecklist.ButtonsKeepCard | src/components/onboarding/QuickStartChecklist.tsx:69-75 | from a fresh start, whatever steps the buttons complete, a card not dismissed and with the welcome preference on still renders, because onboarding is neither completed nor skipped; it shows the completion banner exactly when all three items' steps were completed |
| QuickStartChecklist.BannerIffNoActions | src/components/onboarding/QuickStartChecklist.tsx:142-155 | the completion banner shows exactly when no item offers its action button |
| QuickStartChecklist.CompleteStepCompletesItem | src/components/onboarding/QuickStartChecklist.tsx:29-54 | an item's button, through the context's completeStep, completes that item and keeps every item already completed |
| QuickStartChecklist.ButtonsAreUiSteps | src/components/onboarding/QuickStartChecklist.tsx:32-54 | every step a wizard or checklist button completes is one of 'demo_workflow', 'api_key_setup', 'profile_setup', 'first_workflow', 'complete' |
| QuickStartChecklist.UiStepNotWelcome | src/components/onboarding/QuickStartChecklist.tsx:32-54 | none of the steps the buttons complete is 'welcome' |
| QuickStartChecklist.UiNeverCompletes | src/contexts/OnboardingContext.tsx:175-183 | from a fresh start, no sequence of button-completed steps completes onboarding, because 'welcome' is required and never completed |
| QuickStartChecklist.ChecklistView.constructor | src/components/onboarding/QuickStartChecklist.tsx:21-22 | the card starts expanded and visible, with nothing requested |
| QuickStartChecklist.ChecklistView.Dismiss | src/components/onboarding/QuickStartChecklist.tsx:64-67 | dismissing writes the welcome preference off and hides the card; nothing else changes |
| QuickStartChecklist.ChecklistView.ToggleExpanded | src/components/onboarding/QuickStartChecklist.tsx:95 | the chevron flips the expanded flag; nothing else changes |
| QuickStartChecklist.ChecklistView.RunItem | src/components/onboarding/QuickStartChecklist.tsx:30-55 | an item's button pushes its route and asks to complete its step; nothing else changes |
| FeatureAnnouncement.VisibleAnnouncements | src/components/onboarding/FeatureAnnouncement.tsx:11-13 | an announcement is visible exactly when its id has not been dismissed; the visible ones keep their order |
| FeatureAnnouncement.First | src/components/onboarding/FeatureAnnouncement.tsx:15-19 | nothing for an empty list, otherwise its first element |
| FeatureAnnouncement.Shown | src/components/onboarding/FeatureAnnouncement.tsx:11-19 | the banner renders nothing exactly when every announcement is dismissed; otherwise it shows an announcement of the list whose id is not dismissed (which one: `ShownIsFirstVisible`) |
| FeatureAnnouncement.ShownIsFirstVisible | src/components/onboarding/FeatureAnnouncement.tsx:19 | when every announcement before position k is dismissed and the one at k is not, the banner shows the one at k: the first visible announcement in list order |
| FeatureAnnouncement.DismissShowsNext | src/components/onboarding/FeatureAnnouncement.tsx:19-23 | after dismissing the shown announcement the banner shows the first later visible announcement with a different id, or nothing |
| FeatureAnnouncement.TypeColor | src/components/onboarding/FeatureAnnouncement.tsx:26-36 | the slate colours are used exactly for a type other than 'new_feature', 'improvement' and 'update' |
| FeatureAnnouncement.AnnouncementView.constructor | src/components/onboarding/FeatureAnnouncement.tsx:9 | the banner starts with no dismissed ids and the storage as it is |
| FeatureAnnouncement.AnnouncementView.HandleDismiss | src/components/onboarding/FeatureAnnouncement.tsx:21-24 | the id joins the dismissed set and local storage records 'dismissed-announcement-<id>' as 'true'; nothing else in storage changes |
| NotificationCenter.UnreadCount | src/components/onboarding/NotificationCenter.tsx:19 | the unread count is at most the list length, 0 exactly when every notification is read, the full length exactly when none is |
| NotificationCenter.MarkReadCount | src/components/onboarding/NotificationCenter.tsx:19-49 | marking an id read lowers the unread count by exactly the number of unread notifications carrying that id |
| NotificationCenter.MarkUnreadLowersCount | src/components/onboarding/NotificationCenter.tsx:47-50 | clicking an unread notification, once the write succeeds, lowers the unread count |
| NotificationCenter.Style | src/components/onboarding/NotificationCenter.tsx:21-45 | success, error and warning each get their own icon and background; every other type gets the info look, and only those do |
| NotificationCenter.NotificationView.constructor | src/components/onboarding/NotificationCenter.tsx:16-17 | the dropdown starts closed over the context's list |
| NotificationCenter.NotificationView.ToggleOpen | src/components/onboarding/NotificationCenter.tsx:56 | the bell flips the dropdown |
| NotificationCenter.NotificationView.Close | src/components/onboarding/NotificationCenter.tsx:69 | the backdrop closes the dropdown |
| NotificationCenter.NotificationView.Click | src/components/onboarding/NotificationCenter.tsx:47-51 | clicking a notification marks it read through the context only when it was unread; a read one, or a failed write, leaves the list |
| NotificationCenter.NotificationView.ClickDismiss | src/components/onboarding/NotificationCenter.tsx:109-112 | the dismiss button dismisses through the context without marking read (the click does not reach the row) |
| IffiRegistrationPopup.EmailShape | ISN_MVP/frontend/src/components/IFFIRegistrationPopup.tsx:53-56 | the e-mail pattern accepts a string exactly when it has no white space, exactly one '@' with something before it, and a '.' after the '@' that is neither the domain's first nor last character |
| IffiRegistrationPopup.PhonePlus | ISN_MVP/frontend/src/components/IFFIRegistrationPopup.tsx:58-61 | the leading '+' is optional: a number is accepted with it exactly when accepted without it, and an accepted number otherwise holds no '+' and at least ten characters |
| IffiRegistrationPopup.NameError | ISN_MVP/frontend/src/components/IFFIRegistrationPopup.tsx:66-70 | the name passes exactly when its trimmed length, counted in UTF-16 code units as JavaScript's `length` counts it, is at least 2; blank gives 'Full name is required', a trimmed name of one code unit 'Name must be at least 2 characters' |
| Text.Utf16Length | ISN_MVP/frontend/src/components/IFFIRegistrationPopup.tsx:68 | JavaScript's string `length`: at least the number of characters and at most twice it, equal to it exactly when no character lies above U+FFFF |
| IffiRegistrationPopup.NameOfOneCharacter | ISN_MVP/frontend/src/components/IFFIRegistrationPopup.tsx:68 | a one-character name passes exactly when the character lies above U+FFFF (a surrogate pair, length 2): '😀' passes and 'a' is too short |
| IffiRegistrationPopup.EmailError | ISN_MVP/frontend/src/components/IFFIRegistrationPopup.tsx:72-76 | the e-mail passes exactly when it is not blank after trimming and the untrimmed value matches the pattern; blank gives the 'required' message |
| IffiRegistrationPopup.PhoneError | ISN_MVP/frontend/src/components/IFFIRegistrationPopup.tsx:78-82 | the phone passes exactly when it is not blank after trimming and the untrimmed value matches the pattern; blank gives the 'required' message |
| IffiRegistrationPopup.ErrorCount | ISN_MVP/frontend/src/components/IFFIRegistrationPopup.tsx:97 | at most six keys, and none exactly when no field has a message |
| IffiRegistrationPopup.ValidateForm | ISN_MVP/frontend/src/components/IFFIRegistrationPopup.tsx:63-98 | one message per failing field and none for a passing one: name, e-mail and phone by their checks, business type when empty, state and country when blank after trimming, each with its own message |
| IffiRegistrationPopup.FormValidIff | ISN_MVP/frontend/src/components/IFFIRegistrationPopup.tsx:63-98 | the form passes exactly when the trimmed name is at least two UTF-16 code units long, e-mail and phone are present and match their patterns, and business type, state and country are filled |
| IffiRegistrationPopup.ValidationExamples | ISN_MVP/frontend/src/components/IFFIRegistrationPopup.tsx:53-76 | the empty form fails on all six fields, and an e-mail with leading white space passes the presence check but fails the format check |
| IffiRegistrationPopup.SetField | ISN_MVP/frontend/src/components/IFFIRegistrationPopup.tsx:103-104 | the named field takes the new value; any other name leaves the form as it was |
| IffiRegistrationPopup.Blank | ISN_MVP/frontend/src/components/IFFIRegistrationPopup.tsx:105-107 | a present message becomes the empty string; an absent one stays absent |
| IffiRegistrationPopup.ClearError | ISN_MVP/frontend/src/components/IFFIRegistrationPopup.tsx:105-107 | a shown message of the changed field is blanked, the key stays and the other fields' messages stay |
| IffiRegistrationPopup.ToRegistration | ISN_MVP/frontend/src/components/IFFIRegistrationPopup.tsx:124-132 | each text field trimmed, the e-mail also lower-cased, the business type as chosen, and blank notes stored as null |
| IffiRegistrationPopup.RegistrationOfValidForm | ISN_MVP/frontend/src/components/IFFIRegistrationPopup.tsx:113-132 | the row of a valid form has a lower-case e-mail and non-empty name, state, country and business type |
| IffiRegistrationPopup.AnswerErrors | ISN_MVP/frontend/src/components/IFFIRegistrationPopup.tsx:137-146 | after a valid form is sent, errors remain exactly on a unique-key violation (code 23505), and then only 'Email already registered' on the e-mail |
| IffiRegistrationPopup.ClosedStaysClosed | ISN_MVP/frontend/src/components/IFFIRegistrationPopup.tsx:41-44 | after Close sets the dismissal flag, or after Mount sets the seen flag, the condition under which Mount schedules the popup is false, so a later mount never opens it |
| IffiRegistrationPopup.PopupView.constructor | ISN_MVP/frontend/src/components/IFFIRegistrationPopup.tsx:25-38 | closed, not submitting, no success, empty form and no errors |
| IffiRegistrationPopup.PopupView.Mount | ISN_MVP/frontend/src/components/IFFIRegistrationPopup.tsx:40-51 | with neither the 'seen' nor the 'dismissed' flag set, the popup opens when the timer fires and records 'iffi_popup_seen'; otherwise nothing changes |
| IffiRegistrationPopup.PopupView.Close | ISN_MVP/frontend/src/components/IFFIRegistrationPopup.tsx:160-163 | the popup closes and records 'iffi_popup_dismissed' |
| IffiRegistrationPopup.PopupView.InputChange | ISN_MVP/frontend/src/components/IFFIRegistrationPopup.tsx:100-108 | the form takes the value and the field's shown error is blanked |
| IffiRegistrationPopup.PopupView.Validate | ISN_MVP/frontend/src/components/IFFIRegistrationPopup.tsx:63-98 | the errors become the validation result and the answer is whether the form passes; nothing else changes |
| IffiRegistrationPopup.PopupView.Send | ISN_MVP/frontend/src/components/IFFIRegistrationPopup.tsx:118-157 | the form is sent to the insert and recorded whatever the answer; success stores the registration number and 'iffi_registered'; a 23505 error marks the e-mail; any other failure changes nothing; submitting ends either way |
| IffiRegistrationPopup.PopupView.Submit | ISN_MVP/frontend/src/components/IFFIRegistrationPopup.tsx:110-158 | an invalid form only shows its errors, inserts nothing and leaves success, the registration number, submitting and storage as they were; a valid one is sent and leaves only the answer's errors with submitting ended: an inserted answer sets success, the answer's registration number and 'iffi_registered', any other answer keeps them |
| ApiKeyManagement.AlphabetChar | src/pages/ApiKeyManagement.tsx:53 | every alphabet position below 62 holds an alphanumeric character |
| ApiKeyManagement.Alphabet | src/pages/ApiKeyManagement.tsx:53 | the alphabet has 62 characters: upper case, lower case, then digits |
| ApiKeyManagement.AlphabetShape | src/pages/ApiKeyManagement.tsx:53 | the 62 alphabet characters are alphanumeric and pairwise different |
| ApiKeyManagement.Picked | src/pages/ApiKeyManagement.tsx:55-57 | n picks choose n characters, the i-th being the alphabet character at the i-th pick |
| ApiKeyManagement.GenerateApiKey | src/pages/ApiKeyManagement.tsx:51-59 | the loop builds the live prefix followed by the 32 picked characters |
| ApiKeyManagement.KeyShape | src/pages/ApiKeyManagement.tsx:51-59 | a generated key is 40 characters: 'sk_live_' then 32 alphanumeric characters, the i-th from the i-th pick |
| ApiKeyManagement.KeyInjective | src/pages/ApiKeyManagement.tsx:51-59 | two keys are equal only when their picks are equal, so the key determines the random draws |
| ApiKeyManagement.StoredPrefix | src/pages/ApiKeyManagement.tsx:73 | the stored prefix is the key's first twelve characters (all of a shorter key) followed by '...' |
| ApiKeyManagement.StoredPrefixOfKey | src/pages/ApiKeyManagement.tsx:71-73 | for a generated key the stored prefix is 'sk_live_', the first four random characters and '...': fifteen characters |
| ApiKeyManagement.HexDigit | src/pages/ApiKeyManagement.tsx:66 | a value below 16 becomes a lower-case hex digit |
| ApiKeyManagement.HexValue | src/pages/ApiKeyManagement.tsx:66 | a lower-case hex digit reads back as the value below 16 it was written from |
| ApiKeyManagement.HexByte | src/pages/ApiKeyManagement.tsx:66 | padding the hex string to two characters always gives the high digit then the low digit |
| ApiKeyManagement.HexEncode | src/pages/ApiKeyManagement.tsx:65-66 | the hex form is two lower-case hex digits per digest byte |
| ApiKeyManagement.HexDecode | src/pages/ApiKeyManagement.tsx:65-66 | reading even-length hex text gives half as many bytes |
| ApiKeyManagement.HexRoundTrip | src/pages/ApiKeyManagement.tsx:61-67 | decoding the hex form of a digest gives the digest back, so the stored hash loses nothing |
| ApiKeyManagement.HexDecodeRoundTrip | src/pages/ApiKeyManagement.tsx:61-67 | every even-length lower-case hex text is the hex form of the bytes it decodes to |
| ApiKeyManagement.ToggleVisible | src/pages/ApiKeyManagement.tsx:124-133 | the toggled id flips membership; every other id keeps it |
| ApiKeyManagement.ToggleVisibleTwice | src/pages/ApiKeyManagement.tsx:124-133 | toggling an id twice restores the visible set |
| ApiKeyManagement.ToggleSwitchesCell | src/pages/ApiKeyManagement.tsx:204 | toggling a key switches its own column between the mask and the stored prefix and leaves every other key's column unchanged |
| ApiKeyManagement.StatusBadge | src/pages/ApiKeyManagement.tsx:234-235 | 'success' and 'Active' exactly for an active key, 'danger' and 'Inactive' otherwise |
| ApiKeyManagement.ToggleScope | src/pages/ApiKeyManagement.tsx:291-298 | the scope flips membership in the list, every other scope keeps it, and the other form fields stay |
| ApiKeyManagement.NewKeyRow | src/pages/ApiKeyManagement.tsx:71-85 | the inserted row is active, carries the stored prefix of the key and a hash that decodes to the digest, the parsed rate limit, the form's name and scopes, and null for an empty expiry |
| ApiKeyManagement.KeyFilter | src/pages/ApiKeyManagement.tsx:32-37 | administrators query by their organization, others by their own id, a missing id becoming the empty string |
| ApiKeyManagement.Deactivate | src/pages/ApiKeyManagement.tsx:105-108 | the table update keeps every row; exactly the rows with the id become inactive |
| ApiKeyManagement.DeactivateKeepsKeys | src/pages/ApiKeyManagement.tsx:99-113 | deleting removes no key, leaves no key with the id active, and deleting again changes nothing |
| ApiKeyManagement.AddKeyFormView.constructor | src/pages/ApiKeyManagement.tsx:278-283 | the form starts with no name, the 'read' scope, rate limit '1000' and no expiry |
| ApiKeyManagement.AddKeyFormView.ToggleScopeOf | src/pages/ApiKeyManagement.tsx:291-298 | a checkbox toggles its scope in the form |
| ApiKeyManagement.AddKeyFormView.Submit | src/pages/ApiKeyManagement.tsx:285-289 | the page receives the form as it was and the form resets |
| ApiKeyManagement.ApiKeysView.constructor | src/pages/ApiKeyManagement.tsx:18-23 | no keys, no visible key, both modals closed, no generated key |
| ApiKeyManagement.ApiKeysView.Loaded | src/pages/ApiKeyManagement.tsx:39-42 | the page shows the fetched keys, none when the answer has no data |
| ApiKeyManagement.ApiKeysView.ToggleKeyVisibility | src/pages/ApiKeyManagement.tsx:124-133 | the visible set becomes its toggle at the id; nothing else changes |
| ApiKeyManagement.ApiKeysView.AddApiKey | src/pages/ApiKeyManagement.tsx:69-97 | a successful insert records the row built from the form, the generated key and its digest, shows that full key and swaps the modals; a failed one changes nothing |
| ApiKeyManagement.ApiKeysView.DeleteKey | src/pages/ApiKeyManagement.tsx:99-117 | confirmed and written, the key's id is recorded as set inactive in the table while the shown list waits for the refetch; declined or failed, nothing changes |
| ApiKeyManagement.ApiKeysView.CloseKeyModal | src/pages/ApiKeyManagement.tsx:262-266 | closing the new-key modal also forgets the full key |
| ApiKeyManagement.ApiKeysView.Created | src/pages/ApiKeyManagement.tsx:89-91 | the row is recorded, the full key shown, the add modal closed and the key modal opened |
| BlogManagement.SlugChars | src/pages/BlogManagement.tsx:120-125 | the letters a-z and digits of a string, in order; never longer than the string |
| BlogManagement.SlugCharsAppend | src/pages/BlogManagement.tsx:120-125 | the slug characters of a concatenation are those of each part, in order |
| BlogManagement.SlugCharsEmptyIff | src/pages/BlogManagement.tsx:120-125 | a string has no slug characters exactly when none of its characters is a-z or a digit |
| BlogManagement.DropNonSlug | src/pages/BlogManagement.tsx:123 | skipping a run of other characters loses no slug character and stops at one |
| BlogManagement.CollapseRuns | src/pages/BlogManagement.tsx:123 | after replacing every run of other characters by '-', only slug characters and single dashes remain, the slug characters are unchanged, and a leading slug character stays first |
| BlogManagement.CollapseRunsSplit | src/pages/BlogManagement.tsx:123 | a run of other characters between a slug word and the rest becomes one '-' at its own place: the word, then '-', then the replaced rest |
| BlogManagement.StripDashes | src/pages/BlogManagement.tsx:124 | dropping a dash at either end keeps the slug characters, gives slug shape when the input had only slug characters and single dashes, and changes nothing without end dashes |
| BlogManagement.GenerateSlug | src/pages/BlogManagement.tsx:120-125 | a slug holds only a-z, digits and single dashes, never starts or ends with a dash, and keeps exactly the letters and digits of the lower-cased title in order |
| BlogManagement.SlugOfTwoWords | src/pages/BlogManagement.tsx:120-125 | two slug words with a run of other characters between them give the first word, one '-', the second word: the dash stands where the run was |
| BlogManagement.CollapseRunsKeeps | src/pages/BlogManagement.tsx:123 | a string already in slug shape (no trailing dash) passes the run replacement unchanged |
| BlogManagement.SlugIdempotent | src/pages/BlogManagement.tsx:120-125 | generating the slug of a slug gives it back |
| BlogManagement.SlugEmptyIff | src/pages/BlogManagement.tsx:120-125 | the slug is empty exactly when no character of the lower-cased title is a-z or a digit |
| BlogManagement.TitleChange | src/pages/BlogManagement.tsx:127-133 | a title change sets the title and the slug generated from it, which has the slug shape and the title's lower-cased letters and digits, and nothing else in the form |
| BlogManagement.EditForm | src/pages/BlogManagement.tsx:104-116 | the edit form copies the post's fields, a missing excerpt or image becoming the empty string |
| BlogManagement.TitleChangeSettles | src/pages/BlogManagement.tsx:127-133 | typing the same title twice settles, and a title that is already a slug keeps itself as slug |
| BlogManagement.ReadingTime | src/pages/BlogManagement.tsx:318 | the reading time is never 0: an unparsable or zero value gives 5 minutes, any other parsed value is kept as it is |
| BlogManagement.StatusVariant | src/pages/BlogManagement.tsx:187-192 | 'success' exactly for published, 'warning' exactly for draft, 'default' for anything else |
| BlogManagement.SaveFor | src/pages/BlogManagement.tsx:55-64 | the form is saved as an update of the edited post exactly when one is being edited, else as a new post under the placeholder author |
| BlogManagement.BlogView.constructor | src/pages/BlogManagement.tsx:19-31 | modal closed, nothing edited, the empty form (draft, 5 minutes), nothing saved |
| BlogManagement.BlogView.ResetForm | src/pages/BlogManagement.tsx:89-102 | the form returns to the empty draft form and no post is edited |
| BlogManagement.BlogView.OpenCreate | src/pages/BlogManagement.tsx:150 | the modal opens with the form as it is |
| BlogManagement.BlogView.OpenEditModal | src/pages/BlogManagement.tsx:104-118 | the post becomes the edited one, the form is filled from it and the modal opens |
| BlogManagement.BlogView.HandleTitleChange | src/pages/BlogManagement.tsx:127-133 | the form takes the title change; nothing else changes |
| BlogManagement.BlogView.Close | src/pages/BlogManagement.tsx:235-238 | closing the modal resets the form and the edited post |
| BlogManagement.BlogView.HandleSubmit | src/pages/BlogManagement.tsx:52-74 | a successful save is recorded as update or creation, then the modal closes and the form resets; a failure keeps everything |
| BlogManagement.BlogView.HandleDelete | src/pages/BlogManagement.tsx:76-87 | a deletion is recorded only when confirmed and successful |
| Organizations.StatusVariant | src/pages/Organizations.tsx:71-82 | 'success' exactly for active, 'info' for trial, 'danger' for suspended, 'warning' for any other status |
| Organizations.PlanVariant | src/pages/Organizations.tsx:84-97 | 'success' exactly for unlimited, 'info' for enterprise, 'primary' for professional, 'secondary' for starter, 'warning' for any other plan |
| Organizations.ActiveOrgs | src/pages/Organizations.tsx:121 | the active count is at most the number of organizations, 0 exactly when none is active, all exactly when all are |
| Organizations.TotalsAppend | src/pages/Organizations.tsx:119-120 | the quota and usage totals add up over any split of the list, so every organization is counted once |
| Organizations.UsedWithinQuota | src/pages/Organizations.tsx:119-120 | when every organization is within its quota, the total used is within the total quota |
| Organizations.UsageRate | src/pages/Organizations.tsx:168 | 0 without any quota, otherwise the exact used share of the total quota, as a percentage rounded half up to a whole number |
| Organizations.UsageRateAtMost100 | src/pages/Organizations.tsx:119-168 | while every organization is within its quota the usage rate lies between 0 and 100 |
| Organizations.BarWidth | src/pages/Organizations.tsx:217 | the bar is NaN exactly for 0 of 0 minutes, otherwise between 0 and 100 percent, full exactly when the quota is used up, and the exact used share below that |
| Organizations.NewOrgRow | src/pages/Organizations.tsx:48-60 | the slug is the lower-cased name with white-space runs turned into '-' and holds no white space; the quota is parsed; name, plan and status pass through |
| Organizations.DefaultFormRow | src/pages/Organizations.tsx:250-255 | the untouched form inserts a trial organization on the trial plan with a quota of 100 minutes |
| Organizations.ScreenFor | src/pages/Organizations.tsx:99-117 | anyone but a super administrator gets the permission message; a super administrator sees the spinner exactly while loading |
| Organizations.OrganizationsView.constructor | src/pages/Organizations.tsx:18-20 | no organizations, loading, modal closed |
| Organizations.OrganizationsView.Mount | src/pages/Organizations.tsx:22-28 | a super administrator starts a fetch and sees the spinner; anyone else stops loading and sees the permission message |
| Organizations.OrganizationsView.Loaded | src/pages/Organizations.tsx:30-46 | a successful fetch shows the rows, none without data; an error keeps the old list; loading ends either way |
| Organizations.OrganizationsView.AddOrganization | src/pages/Organizations.tsx:48-69 | a successful insert records the row, closes the modal and refetches, and the refetch puts the page back into its loading state; a failure changes nothing |
| Analytics.PeriodDays | ISN_MVP/frontend/src/lib/datasetPerformanceApi.ts:85 | '24h' is one day, '7d' seven, '30d' thirty, and every other period ninety |
| Analytics.LanguagesExact | ISN_MVP/frontend/src/lib/datasetPerformanceApi.ts:175-192 | the group-by lists each language once, and exactly the languages some row has |
| Analytics.TallyAbsent | ISN_MVP/frontend/src/lib/datasetPerformanceApi.ts:177-190 | a language without rows has no volume, no score and no rows |
| Analytics.TallyPresent | ISN_MVP/frontend/src/lib/datasetPerformanceApi.ts:177-190 | a listed language has at least one row, so its mean is defined |
| Analytics.TallyLanguages | ISN_MVP/frontend/src/lib/datasetPerformanceApi.ts:175-190 | the loop's map holds exactly the languages of the rows, in order of first appearance, each with its summed volume, summed score and a positive row count |
| Analytics.Mean | ISN_MVP/frontend/src/lib/datasetPerformanceApi.ts:196 | the mean times the row count is the summed score |
| Analytics.SummariesOf | ISN_MVP/frontend/src/lib/datasetPerformanceApi.ts:192-197 | one summary per language, in the given order |
| Analytics.SummariesFrom | ISN_MVP/frontend/src/lib/datasetPerformanceApi.ts:192-197 | the map entries become one line per language with its summed volume and mean score |
| Analytics.InsertByAmount | ISN_MVP/frontend/src/lib/datasetPerformanceApi.ts:198 | inserting a line adds exactly that line |
| Analytics.InsertSorted | ISN_MVP/frontend/src/lib/datasetPerformanceApi.ts:198 | inserting into a list sorted by volume keeps it sorted |
| Analytics.SortByAmount | ISN_MVP/frontend/src/lib/datasetPerformanceApi.ts:198 | sorting by volume, largest first, permutes the lines |
| Analytics.AggregateLanguages | ISN_MVP/frontend/src/lib/datasetPerformanceApi.ts:175-199 | the loop, the map, the sort and the cut give the top-eight lines of the rows |
| Analytics.DistinctOnce | ISN_MVP/frontend/src/lib/datasetPerformanceApi.ts:192-198 | in a list of distinct languages every line occurs at most once |
| Analytics.Twice | ISN_MVP/frontend/src/lib/datasetPerformanceApi.ts:198 | a line at two positions is counted twice |
| Analytics.SortKeepsDistinct | ISN_MVP/frontend/src/lib/datasetPerformanceApi.ts:198 | sorting keeps the languages distinct |
| Analytics.SummariesDistinct | ISN_MVP/frontend/src/lib/datasetPerformanceApi.ts:192-197 | the summaries list every language once |
| Analytics.SummaryDescribes | ISN_MVP/frontend/src/lib/datasetPerformanceApi.ts:192-197 | a language's summary holds the summed volume of its rows and the mean of their scores |
| Analytics.SortedLine | ISN_MVP/frontend/src/lib/datasetPerformanceApi.ts:192-198 | every line after sorting still describes its language |
| Analytics.TopLanguagesSpec | ISN_MVP/frontend/src/lib/datasetPerformanceApi.ts:175-199 | the result has at most eight lines, largest volume first, each language once, each line holding its language's summed volume and mean score |
| Analytics.TopLanguagesKeepsLargest | ISN_MVP/frontend/src/lib/datasetPerformanceApi.ts:198-199 | a language cut from the result has a volume no larger than any listed line, and with at most eight languages none is cut |
| Analytics.FindName | ISN_MVP/frontend/src/lib/datasetPerformanceApi.ts:111 | no name exactly when no known entity has the id; otherwise the name of an entity with that id |
| Analytics.FindNameFirst | ISN_MVP/frontend/src/lib/datasetPerformanceApi.ts:111 | when several entities share the id, the name found is that of the first of them, as `find` returns it |
| Analytics.Pivot | ISN_MVP/frontend/src/lib/datasetPerformanceApi.ts:104-122 | one entry per date label of a known entity's point, in order of first appearance, each the entry the points build for that date |
| Analytics.EntryUntouched | ISN_MVP/frontend/src/lib/datasetPerformanceApi.ts:114-116 | before the first point of a known entity on a date, its entry is just the date |
| Analytics.DatesExact | ISN_MVP/frontend/src/lib/datasetPerformanceApi.ts:104-122 | the dates are distinct and are exactly the labels of points of known entities; points of unknown entities are dropped |
| Analytics.EntryLast | ISN_MVP/frontend/src/lib/datasetPerformanceApi.ts:117-118 | an entity's cell on a date holds the value of its last point on that date |
| Analytics.EntryKeys | ISN_MVP/frontend/src/lib/datasetPerformanceApi.ts:115-118 | besides 'date', an entry's keys are names of entities with a point on that date |
| Analytics.EntryDate | ISN_MVP/frontend/src/lib/datasetPerformanceApi.ts:115-118 | the 'date' cell keeps the label unless some entity is itself named 'date' |
| Analytics.AgeOf | ISN_MVP/frontend/src/lib/datasetPerformanceApi.ts:203-213 | under a minute is 'just now', a week or more the date; otherwise whole minutes under an hour, whole hours under a day, whole days under a week, each count the floor of the elapsed time in its unit |
| Analytics.RelativeTimePlural | ISN_MVP/frontend/src/lib/datasetPerformanceApi.ts:210-212 | the unit takes the plural 's' exactly when the count is above one |
| DatasetPerformanceApi.MetricsOf | ISN_MVP/frontend/src/lib/datasetPerformanceApi.ts:44-78 | a dataset's card: identity copied; quality, size and samples from the latest metric when truthy, else the dataset's own, else 0; downloads, accesses, users and error rate the metric's own when truthy, else 0 (always 0 without a metric); version 'N/A' when missing; last update the relative time of updated_at, or 'N/A' |
| DatasetPerformanceApi.QualityPoints | ISN_MVP/frontend/src/lib/datasetPerformanceApi.ts:106-119 | each metric row becomes the point of its dataset, date label and quality score |
| DatasetPerformanceApi.UsagePoints | ISN_MVP/frontend/src/lib/datasetPerformanceApi.ts:147-160 | each usage row becomes the point of its dataset, date label and downloads |
| DatasetPerformanceApi.QualityTrend | ISN_MVP/frontend/src/lib/datasetPerformanceApi.ts:84-123 | the quality trend is the date pivot of the quality points over the active datasets |
| DatasetPerformanceApi.UsageTrend | ISN_MVP/frontend/src/lib/datasetPerformanceApi.ts:125-164 | the usage trend is the date pivot of the downloads over the active datasets |
| DatasetPerformanceApi.CoverageRows | ISN_MVP/frontend/src/lib/datasetPerformanceApi.ts:177-190 | each coverage row contributes its sample count as volume and its quality score as score |
| DatasetPerformanceApi.AsCoverage | ISN_MVP/frontend/src/lib/datasetPerformanceApi.ts:192-197 | each summary line becomes a coverage line with the same language, sample count and mean quality |
| DatasetPerformanceApi.FetchLanguageCoverage | ISN_MVP/frontend/src/lib/datasetPerformanceApi.ts:166-200 | the method returns the coverage chart of the rows |
| DatasetPerformanceApi.CoverageLine | ISN_MVP/frontend/src/lib/datasetPerformanceApi.ts:177-199 | each chart line names a language of the rows with its summed samples and mean quality |
| DatasetPerformanceApi.LanguageCoverageSpec | ISN_MVP/frontend/src/lib/datasetPerformanceApi.ts:166-200 | at most eight languages, each once, sample count descending, each with summed samples and mean quality over its rows |
| PerformanceApi.MetricsOf | ISN_MVP/frontend/src/lib/performanceApi.ts:37-70 | a model's card: identity copied; accuracy from the latest metric when truthy, else the model's own, else 0; latency, throughput, cost and error rate the metric's own when truthy, else 0 (always 0 without a metric); version 'N/A' when missing; last update the relative time of the active version's deployment, or 'N/A' |
| PerformanceApi.AccuracyPoints | ISN_MVP/frontend/src/lib/performanceApi.ts:98-112 | each metric row becomes the point of its model, date label and accuracy |
| PerformanceApi.LatencyPoints | ISN_MVP/frontend/src/lib/performanceApi.ts:139-153 | each metric row becomes the point of its model, date label and latency |
| PerformanceApi.AccuracyTrend | ISN_MVP/frontend/src/lib/performanceApi.ts:76-115 | the accuracy trend is the date pivot of the accuracy points over the active models |
| PerformanceApi.LatencyTrend | ISN_MVP/frontend/src/lib/performanceApi.ts:117-156 | the latency trend is the date pivot of the latency points over the active models |
| PerformanceApi.PerformanceRows | ISN_MVP/frontend/src/lib/performanceApi.ts:169-182 | each row contributes its total requests as volume and its accuracy as score |
| PerformanceApi.AsPerformance | ISN_MVP/frontend/src/lib/performanceApi.ts:184-189 | each summary line becomes a chart line with the same language, mean accuracy and requests |
| PerformanceApi.FetchLanguagePerformance | ISN_MVP/frontend/src/lib/performanceApi.ts:158-192 | the method returns the performance chart of the rows |
| PerformanceApi.PerformanceLine | ISN_MVP/frontend/src/lib/performanceApi.ts:169-191 | each chart line names a language of the rows with its summed requests and mean accuracy |
| PerformanceApi.LanguagePerformanceSpec | ISN_MVP/frontend/src/lib/performanceApi.ts:158-192 | at most eight languages, each once, requests descending, each with summed requests and mean accuracy over its rows |
| Dashboard.ListOf | ISN_MVP/frontend/src/pages/Dashboard.tsx:41-48 | a failed request or a non-array body gives the empty list; an array is taken as it is |
| Dashboard.SuccessRate | ISN_MVP/frontend/src/pages/Dashboard.tsx:51-58 | 0 without jobs, otherwise the exact completed share of the jobs, as a percentage rounded half up to a whole number |
| Dashboard.SuccessRateBounds | ISN_MVP/frontend/src/pages/Dashboard.tsx:52-58 | the success rate lies between 0 and 100 |
| Dashboard.ActiveAndCompletedDisjoint | ISN_MVP/frontend/src/pages/Dashboard.tsx:50-51 | no job is both active and completed, so the two counts together never exceed the number of jobs |
| Dashboard.FetchDashboard | ISN_MVP/frontend/src/pages/Dashboard.tsx:37-70 | a null job makes the fetch fall back to the fixed cards (5, 4, 2, 85%) and no recent jobs; otherwise the cards count models, datasets, running or pending jobs and the success rate, and the table shows the first five jobs |
| Dashboard.RecentJobsPrefix | ISN_MVP/frontend/src/pages/Dashboard.tsx:50-61 | the table shows the first min(5, n) jobs in order, the active count is at most the number of jobs, and the rate is a percentage |
| ClientDashboard.StatsOf | src/pages/ClientDashboard.tsx:72-84 | the cards count the API keys (0 without data) and workflows, take the organization's usage and quota with or-defaults 0 and 100 (the defaults without an organization), never have quota 0, and round the exact completed share of the workflows, as a percentage, half up (0 without workflows) |
| ClientDashboard.SuccessRateBounds | src/pages/ClientDashboard.tsx:72-83 | the success rate card lies between 0 and 100 |
| ClientDashboard.BarColourOf | src/pages/ClientDashboard.tsx:184-190 | red exactly above 90 percent, yellow exactly above 70 up to 90, green exactly up to 70 |
| ClientDashboard.BarWidth | src/pages/ClientDashboard.tsx:191 | the bar width is the percentage capped at 100 |
| ClientDashboard.QuotaThresholds | src/pages/ClientDashboard.tsx:103-196 | on a positive quota: red exactly when usage exceeds nine tenths of it, the warning exactly beyond four fifths, green exactly up to seven tenths; red implies the warning, green excludes it |
| ClientDashboard.ScaledCompare | src/pages/ClientDashboard.tsx:103 | comparing the percentage with a threshold is comparing scaled minutes |
| ClientDashboard.ShowWizardAfter | src/pages/ClientDashboard.tsx:43-47 | the effect opens the wizard for a record neither completed nor skipped, never closes it, and does nothing without a record |
| ClientDashboard.WizardOnStartAndSkip | src/pages/ClientDashboard.tsx:43-47 | a freshly started onboarding opens the wizard and a skipped one does not |
| Datasets.FetchDatasets | ISN_MVP/frontend/src/pages/Datasets.tsx:28-57 | a failed request shows the two demo datasets, a non-array body none, an array all of it |
| Datasets.FilteredDatasets | ISN_MVP/frontend/src/pages/Datasets.tsx:83-87 | a dataset is listed exactly when its slug contains the search term ignoring case and the language filter is 'all' or among its languages; order is kept; a dataset without slug is never listed |
| Datasets.NoDatasetsIff | ISN_MVP/frontend/src/pages/Datasets.tsx:171-173 | 'No datasets found' shows exactly when no dataset passes the filters |
| Datasets.EmptySearchListsSlugged | ISN_MVP/frontend/src/pages/Datasets.tsx:83-87 | with no search term and all languages, exactly the datasets that have a slug are listed |
| Datasets.SearchIgnoresCase | ISN_MVP/frontend/src/pages/Datasets.tsx:84 | the search term's case does not change the list |
| Models.DemoModels | src/pages/Models.tsx:36-54 | the demo list has two models, both with a slug and updated now |
| Models.FetchModels | src/pages/Models.tsx:28-57 | a failed request shows the demo models, a non-array body none, an array all of it |
| Models.FilteredModels | src/pages/Models.tsx:83-87 | a model is listed exactly when its slug contains the search term ignoring case and the type filter is 'all' or its type; order is kept; a model without slug is never listed |
| Models.NoModelsIff | src/pages/Models.tsx:166-168 | 'No models found' shows exactly when no model passes the filters |
| Models.EmptySearchListsSlugged | src/pages/Models.tsx:83-87 | with no search term and all types, exactly the models that have a slug are listed |
| Models.SearchIgnoresCase | src/pages/Models.tsx:84 | the search term's case does not change the list |
| AuditLogs.DemoLogs | src/pages/AuditLogs.tsx:30-55 | the demo list has three entries: a CREATE, an UPDATE and a DELETE |
| AuditLogs.FetchAuditLogs | src/pages/AuditLogs.tsx:22-58 | a failed request shows the demo entries, a non-array body none, an array all of it |
| AuditLogs.FilteredLogs | src/pages/AuditLogs.tsx:61-67 | an entry is listed exactly when its resource id or actor contains the search term ignoring case and the resource filter is 'all' or its resource; order is kept; an entry with neither is never listed |
| AuditLogs.EmptySearchListsIdentified | src/pages/AuditLogs.tsx:61-67 | with no search term and all resources, exactly the entries with a resource id or an actor are listed |
| AuditLogs.SearchIgnoresCase | src/pages/AuditLogs.tsx:62-64 | the search term's case does not change the list |
| AuditLogs.ActionVariant | src/pages/AuditLogs.tsx:69-80 | 'success' exactly for CREATE, 'info' for UPDATE, 'danger' for DELETE, 'default' for any other action |
| SystemHealth.OrTrue | src/pages/SystemHealth.tsx:47 | a connection flag OR-ed with true is always true |
| SystemHealth.HealthOf | src/pages/SystemHealth.tsx:35-73 | a null body gives the default record; otherwise each falsy field takes its default (status 'healthy', uptime 86400, latency 5, queue 12, memory 1024 of 4096); both services always read as connected |
| SystemHealth.DisconnectedReadsConnected | src/pages/SystemHealth.tsx:47-51 | a database and a cache that report themselves down still read as connected |
| SystemHealth.StatusColor | src/pages/SystemHealth.tsx:82-93 | 'success' exactly for healthy, 'warning' for degraded, 'danger' for unhealthy, 'default' otherwise |
| SystemHealth.FailedRequestsShowUnknown | src/pages/SystemHealth.tsx:38-58 | when both requests fail the page shows the default figures with status 'unknown' and the default badge colour, not the 'healthy' one |
| SystemHealth.EmptyBodiesGiveDefaults | src/pages/SystemHealth.tsx:43-70 | bodies without any field give the same record as the catch block |
| SystemHealth.UptimeParts | src/pages/SystemHealth.tsx:75-80 | days are the floor of the seconds over a day; for a non-negative uptime hours are below 24 and minutes below 60; for a negative one they lie between -24 and 0 and between -60 and 0 |
| SystemHealth.UptimeDecomposes | src/pages/SystemHealth.tsx:75-80 | the days, hours and minutes of a non-negative uptime fall short of it by less than one minute |
| SystemHealth.FormatUptime | src/pages/SystemHealth.tsx:75-80 | a non-negative uptime reads '<days>d <hours>h <minutes>m' |
| SystemHealth.MemoryPercent | src/pages/SystemHealth.tsx:199 | the memory bar is the used share of the total in percent, the total 0 read as 1 |
| Faq.Toggled | src/pages/FAQ.tsx:80-82 | clicking the open question closes it; clicking any other opens that one |
| Faq.AtMostOneShown | src/pages/FAQ.tsx:170 | at most one answer is shown at a time |
| Faq.AfterClicksOpen | src/pages/FAQ.tsx:78-82 | after a sequence of clicks the open question is none or the last one clicked |
| Faq.ShownWasClicked | src/pages/FAQ.tsx:78-82 | starting with none open, a shown answer belongs to a clicked question |
| Faq.ToggleTwiceRestores | src/pages/FAQ.tsx:80-82 | clicking a question twice restores the state when it was open or nothing was |
| Faq.ToggleTwiceFromOther | src/pages/FAQ.tsx:80-82 | from another open question, clicking one twice leaves none open |
| Faq.FaqPage.constructor | src/pages/FAQ.tsx:78 | no question is open at first |
| Faq.FaqPage.ToggleFaq | src/pages/FAQ.tsx:80-82 | the clicked question's answer flips and every other answer is hidden |
| Text.Lower | src/pages/AuditLogs.tsx:63 | lower-casing keeps the length and maps every character through the one-character mapping |
| Text.LowerIdempotent | src/pages/AuditLogs.tsx:63 | lower-casing twice is lower-casing once, and white space stays where it was |
| Text.Trim | ISN_MVP/frontend/src/components/IFFIRegistrationPopup.tsx:66 | the trimmed string is no longer than the input and neither begins nor ends with white space |
| TextLemmas.TrimMiddle | ISN_MVP/frontend/src/components/IFFIRegistrationPopup.tsx:66 | the trimmed string is the middle of the input: the input is the front trimStart removes, then the trimmed string, then the back trimEnd removes, and both removed parts are all white space |
| Text.TrimEmptyIff | ISN_MVP/frontend/src/components/IFFIRegistrationPopup.tsx:66 | a string trims to the empty string exactly when it is all white space |
| Text.TrimKeeps | ISN_MVP/frontend/src/components/IFFIRegistrationPopup.tsx:125 | trimming leaves a string whose ends are not white space unchanged |
| Text.ContainsIff | src/pages/AuditLogs.tsx:63 | includes holds exactly when the part occurs at some index |
| Text.ContainsEmpty | src/pages/Models.tsx:84 | every string includes the empty search term |
| Text.Split | src/components/ui/FileUploader.tsx:33 | splitting gives at least one piece, no piece holds the separator, and joining the pieces with it gives the string back |
| Text.SplitNoSep | src/components/ProtectedRoute.tsx:42 | a string without the separator splits into itself alone |
| Text.DashSpaceRuns | src/pages/Organizations.tsx:50 | replacing white-space runs by '-' leaves no white space and introduces no other character |
| Text.Kebab | src/pages/Organizations.tsx:50 | the organization slug holds no white space and no capital letter |
| Text.DashSpaceRunsKeeps | src/pages/Organizations.tsx:50 | a string without white space passes the run replacement unchanged |
| Text.DashSpaceRunsSplit | src/pages/Organizations.tsx:50 | a white-space run between non-blank neighbours turns into exactly one '-' |
| Text.KebabIdempotent | src/contexts/AuthContext.tsx:137 | the organization slug of a slug is the slug itself |
| Text.NatToString | src/pages/SystemHealth.tsx:79 | a whole number prints as at least one decimal digit, without a leading zero unless it is 0 |
| Text.DecimalRoundTrip | src/pages/SystemHealth.tsx:79 | reading the printed digits back gives the number |
| TextLemmas.ParseIntOf | src/pages/Organizations.tsx:57 | text that starts with a run of decimal digits reads as the value of that run, whatever follows the run |
| TextLemmas.ParseIntOfNegative | src/pages/Organizations.tsx:57 | a leading '-' negates what the digits after it read as, and gives NaN (None) when no digit follows it |
| TextLemmas.ParseIntOfPositive | src/pages/Organizations.tsx:57 | a leading '+' reads as exactly what the digits after it read as, NaN (None) when no digit follows it |
| TextLemmas.ParseIntNoDigits | src/pages/BlogManagement.tsx:318 | text that is empty or starts with neither white space, a sign nor a digit reads as NaN (None) |
| TextLemmas.ParseIntSkipsSpace | src/pages/Organizations.tsx:57 | a run of leading white space does not change what parseInt reads |
| Text.ParseIntRoundTrip | src/pages/Organizations.tsx:57 | parseInt reads back any printed whole number |
| Base.OrStr | src/pages/SystemHealth.tsx:44 | JavaScript's or-default on a string: the value when present and non-empty, else the default |
| Base.OrInt | src/pages/SystemHealth.tsx:45 | JavaScript's or-default on a number: the value when present and non-zero, else the default |
| Base.RoundPercent | src/pages/ClientDashboard.tsx:83 | the exact percentage 100 * num / den rounded to the nearest whole number, halves up |
| Base.RoundPercentBounds | src/pages/ClientDashboard.tsx:83 | the rounded share of a part in its whole lies between 0 and 100 |
| Base.JsRem | src/pages/JobMonitor.tsx:100 | JavaScript's remainder: the Euclidean one for a non-negative dividend, negative or zero and above minus the divisor for a negative one |
| Lists.Filter | src/pages/AuditLogs.tsx:61-67 | filter keeps exactly the passing elements, in their order |
| Lists.Count | ISN_MVP/frontend/src/pages/Dashboard.tsx:50 | the count is at most the length, 0 exactly when no element passes, the length exactly when all do |
| Lists.CountIsFilterLength | ISN_MVP/frontend/src/pages/Dashboard.tsx:50 | the count is the length of the filtered list, as `filter(p).length` |
| Lists.Take | ISN_MVP/frontend/src/pages/Dashboard.tsx:61 | slice(0, n) is the prefix of length min(n, length) |
| Lists.Toggle | src/pages/ApiKeyManagement.tsx:294-296 | the value flips membership; others keep theirs; a present value is filtered out, an absent one appended |
| Lists.ToggleTwice | src/pages/ApiKeyManagement.tsx:294-296 | toggling twice restores every membership, and the exact list when the value was absent |
| Base.OrReal | ISN_MVP/frontend/src/lib/datasetPerformanceApi.ts:64 | JavaScript's or-default on a fractional number: the value when present and non-zero, else the default |
| Base.RoundDiv | src/components/ui/FileUploader.tsx:29 | Math.round of num/den for a positive den: the nearest whole number, halves rounding up |
| Base.PercentWithin | src/pages/ClientDashboard.tsx:83 | a part of its whole, rounded to a whole percent, lies between 0 and 100 |
| Lists.FilterMultiset | src/pages/AuditLogs.tsx:61-67 | filtering keeps each passing element exactly as often as it occurs and drops every other one |
| Lists.FilterAppend | src/pages/AuditLogs.tsx:61 | filtering a concatenation is concatenating the filtered parts |
| Lists.FilterAll | src/pages/AuditLogs.tsx:61 | a filter every element passes returns the list unchanged |
| Lists.FilterFilter | src/pages/AuditLogs.tsx:61-67 | filtering by one test and then another is filtering once by both |
| Lists.FilterSame | src/pages/Models.tsx:83 | two tests that agree on every element filter alike |
| Text.LowerChar | src/pages/Organizations.tsx:50 | a capital ASCII letter maps to its small letter, every other character to itself, and the result is never a capital |
| Text.TrimStart | ISN_MVP/frontend/src/components/IFFIRegistrationPopup.tsx:66 | the result is no longer than the input and does not begin with white space |
| Text.TrimStartSuffix | ISN_MVP/frontend/src/components/IFFIRegistrationPopup.tsx:66 | what trimStart keeps is the tail of its input |
| Text.TrimEnd | ISN_MVP/frontend/src/components/IFFIRegistrationPopup.tsx:66 | the result is no longer than the input and does not end with white space |
| Text.TrimEndPrefix | ISN_MVP/frontend/src/components/IFFIRegistrationPopup.tsx:66 | what trimEnd keeps is the head of its input |
| Text.DigitChar | src/pages/SystemHealth.tsx:79 | the decimal digit character of a value below ten |
| Text.DigitRun | src/pages/Organizations.tsx:57 | parseInt's leading run of digits: every character in it is a digit and the one after it is not |
| Text.TrimStartRemovesSpace | ISN_MVP/frontend/src/components/IFFIRegistrationPopup.tsx:66 | what trimming removes from the front is all white space |
| Text.TrimEndRemovesSpace | ISN_MVP/frontend/src/components/IFFIRegistrationPopup.tsx:66 | what trimming removes from the end is all white space |

## Left out

- JobMonitorPage.JobMonitorView.FetchJobStatus: models one poll. The 3-second interval is outside the model, and so is the interval closure at src/pages/JobMonitor.tsx:26, which keeps the first render's null preview.
- JobMonitorPage.FormatDuration: takes whole seconds. The source's duration is any JavaScript number, and for 65.5 `formatDuration` prints "1m 5.5s", which no whole count gives.
- Orchestrator.ChooseQueue: `media_duration_s` is a whole number of seconds here. A fractional duration such as 120.5 s, which the source routes to 'standard', is not modelled.
- JobsController.AdmissibleIff: the duration's truthiness is stated for whole numbers only; a fractional `media_duration_s` such as 0.5 is truthy in the source and is not modelled.
- Text.ParseInt: reads decimal digits only. JavaScript's `parseInt("0x1A")` reads the hexadecimal prefix and gives 26; here it gives Some(0). The value is an unbounded integer, without the loss of precision past 2^53.
- Base.RoundPercent: rounds the exact quotient 100 * num / den. The source rounds the double `(num / den) * 100`, whose error can fall on the other side of a half: for 23 of 40 the double is 57.49999999999999, so the source shows 57 where the model gives 58 (likewise 29 of 200 and 57 of 200).
- Dashboard.SuccessRate: the percentage is rounded from the exact quotient, not from the double `(completed / total) * 100`; for 23 completed of 40 jobs the source shows 57 and the model 58.
- ClientDashboard.StatsOf: the success rate is rounded from the exact quotient, not from the double `(completed / total) * 100`; for 23 completed of 40 workflows the source shows 57 and the model 58.
- Organizations.UsageRate: the usage rate is rounded from the exact quotient, not from the double `(used / quota) * 100`; for 23 used of 40 minutes the source shows 57 and the model 58.
- DatasetPerformanceApi.MetricsOf: scores are exact reals. The `toFixed` rounding of quality, size and error rate is not modelled.
- PerformanceApi.MetricsOf: accuracy, cost and error rate are exact reals. The `toFixed` rounding is not modelled.
- DatasetPerformanceApi.QualityTrend: trend cells hold the exact score, without the `toFixed(1)` rounding.
- PerformanceApi.AccuracyTrend: trend cells hold the exact accuracy, without the `toFixed(1)` rounding.
- DatasetPerformanceApi.LanguageCoverageSpec: the mean quality score is exact, without the `toFixed(1)` rounding.
- PerformanceApi.LanguagePerformanceSpec: the mean accuracy is exact, without the `toFixed(1)` rounding.
- The database queries, inserts, updates and upserts, the realtime channel, the socket server rooms and the client socket singleton are outside the model. Their answers are parameters, and a write's outcome is a `written` flag.
- The BullMQ queue cache, the Redis connection and the worker are outside the model. The queue is a recorder of `add` calls.
- `Math.random`, `uuidv4`, the random trace id and the SHA-256 digest are outside the model. Their values are parameters; only the hex encoding of a digest is modelled.
- The clock is a parameter in milliseconds. `toLocaleDateString` is a parameter, the label a date already carries.
- Timers are outside the model: the job monitor poll, the popup delay and the demo progress interval.
- `toLowerCase` is modelled on ASCII letters only. Unicode case mapping is out of scope.
- Fractional uptime seconds are outside the model: `formatUptime` takes whole seconds.
- The `toFixed(2)` digits of `formatFileSize` are not modelled. Only the unit choice is.
- The file uploader's `handleDrag` only toggles the highlight flag on drag events. It is not modelled beyond the reset a drop performs.
- Copying a key to the clipboard, toasts, `logActivity` calls and console output are outside the model.
- The onboarding `updatePreferences` and the initial load queries only read or write the database. Their results are parameters.
- The greeting's first-name split, chart constants, colours, icons and other display-only fields are not modelled.
- The `job:log` listener's stale closure is described under Findings. The model uses the intended rule, filtering on the current selection.
- `performanceApi.ts` duplicates the period and relative-time code of `datasetPerformanceApi.ts`. Both files use the single copy in `Analytics`.

## Findings

| source | as written | input that shows it | evidently intended | confidence | as-written member | corrected member |
|---|---|---|---|---|---|---|
| ISN_MVP/frontend/src/pages/Jobs.tsx:20-47 | the `job:log` listener is registered once, on mount, and compares each event with the selection of that first render, which is null | select any job, then receive a `job:log` event for it: the log is not appended | append the log when the event's job is the job currently selected | not executed | JobsPage.StaleLogListener | JobsPage.AppendLog |
