# MediAssistant core, modelled in Dafny

MediAssistant is a Next.js medical assistant. It has a chat window, a
"medico" study hub for students and a "pro" suite for clinicians. Most of
the code is rendering and calls to a hosted language model, Firebase and the
browser. This project models the parts that are the program's own logic:

- **App shell.** The `displayState` that chooses between loading,
  onboarding, welcome and the app. The storage-backed flags behind it. The
  role-gated pages, which show an intro animation at most once per session
  and redirect users in the wrong role. A `null` role means "not known
  yet" and waits; an `undefined` role is a wrong role. The front-end
  copy's mode context provides no `userRole`, so its pro and medico
  pages always read `undefined` and redirect.
- **Agent outcome policies.** Each sub-agent or model call is an input that
  either succeeds with a value or fails. The flows covered:
  - the chat fallback chain;
  - the partial-failure review;
  - the all-or-nothing guided session;
  - both study-notes agents ("image failure is tolerated, text failure is
    fatal");
  - the mnemonics generator;
  - the video summariser's short-transcript exit;
  - smart search's context and unique sources.
- **Chat message log.** Trimming and the empty-input guard. The append-only
  log. Reply classification by tool name. The error message. The loading
  flag.
- **List and string operations.**
  - task toggling and the alert/pending filters;
  - the widget sort, in place on an array;
  - diagnostic status counts;
  - the frequently-used tool partition;
  - the next-step split and links;
  - comma-separated subject parsing;
  - the brace-delimited JSON candidate;
  - the flowchart-to-Mermaid text.
- **Small UI state machines.** The dictation pad, the symptom panel, the
  one-shot quiz, and the service worker's cache-first fetch and whitelist
  pruning.

Every external call is an argument of the function or method that uses it:
a `Result` value, or a function from the request to a `Result`. This covers
the model prompts, MedGemma, image generation, sub-agents, `fetch`, the
retriever, Firestore and storage. Asynchronous handlers are split into a
`Begin…` method, which runs up to the awaited call, and a `Complete…` method,
which takes the call's outcome. This keeps the in-flight state observable.
JavaScript truthiness, `trim`, `split`, `join`, `indexOf`, `lastIndexOf`,
`substring` and `err instanceof Error ? err.message : …` are written out in
`common.dfy` and `strings.dfy`.

When the image step of src/ai/agents/medico/MbbsStudyAgent.ts fails, the
notes keep whatever `diagramUrl` the parsed model output already carried:
the code does not clear it, and neither does the model.

## Model

| member | source | states |
|---|---|---|
| Common.MessageOf | src/app/pro/diagnostics/page.tsx:56-60 | An Error gives its own message; any other thrown value gives the fallback text. |
| Common.Settled | src/ai/agents/medico/ComprehensiveTopicReviewAgent.ts:52-54 | A settled outcome is present exactly when the call was fulfilled, and then it is that call's value. |
| Strings.Trim | src/components/chat/chat-interface.tsx:115 | The result is a contiguous part of the input with no white space at either end, and it is empty exactly when the input is all white space. |
| Strings.TrimIdempotent | src/components/chat/chat-interface.tsx:46-48 | Trimming twice is trimming once, so a voice transcript that was already trimmed passes through the send guard unchanged. |
| Strings.Split | src/components/medico/study-timetable-creator.tsx:56 | Splitting gives at least one piece, and no piece contains the separator. |
| Strings.JoinSplit | src/components/medico/study-timetable-creator.tsx:56 | Joining the pieces of a split with the separator gives back the original text. |
| Strings.SplitJoin | src/components/medico/study-timetable-creator.tsx:56 | Splitting a join of separator-free pieces gives back the pieces. |
| Strings.IndexOf | src/ai/agents/medico/MbbsStudyAgent.ts:82 | `indexOf`: -1 exactly when the character is absent; otherwise the position of its first occurrence. |
| Strings.LastIndexOf | src/ai/agents/medico/MbbsStudyAgent.ts:82 | `lastIndexOf`: -1 exactly when the character is absent; otherwise a position holding it with no occurrence after it. |
| Strings.JsSubstring | src/ai/agents/medico/MbbsStudyAgent.ts:82 | `substring` with both indices in range is the slice between them, whichever comes first; two indices both at or before the start, or both at or past the end, give the empty string; the result is always a slice of the input. |
| Strings.JsSubstringClamps | src/ai/agents/medico/MbbsStudyAgent.ts:82 | An index below zero acts as 0 and one past the end acts as the length. |
| Strings.JsSubstringSymmetric | src/ai/agents/medico/MbbsStudyAgent.ts:82 | Swapping the two indices does not change the result. |
| Strings.Join | src/ai/agents/medico/SmartSearchAgent.ts:52 | `join` of no items is empty and of one item is that item; JoinSplit, SplitJoin, JoinSnoc and JoinConcat pin down the items-in-order, one-separator-between structure. |
| Strings.JoinSnoc | src/ai/agents/medico/SmartSearchAgent.ts:52 | Joining one more item adds the separator and that item at the end. |
| Strings.JoinConcat | src/components/medico/comprehensive-topic-review.tsx:101 | Joining two non-empty lists one after the other puts one separator between their joins. |
| Strings.BeforeFirst | src/components/medico/study-timetable-creator.tsx:55 | The prefix before the first occurrence of the character: free of it, and followed by it unless it is the whole string. |
| Strings.FirstPieceIsBeforeFirst | src/components/medico/study-timetable-creator.tsx:55 | The first piece of a split is the text before the first separator. |
| ClientStateProvider.BoolString | src/contexts/client-state-provider.tsx:38 | `String(status)` is the text "true" exactly when `status` is true, and never empty. |
| ClientStateProvider.StoredFlagRoundTrip | src/contexts/client-state-provider.tsx:32-39 | Storing `String(status)` and reading the flag back gives `status`. |
| ClientStateProvider.StoredFlagOtherKey | src/contexts/client-state-provider.tsx:41-44 | Writing one key leaves every other stored flag as it was. |
| ClientStateProvider.UseClientState | src/contexts/client-state-provider.tsx:17-23 | Outside a provider the hook throws its fixed message; inside, it returns the context value. |
| ClientStateProvider.ClientState.constructor | src/contexts/client-state-provider.tsx:26-28 | Before mount all three flags are false. |
| ClientStateProvider.ClientState.Mount | src/contexts/client-state-provider.tsx:30-34 | On mount the client is marked, and each flag is loaded from its storage: set exactly when the stored text is "true". |
| ClientStateProvider.ClientState.SetOnboardingComplete | src/contexts/client-state-provider.tsx:36-39 | The flag becomes `status`, local storage stores `String(status)` and reads back as `status`, and nothing else changes. |
| ClientStateProvider.ClientState.SetWelcomeShownThisSession | src/contexts/client-state-provider.tsx:41-44 | Only the welcome flag and session storage change; onboarding state and local storage are untouched. |
| AppContentController.DisplayStateOf | src/components/layout/app-content-controller.tsx:25-43 | Loading exactly when not mounted or auth is loading. Onboarding exactly for a loaded, signed-in, not-onboarded user off the auth pages. Welcome exactly for a loaded, signed-in, onboarded user off the auth pages who has not seen it this session. App otherwise. |
| AppContentController.AuthPathIsApp | src/components/layout/app-content-controller.tsx:30-32 | Once loaded, `/login` and `/signup` are in state app whatever the user and flags. |
| AppContentController.NoUserIsApp | src/components/layout/app-content-controller.tsx:42 | With no user, the state is app once loaded, whatever the onboarding and welcome flags. |
| AppContentController.Render | src/components/layout/app-content-controller.tsx:53-69 | The auth pages render their children bare. Every other path renders exactly one view per state, so no state reaches the default branch. |
| AppContentController.Trace | src/components/layout/app-content-controller.tsx:45-51 | Each step of a handler sequence applies that handler to the previous flags. |
| AppContentController.TraceNeverGoesBack | src/components/layout/app-content-controller.tsx:45-51 | For a fixed loaded user and path, any sequence of handler calls moves the state forward through onboarding, welcome and app, and never back. |
| AppContentController.HandleOnboardingClose | src/components/layout/app-content-controller.tsx:45-47 | Onboarding becomes complete and is persisted: the new local storage is the old one with the onboarding key set to "true", every other key kept. The welcome flag and session storage are untouched. |
| AppContentController.HandleWelcomeComplete | src/components/layout/app-content-controller.tsx:49-51 | The welcome is marked shown for the session: the new session storage is the old one with the welcome key set to "true", every other key kept. Onboarding and local storage are untouched. |
| RoleGate.Decide | src/app/pro/page.tsx:22-34 | The animation starts exactly for the required role with the session flag unset. Every role other than `null` and the required one, `undefined` included, is redirected to `/`. The page stays exactly for a `null` role, or for the required role with the flag already set. |
| RoleGate.FlagAfter | src/app/pro/page.tsx:26-29 | Starting the animation sets the session flag to "true"; every other decision leaves the session alone. |
| RoleGate.AtMostOncePerSession | frontend/src/app/medico/page.tsx:25-30 | However many times the effect runs in one session, the animation starts at most once, and never if the flag was already set. |
| ProPage.Render | src/app/pro/page.tsx:37-58 | A spinner while loading or before mount. Otherwise the access message for any role but `pro`, then the animation, then the dashboard. The dashboard is only ever shown to `pro`. |
| ProPage.ProGate.constructor | src/app/pro/page.tsx:15-16 | The page starts unmounted with no animation, no redirects and the browser's session. |
| ProPage.ProGate.Mount | src/app/pro/page.tsx:18-20 | Mounting marks the client and changes nothing else. |
| ProPage.ProGate.RoleEffect | src/app/pro/page.tsx:22-34 | No change while loading or before mount. Otherwise the `RoleGate.Decide` decision (an `undefined` role is redirected) is applied to the animation, the session flag and the router pushes, and the at-most-once invariant is kept. |
| ProPage.ProGate.CompleteAnimation | src/app/pro/page.tsx:54-55 | Completing the animation clears it, so the dashboard renders next. |
| FrontendProPage.Render | frontend/src/app/pro/page.tsx:32-55 | A spinner while the role loads. Then the access message for any role but `pro`, then the animation, then the dashboard. |
| FrontendProPage.ProGate.constructor | frontend/src/app/pro/page.tsx:14-15 | `isLoadingRole` starts true, with no animation shown. |
| FrontendProPage.ProGate.RoleEffect | frontend/src/app/pro/page.tsx:17-30 | A `null` role changes nothing, so loading continues. Any other role, `undefined` included, is decided by `RoleGate.Decide` and ends the loading. |
| FrontendProPage.UndefinedRoleRedirects | frontend/src/app/pro/page.tsx:17-30 | With the role `undefined`, which is what this copy's mode context yields, loading ends, `/` is pushed and the access message renders; the animation and session are untouched. |
| FrontendProPage.ProGate.CompleteAnimation | frontend/src/app/pro/page.tsx:50 | Completing the animation clears it. |
| MedicoPage.Render | frontend/src/app/medico/page.tsx:37-62 | A spinner before mount or while auth loads. Then the access message for any role but `medico`, then the hub animation, then the dashboard. |
| MedicoPage.MedicoGate.constructor | frontend/src/app/medico/page.tsx:15-16 | The page starts unmounted with no animation. |
| MedicoPage.MedicoGate.Mount | frontend/src/app/medico/page.tsx:18-20 | Mounting marks the client only. |
| MedicoPage.MedicoGate.RoleEffect | frontend/src/app/medico/page.tsx:22-34 | Nothing before mount or while loading. Otherwise the `RoleGate.Decide` decision for `medico` (an `undefined` role is redirected) with key `medicoHubAnimationShown`, keeping the at-most-once invariant. |
| MedicoPage.UndefinedRoleRedirects | frontend/src/app/medico/page.tsx:22-34 | Once mounted, with the role `undefined` and loading falsy, which is what this copy's mode context yields, `/` is pushed and the access message renders; the animation and session are untouched. |
| MedicoPage.MedicoGate.CompleteAnimation | frontend/src/app/medico/page.tsx:59 | Completing the animation clears it. |
| ChatInterface.UserMessage | src/components/chat/chat-interface.tsx:118-123 | A user message holds the text as plain content and is neither a command nor an error response. |
| ChatInterface.WelcomeMessage | src/components/chat/chat-interface.tsx:79-92 | The welcome is one plain bot message carrying the welcome text. |
| ChatInterface.BotReply | src/components/chat/chat-interface.tsx:141-166 | A tool response gives the symptom card for `symptomAnalyzer`, the MCQ card for `generateMCQs`, and a JSON dump for any other tool. Without one the reply is plain text. `isCommandResponse` is true exactly in the first three cases. |
| ChatInterface.ReplyMessage | src/components/chat/chat-interface.tsx:137-178 | Exactly one bot message. It is an error message ("Sorry, an error occurred: " plus the Error's text, or the unknown-error text) exactly when the fetch failed, the response was not ok, or its body could not be read. Otherwise it is the classified reply. |
| ChatInterface.ChatSession.constructor | src/components/chat/chat-interface.tsx:22-24 | The chat starts with an empty log, an empty input box and nothing loading. |
| ChatInterface.ChatSession.MountWelcome | src/components/chat/chat-interface.tsx:79-92 | An empty log with nothing in flight becomes exactly the welcome message; otherwise the log is unchanged. |
| ChatInterface.ChatSession.SetInput | src/components/chat/chat-interface.tsx:259-260 | Typing sets the input box only. |
| ChatInterface.TextToSend | src/components/chat/chat-interface.tsx:115 | The text sent comes from the argument when one is given and otherwise from the input box. It is empty exactly when that text is all white space, and otherwise has no white space at either end. |
| ChatInterface.ChatSession.BeginSend | src/components/chat/chat-interface.tsx:114-135 | Text that is empty once trimmed changes nothing and sends nothing. Otherwise exactly one user message with the trimmed text is appended and posted, loading starts, and the box is cleared only when the text came from it. |
| ChatInterface.ChatSession.CompleteSend | src/components/chat/chat-interface.tsx:137-181 | Exactly the reply message is appended, and loading ends on every path. |
| ChatInterface.ChatSession.VoiceResult | src/components/chat/chat-interface.tsx:45-50 | The trimmed transcript fills the input box and is sent as an explicit argument, so the box is not cleared. |
| ChatInterface.Exchange | src/components/chat/chat-interface.tsx:124-178 | One exchange keeps the whole existing log and appends exactly the user message for the text, then the reply message for the fetch outcome. |
| ChatInterface.ExchangesAppendOnly | src/components/chat/chat-interface.tsx:124-178 | After any number of exchanges the log has grown by two per exchange, and every earlier message is still in place, unchanged. |
| ChatAgent.ChatFlow | src/ai/agents/ChatAgent.ts:86-103 | The prompt's output is returned as is. Without one, the flow fails with the empty-content message when the last history entry is an empty model message, and with the no-output message otherwise. A prompt failure propagates. |
| ChatAgent.DirectPrompt | src/ai/agents/ChatAgent.ts:45 | The fallback prompt is the fixed head, the user's message, then the fixed tail. |
| ChatAgent.DirectPromptEmbedsMessage | src/ai/agents/ChatAgent.ts:45 | The user's message can be read back whole from the fallback prompt. |
| ChatAgent.ProcessChatMessage | src/ai/agents/ChatAgent.ts:35-54 | Never fails. A flow success is returned unchanged, with no fallback call. Otherwise the fallback is called exactly once with the message embedded; its text is returned, or the fixed technical-difficulties text if it fails too. |
| ComprehensiveReviewAgent.NotesRequestFor | src/ai/agents/medico/ComprehensiveTopicReviewAgent.ts:36-39 | The notes request is the topic with subject "General Medicine". |
| ComprehensiveReviewAgent.McqRequestFor | src/ai/agents/medico/ComprehensiveTopicReviewAgent.ts:40-45 | The MCQ request is 5 medium, university-style questions on the topic. |
| ComprehensiveReviewAgent.FlowchartRequestFor | src/ai/agents/medico/ComprehensiveTopicReviewAgent.ts:46-48 | The flowchart topic is "Clinical pathway for " followed by the topic. |
| ComprehensiveReviewAgent.ComprehensiveReviewFlow | src/ai/agents/medico/ComprehensiveTopicReviewAgent.ts:32-74 | The review fails exactly when all three sub-agents fail, always with the one fixed message. Otherwise it carries the topic, and each part is present exactly when its sub-agent succeeded, holding that value. |
| ComprehensiveReviewAgent.MoreSuccessesNeverHurt | src/ai/agents/medico/ComprehensiveTopicReviewAgent.ts:60-62 | Replacing one sub-agent by one that succeeds makes the review succeed, fills in that part, and changes no other part. |
| GuidedStudyAgent.NotesRequestFor | src/ai/agents/medico/GuidedStudyAgent.ts:37-40 | Notes are requested on the topic at "10-mark" length. |
| GuidedStudyAgent.McqRequestFor | src/ai/agents/medico/GuidedStudyAgent.ts:41-46 | The MCQ request is 3 medium, university-style questions on the topic. |
| GuidedStudyAgent.FlashcardRequestFor | src/ai/agents/medico/GuidedStudyAgent.ts:47-52 | The flashcard request is 5 medium, university-style cards on the topic. |
| GuidedStudyAgent.GuidedError | src/ai/agents/medico/GuidedStudyAgent.ts:95 | The failure message is the fixed head, the topic, then the fixed tail. |
| GuidedStudyAgent.NextStepsFor | src/ai/agents/medico/GuidedStudyAgent.ts:76-91 | Exactly two steps, `cases` then `flowcharts`, both prefilled with the topic and carrying their fixed titles and calls to action. |
| GuidedStudyAgent.GuidedStudyFlow | src/ai/agents/medico/GuidedStudyAgent.ts:31-97 | The session succeeds exactly when all three sub-agents succeed. It then holds their values, the topic and the two fixed next steps. Any failure gives the topic-bearing error. |
| GuidedStudyAgent.GuidedErrorNamesTopic | src/ai/agents/medico/GuidedStudyAgent.ts:93-96 | Different topics give different failure messages: the topic can be recovered from the message. |
| MbbsStudyAgent.JsonCandidate | src/ai/agents/medico/MbbsStudyAgent.ts:82 | The candidate is the `substring` from the first `{` to the last `}` inclusive, with the clamping and swapping of JavaScript's `substring`. |
| MbbsStudyAgent.NoBracesNoCandidate | src/ai/agents/medico/MbbsStudyAgent.ts:82 | Text with no braces gives an empty candidate. |
| MbbsStudyAgent.CandidateOfWrapped | src/ai/agents/medico/MbbsStudyAgent.ts:82 | A `{…}` object surrounded by brace-free text is extracted exactly. |
| MbbsStudyAgent.ParsedOutput | src/ai/agents/medico/MbbsStudyAgent.ts:81-93 | Notes are obtained exactly when the candidate parses and passes the schema check. |
| MbbsStudyAgent.WithDiagram | src/ai/agents/medico/MbbsStudyAgent.ts:106 | Setting the diagram url changes that field only. |
| MbbsStudyAgent.DiagramStep | src/ai/agents/medico/MbbsStudyAgent.ts:98-109 | Delivered media sets the diagram url to the media's url. A failed call, or one without media, leaves the notes as parsed. |
| MbbsStudyAgent.Rethrow | src/ai/agents/medico/MbbsStudyAgent.ts:113-119 | The outer handler always throws an Error, keeping an Error's message and otherwise using the fixed notes message. |
| MbbsStudyAgent.MbbsStudyFlow | src/ai/agents/medico/MbbsStudyAgent.ts:59-121 | A MedGemma failure is rethrown. An empty response is the empty-response error. An unparsable or non-conforming candidate is the unexpected-format error. Otherwise the parsed notes pass through the image step. |
| MbbsStudyAgent.ImageNeverDecidesOutcome | src/ai/agents/medico/MbbsStudyAgent.ts:95-111 | Whatever the image call does, the flow succeeds or fails as it would with any other image outcome, and on success only the diagram url can differ. |
| MbbsStudyAgent.SubjectOrDefault | src/ai/agents/medico/MbbsStudyAgent.ts:36 | A missing or empty subject becomes "General Medicine"; any other subject is kept. |
| MbbsStudyAgent.GenerateStudyNotes | src/ai/agents/medico/MbbsStudyAgent.ts:33-44 | The flow runs on the defaulted subject. Summary maps to notes, bullet points to summary points, and the topic to `topicGenerated`, and the diagram url passes through. A flow failure propagates. |
| SettledMbbsStudyAgent.TextBranch | usr/src/app/src/ai/agents/medico/MbbsStudyAgent.ts:71-94 | A MedGemma or `JSON.parse` failure propagates as is. An empty response and a schema mismatch are their fixed errors. Otherwise the validated notes are returned. |
| SettledMbbsStudyAgent.SettledFlowAsWritten | usr/src/app/src/ai/agents/medico/MbbsStudyAgent.ts:108-131 | As written, a fulfilled image call with null media fails the whole flow with the TypeError of reading `.url`. |
| SettledMbbsStudyAgent.DeliveredUrl | usr/src/app/src/ai/agents/medico/MbbsStudyAgent.ts:115 | A url is delivered exactly when the image call was fulfilled with media whose url is non-empty. |
| SettledMbbsStudyAgent.SettledMbbsStudyFlow | usr/src/app/src/ai/agents/medico/MbbsStudyAgent.ts:108-122 | The flow succeeds exactly when the text branch does, and otherwise rethrows its reason. A delivered url becomes the diagram url. Every other image outcome returns the text output unchanged. |
| SettledMbbsStudyAgent.NullMediaFailsAsWritten | usr/src/app/src/ai/agents/medico/MbbsStudyAgent.ts:115 | With good text and null media, the flow as written fails, while the intended flow returns the text output. |
| SettledMbbsStudyAgent.AsWrittenAgreesOtherwise | usr/src/app/src/ai/agents/medico/MbbsStudyAgent.ts:108-122 | On every other image outcome the code as written and the intended flow agree. |
| SettledMbbsStudyAgent.GenerateStudyNotes | usr/src/app/src/ai/agents/medico/MbbsStudyAgent.ts:31-42 | Wraps the corrected `SettledMbbsStudyFlow`, not the flow as written. The flow runs on the defaulted subject; summary, bullet points, diagram url and next steps are mapped through, and a failure propagates. |
| MnemonicsAgent.ImageUrl | src/ai/agents/medico/MnemonicsGeneratorAgent.ts:82-96 | Delivered media gives its url; a failed image call gives no url. |
| MnemonicsAgent.MnemonicsFlow | src/ai/agents/medico/MnemonicsGeneratorAgent.ts:71-107 | The flow succeeds exactly when the text prompt gives an output with a non-empty mnemonic. The result is the text fields plus the url of the image made for that mnemonic. Every failure is the one fixed message. |
| MnemonicsAgent.TextIsKeptWhateverTheImage | src/ai/agents/medico/MnemonicsGeneratorAgent.ts:82-101 | The image never decides success, and on success the text part is the same whatever the image step did. |
| VideoSummarizerAgent.FetchTranscript | src/ai/agents/medico/VideoSummarizerAgent.ts:42-51 | The transcript is the parts joined with single spaces, in order; a fetch failure is the fixed could-not-fetch error. |
| VideoSummarizerAgent.Excerpt | src/ai/agents/medico/VideoSummarizerAgent.ts:76 | The prompt gets the first 30000 characters of the transcript, or all of it when shorter. |
| VideoSummarizerAgent.VideoSummarizerFlow | src/ai/agents/medico/VideoSummarizerAgent.ts:62-98 | A transcript under 100 characters gives the fixed could-not-summarise result without calling the model. Otherwise the model's non-empty text on the excerpt is the summary. Every failure is the one fixed message. |
| VideoSummarizerAgent.JoinedLength | src/ai/agents/medico/VideoSummarizerAgent.ts:46 | The joined transcript's length is the parts' total plus one space between each two. |
| VideoSummarizerAgent.ShortTranscriptSkipsModel | src/ai/agents/medico/VideoSummarizerAgent.ts:67-69 | Parts too short in total give the fixed result whatever the model would do. |
| SmartSearchAgent.SourceOf | src/ai/agents/medico/SmartSearchAgent.ts:60 | A document's source, or "Unknown" when it is missing or empty; never empty. |
| SmartSearchAgent.Sources | src/ai/agents/medico/SmartSearchAgent.ts:60 | One source per retrieved document, in retrieval order. |
| SmartSearchAgent.Texts | src/ai/agents/medico/SmartSearchAgent.ts:42 | One text per retrieved document, in retrieval order. |
| SmartSearchAgent.Context | src/ai/agents/medico/SmartSearchAgent.ts:42-52 | No document gives an empty context and one document its own text; ContextAppend states how each further document extends it. |
| SmartSearchAgent.ContextAppend | src/ai/agents/medico/SmartSearchAgent.ts:42-52 | Another document extends the context at its end, after exactly one separator. |
| SmartSearchAgent.Unique | src/ai/agents/medico/SmartSearchAgent.ts:64 | `[...new Set(xs)]`: no duplicates, the same values, no longer than the input, in order of first occurrence. |
| SmartSearchAgent.UniqueOfDistinct | src/ai/agents/medico/SmartSearchAgent.ts:64 | A list without duplicates is its own de-duplication. |
| SmartSearchAgent.UniqueIdempotent | src/ai/agents/medico/SmartSearchAgent.ts:64 | De-duplicating twice is de-duplicating once. |
| SmartSearchAgent.SmartSearchFlow | src/ai/agents/medico/SmartSearchAgent.ts:39-66 | The model answers over the joined context. The sources have no duplicates, are no more than the documents, include every document's source, and include nothing else. A retrieval or model failure propagates. |
| ClinicalDashboard.ToggleOne | frontend/src/components/pro/personalized-clinical-dashboard.tsx:53-55 | Only `completed` can change, and only for the matching id, where it flips. |
| ClinicalDashboard.Toggled | frontend/src/components/pro/personalized-clinical-dashboard.tsx:51-57 | Same length and order; tasks with the id have `completed` flipped, and every other task is unchanged. |
| ClinicalDashboard.ToggleTwiceRestores | frontend/src/components/pro/personalized-clinical-dashboard.tsx:52-56 | Toggling the same id twice restores the list. |
| ClinicalDashboard.Alerts | frontend/src/components/pro/personalized-clinical-dashboard.tsx:71 | A task is listed exactly when it is an uncompleted "Patient Alert", and the list is no longer than the task list. |
| ClinicalDashboard.AlertsCount | frontend/src/components/pro/personalized-clinical-dashboard.tsx:71 | Each active alert is listed as often as it occurs in the task list, and nothing else is listed. |
| ClinicalDashboard.AlertsAppend | frontend/src/components/pro/personalized-clinical-dashboard.tsx:71 | The alerts keep the task list's order: the alerts of two lists one after the other are the first list's alerts followed by the second's. |
| ClinicalDashboard.Pending | frontend/src/components/pro/personalized-clinical-dashboard.tsx:94 | A task is listed exactly when it is uncompleted, and the list is no longer than the task list. |
| ClinicalDashboard.PendingCount | frontend/src/components/pro/personalized-clinical-dashboard.tsx:94 | Each uncompleted task is listed as often as it occurs in the task list, and nothing else is listed. |
| ClinicalDashboard.PendingAppend | frontend/src/components/pro/personalized-clinical-dashboard.tsx:94 | The pending list keeps the task list's order in the same way. |
| ClinicalDashboard.AlertsArePendingAlerts | frontend/src/components/pro/personalized-clinical-dashboard.tsx:71-94 | The alert list is the pending list restricted to the alert category, in the same order. |
| ClinicalDashboard.NoAlertsNotice | frontend/src/components/pro/personalized-clinical-dashboard.tsx:79 | "No active alerts." shows exactly when no task is an uncompleted alert. |
| ClinicalDashboard.NoPendingNotice | frontend/src/components/pro/personalized-clinical-dashboard.tsx:108 | "No pending tasks!" shows exactly when every task is completed. |
| ClinicalDashboard.ToggleClosesOpenTasks | frontend/src/components/pro/personalized-clinical-dashboard.tsx:51-94 | Ticking an open task removes every task with that id from both the alert and the pending lists. |
| ClinicalDashboard.SortByPosition | frontend/src/components/pro/personalized-clinical-dashboard.tsx:131 | The array is sorted in place by ascending default position and holds the same widgets. |
| ClinicalDashboard.InsertLast | frontend/src/components/pro/personalized-clinical-dashboard.tsx:131 | One insertion step extends the sorted prefix by one and keeps the same widgets. |
| ClinicalDashboard.Swap | frontend/src/components/pro/personalized-clinical-dashboard.tsx:131 | Exchanges two entries and nothing else. |
| ClinicalDashboard.WidgetOrder | frontend/src/components/pro/personalized-clinical-dashboard.tsx:131 | The widget ids in ascending order of default position. |
| ClinicalDashboard.RenderContent | frontend/src/components/pro/personalized-clinical-dashboard.tsx:133-142 | The spinner exactly while loading. Then the error exactly when there is one. Then the empty notice exactly without data. The widgets otherwise. |
| ClinicalDashboard.Dashboard.constructor | frontend/src/components/pro/personalized-clinical-dashboard.tsx:39 | The task list starts empty. |
| ClinicalDashboard.Dashboard.ReceiveData | frontend/src/components/pro/personalized-clinical-dashboard.tsx:45-49 | Arriving data replaces the task list; no data keeps it. |
| ClinicalDashboard.Dashboard.ToggleTaskCompletion | frontend/src/components/pro/personalized-clinical-dashboard.tsx:51-57 | The task list becomes its toggled version. |
| DiagnosticsPage.CountOf | src/app/pro/diagnostics/page.tsx:69-72 | The number of checks with that status. |
| DiagnosticsPage.StatusCounts | src/app/pro/diagnostics/page.tsx:66-74 | All zeros without a report. Otherwise `ok` and `error` count their statuses and `total` counts every check, so `ok + error <= total`. |
| DiagnosticsPage.EveryCheckCounted | src/app/pro/diagnostics/page.tsx:68-73 | The ok, error and pending counts add up to the number of checks. |
| DiagnosticsPage.PendingCountsOnlyInTotal | src/app/pro/diagnostics/page.tsx:68-73 | A further pending check raises only the total. |
| DiagnosticsPage.Diagnostics.constructor | src/app/pro/diagnostics/page.tsx:29-32 | The page starts idle with no report, suggestions or error. |
| DiagnosticsPage.Diagnostics.BeginRun | src/app/pro/diagnostics/page.tsx:34-42 | Without a user nothing changes. Otherwise error, report and suggestions are cleared and loading starts. |
| DiagnosticsPage.Diagnostics.CompleteRun | src/app/pro/diagnostics/page.tsx:43-63 | The report is stored as soon as it arrives, and the suggestions after it. Any failure records the Error's message or "An unknown error occurred.". Loading ends on every path. |
| DiagnosticsPage.Diagnostics.Summary | src/app/pro/diagnostics/page.tsx:66-74 | The counts shown never have `ok + error` above the total, and are zero without a report. |
| MedicoDashboard.FrequentlyUsedIds | app/frontend/src/components/medico/medico-dashboard.tsx:25-27 | Exactly the ids of the tools flagged as frequently used. |
| MedicoDashboard.ToolsWhere | app/frontend/src/components/medico/medico-dashboard.tsx:29-30 | Exactly the displayed tools whose id is, or is not, among the given ids. |
| MedicoDashboard.PartitionCovers | app/frontend/src/components/medico/medico-dashboard.tsx:29-30 | The two lists together hold every displayed tool exactly as often as the display does. |
| MedicoDashboard.PartitionKeepsOrder | app/frontend/src/components/medico/medico-dashboard.tsx:29-30 | Merging the two lists by each tool's membership rebuilds the displayed list, so each list keeps the displayed order. |
| MedicoDashboard.Membership | app/frontend/src/components/medico/medico-dashboard.tsx:29-30 | For each displayed tool, whether it is frequently used. |
| MedicoDashboard.PartitionDisjoint | app/frontend/src/components/medico/medico-dashboard.tsx:29-30 | No tool is in both lists. |
| MedicoDashboard.FindTool | app/frontend/src/components/medico/medico-dashboard.tsx:32 | `find`: the position of the first tool with that id, or -1 exactly when there is none or no id. |
| MedicoDashboard.CurrentTool | app/frontend/src/components/medico/medico-dashboard.tsx:32 | A tool is current exactly when some listed tool has the active id, and then it is such a tool. |
| MedicoDashboard.Hub.constructor | app/frontend/src/components/medico/medico-dashboard.tsx:20-23 | The hub shows every tool, with no dialog, no topic and edit mode off. |
| MedicoDashboard.Hub.LaunchTool | app/frontend/src/components/medico/medico-dashboard.tsx:35-38 | Launching sets both the topic and the active dialog. |
| MedicoDashboard.Hub.DialogOpenChange | app/frontend/src/components/medico/medico-dashboard.tsx:124 | Closing the dialog resets the active tool, so the dialog is closed; opening changes nothing. |
| MedicoDashboard.Hub.ToggleEditMode | app/frontend/src/components/medico/medico-dashboard.tsx:49 | Flips edit mode only. |
| MedicoDashboard.Hub.Reorder | app/frontend/src/components/medico/medico-dashboard.tsx:71 | The new order becomes the displayed list. |
| MedicoDashboard.Hub.Sections | app/frontend/src/components/medico/medico-dashboard.tsx:25-30 | The two sections partition the displayed tools by frequent use. |
| MedicoDashboard.LaunchOpensTool | app/frontend/src/components/medico/medico-dashboard.tsx:32-38 | Launching a listed tool opens the dialog on that tool with the given topic. |
| NextStepsDisplay.Display | src/components/medico/next-steps-display.tsx:25-40 | Only the Save button when the steps are missing or empty. Otherwise the primary step and the secondary steps, which together rebuild the list. Save is disabled exactly when no user is logged in. |
| NextStepsDisplay.DropdownIffSeveralSteps | src/components/medico/next-steps-display.tsx:50 | The dropdown appears exactly when more than one step is suggested. |
| NextStepsDisplay.Href | src/components/medico/next-steps-display.tsx:45-62 | By position, a link is `/medico/` first, then the tool id, then `?topic=`, then the encoded topic, and nothing else. |
| NextStepsDisplay.Links | src/components/medico/next-steps-display.tsx:45-62 | The primary link first, then one link per secondary step, in order. |
| NextStepsDisplay.LinksFollowSteps | src/components/medico/next-steps-display.tsx:35-62 | The bar links every suggested step in the suggested order. |
| NextStepsDisplay.HrefParsesBack | src/components/medico/next-steps-display.tsx:45-62 | The tool id and the encoded topic can be read back from a link. |
| StudyTimetable.TrimAll | src/components/medico/study-timetable-creator.tsx:56 | Each entry trimmed, same length and order. |
| StudyTimetable.DropEmpty | src/components/medico/study-timetable-creator.tsx:56 | `filter(Boolean)`: every non-empty string is kept as often as it occurs, and no empty string is kept. |
| StudyTimetable.DropEmptyAppend | src/components/medico/study-timetable-creator.tsx:56 | The filter keeps the order: filtering two lists one after the other gives the first list's survivors followed by the second's. |
| StudyTimetable.SubjectsOf | src/components/medico/study-timetable-creator.tsx:56 | Every parsed subject is non-empty, comma-free and trimmed. A string is a subject exactly when it is a non-empty trimmed piece of the field, and it occurs as often as among the trimmed pieces. |
| StudyTimetable.SubjectsOfOnePiece | src/components/medico/study-timetable-creator.tsx:56 | A field without a comma gives its trimmed text as the one subject, or no subject when that is blank. |
| StudyTimetable.SubjectsOfNextPiece | src/components/medico/study-timetable-creator.tsx:56 | The field is read from the left: the text before the first comma gives the first subject unless it is blank, and the rest of the field gives the following subjects in order. |
| StudyTimetable.SubjectsRoundTrip | src/components/medico/study-timetable-creator.tsx:56 | Clean subjects typed as a comma-separated list are parsed back as that list, in order. |
| StudyTimetable.ExamDate | src/components/medico/study-timetable-creator.tsx:55 | The date sent is the part of the ISO text before the first `T`. |
| StudyTimetable.InputForAgent | src/components/medico/study-timetable-creator.tsx:53-57 | The agent gets the parsed subjects, the truncated date and the other fields unchanged. With no subjects entry, `split` throws. |
| StudyTimetable.NotesContent | src/components/medico/study-timetable-creator.tsx:71-81 | The saved notes open with the "Study Timetable for" heading and the exam name, and close with the timetable followed by the template's final line. |
| StudyTimetable.EntryFor | src/components/medico/study-timetable-creator.tsx:83-89 | A saved entry has type "notes", the user's id, and topic "Study Timetable: " followed by the exam name. |
| StudyTimetable.Libraries.constructor | src/components/medico/study-timetable-creator.tsx:66-95 | The libraries start empty. |
| StudyTimetable.Libraries.SaveToLibrary | src/components/medico/study-timetable-creator.tsx:66-95 | A save happens exactly with a timetable, a user and a successful write, and appends exactly that entry to the user's library. Otherwise nothing changes. |
| TopicReviewChart.TopicError | src/components/medico/comprehensive-topic-review.tsx:19-21 | A topic shorter than three characters is refused with the fixed message. |
| TopicReviewChart.NodeLine | src/components/medico/comprehensive-topic-review.tsx:101 | Two spaces, the id, `["`, the label verbatim, `"]`. |
| TopicReviewChart.EdgeLine | src/components/medico/comprehensive-topic-review.tsx:101 | Two spaces, the source, ` --> `, the target. |
| TopicReviewChart.NodeLines | src/components/medico/comprehensive-topic-review.tsx:101 | One node line per node, in node order. |
| TopicReviewChart.EdgeLines | src/components/medico/comprehensive-topic-review.tsx:101 | One edge line per edge, in edge order. |
| TopicReviewChart.Block | src/components/medico/comprehensive-topic-review.tsx:101 | A block joins to the same text as its lines, with an empty block standing for one empty line. |
| TopicReviewChart.MermaidChart | src/components/medico/comprehensive-topic-review.tsx:101 | The chart text is one `\n`-join of the node block followed by the edge block; ChartLines states how it reads back line by line. |
| TopicReviewChart.NodeLinesSingle | src/components/medico/comprehensive-topic-review.tsx:101 | Node lines of nodes whose ids and labels hold no line break hold none either. |
| TopicReviewChart.EdgeLinesSingle | src/components/medico/comprehensive-topic-review.tsx:101 | Edge lines of edges whose ends hold no line break hold none either. |
| TopicReviewChart.ChartLines | src/components/medico/comprehensive-topic-review.tsx:101 | Read line by line, the chart is the node block then the edge block. When both lists are non-empty it is exactly one line per node followed by one line per edge. |
| SmartDictation.AccumulateTranscript | src/components/pro/smart-dictation.tsx:36-41 | The loop concatenates the results from `resultIndex` to the end, and gives nothing when the index is past the end. |
| SmartDictation.DictationPad.constructor | src/components/pro/smart-dictation.tsx:19-23 | The pad starts idle, with an empty transcript, no note, the general template and no recogniser calls. |
| SmartDictation.DictationPad.ToggleRecording | src/components/pro/smart-dictation.tsx:58-73 | Without a recogniser nothing changes. While recording, it stops. While idle, it clears the transcript and note and starts. |
| SmartDictation.DictationPad.OnResult | src/components/pro/smart-dictation.tsx:36-42 | The transcript becomes the accumulated results; nothing else changes. |
| SmartDictation.DictationPad.OnErrorOrEnd | src/components/pro/smart-dictation.tsx:43-50 | Recording stops; nothing else changes. |
| SmartDictation.DictationPad.SetTranscript | src/components/pro/smart-dictation.tsx:123 | Typed or edited text replaces the transcript; recording, processing, the template, the note and the calls are unchanged. |
| SmartDictation.DictationPad.SelectTemplate | src/components/pro/smart-dictation.tsx:131 | Sets the template only. |
| SmartDictation.DictationPad.BeginStructure | src/components/pro/smart-dictation.tsx:75-82 | Refused, with no change, exactly when the trimmed transcript is empty. Otherwise processing starts with the transcript and template as the request. |
| SmartDictation.DictationPad.CompleteStructure | src/components/pro/smart-dictation.tsx:82-90 | A success shows the structured note, a failure keeps the old one, and processing ends either way. |
| SmartDictation.ToggleTwice | src/components/pro/smart-dictation.tsx:58-73 | With a recogniser, two toggles restore the recording state after a stop and a start, in the right order. |
| SymptomAnalysisMode.ConfidenceColor | src/components/homepage/symptom-analysis-mode.tsx:14-21 | High, Medium and Low each get their own class, and exactly everything else gets the muted class. |
| SymptomAnalysisMode.SymptomPanel.constructor | src/components/homepage/symptom-analysis-mode.tsx:24-26 | The panel starts with no result, no error and nothing loading. |
| SymptomAnalysisMode.SymptomPanel.BeginAnalysisComplete | src/components/homepage/symptom-analysis-mode.tsx:29-54 | An error is shown with the result cleared, loading off and no call. With raw input, loading starts, error and result are cleared and the call is made. Otherwise the given result is stored, with no error and loading off. |
| SymptomAnalysisMode.SymptomPanel.CompleteAnalysis | src/components/homepage/symptom-analysis-mode.tsx:42-49 | The analysis or the error message is stored, and loading ends. |
| SymptomAnalysisMode.AnalyseRawInput | src/components/homepage/symptom-analysis-mode.tsx:37-49 | A successful raw-input analysis is then shown; a failed one is not. |
| EducationalSupportMode.Click | src/components/homepage/educational-support-mode.tsx:51-54 | A click on an unanswered quiz records the option and answers it; once answered, clicks change nothing. |
| EducationalSupportMode.FirstClickDecides | src/components/homepage/educational-support-mode.tsx:109-112 | After any clicks, the answer is the first option clicked. |
| EducationalSupportMode.AnsweredStays | src/components/homepage/educational-support-mode.tsx:111-112 | An answered quiz never changes. |
| EducationalSupportMode.CorrectIffFirstClick | src/components/homepage/educational-support-mode.tsx:119-121 | After one or more clicks on the fresh quiz it is answered, and the feedback says "correct" exactly when the first option clicked was "ECG". |
| EducationalSupportMode.EducationalPanel.constructor | src/components/homepage/educational-support-mode.tsx:38-43 | The panel starts with no result, no error, nothing loading and an unanswered quiz. |
| EducationalSupportMode.EducationalPanel.RetrievalComplete | src/components/homepage/educational-support-mode.tsx:45-49 | Stores the result, sets the error to `err` or none, and ends loading. |
| EducationalSupportMode.EducationalPanel.ClickOption | src/components/homepage/educational-support-mode.tsx:51-54 | The quiz takes the click; an answered quiz leaves the panel unchanged. |
| EducationalSupportMode.SearchShowsResults | src/components/homepage/educational-support-mode.tsx:45-49 | A completed search with results and no error is shown. |
| ServiceWorker.Worker.constructor | src/app/public/sw.js:1-13 | The worker starts with the browser's caches, no network requests, and not yet installed. |
| ServiceWorker.Worker.Install | src/app/public/sw.js:15-24 | The named cache exists afterwards. The worker is installed exactly when `addAll` succeeds, and then every precached URL is a hit. A failed `addAll` leaves the cache's contents as they were and the worker uninstalled. Other caches are untouched. |
| ServiceWorker.Worker.Fetch | src/app/public/sw.js:26-37 | Runs only on an installed worker. A hit is answered from the cache with no network request. A miss goes to the network exactly once, and a rejected `fetch` is a network error. |
| ServiceWorker.Worker.Activate | src/app/public/sw.js:39-52 | Runs only on an installed worker. Deletes exactly the caches outside the whitelist, keeps the rest unchanged, and never deletes the current cache. |
| ServiceWorker.ActivateTwice | src/app/public/sw.js:39-52 | After one activation only the current cache can remain, so a second activation deletes nothing. |
| ServiceWorker.InstallThenFetch | src/app/public/sw.js:15-37 | A failed install leaves no worker to answer requests. After a successful one, every precached URL is served from the cache with no network request, even with the network down. |

## Left out

- Rendering, styling and animation (JSX, framer-motion, skeletons, toasts, icons): presentation only. Toasts are side effects with no state.
- Prompt text and what the hosted models return. Every model, MedGemma, image, sub-agent, retriever and `fetch` call is an input `Result` or a function from its request to a `Result`.
- Message ids and timestamps (`Date.now()`, `new Date()`): clocks are left out, so messages are compared without them.
- Speech synthesis, and the microphone-permission branch and `isListening` flag of the chat's `toggleListening`: browser APIs, kept only as events such as `VoiceResult` and `OnResult`.
- The chat's `handleScroll` pixel arithmetic: floating point.
- `encodeURIComponent` and `toISOString`: opaque. The link takes the encoder as a parameter and the date takes the ISO text as input.
- Zod, Pydantic and react-query validation: the schema check is the `validate` parameter. The three-character topic rule is modelled only as `TopicReviewChart.TopicError`.
- Firestore writes: modelled only as the `writeOk` outcome of `StudyTimetable.Libraries.SaveToLibrary`.
- The request objects given to the service worker's `caches.match`: modelled as URL strings.
- Cache contents: a cache is modelled as the set of URLs it holds, not their responses.
- The real `Promise` concurrency of `Promise.allSettled`: only the settled outcomes matter.
- Single-call agent wrappers, the `/api/chat` route, back-end endpoints, vector-store indexing, Algolia search and the evaluation harnesses: I/O plumbing with no logic of their own.
- `Strings.Trim`: white space is the ECMAScript white-space and line-terminator characters listed in `strings.dfy`. Other Unicode space separators are left out.
- Text length: a Dafny `char` is a Unicode code point, while JavaScript's `length` and `substring` count UTF-16 code units. A character outside the Basic Multilingual Plane (an emoji, say) is one `char` in the model and two units in the source. The model's lengths agree with the source only on text inside that plane.
- TopicReviewChart.TopicError, VideoSummarizerAgent.Excerpt, VideoSummarizerAgent.VideoSummarizerFlow: lengths are counted in code points, not UTF-16 units. So for text outside the Basic Multilingual Plane, the model can refuse a topic that zod's `min(3)` accepts, and can treat as short a transcript that the source sends to the model. The excerpt also never splits a surrogate pair, which `substring(0, 30000)` can.
- ClinicalDashboard.SortByPosition: states sorted and a permutation, but not stability of `Array.prototype.sort`. This makes no difference for the four widgets, whose positions are distinct.
- ChatInterface.ChatSession.VoiceResult: does not capture the stale `inputValue` that the recognition callback's closure sees, because the model has no closures.
- SettledMbbsStudyAgent.GenerateStudyNotes: wraps the corrected `SettledMbbsStudyFlow`, not the flow as written (see Findings). With good text and null image media, the source's `generateStudyNotes` rejects with the TypeError where the model returns the notes.
- MbbsStudyAgent.MbbsStudyFlow: the prompt fields `year`, `examType` and `marks` only shape prompt text and are left out of `StudyInput`.

## Findings

| source | as written | input that shows it | evidently intended | confidence | as-written member | corrected member |
|---|---|---|---|---|---|---|
| usr/src/app/src/ai/agents/medico/MbbsStudyAgent.ts:115 | `imageResult.value.url` is read outside any inner `catch`. A fulfilled image call with `media` null throws a TypeError, and the outer handler fails the whole flow. | Text generation succeeds and the image call resolves with `media` null. | The comments at lines 110 and 119 say the text decides success and the flow proceeds without a diagram. The text output should be returned unchanged. | medium, not executed | SettledMbbsStudyAgent.SettledFlowAsWritten (shown by SettledMbbsStudyAgent.NullMediaFailsAsWritten) | SettledMbbsStudyAgent.SettledMbbsStudyFlow |
