# CareerCompass front end: a Dafny model of its state handlers

CareerCompass is a Next.js front end for a career-guidance service. Most of
its files are view trees or HTTP forwarders. Its logic sits in the state
handlers and display expressions of its React components:

- two onboarding forms;
- an exam search;
- two navigation bars;
- a microphone picker;
- a voice-assistant screen;
- three chat surfaces;
- a chat-style aptitude test;
- the Firebase authentication provider;
- a dashboard.

This project models those handlers and proves what they promise. It has one
Dafny module per component, plus a few shared modules:

- `Wrappers`: optional values.
- `Text`: the JavaScript string operations the components call. These are
  `trim`, `includes`, `split`/`join`, the case mappings and decimal printing.
- `Lists`: sub-lists, duplicate-freedom and remove-by-index.
- `Upload`: the PDF check both onboarding forms share.
- `NavScroll`: the scroll handler both navigation bars share.
- `Values`: JavaScript values and their truthiness.
- `Chat`: the message type and the outcome of `/api/chat`.

A component whose handlers update React state becomes a `class`. Its fields
are the `useState` variables, and each handler becomes a `method`. Its
`ensures` gives the whole new state in terms of the old one, usually through
a pure function. The lemmas about that function carry the properties: list
invariants, round trips, idempotence, and which inputs leave the state alone.

A call to `fetch`, Firebase, `localStorage` or `navigator.mediaDevices`
becomes a parameter that carries its outcome:

- an ok answer with its payload;
- a non-ok status;
- a thrown exception.

A handler that awaits a request is modelled as running to completion with no
other handler in between. The chat page also splits its send at the `await`.

## Model

| member | source | states |
|---|---|---|
| Text.Trim | components/chat-ui.tsx:49 | `String.prototype.trim`: the result is never longer than the input. It is empty exactly when the input is all ECMAScript whitespace. Otherwise it neither starts nor ends with whitespace |
| Text.TrimRemovesOnlyWhitespace | src/app/onboarding/page.tsx:51 | the trimmed text sits inside the input at the first non-whitespace position, and everything before and after it is whitespace |
| Text.TrimOfCut | src/app/onboarding/page.tsx:51 | uniqueness: whenever the input is whitespace, then an empty or trimmed `r`, then whitespace, `Trim` returns `r` |
| Text.TrimmedIsFixed | app/onboarding/page.tsx:483 | text that already neither starts nor ends with whitespace is returned unchanged |
| Text.TrimIdempotent | app/chat/page.tsx:48 | trimming twice equals trimming once |
| Text.OccursContains | app/exams/page.tsx:71 | an occurrence of the needle at any offset makes `includes` true |
| Text.ContainsIff | app/exams/page.tsx:71-73 | `includes` holds exactly when the needle occurs at some offset |
| Text.ContainsEmpty | app/exams/page.tsx:70-74 | every string includes the empty string |
| Text.Contains | app/exams/page.tsx:71 | `String.prototype.includes`, defined by scanning for the needle as a prefix of each suffix; `ContainsIff` ties it to an occurrence at some offset |
| Text.ToLower | app/exams/page.tsx:71 | `toLowerCase` maps each character and keeps the length (ASCII letters only) |
| Text.ToUpper | components/MicrophoneSelector.tsx:67 | `toUpperCase` maps each character and keeps the length (ASCII letters only) |
| Text.LowerOfUpper | app/exams/page.tsx:71-73 | lower-casing after upper-casing equals lower-casing alone, for the ASCII case mapping of this model (see Left out) |
| Text.LowerIdempotent | app/exams/page.tsx:71 | lower-casing twice equals lower-casing once |
| Text.UpperIdempotent | components/MicrophoneSelector.tsx:67 | upper-casing twice equals upper-casing once |
| Text.IndexOf | src/app/onboarding/page.tsx:132 | the first position of the character, or -1 exactly when the character is absent; no earlier position holds it |
| Text.Split | src/app/onboarding/page.tsx:132-133 | `split` with a one-character separator never returns an empty list |
| Text.SplitPiecesAvoidSep | src/app/onboarding/page.tsx:132-133 | no piece of a split contains the separator |
| Text.JoinSplit | src/app/onboarding/page.tsx:133 | `join(sep)` after `split(sep)` gives back the string |
| Text.SplitFirst | src/app/onboarding/page.tsx:132-133 | without a separator the split is the whole string; otherwise the first piece is the text before the first separator and the other pieces join back to the text after it |
| Text.Join | src/app/onboarding/page.tsx:133 | `Array.prototype.join(sep)`: the pieces with one separator between neighbours; `JoinSplit` makes it the inverse of `Split` |
| Text.FirstWord | app/dashboard/page.tsx:23 | `split(" ")[0]` is a prefix without a space that ends at the string's end or at its first space |
| Text.FirstWordIsFirstPiece | app/dashboard/page.tsx:23 | `FirstWord` is the first piece of splitting at spaces |
| Text.CharAt0 | src/components/navbar.tsx:95 | `charAt(0)`: "" for "", otherwise the first character alone |
| Text.NatToString | contexts/auth-context.tsx:103 | decimal printing of a natural number: at least one digit, all digits, and a leading '0' only for zero |
| Text.NatToStringValue | contexts/auth-context.tsx:103 | the printed digits denote the number printed |
| Lists.RemoveIndexMeaning | src/app/onboarding/page.tsx:61-66 | `filter((_, i) => i !== index)` drops exactly position `index` and keeps the rest in order; an index outside the list changes nothing |
| Lists.RemoveKeepsDistinct | src/app/onboarding/page.tsx:64 | removing by index keeps a duplicate-free list duplicate-free |
| Lists.RemoveIndex | src/app/onboarding/page.tsx:64 | `filter((_, i) => i !== index)`, defined position by position; `RemoveIndexMeaning` states what it keeps |
| Upload.AfterDrop | src/app/onboarding/page.tsx:85-92 | a drop changes the uploaded file only to the first dropped file, and only when it is a PDF, so "nothing or a PDF" is preserved |
| Upload.AfterSelect | src/app/onboarding/page.tsx:94-99 | a null file list changes nothing; otherwise the selection acts like a drop |
| Upload.AcceptsExactlyPdf | app/onboarding/page.tsx:74-88 | a PDF offered first is always taken, anything else never is, and an empty drop changes nothing |
| Upload.IsPdf | src/app/onboarding/page.tsx:89 | a file counts as a PDF exactly when its type is "application/pdf" |
| TagOnboarding.FormData.WithTags | src/app/onboarding/page.tsx:53-56 | replacing one tag list leaves the other lists and all text fields as they were |
| TagOnboarding.NewTag.WithText | src/app/onboarding/page.tsx:57 | replacing one pending text leaves the other two as they were |
| TagOnboarding.AddTag | src/app/onboarding/page.tsx:50-59 | `handleTagAdd` on one list: append the trimmed text and clear the box when it is non-empty and new, otherwise keep both; `AddTagMeaning` and `AddTagRejects` state this |
| TagOnboarding.AddTagMeaning | src/app/onboarding/page.tsx:50-59 | an add grows the list by at most the trimmed text, which must be non-empty and new; the pending text is cleared when the list grew and kept otherwise |
| TagOnboarding.AddTagRejects | src/app/onboarding/page.tsx:52 | blank text, or a value already in the list, changes neither the list nor the pending text |
| TagOnboarding.AddTagKeepsDistinct | src/app/onboarding/page.tsx:52 | adding keeps a duplicate-free list duplicate-free |
| TagOnboarding.FormValid | src/app/onboarding/page.tsx:163-164 | `isFormValid`: a file on the upload tab; a non-empty name, email and dream job on the manual tab |
| TagOnboarding.SubmitRoute | src/app/onboarding/page.tsx:104 | the PDF path exactly for the upload tab with a file, otherwise the manual profile |
| TagOnboarding.ValidFormRoute | src/app/onboarding/page.tsx:163-164 | on the upload tab a valid form always takes the PDF path; the manual path always has a name, email and dream job |
| TagOnboarding.FirstName | src/app/onboarding/page.tsx:132 | `name.split(" ")[0]`, the first piece of the name |
| TagOnboarding.LastName | src/app/onboarding/page.tsx:133 | `name.split(" ").slice(1).join(" ")`, the pieces after the first joined again; `NameSplit` relates the two |
| TagOnboarding.NameSplit | src/app/onboarding/page.tsx:132-133 | the first name has no space. With a space in the name, first + " " + last rebuilds the name. Without one, the first name is the whole name and the last name is "" |
| TagOnboarding.OnboardingForm.constructor | src/app/onboarding/page.tsx:19-41 | the initial state: upload tab, no file, empty lists and texts, name and email from the user |
| TagOnboarding.OnboardingForm.SelectTab | src/app/onboarding/page.tsx:195 | only the tab changes |
| TagOnboarding.OnboardingForm.SetPending | src/app/onboarding/page.tsx:344 | only that field's pending text changes |
| TagOnboarding.OnboardingForm.HandleTagAdd | src/app/onboarding/page.tsx:50-59 | the field's list and pending text become `AddTag` of the old ones, nothing else changes, and every list stays duplicate-free |
| TagOnboarding.OnboardingForm.HandleTagRemove | src/app/onboarding/page.tsx:61-66 | the field's list becomes `RemoveIndex` of the old one; nothing else changes |
| TagOnboarding.OnboardingForm.HandleTagKeyPress | src/app/onboarding/page.tsx:68-73 | Enter acts as `HandleTagAdd`; any other key changes nothing |
| TagOnboarding.OnboardingForm.HandleDragOver | src/app/onboarding/page.tsx:75-78 | sets the drag-over flag |
| TagOnboarding.OnboardingForm.HandleDragLeave | src/app/onboarding/page.tsx:80-83 | clears the drag-over flag |
| TagOnboarding.OnboardingForm.HandleDrop | src/app/onboarding/page.tsx:85-92 | clears the drag-over flag and updates the file as `Upload.AfterDrop` |
| TagOnboarding.OnboardingForm.HandleFileSelect | src/app/onboarding/page.tsx:94-99 | updates the file as `Upload.AfterSelect` |
| TagOnboarding.OnboardingForm.ClearUpload | src/app/onboarding/page.tsx:236 | the remove button empties the upload |
| TagOnboarding.OnboardingForm.IsFormValid | src/app/onboarding/page.tsx:414 | the submit button's validity is `FormValid` of the current tab, file and form |
| StudentOnboarding.AddSubject | app/onboarding/page.tsx:478-503 | non-blank text appends exactly its trimmed form (duplicates allowed) and clears the input; blank text changes neither |
| StudentOnboarding.AddKeepsTrimmed | app/onboarding/page.tsx:483 | adding keeps every subject non-empty and trimmed |
| StudentOnboarding.RemoveKeepsTrimmed | app/onboarding/page.tsx:462-464 | removing keeps every subject non-empty and trimmed |
| StudentOnboarding.AddTest | app/onboarding/page.tsx:554 | one blank row is appended and the existing rows are untouched |
| StudentOnboarding.EditTest | app/onboarding/page.tsx:522-542 | editing a row changes only that field of that row |
| StudentOnboarding.FormValid | app/onboarding/page.tsx:183-190 | `isFormValid`: a file on the upload tab; non-empty name, email, phone, date of birth and location on the manual tab |
| StudentOnboarding.ManualValidNeedsFive | app/onboarding/page.tsx:183-190 | the manual tab needs name, email, phone, date of birth and location: clearing any one invalidates the form, and education and test data never matter. The upload tab needs only a file |
| StudentOnboarding.StudentForm.constructor | app/onboarding/page.tsx:28-54 | the initial state, with name and email from the user |
| StudentOnboarding.StudentForm.SelectTab | app/onboarding/page.tsx:225 | only the tab changes |
| StudentOnboarding.StudentForm.SetNewSubject | app/onboarding/page.tsx:475 | only the pending subject changes |
| StudentOnboarding.StudentForm.AddSubjectIfPresent | app/onboarding/page.tsx:478-486 | the subjects and pending text become `AddSubject` of the old ones, and no other field changes |
| StudentOnboarding.StudentForm.SubjectKeyDown | app/onboarding/page.tsx:477-488 | Enter adds as above; any other key changes nothing |
| StudentOnboarding.StudentForm.SubjectButtonClick | app/onboarding/page.tsx:494-505 | the "+" button adds as above |
| StudentOnboarding.StudentForm.RemoveSubject | app/onboarding/page.tsx:456-466 | the subjects become `RemoveIndex` of the old ones; nothing else changes |
| StudentOnboarding.StudentForm.AddTestRow | app/onboarding/page.tsx:549-557 | the rows become `AddTest` of the old ones |
| StudentOnboarding.StudentForm.EditTestRow | app/onboarding/page.tsx:522-542 | the rows become `EditTest` of the old ones |
| StudentOnboarding.StudentForm.HandleDragOver | app/onboarding/page.tsx:64-67 | sets the drag-over flag |
| StudentOnboarding.StudentForm.HandleDragLeave | app/onboarding/page.tsx:69-72 | clears the drag-over flag |
| StudentOnboarding.StudentForm.HandleDrop | app/onboarding/page.tsx:74-81 | clears the drag-over flag and updates the file as `Upload.AfterDrop` |
| StudentOnboarding.StudentForm.HandleFileSelect | app/onboarding/page.tsx:83-88 | updates the file as `Upload.AfterSelect` |
| StudentOnboarding.StudentForm.ClearUpload | app/onboarding/page.tsx:268 | empties the upload |
| StudentOnboarding.StudentForm.IsFormValid | app/onboarding/page.tsx:568 | the submit button's validity is `FormValid` of the current tab, file and form |
| ExamSearch.Matches | app/exams/page.tsx:70-74 | the lower-cased term occurs in the lower-cased name, eligibility or description |
| ExamSearch.Filter | app/exams/page.tsx:68-75 | the result is an order-preserving sub-list of the exams holding only matching exams, and every exam occurs in it exactly as often as in the catalogue when it matches and never otherwise |
| ExamSearch.EmptyTermKeepsAll | app/exams/page.tsx:70-74 | an empty term keeps every exam |
| ExamSearch.SameLowerSameResult | app/exams/page.tsx:71-73 | two terms with the same lower-case form filter alike |
| ExamSearch.CaseInsensitive | app/exams/page.tsx:71-73 | a term typed in capitals gives the same result, for the ASCII case mapping of this model (see Left out) |
| ExamSearch.FilterIdempotent | app/exams/page.tsx:69-75 | filtering the filtered list again changes nothing |
| ExamSearch.EmptyHint | app/exams/page.tsx:165-169 | a hint appears exactly when nothing is shown; it is "Try adjusting your search terms" exactly when a term was typed |
| ExamSearch.HintBlamesSearch | app/exams/page.tsx:165-169 | over a non-empty catalogue, an empty result always blames the search |
| NavScroll.OnScroll | components/navbar.tsx:26-42 | the position is remembered; scrolled iff the position is past 50; hidden iff it moved down and is past 100, so never at or above 100 px or while scrolling up, and only when scrolled |
| NavScroll.LastTwoDecide | components/navbar.tsx:30-41 | after two or more events: scrolled iff the last position is past 50; hidden iff it moved down and is past 100; the last position is stored |
| NavScroll.FirstEvent | src/components/navbar.tsx:24-33 | from the top of the page, one event hides the bar iff it lands past 100 and sets scrolled iff past 50 |
| Navbar.BearerHeader | components/navbar.tsx:63 | the header is "Bearer " followed by the token |
| Navbar.HasToken | components/navbar.tsx:56 | `!token` is false exactly for a stored, non-empty token |
| Navbar.CheckAuth | components/navbar.tsx:53-80 | a request is made iff a non-empty token is stored. Without one, nothing changes. With one, an ok answer keeps the token and sets the user to the body, while a non-ok answer or an exception drops the token and keeps the user |
| Navbar.NoTokenNoRequest | components/navbar.tsx:55-58 | a missing or empty token contacts nothing and leaves the user as it was |
| Navbar.NavbarState.constructor | components/navbar.tsx:16-23 | closed, no user, loading, the initial scroll state and the stored token |
| Navbar.NavbarState.HandleScroll | components/navbar.tsx:26-42 | the scroll fields become `OnScroll` of the old ones |
| Navbar.NavbarState.CheckAuthStatus | components/navbar.tsx:53-80 | token, user and request become `CheckAuth` of the old state; loading ends whatever happens |
| Navbar.NavbarState.HandleLogout | components/navbar.tsx:82-98 | the request carries the stored token; whether it fails or not, the token and the user end up gone |
| Navbar.NavbarState.ToggleMenu | components/navbar.tsx:170 | flips the menu |
| ProfileNavbar.InitialOf | src/components/navbar.tsx:95 | `s?.charAt(0)`: "" for a missing or empty string, otherwise its first character |
| ProfileNavbar.AvatarInitial | src/components/navbar.tsx:95 | one character: the first of a non-empty display name, else of a non-empty email, else "U" (and "U" only then or when that first character is 'U') |
| ProfileNavbar.ShownLabel | src/components/navbar.tsx:98 | the display name when it is non-empty; otherwise the email as it is, possibly missing |
| ProfileNavbar.InitialIsFirstOfLabel | src/components/navbar.tsx:95-98 | whenever the label is non-empty, the initial is its first character |
| ProfileNavbar.ProfileNavbarState.constructor | src/components/navbar.tsx:11-17 | closed, with the initial scroll state |
| ProfileNavbar.ProfileNavbarState.HandleScroll | src/components/navbar.tsx:20-36 | the scroll fields become `OnScroll` of the old ones |
| ProfileNavbar.ProfileNavbarState.HandleLogout | src/components/navbar.tsx:42-48 | whether or not `logout()` rejects, the handler completes with `Done`, never `Rejected`; an error is logged exactly when the logout rejects; the menu and scroll state are unchanged |
| ProfileNavbar.ProfileNavbarState.ToggleMenu | src/components/navbar.tsx:127 | flips the menu |
| ProfileNavbar.ProfileNavbarState.CloseMenu | src/components/navbar.tsx:146 | a mobile-menu link closes the menu |
| Microphone.AudioInputs | components/MicrophoneSelector.tsx:25 | the listed devices are an order-preserving sub-list of all devices, all audio inputs, and each audio input occurs as often as in the full list |
| Microphone.FirstWithId | components/MicrophoneSelector.tsx:29 | the first position with the id, or -1 exactly when no device has it |
| Microphone.DefaultDevice | components/MicrophoneSelector.tsx:29-33 | nothing exactly for no inputs; the first device with id "default" when one exists; otherwise the first input |
| Microphone.MarksPrimary | components/MicrophoneSelector.tsx:66 | the lower-cased label contains "default" or "communication" |
| Microphone.FormatDeviceName | components/MicrophoneSelector.tsx:59-71 | "Unknown Device" for an empty label; the label in capitals when it contains "default" or "communication" in any case; otherwise the label |
| Microphone.FormatKeepsLetters | components/MicrophoneSelector.tsx:63-70 | a labelled device keeps its length, and its letters up to case, for the ASCII case mapping of this model (see Left out) |
| Microphone.FormatIdempotent | components/MicrophoneSelector.tsx:59-71 | formatting a formatted label changes nothing |
| Microphone.IsDeviceAvailable | components/MicrophoneSelector.tsx:73-76 | `isDeviceAvailable`: a non-empty label and an id other than "default" and "communications" |
| Microphone.DefaultAliasNotPickable | components/MicrophoneSelector.tsx:29-76 | when a "default" alias exists, the pre-selected device is that alias, and it is one the list refuses to select |
| Microphone.CurrentLabel | components/MicrophoneSelector.tsx:101 | never empty: the device label, "Default Microphone" for an unlabelled device, "Default - Microphone" for none |
| Microphone.MicrophoneSelectorState.constructor | components/MicrophoneSelector.tsx:13-15 | no devices and no selection |
| Microphone.MicrophoneSelectorState.LoadDevices | components/MicrophoneSelector.tsx:17-42 | when open and granted, the devices become `AudioInputs`, and `DefaultDevice`, if any, is selected and current; when closed or failed, nothing changes |
| Microphone.MicrophoneSelectorState.HandleDeviceSelect | components/MicrophoneSelector.tsx:44-57 | the device becomes selected and current, and the picker asks to close |
| Microphone.MicrophoneSelectorState.ClickDevice | components/MicrophoneSelector.tsx:118 | an available device is selected as above; clicking an unavailable one changes nothing and does not close |
| Microphone.MicrophoneSelectorState.IsSelected | components/MicrophoneSelector.tsx:111 | a row is marked selected exactly when its id is the selected id |
| Assistant.StatusText | app/assistant/page.tsx:400-415 | `getStatusText`: one fixed line per known state, two for listening by the sign of the level, and "Ready to listen" for any other state |
| Assistant.SubtitleText | app/assistant/page.tsx:417-432 | `getSubtitleText`: one fixed subtitle per known state and "Start speaking to begin" for any other |
| Assistant.StatusTextUsesLevelSign | app/assistant/page.tsx:400-415 | the audio level matters only while listening, and there only through its sign |
| Assistant.StatusTextIdentifiesState | app/assistant/page.tsx:400-415 | different known states give different status lines |
| Assistant.SubtitleIdentifiesState | app/assistant/page.tsx:417-432 | different known states give different subtitles |
| Assistant.IndicatorConfig | app/assistant/page.tsx:283-326 | `getStatusConfig`: the colour classes, icon and label of each state, with "Ready" in grey for any other state |
| Assistant.IndicatorUsesOneHue | app/assistant/page.tsx:283-326 | text, background and border of the indicator use one colour family, in shades 600, 50 and 200 |
| Assistant.UnknownStateIsIdle | app/assistant/page.tsx:317-324 | an unrecognised state shows "Ready to listen", "Start speaking to begin" and the "Ready" indicator |
| Assistant.Flags | app/assistant/page.tsx:256-258 | recording iff listening, playing iff speaking, processing iff thinking |
| Assistant.AtMostOneFlag | app/assistant/page.tsx:256-258 | at most one of the three flags is set |
| Assistant.ClickConnects | app/assistant/page.tsx:200-204 | the visualizer click connects only in the disconnected state |
| Assistant.ShowsIndicator | app/assistant/page.tsx:211 | the indicator is shown in every state but the disconnected one, connecting included |
| Assistant.ShowsControls | app/assistant/page.tsx:364 | the Settings and Disconnect buttons are shown outside the disconnected and connecting states |
| Assistant.OneWayForward | app/assistant/page.tsx:200-364 | the click connects exactly when the indicator is hidden; the Settings and Disconnect controls appear only once connected; while connecting, neither is offered |
| Assistant.Active | app/assistant/page.tsx:177 | the audio simulation runs exactly while listening or speaking |
| Assistant.AudioAfterStateChange | app/assistant/page.tsx:174-193 | outside listening and speaking, the level is 0 and there are 128 zero bins |
| Assistant.IdleThenListeningAsksLouder | app/assistant/page.tsx:177-193 | after an idle state, the first listening line asks the user to speak louder |
| Chat.ReplyMessage | app/chat/page.tsx:68-90 | an ok reply becomes a bot message with its text; anything else becomes the apology |
| ChatUi.Submission | components/chat-ui.tsx:49-50 | something is sent iff the input is not all whitespace and nothing is loading; what is sent is the non-empty trimmed input |
| ChatUi.SendDisabled | components/chat-ui.tsx:156 | the send button is disabled when the trimmed input is empty or a reply is pending |
| ChatUi.ButtonMatchesSubmit | components/chat-ui.tsx:156 | the send button is enabled exactly when a submit would send |
| ChatUi.SubmittedIsTrimmed | components/chat-ui.tsx:50 | the sent text has nothing left to trim |
| ChatUi.PaddingIgnored | components/chat-ui.tsx:49-50 | spaces around the input change neither whether nor what is sent |
| ChatUi.PaddedTrim | components/chat-ui.tsx:50 | a space on each side is trimmed away |
| ChatUi.ChatInput.constructor | components/chat-ui.tsx:47 | the box starts empty |
| ChatUi.ChatInput.SetInput | components/chat-ui.tsx:47 | typing sets the box |
| ChatUi.ChatInput.HandleSubmit | components/chat-ui.tsx:47-53 | forwards `Submission` of the box; the box is cleared after a forward and kept otherwise |
| ChatUi.ChatInput.HandleKeyPress | components/chat-ui.tsx:55-60 | Enter without Shift submits; Shift+Enter and other keys forward nothing and keep the box |
| ChatPage.UserCountHalf | app/chat/page.tsx:19-93 | in a well-formed conversation, the user messages are half of all messages, rounded down |
| ChatPage.AppendUser | app/chat/page.tsx:46-53 | appending a trimmed user message to a conversation that awaits one keeps it well-formed |
| ChatPage.AppendBot | app/chat/page.tsx:74-90 | appending a bot message after a user message keeps it well-formed |
| ChatPage.ChatPageState.constructor | app/chat/page.tsx:19-29 | the conversation is the greeting alone, the input is empty, nothing is loading |
| ChatPage.ChatPageState.SetInput | app/chat/page.tsx:28 | typing sets the input |
| ChatPage.ChatPageState.BeginSend | app/chat/page.tsx:43-55 | blank input, or a pending reply, changes nothing and sends nothing. Otherwise the trimmed input is sent and appended as a user message, the input is cleared and loading starts |
| ChatPage.ChatPageState.FinishSend | app/chat/page.tsx:68-93 | exactly one bot message, the reply or the apology, is appended, and loading ends |
| ChatPage.ChatPageState.HandleSendMessage | app/chat/page.tsx:43-94 | a whole send appends the user message and then exactly one reply, or changes nothing; earlier messages are kept in order |
| ChatPage.ChatPageState.HandleKeyPress | app/chat/page.tsx:96-101 | Enter without Shift sends as `HandleSendMessage`: an accepted send appends the user message and one reply, clears the input and ends loading; a refused one changes neither messages, input nor loading. Other keys change nothing |
| ChatbotWidget.WithWelcome | components/chatbot-widget.tsx:17-29 | the welcome message is inserted only into an empty list of an open widget |
| ChatbotWidget.WelcomeAtMostOnce | components/chatbot-widget.tsx:19 | running the welcome effect again changes nothing, and it adds at most one message |
| ChatbotWidget.ChatbotWidgetState.constructor | components/chatbot-widget.tsx:11-15 | closed, not minimised, no messages, not loading, blinking |
| ChatbotWidget.ChatbotWidgetState.RunEffects | components/chatbot-widget.tsx:17-36 | the welcome effect and the blink effect: an open widget gets its welcome and stops blinking |
| ChatbotWidget.ChatbotWidgetState.ToggleChat | components/chatbot-widget.tsx:90-94 | flips open, un-minimises, stops blinking |
| ChatbotWidget.ChatbotWidgetState.MinimizeChat | components/chatbot-widget.tsx:96-98 | sets only the minimised flag |
| ChatbotWidget.ChatbotWidgetState.CloseChat | components/chatbot-widget.tsx:100-103 | closes and un-minimises; nothing else changes |
| ChatbotWidget.ChatbotWidgetState.HandleSendMessage | components/chatbot-widget.tsx:38-88 | appends the user message, then exactly one reply or the error message; loading ends |
| ChatbotWidget.BlinkStaysOff | components/chatbot-widget.tsx:15-94 | once blinking has stopped, no handler (toggle, minimise, close or send) restarts it |
| AptitudeTest.BotCount | app/aptitude-test/page.tsx:109 | the bot-message count is at most the number of messages; it is 0 exactly when no message is from the bot, and all of them exactly when every message is |
| AptitudeTest.MockQuestionAt | app/aptitude-test/page.tsx:113 | `mockQuestions[i]`: a question exactly for an index inside the list |
| AptitudeTest.FallbackStep | app/aptitude-test/page.tsx:109-128 | the index is the bot count minus one. Below five, that mock question is asked at (index + 1) * 10 percent. Otherwise the test ends |
| AptitudeTest.FallbackProgressBounded | app/aptitude-test/page.tsx:118 | the fallback reports between 0 and 50 percent |
| AptitudeTest.FallbackAsksInOrder | app/aptitude-test/page.tsx:109-118 | with the welcome and k questions seen, the fallback asks mock question k at (k + 1) * 10 percent |
| AptitudeTest.StaleInitSkipsFirstQuestion | app/aptitude-test/page.tsx:40-109 | as written, the first fallback sees no messages. It posts an empty bubble at 0 percent, and the next fetch asks the second mock question, so the first is never asked |
| AptitudeTest.FreshInitAsksFirstQuestion | app/aptitude-test/page.tsx:52-118 | read against the welcome list, the first fallback asks the first mock question at 10 percent |
| AptitudeTest.BubbleText | app/aptitude-test/page.tsx:113 | a bot message whose content is `undefined` shows as an empty bubble |
| AptitudeTest.UserIdAsWritten | app/aptitude-test/page.tsx:165 | `user.id` on a Firebase user, which has `uid` and no `id`: always `undefined` |
| AptitudeTest.WrittenAnswerNamesNoUser | app/aptitude-test/page.tsx:164-168 | as written, an answer body carries no user id, so the answers of two users to one question are the same request |
| AptitudeTest.IntendedUserId | app/aptitude-test/page.tsx:165 | the corrected read: the Firebase `uid` |
| AptitudeTest.IntendedAnswerNamesUser | app/aptitude-test/page.tsx:164-168 | with the `uid`, an answer body names its user, and users with different ids send different bodies |
| AptitudeTest.AfterInit | app/aptitude-test/page.tsx:43-133 | the state a signed-in user's `initializeTest` leaves for each outcome of the first request, with the first fetch reading the welcome list |
| AptitudeTest.AfterInitThrewIsFallback | app/aptitude-test/page.tsx:109-118 | after a thrown first request, `AfterInit` is exactly the mock fallback run on the welcome list |
| AptitudeTest.AptitudeTestState.constructor | app/aptitude-test/page.tsx:24-30 | no messages, no question, not loading, not completed, 0 percent |
| AptitudeTest.AptitudeTestState.FetchNextQuestion | app/aptitude-test/page.tsx:56-133 | without a user, nothing happens. Otherwise at most one bot message is appended: the completion, the question, the mock question or the thank-you. A non-ok answer appends nothing. Progress stays within 0..50, and loading ends |
| AptitudeTest.AptitudeTestState.InitializeTest | app/aptitude-test/page.tsx:43-54 | for a signed-in user the state becomes `AfterInit` of the old one: the list restarts at the welcome message plus the question, the completion text, the first mock question at 10 percent, or nothing more for a non-ok answer; `testCompleted` is set only by a completed reply, and loading ends. Without a user only the list is reset |
| AptitudeTest.AptitudeTestState.OnUserChange | app/aptitude-test/page.tsx:33-41 | no user redirects to the login page and changes no state at all; a user starts the test, leaving `AfterInit` of the old state with loading ended |
| AptitudeTest.AptitudeTestState.SubmitAnswer | app/aptitude-test/page.tsx:154-173 | an answer is sent exactly when there is a user and a current question; the body carries the user's `uid` (the corrected id, see Findings), the question id and the answer; no state changes |
| AptitudeTest.AptitudeTestState.HandleSendMessage | app/aptitude-test/page.tsx:135-152 | the answer is always appended; while the test is not completed it is submitted as in `SubmitAnswer` and the next fetch is scheduled, and otherwise nothing is sent |
| Values.Truthy | app/dashboard/page.tsx:44 | JavaScript truthiness: `undefined`, `null`, "", 0 and `false` are falsy |
| Values.Or | app/dashboard/page.tsx:44 | the `or` operator gives its left operand when that is truthy, otherwise its right one |
| Values.Get | app/dashboard/page.tsx:62 | `v?.key` is the property of an object that has it, otherwise `undefined` |
| Values.OrPicksFirstTruthy | app/dashboard/page.tsx:23-44 | chains of the `or` operator associate, and a chain is truthy iff some operand is |
| AuthContext.Merge | contexts/auth-context.tsx:152 | every patched key takes the patch's value, every other stored key keeps its value, and no other key appears |
| AuthContext.MergeIdempotent | contexts/auth-context.tsx:152 | applying the same patch twice equals applying it once |
| AuthContext.MergeCompose | contexts/auth-context.tsx:150-155 | two successive patches equal one combined patch, with the later values winning |
| AuthContext.StudentId | contexts/auth-context.tsx:103 | the id is "stu_" followed by decimal digits |
| AuthContext.StudentIdEncodesTime | contexts/auth-context.tsx:103 | the digits after "stu_" read back as the creation time |
| AuthContext.NullableStr | contexts/auth-context.tsx:105 | a missing email is stored as `null` |
| AuthContext.NewUserRecord | contexts/auth-context.tsx:101-107 | a new record has exactly uid, id, name, email and createdAt: uid equals the auth uid, the id is "stu_" and the `Date.now()` reading, and createdAt is the separate `new Date()` reading |
| AuthContext.ProviderName | contexts/auth-context.tsx:123 | `displayName ?? undefined` |
| AuthContext.UseAuth | contexts/auth-context.tsx:60-64 | outside a provider it throws the fixed message; inside one it returns the context |
| AuthContext.AuthProviderState.constructor | contexts/auth-context.tsx:71-73 | nobody signed in, no record, loading |
| AuthContext.AuthProviderState.FetchUserData | contexts/auth-context.tsx:89-96 | an existing document replaces the record; a missing document or a failed read keeps it |
| AuthContext.AuthProviderState.OnAuthStateChanged | contexts/auth-context.tsx:76-85 | the user is stored; a sign-out clears both user and record; loading always ends |
| AuthContext.AuthProviderState.SignUp | contexts/auth-context.tsx:98-110 | only when all three steps succeed does the new record become `userData`; any failure rejects with nothing changed |
| AuthContext.AuthProviderState.ProviderSignIn | contexts/auth-context.tsx:116-146 | a record is created and stored only when none exists; an existing record is left alone |
| AuthContext.AuthProviderState.UpdateUserData | contexts/auth-context.tsx:150-155 | with no user, nothing changes; after a successful write, the record is the merge of the old record and the patch |
| Dashboard.FirstWordOf | app/dashboard/page.tsx:23 | `s?.split(" ")[0]` for a string, and `undefined` otherwise |
| Dashboard.Greeting | app/dashboard/page.tsx:23 | a non-empty word without spaces: the first word of the stored name if non-empty, else of the display name, else "there" |
| Dashboard.LeadingSpaceFallsThrough | app/dashboard/page.tsx:23 | a stored name starting with a space is skipped as if there were no record |
| Dashboard.OptStr | app/dashboard/page.tsx:44 | an optional account string as a value: the string, or `undefined` when missing |
| Dashboard.FullName | app/dashboard/page.tsx:44 | the stored name, else the display name, else "Not provided" |
| Dashboard.Email | app/dashboard/page.tsx:53 | the stored email, else the account email |
| Dashboard.Phone | app/dashboard/page.tsx:62 | the stored phone, else "Not provided" |
| Dashboard.Location | app/dashboard/page.tsx:71 | the stored location, else "Not provided" |
| Dashboard.ProfileCardFilled | app/dashboard/page.tsx:44-71 | name, phone and location are never blank, falling back to "Not provided" |
| Dashboard.LengthOr0 | app/dashboard/page.tsx:97-108 | the length-or-zero fallback is the length of an array or string and 0 for anything else |
| Dashboard.SubjectCount | app/dashboard/page.tsx:97 | the length of the stored subjects, or 0 |
| Dashboard.TestCount | app/dashboard/page.tsx:108 | the length of the stored test scores, or 0 |
| Dashboard.ShowsList | app/dashboard/page.tsx:149 | `x && x.length > 0`: a truthy value with a positive length |
| Dashboard.ShowsSubjects | app/dashboard/page.tsx:149 | the subjects section is shown for a truthy list of positive length |
| Dashboard.ShowsTestScores | app/dashboard/page.tsx:169 | the test-score section is shown for a truthy list of positive length |
| Dashboard.CountsMatchSections | app/dashboard/page.tsx:97-169 | a counter is non-zero exactly when its section is shown |
| Dashboard.GraduationYear | app/dashboard/page.tsx:119 | the stored graduation year, else "TBD" |
| Dashboard.GraduationYearFallback | app/dashboard/page.tsx:119 | a missing, null or zero year shows "TBD"; any other number shows itself |
| Dashboard.Percentage | app/dashboard/page.tsx:86 | the stored percentage, else 0 |
| Dashboard.ShowsEducation | app/dashboard/page.tsx:125 | the education section is shown exactly for a truthy `currentEducation` |
| Dashboard.EducationField | app/dashboard/page.tsx:138-146 | an education field, else "Not specified" |
| Dashboard.EducationFieldsFilled | app/dashboard/page.tsx:138-146 | a missing or empty education field shows "Not specified"; a set one shows itself |
| Dashboard.ScoreText | app/dashboard/page.tsx:187 | a test score, else "N/A" |
| Dashboard.ShowsRank | app/dashboard/page.tsx:184 | the rank line is shown exactly for a truthy rank |
| Dashboard.ZeroScoreIsNA | app/dashboard/page.tsx:184-187 | a score of 0, null or missing reads "N/A"; an empty rank is hidden |

## Left out

- Network, Firebase, LiveKit, `localStorage` and `navigator.mediaDevices` are left out. Each call is a parameter carrying its outcome, and what these services do is not modelled.
- Handlers are modelled as running to completion, one at a time. React's batching of state updates and a handler that interleaves with another during an `await` are not modelled. The one exception is the chat page send, which is split at its `await`.
- Message ids, timestamps (`Date.now`, `new Date()`), scroll-into-view and input-focus effects, animations and CSS classes are left out. The exceptions are the two clock reads of a new user record, `Date.now()` inside the student id and `new Date()` for `createdAt`, which are parameters.
- `handleSubmit` of both onboarding pages is left out apart from the name split, the route choice and the validity rule. Its FormData/JSON building, the requests, `updateUserData` forwarding and the navigation are network plumbing.
- The number parsing in app/onboarding/page.tsx (`parseFloat`/`parseInt` with `|| null`) follows JavaScript float-parsing rules and is not modelled.
- `handleInputChange` of both onboarding pages, which sets one text field by input name, is not modelled.
- StudentOnboarding.StudentForm.EditTestRow: models the row edit as a value update. The source copies the array shallowly and assigns into the shared row object, which is aliasing of the old state that the model does not capture.
- Text.ToLower and Text.ToUpper: map the ASCII letters only; Unicode case mapping has no model here.
- Text.LowerOfUpper: holds for the ASCII case mapping only. Under JavaScript's full mapping it fails: "ß" upper-cases to "SS", which lower-cases to "ss".
- ExamSearch.CaseInsensitive: holds for the ASCII case mapping only. In JavaScript the term "ß" finds "Straße", but its upper-case form "SS" does not.
- Microphone.FormatKeepsLetters: holds for the ASCII case mapping only. In JavaScript upper-casing can change the length, as "ß" becoming "SS" does.
- Text.CharAt0: takes the first Unicode character. JavaScript strings are UTF-16, so for a string starting with a character outside the Basic Multilingual Plane, such as an emoji, `charAt(0)` gives a lone surrogate, which this model does not represent.
- Dashboard.LengthOr0: counts a string's length in Unicode characters, where JavaScript counts UTF-16 code units; the two differ for characters outside the Basic Multilingual Plane.
- The random audio and frequency simulation of the assistant screen (`Math.random`, `Math.exp`, `setInterval`) is left out. Assistant.AudioAfterStateChange keeps the values in the simulated states.
- components/AudioVisualizer.tsx is floating-point rendering and is not part of this model.
- The `route.ts` handlers, `app/api/proxy.ts` and the login page only forward requests or wrap the provider's sign-in calls, and are not part of this model.
- The fetch of the exam catalogue in app/exams/page.tsx is left out: the exam list is an input.
- `signIn` and `logout` of the auth provider only forward to Firebase and are left out.
- AuthContext.AuthProviderState.ProviderSignIn: without a display name the new record holds `name: undefined`. Firestore's `setDoc` rejects `undefined` fields unless the client enables `ignoreUndefinedProperties`, and lib/firebase is not part of this model, so whether the write can succeed then is open. The model keeps that as the `stored` outcome parameter.
- AuthContext.AuthProviderState.ProviderSignIn: models Google and Microsoft sign-in as one method, because the two bodies are identical apart from the Firebase provider.
- Dashboard.FirstWordOf: treats a stored name that is not a string as `undefined`. In the source, `split` on a number would throw.
- ChatPage.ChatPageState.FinishSend and Chat.ReplyMessage: model the reply's `message` field as a string; a missing field, which would show an empty bubble, is not modelled.
- ChatbotWidget.ChatbotWidgetState.HandleSendMessage: appends both messages in one step, as when no other handler runs during the request.
- AptitudeTest.AptitudeTestState.HandleSendMessage: does not run the delayed `fetchNextQuestion` itself. It reports that one is scheduled, and the caller runs `FetchNextQuestion`.
- AptitudeTest.AptitudeTestState.FetchNextQuestion: the request body (`userId`, `currentProgress`) is not modelled, only the outcome of the request. Its `userId` is read as `user.id`, like the answer body's (see Findings).
- AptitudeTest.AptitudeTestState.SubmitAnswer: sends the corrected user id, the Firebase `uid`, where the source reads `user.id` and so sends none (see Findings). The as-written body appears in `WrittenAnswerNamesNoUser`.
- AptitudeTest.AptitudeTestState.HandleSendMessage: submits through `SubmitAnswer`, so it too sends the corrected `uid`.
- AptitudeTest.QuestionFetch: has no outcome for an ok answer without a `question` field. The source then clears the current question and throws reading `question.question`, so the fallback runs with no current question, whereas the model's `Threw` keeps the current question.
- AptitudeTest.AptitudeTestState.InitializeTest: models the corrected behaviour, in which the first fetch reads the welcome list (see Findings). The as-written behaviour appears in `StaleInitSkipsFirstQuestion`.

## Findings

| source | as written | input that shows it | evidently intended | confidence | as-written member | corrected member |
|---|---|---|---|---|---|---|
| app/aptitude-test/page.tsx:40-109 | `initializeTest` sets the messages to the welcome list and then awaits `fetchNextQuestion`. That function belongs to the same render, so it still reads the initial empty `messages`. In the fallback, the count of bot messages is 0 and the index -1. The page posts `mockQuestions[-1]` (undefined, an empty bubble) at 0 percent. The next fetch sees two bot messages and asks the second mock question, so the first is never asked | a signed-in user whose next-question request throws | the first fallback counts the welcome message, asks the first mock question and reports 10 percent | not executed | AptitudeTest.StaleInitSkipsFirstQuestion | AptitudeTest.FreshInitAsksFirstQuestion, AptitudeTest.AptitudeTestState.InitializeTest |
| app/aptitude-test/page.tsx:164-168 | the answer body sends `userId: user.id`. The signed-in user is a Firebase user (contexts/auth-context.tsx, `AuthUser extends User`), which has `uid` and no `id`, so `user.id` does not even type-check on `AuthUser`; at run time the value is `undefined` and `JSON.stringify` drops the key. The next-question body does the same | any signed-in user answering a question | the body carries an id of the user: the Firebase `uid`, which this model uses, or equally plausibly the record's own `id` ("stu_" and the creation time, contexts/auth-context.tsx:103) | not executed | AptitudeTest.WrittenAnswerNamesNoUser | AptitudeTest.IntendedAnswerNamesUser, AptitudeTest.AptitudeTestState.SubmitAnswer |
