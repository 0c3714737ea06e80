# Concept Booster — a Dafny model of its core logic

Concept Booster is a tutoring web app for school students. It has a React front end and three
Deno edge functions that talk to an AI gateway. This project models the pure logic of both
halves as immutable Dafny datatypes and total functions, and proves what that logic promises.

**The edge functions** (`ask-doubt`, `learn-topic`, `generate-questions`) share one pipeline:
- the CORS preflight;
- the API-key check;
- a three-key language-instruction table with an English default;
- the user message;
- the classification of the gateway status into 429, 402 or a 500;
- extraction of a JSON candidate from a reply that may be fenced in triple backticks;
- either the parse-failure fallback (`ask-doubt`, `learn-topic`) or a hard 500 (`generate-questions`).

The three handlers build their prompts with the corrected language lookup; the lookup as written is modelled beside it (see "## Findings").

**The front end** covers:
- the progress record and its merge with mastery recomputed on every write;
- the practice-quiz session state machine;
- the login form's validation chain and digit filter;
- the app shell's restore, login and logout;
- the figures on the student and parent progress screens;
- the canned doubt answers with their keyword detection;
- the canned lessons.

On top of these, `ProgressWriters` proves an invariant of the whole app. Every sequence of
practice answers, doubts and lessons keeps the progress record free of duplicate topics. It keeps
the stored mastery level equal to the formula. It counts exactly one answer per scored question.

Modules (one file each, except `Fence` and `FenceProperties`, which share `fence.dfy`):

| module | models |
|---|---|
| `Wrappers`, `Text`, `Languages` | `Option`. The JavaScript string operations the code relies on: `trim` with the ECMAScript whitespace set, ASCII `toLowerCase`, UTF-16 `length`, `split`/`join` on one character, `x \|\| d` on strings, number rendering. The `Language` type. |
| `Fence`, `FenceProperties` | The extraction ``/```(?:json)?\s*([\s\S]*?)```/`` followed by `trim`, done concretely on characters. |
| `EdgeFunction` | The pipeline shared by the three handlers. |
| `AskDoubtFunction`, `LearnTopicFunction`, `GenerateQuestionsFunction` | One handler each. |
| `EdgeFunctionProperties` | How the three handlers compare. |
| `Progress` | `StudentProgress`, accuracy, mastery, the update merge, topic append, recent windows. |
| `Practice` | The quiz bank and the session. |
| `LoginScreen` | The login form. |
| `IndexPage` | The app shell, with browser storage as a map. A mobile is a JavaScript value: the text `handleLogin` is declared to take, or the login form's record it receives as wired. |
| `ProgressView`, `ParentDashboard` | The two progress screens. |
| `DoubtBox`, `LearnTopic` | The doubt and lesson screens. |
| `ProgressWriters` | The whole-app invariant. |

Four points of the code worth knowing before reading the model:
- **Quiz parse failure.** A quiz reply that does not parse is a 500 with the message "Failed to parse AI response".
- **Fenced replies.** When a fence matches, only the fenced text is parsed. The whole reply is parsed only when no fence matches.
- **The doubt and lesson screens.** `DoubtBox.tsx` and `LearnTopic.tsx` do not call the edge functions. They answer from canned local content after a timer, and they are modelled that way.
- **The `ask-doubt` request.** Besides the question and the language, it reads `imageDescription`.

## Model

| member | source | states |
|---|---|---|
| Text.Trim | src/components/LoginScreen.tsx:29 | `trim` removes the two whitespace runs at the ends. The result is the middle slice, neither end of a non-empty result is whitespace, and the result is empty exactly when the input is all whitespace. |
| Text.TrimIdempotent | src/components/LoginScreen.tsx:29 | Trimming a trimmed name changes nothing. |
| Text.TrimAfterLeadingSpace | supabase/functions/ask-doubt/index.ts:90-91 | Whitespace dropped from the front before trimming (the regex's `\s*`) does not change the trimmed result. |
| Text.ToLower | src/components/DoubtBox.tsx:20 | Lower-casing keeps the length and maps each character on its own: `A`–`Z` move down by 32, everything else stays. |
| Text.ToLowerIdempotent | src/components/DoubtBox.tsx:20 | A lower-cased question has no upper-case letters left, and lower-casing it again changes nothing. |
| Text.Utf16Length | src/components/LoginScreen.tsx:34 | A string's JavaScript `length` lies between its character count and twice that. It equals the character count when every character is in the Basic Multilingual Plane. |
| Text.OrDefault | src/pages/Index.tsx:50 | `x \|\| d` on a string: a present non-empty value wins, anything else gives the default. |
| Text.JoinSplit | src/components/DoubtBox.tsx:272 | Joining the pieces of a split on the same separator gives back the original text. |
| Text.SplitJoin | src/components/DoubtBox.tsx:272 | Splitting a join of separator-free pieces gives back the pieces. |
| Text.JoinPrefix | src/components/DoubtBox.tsx:272 | The join of the first k pieces is a prefix of the join of all of them. |
| Text.NatToStringRoundTrip | supabase/functions/generate-questions/index.ts:59 | The decimal rendering of a count reads back as that count. |
| Languages.FromKey | src/components/LanguageSelector.tsx:4 | A key maps to the language with that key, or to nothing when no language has it. |
| Languages.KeyRoundTrip | src/components/LanguageSelector.tsx:4 | Every language's key maps back to that language. |
| Fence.NextFence | supabase/functions/ask-doubt/index.ts:90 | Finds the first triple backtick at or after a position, and finds none exactly when there is none. |
| Fence.GroupStart | supabase/functions/ask-doubt/index.ts:90 | After an opening fence, an optional `json` tag and then whitespace are skipped without crossing a backtick. |
| Fence.MatchAtSpec | supabase/functions/ask-doubt/index.ts:90 | The regex matches at a position exactly when an opening fence there has a closing fence at least three characters later. The capture runs to the first closing fence after the skipped tag and whitespace. |
| Fence.AlternativesAgree | supabase/functions/ask-doubt/index.ts:90 | Backtracking into the optional tag or the lazy `\s*` never moves the closing fence the lazy group stops at. |
| Fence.LeftmostMatch | supabase/functions/ask-doubt/index.ts:90 | The match found is the leftmost position where the regex matches. |
| Fence.FirstMatch | supabase/functions/ask-doubt/index.ts:90 | The regex has a match exactly when some position has a closed fence. |
| Fence.Candidate | supabase/functions/ask-doubt/index.ts:90-91 | With no fenced block the parse candidate is the whole reply, trimmed. |
| Fence.Extract | supabase/functions/ask-doubt/index.ts:84-91 | A missing reply never parses; otherwise the result is `JSON.parse` applied to the candidate. |
| FenceProperties.TaggedBlock | supabase/functions/ask-doubt/index.ts:90-91 | A ```` ```json ```` block yields exactly its trimmed body, whatever follows it. The prose before it and its body may hold single or double backticks, as long as no fence starts in them. |
| FenceProperties.UntaggedBlock | supabase/functions/learn-topic/index.ts:87-88 | An untagged fenced block yields its trimmed body, under the same conditions, when the body does not begin with `json`. |
| FenceProperties.TagNeedsNoSeparator | supabase/functions/ask-doubt/index.ts:90-91 | The tag may be followed by the body directly, with no newline. |
| FenceProperties.BareReply | supabase/functions/generate-questions/index.ts:84-85 | A reply with no three backticks in a row is parsed whole, after trimming. |
| FenceProperties.BlockCapture | supabase/functions/ask-doubt/index.ts:90-91 | For the first fence in the reply, closed later, the candidate is the trimmed text between the skipped tag and the first closing fence. Stray single or double backticks before or inside the block do not matter. |
| EdgeFunction.Classify | supabase/functions/ask-doubt/index.ts:65-81 | A status is handled as success exactly when it is 2xx. 429 and 402 are each recognised on their own; nothing else is. |
| EdgeFunction.Invoke | supabase/functions/ask-doubt/index.ts:9-81 | In source order: preflight first; then a missing key gives 500 with its message; then a thrown `fetch` gives 500 with its message; then 429, 402, other non-2xx (500 "AI gateway error"), or delivery of the content. Every error status is 429, 402 or 500. |
| EdgeFunction.Instruction | supabase/functions/ask-doubt/index.ts:20-24 | Each of the three language keys selects its own instruction, and every other value selects the English one. |
| EdgeFunction.InstructionAgreement | supabase/functions/learn-topic/index.ts:20-24 | The lookup as written agrees with that intended lookup on every key except the names inherited from `Object.prototype`. |
| EdgeFunction.ConstructorKeyEscapesDefault | supabase/functions/generate-questions/index.ts:20-24 | Counterexample: `language: "constructor"` gets the text of `Object` as its instruction, while the intended lookup gives English. |
| AskDoubtFunction.UserMessage | supabase/functions/ask-doubt/index.ts:43-45 | With a truthy image description, the message can be read back piece by piece: the fixed lead, exactly the description, the closing quote and lead, then exactly the question or its default. Without one, the message is the question itself, possibly missing. |
| AskDoubtFunction.ImageMessageEnds | supabase/functions/ask-doubt/index.ts:43-45 | With an image, the description sits inside the quotes. The message ends with the typed question, or with "Please explain this." when the question is missing or empty. |
| AskDoubtFunction.FallbackFor | supabase/functions/ask-doubt/index.ts:92-100 | The fallback's explanation is the raw reply verbatim, and it has exactly one step. |
| AskDoubtFunction.Handle | supabase/functions/ask-doubt/index.ts:9-111 | The preflight is answered exactly for OPTIONS, before the key is checked, and a missing key gives 500. Every stop of the shared pipeline comes back with that stop's own status and message: 429 and 402 with their texts, a gateway error 500, and the thrown fetch's message as a 500. A 200 comes back exactly when the gateway delivered, carrying the parsed value unchanged or the fallback. |
| AskDoubtFunction.UnparsableReplyDegrades | supabase/functions/ask-doubt/index.ts:86-104 | A delivered reply that does not parse still comes back as 200, with the raw text as the explanation. |
| LearnTopicFunction.UserMessage | supabase/functions/learn-topic/index.ts:62 | The user message is "Teach me about: " followed by exactly the rendered topic. |
| LearnTopicFunction.FallbackFor | supabase/functions/learn-topic/index.ts:89-96 | The fallback's definition is the raw reply verbatim, with exactly one step, one mistake and one practice pair. |
| LearnTopicFunction.Handle | supabase/functions/learn-topic/index.ts:9-108 | Same outcomes as the doubt handler, each stop with its own status and message, with the lesson fallback. |
| GenerateQuestionsFunction.RequestedCount | supabase/functions/generate-questions/index.ts:28 | `count \|\| 5`: the count is never 0, a non-zero count is kept, and a missing or zero count becomes 5. |
| GenerateQuestionsFunction.UserMessage | supabase/functions/generate-questions/index.ts:59 | The user message opens with "Generate", the requested count and "MCQ questions about:", and the rest is exactly the topic as a template literal renders it. |
| GenerateQuestionsFunction.BuildPrompt | supabase/functions/generate-questions/index.ts:28-59 | The system template and the user message carry the same count. |
| GenerateQuestionsFunction.CountReadsBack | supabase/functions/generate-questions/index.ts:28-59 | The digits after "Generate " read back as the count the system template asks for. |
| GenerateQuestionsFunction.Handle | supabase/functions/generate-questions/index.ts:9-100 | There is no fallback: a delivered reply that parses becomes `{questions: parsed}` unchanged, and one that does not becomes 500 "Failed to parse AI response". A 200 comes back exactly when the gateway delivered a reply that parses. Every stop of the shared pipeline comes back with that stop's own status and message. |
| EdgeFunctionProperties.FallbackAsymmetry | supabase/functions/generate-questions/index.ts:84-88 | One unparsable 2xx reply: the doubt and lesson handlers answer 200 with their fallbacks, while the quiz handler answers 500. |
| EdgeFunctionProperties.SameStatusEverywhere | supabase/functions/learn-topic/index.ts:68-80 | A non-2xx gateway status gives all three handlers the same error status: 429, 402, or else 500. |
| EdgeFunctionProperties.FencedReplyIsParsed | supabase/functions/ask-doubt/index.ts:90-91 | A fenced ```` ```json ```` reply whose body parses is delivered parsed by all three handlers: the doubt and lesson bodies carry the parsed value, and the quiz returns it as `{questions}`. Any prose may follow the block. The prose before it and its body may hold single or double backticks, but no fence may start in them. |
| Progress.RoundedPercent | src/components/Practice.tsx:161 | A rounded percentage is 0 for an empty whole or a zero part, 100 for a full part, and lies in [0,100] whenever the part does not exceed the whole. |
| Progress.RoundedPercentIsRounded | src/components/ProgressView.tsx:14 | The integer percentage equals `Math.round(part / whole * 100)` taken over exact rationals. |
| Progress.RoundedPercentMonotone | src/components/Practice.tsx:156-158 | More correct answers out of the same total never lower the percentage. |
| Progress.Accuracy | src/components/ProgressView.tsx:13-14 | Accuracy lies in [0,100]. It is 0 with no answers or no correct ones, and 100 when every answer was correct. |
| Progress.Mastery | src/pages/Index.tsx:111-114 | Mastery lies in [0,100]. |
| Progress.MasteryIsRounded | src/components/ProgressView.tsx:15-18 | The integer mastery equals `min(100, Math.round((10·topics + 5·correct) / 1.5))` over exact rationals. |
| Progress.MasteryHasNoHalfCase | src/pages/Index.tsx:113 | The quotient is never exactly halfway between two integers, so the rounding never meets a tie. |
| Progress.MasteryMonotone | src/components/ProgressView.tsx:15-18 | More topics or more correct answers never lower mastery. |
| Progress.DefaultIsConsistent | src/types/progress.ts:10-17 | The default record has no topics, zero counters, and a mastery level that already matches the formula. |
| Progress.Merge | src/pages/Index.tsx:107-115 | Every field present in the update overwrites the old one, and every absent field is kept. Mastery is recomputed from the merged record, so the result always matches the formula. |
| Progress.MergeIgnoresMasteryField | src/pages/Index.tsx:109-115 | Any mastery level carried in the update has no effect. |
| Progress.MergeIdempotent | src/pages/Index.tsx:107-115 | Applying the same update twice is applying it once. |
| Progress.MergeNothing | src/pages/Index.tsx:107-115 | An empty update leaves a record unchanged exactly when its mastery already matches the formula. |
| Progress.AppendIfAbsent | src/components/DoubtBox.tsx:164-167 | Afterwards the topic is present. The old topics stay in front in their order, at most one entry is added, and it is added exactly when the topic was missing. Membership grows by exactly the topic, and no duplicate appears. |
| Progress.AppendIfAbsentIdempotent | src/components/LearnTopic.tsx:106-107 | Appending the same topic twice is appending it once. |
| Progress.LastN | src/components/ProgressView.tsx:167 | `slice(-n)`: the result holds the last `min(n, length)` entries, is a suffix of the topics in their order, and has no duplicates when the topics have none. |
| Practice.Bank | src/components/Practice.tsx:12-109 | In every language the bank has five questions. Each has four options and an answer index that points at one of them, the same index in every language. |
| Practice.IsCorrectReadsBank | src/components/Practice.tsx:125 | An answer is correct exactly when it equals the shown question's own `correct` index. |
| Practice.Answer | src/components/Practice.tsx:123-131 | Choosing an option records it and shows the result. Exactly one of the two session counters goes up by one, the right one for the verdict, and the session stays valid. |
| Practice.AnswerUpdate | src/components/Practice.tsx:132-135 | The update carries only the two answer counters, together one higher than before. `correctAnswers` rises exactly on a correct answer, and `wrongAnswers` stays put exactly then. |
| Practice.Select | src/components/Practice.tsx:121-136 | A second click on an answered question changes nothing and sends nothing. Otherwise the answer is recorded and the update is sent. |
| Practice.SelectMovesBothScores | src/components/Practice.tsx:127-135 | After the parent merges the update, the global counter that rose is the same one as in the session, by the same amount. Topics and question count are kept. |
| Practice.Next | src/components/Practice.tsx:138-146 | Before the last question it advances and clears the choice; on the last it only marks the session finished. The index stays inside the bank and the scores do not move. |
| Practice.Restart | src/components/Practice.tsx:148-154 | Every session field returns to its initial value. |
| Practice.SessionPercent | src/components/Practice.tsx:161 | The final percentage lies in [0,100]. It is 0 with no correct answer and 100 with all five. |
| Practice.PlayScores | src/components/Practice.tsx:121-146 | Answering the remaining questions one after another finishes the session with every question scored exactly once and the hits counted as correct. |
| Practice.FullSession | src/components/Practice.tsx:112-146 | A full session from the start ends finished, with five scored answers, of which exactly the hits are correct. |
| LoginScreen.Sanitise | src/components/LoginScreen.tsx:132 | `replace(/\D/g, "")` leaves only digits and never lengthens the text. |
| LoginScreen.SanitiseKeepsExactlyDigits | src/components/LoginScreen.tsx:132 | Every digit survives as often as it occurred, and every other character disappears. |
| LoginScreen.SanitiseConcat | src/components/LoginScreen.tsx:132 | The filter treats each piece of the input independently. |
| LoginScreen.SanitiseFixed | src/components/LoginScreen.tsx:132 | The filter leaves a text alone exactly when it is all digits. |
| LoginScreen.SanitiseIdempotent | src/components/LoginScreen.tsx:132 | Filtering twice is filtering once. |
| LoginScreen.EditName | src/components/LoginScreen.tsx:97 | Typing a name stores it, clears the error, and leaves the other fields alone. |
| LoginScreen.EditDob | src/components/LoginScreen.tsx:111 | Picking a date stores it, clears the error, and leaves the other fields alone. |
| LoginScreen.EditMobile | src/components/LoginScreen.tsx:132 | Typing a mobile stores only its digits, clears the error, and leaves the other fields alone. |
| LoginScreen.EditsStayReachable | src/components/LoginScreen.tsx:97-132 | No edit can put a non-digit into the mobile field. |
| LoginScreen.Submit | src/components/LoginScreen.tsx:28-48 | The checks run in order (blank name, name over 100 UTF-16 units, missing date, mobile not ten digits), and the first failure sets its own message. The form is accepted exactly when all four pass, handing on the trimmed name, the date and the mobile. |
| LoginScreen.CanSubmitMatchesSubmit | src/components/LoginScreen.tsx:145 | Every accepted form had its button enabled. On a form the edit handlers can produce, with a name inside the limit, the button is enabled exactly when submitting succeeds. |
| LoginScreen.AcceptedMobileIsSanitised | src/components/LoginScreen.tsx:46-47 | What `onLogin` receives passes the filters again unchanged: an all-digit mobile and an already trimmed name. |
| LoginScreen.DisplayError | src/components/LoginScreen.tsx:26 | A non-empty error from the parent wins over the form's own. Nothing is displayed exactly when both are empty. |
| LoginScreen.EditClearsDisplayedError | src/components/LoginScreen.tsx:97-132 | Without a parent error, any edit leaves no error on screen. |
| IndexPage.Get | src/pages/Index.tsx:23 | Reading storage gives the stored text exactly when the key is present. |
| IndexPage.LoadData | src/pages/Index.tsx:21-27 | A present, non-empty, parsable entry is returned. Anything else gives the empty record with the default progress. |
| IndexPage.Dashboard | src/pages/Index.tsx:51 | The student dashboard is chosen exactly for the student role; everything else lands on the parent dashboard. |
| IndexPage.Restore | src/pages/Index.tsx:44-53 | A saved record is restored exactly when it has both a mobile and a role. Its progress and its student mobile fall back to the default and to the mobile. |
| IndexPage.HandleRoleSelect | src/pages/Index.tsx:55-58 | Choosing a role records it and opens the login screen; the other fields are kept. |
| IndexPage.ProgressKey | src/pages/Index.tsx:64 | The progress key is `progress_` followed by exactly the mobile. |
| IndexPage.ProgressKeyInjective | src/pages/Index.tsx:118 | Two mobiles share a progress key only if they are equal. |
| IndexPage.LoadProgress | src/pages/Index.tsx:63-69 | A present, non-empty, parsable progress entry is loaded. Otherwise the default progress is used. |
| IndexPage.HandleLogin | src/pages/Index.tsx:60-105 | Both branches load the record under `progress_${loginMobile}` and link the student mobile to the login mobile. Each saves the app record and opens the dashboard of the role. |
| IndexPage.HandleUpdateProgress | src/pages/Index.tsx:107-124 | The merged record becomes the state and is written under the logged-in mobile's key. Its mastery matches the formula. |
| IndexPage.HandleLogout | src/pages/Index.tsx:126-133 | Every field returns to its start value and the saved app record is removed. Every other stored entry is kept. |
| IndexPage.LoginSurvivesReload | src/pages/Index.tsx:44-105 | A reload right after logging in restores exactly the state the login produced, in either role. |
| IndexPage.LogoutSurvivesReload | src/pages/Index.tsx:126-133 | A reload after logging out shows role selection again, with nothing restored. |
| IndexPage.ProgressComesBackAtLogin | src/pages/Index.tsx:118 | Progress saved under a mobile is what the next login with that mobile loads, in either role. |
| IndexPage.SeparateRecords | src/pages/Index.tsx:118 | Progress saved under one mobile text does not change what a login with any other mobile text loads. |
| IndexPage.LoginAsWired | src/components/LoginScreen.tsx:47 | As wired, `handleLogin` receives the form's whole record and keeps it as the mobile. It loads progress from `progress_[object Object]` whoever logs in. The dashboard it opens cannot be drawn, because it shows that record as a React child. |
| IndexPage.OneRecordForEveryForm | src/pages/Index.tsx:60-70 | Counterexample: as wired, forms with different mobiles load the same record. While that entry is absent, which as wired it always is, each loads the default progress. |
| IndexPage.ReloadFailsAgainAsWired | src/pages/Index.tsx:44-53 | As wired, a reload restores the record as the mobile, and the dashboard again cannot be drawn. |
| IndexPage.SharedRecordIfUndrawn | src/pages/Index.tsx:107-118 | Were a dashboard to pass an update on without drawing the mobile, what one user saved is what a user with a different mobile would load. |
| IndexPage.LoginFromForm | src/pages/Index.tsx:60-64 | With the mobile field passed on, the login keeps and keys progress by that mobile, and the dashboard can be drawn. |
| IndexPage.SeparateRecordsFromForms | src/pages/Index.tsx:60-118 | With the mobile field passed on, what one form's user earns does not change what a form with a different mobile loads. |
| ProgressView.Stars | src/components/ProgressView.tsx:19 | One star is earned at each of the mastery thresholds 20, 50 and 80, so at most three. |
| ProgressView.StarsMonotone | src/components/ProgressView.tsx:19 | More mastery never shows fewer stars. |
| ProgressView.AccuracyBand | src/components/ProgressView.tsx:133-150 | Success exactly from 80, warning exactly from 60 below 80, destructive exactly below 60. |
| ProgressView.BandMonotone | src/components/ProgressView.tsx:134 | A higher accuracy never gets a worse colour. |
| ProgressView.Render | src/components/ProgressView.tsx:12-19 | The screen shows accuracy and mastery in [0,100] and at most three stars. The accuracy card appears exactly when something was answered, in its band's colour. Recent topics are the last `min(8, n)` in order. The weak-topic advice appears exactly when more than two answers were wrong. |
| ProgressView.RenderShowsStoredMastery | src/components/ProgressView.tsx:15-18 | On a record kept by the merge, the recomputed mastery equals the stored one. |
| ProgressView.RecentKeysUnique | src/components/ProgressView.tsx:167-168 | The recent-topic badges have unique React keys whenever the topics are unique. |
| ProgressView.RecentEmptyIffNoTopics | src/components/ProgressView.tsx:158 | The recent list is empty exactly when no topic was searched. |
| ProgressView.CorrectAnswerNeverCostsStars | src/components/ProgressView.tsx:15-19 | One more correct answer never removes a star. |
| ParentDashboard.Render | src/components/ParentDashboard.tsx:20-30 | The parent sees the student mobile, or the login mobile when it is empty. Accuracy is 0 with no answers and, like mastery, lies in [0,100]. The accuracy band has the same thresholds. The recent list is the last `min(5, n)` topics. Attention is shown exactly when more than two answers were wrong. |
| ParentDashboard.AgreesWithStudentView | src/components/ParentDashboard.tsx:20-30 | For the same record, parent and student see the same accuracy, mastery and warning, and the parent's five topics are the tail of the student's eight. |
| DoubtBox.DetectTopic | src/components/DoubtBox.tsx:101-106 | The fraction topic is chosen exactly when the lower-cased question has one of its keywords. Photosynthesis is chosen exactly when it has one of its own and none of the fraction ones. Otherwise there is no topic. |
| DoubtBox.FullWordIsRedundant | src/components/DoubtBox.tsx:102 | The `भिन्न` test is subsumed by the `भिन्` test, so two keywords decide the fraction topic. |
| DoubtBox.DetectIgnoresCase | src/components/DoubtBox.tsx:20 | Detection gives the same topic for a question and its lower-cased form. |
| DoubtBox.GenericResponse | src/components/DoubtBox.tsx:112-134 | The generic answer quotes the question in its explanation and has four steps. |
| DoubtBox.GetAIResponse | src/components/DoubtBox.tsx:19-135 | A detected topic gets that topic's answer in the chosen language; otherwise the generic answer. Every answer has four steps. |
| DoubtBox.HandleAsk | src/components/DoubtBox.tsx:151-172 | Nothing happens exactly for a blank question without an image. Otherwise an empty question is answered as "general concept". The update carries the question count plus one and the topics, with the trimmed question appended when it is non-blank and new, and no other field. |
| DoubtBox.AskEffect | src/components/DoubtBox.tsx:164-171 | After the merge there is one more question, and the answer counters are as before. The trimmed question is among the topics with no duplicate added, and asking it again leaves the topics alone. |
| DoubtBox.Simplify | src/components/DoubtBox.tsx:270-276 | The simpler text is the language prefix, then a prefix of the explanation, then "...". The words kept are exactly the first `min(15, n)` space-separated words of the explanation. |
| DoubtBox.ShortExplanationKeptWhole | src/components/DoubtBox.tsx:272 | An explanation of at most 15 words is kept whole. |
| LearnTopic.GetTopicContent | src/components/LearnTopic.tsx:21-87 | Every lesson has 4 steps, 3 mistakes and 3 practice pairs, and its definition opens with the topic. |
| LearnTopic.LessonMentionsTopic | src/components/LearnTopic.tsx:21-87 | Every practice question of a lesson mentions its topic. |
| LearnTopic.HandleLearn | src/components/LearnTopic.tsx:95-109 | The topic is the truthy argument, else the field, and a blank one does nothing. Otherwise the lesson for the raw topic is shown, and the update sends only the topics with that topic appended if new. |
| LearnTopic.LearnEffect | src/components/LearnTopic.tsx:106-108 | After the merge the topic is recorded and the old topics keep their places, with no duplicate added. The question and answer counters do not move. |
| LearnTopic.Reset | src/components/LearnTopic.tsx:239 | Reset clears the content, the field and the current topic. |
| LearnTopic.ResetForgetsLesson | src/components/LearnTopic.tsx:239 | Resetting after a lesson leaves no trace of it on screen. |
| ProgressWriters.AnswerIsWellBehaved | src/components/Practice.tsx:132-135 | A scored answer keeps a healthy record healthy and adds exactly one to the answer total. It never lowers the correct count and leaves the topics unchanged. |
| ProgressWriters.AskIsWellBehaved | src/components/DoubtBox.tsx:164-171 | A doubt keeps a healthy record healthy. It leaves the answer total alone and only appends topics. |
| ProgressWriters.LearnIsWellBehaved | src/components/LearnTopic.tsx:106-108 | A lesson keeps a healthy record healthy. It leaves the answer total alone and only appends topics. |
| ProgressWriters.GoodUpdateIsWellBehaved | src/pages/Index.tsx:107-115 | Merging an update that only appends unique topics, and moves the answer total by at most one answer, keeps the record healthy. |
| ProgressWriters.ApplyKeepsHealthy | src/pages/Index.tsx:107-124 | Every kind of write keeps the record healthy and counts an answer exactly when it scores one. |
| ProgressWriters.RunKeepsHealthy | src/types/progress.ts:2 | Any sequence of writes keeps the topics unique and the stored mastery consistent. The answer total rises by the number of scored answers, and mastery never drops. |
| ProgressWriters.FreshRecordStaysHealthy | src/types/progress.ts:10-17 | Starting from the default record, every record the app builds is healthy and holds exactly one answer per scored question. |

## Left out

- **HTTP plumbing.** `serve`, the CORS header values, `Response` construction and the logging are left out. A response is modelled as preflight, 200 with a body, or an error status with its message.
- **Failed body parsing.** A failure of `req.json()` or of the gateway's `response.json()` is not modelled. Both would end in the outer 500.
- **The gateway.** The `fetch` to the AI gateway is a function parameter from the prompt to either a status with the optional `choices[0].message.content`, or the error `fetch` threw.
- **`JSON.parse` and `JSON.stringify`.** Both are function parameters. The storage lemmas assume only that stringify never gives empty text and that parse inverts it.
- **Request field types.** A request's `language` is taken as the property key it is converted to. `count` is an integer or missing; a `NaN` or fractional count is not modelled. Counts are exact integers rendered in plain decimal. JavaScript numbers round from 2^53 up, and from 10^21 up `${count \|\| 5}` renders in exponent form (`1e+21`); neither is modelled, so `GenerateQuestionsFunction.CountReadsBack` holds only below those bounds in the program.
- **Prompt prose.** The wording of the system prompts beyond the selected language instruction, the topic and the count is left out.
- **A `null` topic.** A request's `topic` is a string or missing (`Option<string>`). A JSON `null` topic is not modelled separately: `learn-topic/index.ts:62` and `generate-questions/index.ts:59` render `${null}` as "null", while the model renders a missing topic as "undefined". So the `UserMessage` rows of both functions hold for absent or string topics only.
- **Browser storage** is a map from keys to text. `try`/`catch` around storage access is not modelled, because a map access cannot fail.
- **The app-record re-save** in `handleUpdateProgress` (`src/pages/Index.tsx:119-120`) is left out. It writes the merged progress into the saved app record, which a restore uses only as the record's progress.
- **React lifecycle.** Rendering, CSS, icons, state batching and the `setTimeout` delays in `DoubtBox.tsx` and `LearnTopic.tsx` are left out. So are races between a late answer and a newer state.
- **Screen content.** The canned doubt, lesson and quiz texts are modelled, but all other on-screen wording is not.
- **Presentational files.** `AboutModal.tsx`, `RoleSelect.tsx`, `StudentDashboard.tsx` and `LanguageSelector.tsx` are not part of this model, apart from the `Language` type and the one fact `IndexPage.Renders` uses: each dashboard shows a mobile as a React child (`StudentDashboard.tsx:46`, `ParentDashboard.tsx:75`).
- **Google sign-in.** The sign-in import and the toast hook in `LoginScreen.tsx` are not part of this model; the form never calls them.
- **`maxLength` attributes.** The `maxLength` of the name and mobile inputs is a browser limit on typing. It is not modelled; `Submit` checks the trimmed length itself.
- **Stored data shape.** A stored progress record is assumed to have the `StudentProgress` shape with non-negative counters. Records of other shapes are not modelled.
- **Stored app record shape.** `loadData` returns whatever `JSON.parse` gives (`src/pages/Index.tsx:24`). A stored text that parses to something other than an object, such as `"null"`, makes `data.mobile` throw at `src/pages/Index.tsx:46`. `IndexPage.LoadData` takes a parser into `AppData` and cannot express that, so the model only covers stored texts that parse to an app record or fail to parse.
- Progress.RoundedPercent: accuracy and session percent are computed over exact rationals. JavaScript computes `Math.round(c / t * 100)` in floating point, which can land on the other side of a half at a few inputs. Mastery has no half case (`Progress.MasteryHasNoHalfCase`), so it is exact.
- Text.ToLower: only ASCII letters are lower-cased. JavaScript's full Unicode case mapping is not modelled. The keywords the detection looks for are lower-case ASCII or Devanagari, which has no case.
- Text.Trim: the whitespace set is ECMAScript's `WhiteSpace` and `LineTerminator` characters. The same set serves `\s` in the fence regex, as the language defines it.
- Practice.Answer: it requires a valid session with no answer chosen yet. The on-screen click guard is `Practice.Select`, which handles an answered question too.
- Practice.IsCorrect: it reads the answer key, which is the same in every language (`Practice.IsCorrectReadsBank`), so its language parameter is unused.
- AskDoubtFunction.Handle: its prompt uses the corrected language lookup `EdgeFunction.Instruction`, not the as-written `EdgeFunction.InstructionAsWritten` (see Findings). For an inherited key such as `"constructor"`, the program sends a different instruction. No contract of the handler depends on the instruction, so every one of them holds for the program as written too.
- LearnTopicFunction.Handle: its prompt uses the corrected language lookup, as for `AskDoubtFunction.Handle`.
- GenerateQuestionsFunction.Handle: its prompt uses the corrected language lookup, as for `AskDoubtFunction.Handle`.
- LearnTopicFunction.UserMessage: a JSON `null` topic is rendered "undefined" in the model, "null" in the program (see "A `null` topic").
- GenerateQuestionsFunction.UserMessage: the same `null` topic gap as `LearnTopicFunction.UserMessage`.
- GenerateQuestionsFunction.CountReadsBack: it requires a non-negative count. A negative count is rendered with its minus sign (`Text.IntToString`), but the read-back is stated for digits only.

## Findings

| source | as written | input that shows it | evidently intended | confidence | as-written member | corrected member |
|---|---|---|---|---|---|---|
| supabase/functions/ask-doubt/index.ts:20-24 (also learn-topic and generate-questions, lines 20-24) | The language instruction is a property read on an object literal with an `\|\|` English default. Inherited property names are found too. | A request body with `"language": "constructor"` makes the instruction the text `function Object() { [native code] }`, which is sent to the model. | Any value other than the three keys selects the English instruction. | not executed | EdgeFunction.InstructionAsWritten (EdgeFunction.ConstructorKeyEscapesDefault) | EdgeFunction.Instruction (EdgeFunction.InstructionAgreement) |
| src/components/LoginScreen.tsx:47 with src/pages/Index.tsx:60-64 | `LoginScreen` calls `onLogin` with `{fullName, dob, mobile}`, but `handleLogin` expects the mobile string. It keeps the object as the mobile and builds the key `progress_${loginMobile}` from it. | Logging in as 9876543210, and as 9123456789, both read the key `progress_[object Object]`. Nothing ever writes that key, so each login gets the default progress. The dashboard then shows the object as `+91 {mobile}` (`StudentDashboard.tsx:46`) or `{studentMobile \|\| mobile}` (`ParentDashboard.tsx:75`), and React throws on an object child. A reload restores the object and fails again. | Each mobile has its own progress record, `progress_<mobile>`, and the dashboard shows the mobile. | not executed | IndexPage.LoginAsWired (IndexPage.OneRecordForEveryForm, IndexPage.ReloadFailsAgainAsWired) | IndexPage.LoginFromForm (IndexPage.SeparateRecordsFromForms) |
