# TF25 interview platform — a Dafny model

TF25 is a Next.js application in which a company describes itself, creates a
survey, and shares a link. Respondents open the link, enter their details, and
are interviewed by a remote AI service, typing or speaking their answers. The
company then reads a summary of the answers on its dashboard.

This project models the logic of that application in Dafny:

- **The respondent interview page** is the centre of the model (`interview.dfy`).
  - It is a class over the chat transcript (`seq<Message>`) and the page's flags.
  - The remote replies are inputs: the start reply, each turn reply, the
    speech-to-text reply, and whether text-to-speech worked.
  - The clock reading is an input too.
  - What a turn appends is a pure function, `TurnMessages`, of the normalised
    reply. Every method states its new transcript in terms of it.
- **The placeholder chat endpoint** (`interview_chat.dfy`) does input
  validation and then routes by keyword.
  - The if-else chain is proved equal to a first-match search over the
    keyword groups.
  - The random fallback is a parameter `roll` in [0, 1).
- **The survey endpoint** (`surveys_api.dfy`) is `SurveyStore`, a class holding
  the survey table as a sequence of records.
  - `POST` validates in a fixed order and appends one record, with the
    questions stored as JSON text.
  - `GET` lists the caller's records, newest first, with the questions parsed.
  - The JSON writer and parser (`json.dfy`) come with the round-trip theorem
    `ParseJsonStringify`. From it, `POST` proves that its new survey shows up in
    `GET` with the very questions it was given.
- **The smaller pages and helpers:**
  - the authentication error text;
  - credential authorisation and the session callbacks;
  - survey-link generation;
  - company onboarding;
  - the dashboard's stat cards and recent-survey list;
  - the insights page's view choice and chart data.
- **The browser's `sessionStorage`** (`storage.dfy`) is a class over a map. The
  pages share one instance.
- **Shared helpers:** `text.dfy` holds the string helpers the pages use: `trim`,
  `toLowerCase`, `includes`, `slice`, and number formatting. `options.dfy`
  holds `Option`.

## Model

| member | source | states |
|---|---|---|
| Text.Trim | src/app/interview/start/page.tsx:269-274 | the result is the input minus its leading and trailing ECMAScript white space; it is empty exactly when the input is blank, otherwise it starts and ends with a non-space |
| Text.ToLower | src/app/api/interview/chat/route.ts:35 | same length, every character lower-cased |
| Text.ToLowerIdempotent | src/app/api/interview/chat/route.ts:35-43 | lower-casing twice is lower-casing once |
| Text.ContainsOccurs | src/app/api/interview/chat/route.ts:35 | `includes` holds exactly when the keyword occurs at some offset |
| Text.Take | src/app/dashboard/page.tsx:270 | `slice(0, n)` is a prefix of length min(n, length) |
| Text.IntToString | src/app/dashboard/page.tsx:95 | `toString` of an integer is non-empty and starts with `-` exactly for negatives |
| Text.DigitsValueOfNatToString | src/app/api/interview/chat/route.ts:52 | the digits written for a clock reading read back as that reading |
| Json.Lookup | src/app/api/surveys/route.ts:21 | a key's value is that of its last occurrence among the members, and there is none exactly when no member has the key |
| Json.Property | src/app/api/interview/chat/route.ts:5-6 | destructuring a `null` body fails; a missing member reads as `undefined`; a present member reads as its value |
| Json.ParseJsonStringify | src/app/api/surveys/route.ts:46 | parsing the JSON text of any value gives the value back |
| Storage.SessionStorage.GetItem | src/app/dashboard/generate-survey/page.tsx:24 | a stored key gives its value, any other key gives `null` |
| Storage.SessionStorage.SetItem | src/app/dashboard/generate-survey/page.tsx:41 | the key is bound to the value and every other key is unchanged |
| Interview.StartPayload | src/app/interview/start/page.tsx:92-97 | the start request carries the survey id, name and age as entered, and the gender lower-cased |
| Interview.UrlSurveyId | src/app/interview/start/page.tsx:48 | a non-empty route parameter wins over the `surveyId` query parameter; the result is non-empty when either is |
| Interview.WithField | src/app/interview/start/page.tsx:447-481 | the edited field takes the new value and every other field keeps its value |
| Interview.Normalize | src/app/interview/start/page.tsx:172-185 | a reply is well-formed exactly when it succeeded and carries `ai_session` or `ai_response`; the `ai_response` shape takes its status from the top level |
| Interview.AiSessionWins | src/app/interview/start/page.tsx:175-178 | whenever `ai_session` is present its question and status are used, whatever `ai_response` and the top-level status hold |
| Interview.OpeningMessage | src/app/interview/start/page.tsx:129-134 | the opening entry has id `q-initial`, comes from the interviewer and holds the opening question |
| Interview.QuestionMessage | src/app/interview/start/page.tsx:225-230 | a question entry comes from the interviewer, holds the question and has id `q-` followed by digits |
| Interview.AnswerMessage | src/app/interview/start/page.tsx:271-276 | the answer entry comes from the respondent, holds the trimmed answer (empty exactly when the answer is blank) and has an id ending in `-user` |
| Interview.TurnMessages | src/app/interview/start/page.tsx:187-261 | a turn appends at most one interviewer entry: the apology on any failure or malformed reply; the closing text on status -1, even when there is a question; otherwise the question when it is non-empty, and nothing when it is empty |
| Interview.SpeakingAfterTurn | src/app/interview/start/page.tsx:202-241 | on a turn that appends a closing or question entry the speaking flag becomes whether text-to-speech succeeded; on any other turn it is left as it was |
| Interview.Transcript | src/app/interview/start/page.tsx:375-403 | the transcript is the first alternative of the first channel when that is non-empty, and empty on failure or on any missing field |
| Interview.InterviewPage.constructor | src/app/interview/start/page.tsx:26-43 | the page starts on the form, with an empty form, no session, an empty transcript and all flags off |
| Interview.InterviewPage.ApplyUrlSurveyId | src/app/interview/start/page.tsx:47-53 | a survey id from the address goes into the form and into session storage; without one nothing changes |
| Interview.InterviewPage.EditField | src/app/interview/start/page.tsx:447-481 | one form field takes the new value |
| Interview.InterviewPage.SubmitUserInfo | src/app/interview/start/page.tsx:439-444 | without a name, an age or a survey id nothing happens (the gender is not checked); otherwise the interview is started with `StartInterview`'s full outcome: on success the session id is kept and stored, the transcript is the opening question, the chat opens and speaking reflects text-to-speech; on failure an alert is shown and nothing else moves |
| Interview.InterviewPage.StartInterview | src/app/interview/start/page.tsx:90-146 | one start request; with both a session id and an opening question the session id is kept and stored, the transcript becomes exactly the opening question and the chat opens; otherwise an alert is shown and step, session and transcript are unchanged; processing is off afterwards; the chat step always begins with `q-initial` |
| Interview.InterviewPage.FetchNextQuestion | src/app/interview/start/page.tsx:151-265 | without a session id or survey id nothing changes, not even the processing flag; otherwise one turn request is sent, the transcript grows by exactly `TurnMessages` of the reply and processing ends off |
| Interview.InterviewPage.SendAnswer | src/app/interview/start/page.tsx:268-280 | a blank answer changes nothing; otherwise the trimmed answer is appended, the input cleared and the untrimmed answer forwarded; no turn request ever carries a blank answer |
| Interview.InterviewPage.StartRecording | src/app/interview/start/page.tsx:327-364 | with microphone access the chunk buffer is emptied and recording starts; without it an alert is shown and nothing else changes |
| Interview.InterviewPage.ChunkRecorded | src/app/interview/start/page.tsx:346-350 | a non-empty chunk is appended to the buffer and an empty one is dropped |
| Interview.InterviewPage.StopRecording | src/app/interview/start/page.tsx:367-372 | stopping a recording turns the buffered chunks into the recorded audio |
| Interview.InterviewPage.SendAudioAnswer | src/app/interview/start/page.tsx:406-424 | without a recording nothing changes; otherwise the recording is sent for transcription, a non-blank transcript is answered like a typed one, a blank one raises an alert and sends nothing more; the recording is cleared and processing is off on every path |
| InterviewChat.FirstMatchIsEarliest | src/app/api/interview/chat/route.ts:35-45 | the first-match search returns the reply of the earliest matching group, and nothing exactly when no group matches |
| InterviewChat.KeywordReplyIsFirstMatch | src/app/api/interview/chat/route.ts:35-45 | the keyword chain is the first-match search over strength/strong, weakness/improve, experience/worked, goal/future, team/collaborat, in that order, on the lower-cased message |
| InterviewChat.KeywordReplyIgnoresCase | src/app/api/interview/chat/route.ts:35-43 | a message and its lower-cased form get the same keyword reply |
| InterviewChat.CannedIndex | src/app/api/interview/chat/route.ts:33 | the random pick is a valid index into the ten canned replies, the floor of ten times the roll |
| InterviewChat.ReplyText | src/app/api/interview/chat/route.ts:33-45 | a matching keyword group decides the reply; with no match the reply is one of the ten canned replies |
| InterviewChat.Handle | src/app/api/interview/chat/route.ts:3-63 | a missing, empty or non-string message gives 400 `Message is required`; an unreadable body gives 500 `Internal server error`; every present, non-empty string message is answered, and only those; a success carries the selected reply, a `conv_` id whose digits read back as the clock, and the timestamp |
| InterviewChat.HistoryIgnored | src/app/api/interview/chat/route.ts:6 | adding a `conversationHistory` member to the body does not change the response |
| AuthError.ErrorMessage | src/app/auth/error/page.tsx:12-25 | each of `Configuration`, `AccessDenied`, `Verification` and `Default` gets its own message; every other code, and none, gets the fallback message |
| AuthError.KnownCodesDistinguished | src/app/auth/error/page.tsx:13-21 | different known codes give different messages |
| SurveysApi.ValidatePost | src/app/api/surveys/route.ts:12-35 | no session gives 401 whatever the body; then an unreadable body gives 500, and only it; then questions that are not a non-empty array give 400, before the company id is looked at; then a falsy company id gives 400; every other request is accepted, with the session's user, the questions and the company id |
| SurveysApi.NewRecord | src/app/api/surveys/route.ts:38-51 | the record carries the fresh id, the session user, the company id, status `active` and the clock, and its questions text parses back to the questions |
| SurveysApi.Mine | src/app/api/surveys/route.ts:86-89 | the user's records are exactly the stored records of that user, each as often as it is stored |
| SurveysApi.NewestFirstOrderFacts | src/app/api/surveys/route.ts:90-92 | the listing order is newest first and a permutation of the user's records |
| SurveysApi.TiesKeepStoreOrder | src/app/api/surveys/route.ts:90-92 | two records of equal age are listed in store order |
| SurveysApi.ParseAll | src/app/api/surveys/route.ts:96-99 | the listing succeeds exactly when every questions text parses, keeps the records in order and pairs each with its parsed questions |
| SurveysApi.ListingFacts | src/app/api/surveys/route.ts:86-99 | when every stored questions text parses, the listing exists, holds exactly the user's records and is newest first |
| SurveysApi.PostedIsListed | src/app/api/surveys/route.ts:46-98 | a stored record whose questions text is the JSON of some questions is listed for its owner with those questions |
| SurveysApi.SurveyStore.Post | src/app/api/surveys/route.ts:9-72 | a rejection returns its status and error and leaves the store alone; an accepted request appends exactly one record and returns its id; the new survey is then listed by `Get` with the questions it was given |
| SurveysApi.SurveyStore.Get | src/app/api/surveys/route.ts:74-112 | no session gives 401; otherwise, with every stored questions text readable, the caller's surveys are listed, newest first, as a permutation of that user's records |
| Auth.Authorize | src/lib/auth.ts:22-44 | a user comes back exactly when e-mail and password are both given, a user with that e-mail exists and its stored password equals the given one; it is that user's id, e-mail and name |
| Auth.IncompleteRefusedBeforeLookup | src/lib/auth.ts:23-25 | missing credentials are refused whatever the user table holds |
| Auth.NoPasswordNoSignIn | src/lib/auth.ts:35 | a user without a stored password cannot sign in with credentials |
| Auth.Jwt | src/lib/auth.ts:51-56 | with a user the token's id becomes the user's id; without one the token is unchanged; the same token is returned |
| Auth.SessionCallback | src/lib/auth.ts:57-62 | with a token and a session user the user's id becomes the token's id; without a token it is unchanged; the same session is returned |
| Auth.SignIn | src/lib/auth.ts:63-71 | every sign-in is admitted |
| GenerateSurvey.StatusName | src/app/dashboard/generate-survey/page.tsx:13 | the status sent is `active` or `inactive`, `active` exactly for an active survey |
| GenerateSurvey.ShareLink | src/app/dashboard/generate-survey/page.tsx:43 | the link is the interview start address followed by exactly the survey id |
| GenerateSurvey.ShareLinkOpensSurvey | src/app/dashboard/generate-survey/page.tsx:43 | opening the link puts the created survey id into the respondent's form |
| GenerateSurvey.GenerateSurveyPage.constructor | src/app/dashboard/generate-survey/page.tsx:11-17 | the form starts empty with status `active`, nothing submitted and no link |
| GenerateSurvey.GenerateSurveyPage.EditForm | src/app/dashboard/generate-survey/page.tsx:128-151 | title, description and status take the entered values |
| GenerateSurvey.GenerateSurveyPage.HandleSubmit | src/app/dashboard/generate-survey/page.tsx:19-51 | a blank title or description, or no company id in storage, gives an alert and no request or other change; otherwise one request carries the fresh survey id; on success that id is stored, the link is built from it and `submitted` is set; on failure storage, link and `submitted` are unchanged and an alert is shown; `isSubmitting` is off afterwards |
| Onboarding.EnsureCompanyId | src/app/onboarding/page.tsx:23-32 | a stored non-empty company id is reused and storage is unchanged; otherwise the fresh id is stored; storage afterwards holds the id returned |
| Onboarding.EnsureCompanyIdIdempotent | src/app/onboarding/page.tsx:23-32 | a second visit keeps the company id and storage of the first, whatever fresh id it is offered |
| Onboarding.WithField | src/app/onboarding/page.tsx:36-42 | the named field takes the new value and every other field keeps its value |
| Onboarding.Payload | src/app/onboarding/page.tsx:61-67 | the payload's uuid is the company id and its fields are the form's fields |
| Onboarding.OnboardingPage.constructor | src/app/onboarding/page.tsx:10-18 | no company id, an empty form, not submitting and no error |
| Onboarding.OnboardingPage.SessionEffect | src/app/onboarding/page.tsx:20-34 | a signed-out visitor is sent to `/auth/login`; a signed-in one gets the company id `EnsureCompanyId` gives; while the session loads nothing happens |
| Onboarding.OnboardingPage.HandleChange | src/app/onboarding/page.tsx:36-42 | the form becomes `WithField` of the old form |
| Onboarding.OnboardingPage.HandleSubmit | src/app/onboarding/page.tsx:44-86 | without a session there is an error and no request; without a company id there is an error, no request and `submitting` is off; otherwise one payload is sent, and success goes to `/dashboard` while failure shows the fixed error and turns `submitting` off |
| AiSummary.FailureText | src/app/dashboard/page.tsx:50-62 | a non-ok status gives `HTTP error! Status: ` followed by text that reads back as that status; a thrown error gives its message, or `Unknown error` when that is empty |
| Dashboard.ComputeStats | src/app/dashboard/page.tsx:88-113 | total surveys are the completed ones, active links add the in-progress ones, responses are the participants, insights are available exactly when there are participants |
| Dashboard.StatCards | src/app/dashboard/page.tsx:92-117 | four cards; the insights card reads `Available` exactly when there are participants, and `0` otherwise |
| Dashboard.StatCardsReadBack | src/app/dashboard/page.tsx:95-110 | each numeric card's text reads back as its count |
| Dashboard.RecentSurveys | src/app/dashboard/page.tsx:240-317 | loading shows the spinner; otherwise no surveys show the empty panel; else at most the first three are listed, each labelled `Survey #` and the first eight characters of its id (`slice(0, 8)`), and "View All Surveys (n)" appears exactly when n > 3 |
| Dashboard.DashboardPage.constructor | src/app/dashboard/page.tsx:28-35 | counters at zero, no surveys, loading, no error |
| Dashboard.DashboardPage.FetchSummary | src/app/dashboard/page.tsx:38-66 | without a survey id in storage only the error is set and no request is made; otherwise the summary and the survey list are replaced only by what the reply carries, a failure sets the error, and loading ends |
| Dashboard.DashboardPage.FetchSurveys | src/app/dashboard/page.tsx:71-86 | an ok reply replaces the list (with an empty one when it has none); a failure keeps it; loading ends |
| Insights.SelectView | src/app/dashboard/insights/page.tsx:107-164 | loading first, then a non-empty error, then missing data; data without a summary crashes the render; otherwise the three charts are drawn from the summary |
| Insights.SurveyStatusData | src/app/dashboard/insights/page.tsx:132-143 | exactly two bars, Completed and In Progress, with the summary's counts |
| Insights.PainPointsData | src/app/dashboard/insights/page.tsx:146-150 | one slice per pain point, in order, each of value 1, slice i coloured `PainColors[i % 3]` |
| Insights.PainColorsCycle | src/app/dashboard/insights/page.tsx:149 | slices are red, orange, amber, then repeat every three, so any three neighbouring slices differ |
| Insights.IndicatorsData | src/app/dashboard/insights/page.tsx:153-164 | exactly two slices, Positive and Negative, with the summary's counts |
| Insights.InsightsPage.constructor | src/app/dashboard/insights/page.tsx:61-63 | no data, loading, no error |
| Insights.InsightsPage.FetchData | src/app/dashboard/insights/page.tsx:67-88 | without a survey id in storage the error is set, no request is made and the error view is chosen; otherwise the reply's `data` is kept, or its failure text becomes the error; loading ends |

## Left out

- Remote services are not modelled as HTTP. This covers the interview backend, the summary service, the company and survey endpoints, and the speech services. Each call is an outcome datatype passed in: ok payload, non-ok status, or thrown error. The pages' `requests` logs record what is sent.
- The text-to-speech request is represented only by its success flag. Audio playback, object URLs, `MediaRecorder`, `getUserMedia` and `SpeechRecognition` are browser APIs with callbacks. Only their effect on the page's flags and buffers is kept.
- Concurrency is left out. The methods run one at a time, to completion, and the interleavings of `await` are not modelled. In particular, nothing stops a second answer while a turn is outstanding. The page relies on disabled controls for that (src/app/interview/start/page.tsx:578-611), and the model claims no such guard. The two racing fetch effects of the dashboard are modelled as two independent methods.
- `Date.now()`, `new Date()`, `uuidv4`, `crypto.randomUUID` and `Math.random` are parameters. The clock is a natural number of milliseconds, ids are given strings, and the roll is a real in [0, 1). Uniqueness of ids is not claimed: `q-` ids can collide, and `end`/`error` are fixed ids.
- The simulated delay of the chat endpoint and the ISO timestamp format are left out. The timestamp is a given string.
- Text.ToLower: lower-cases ASCII letters only. JavaScript's `toLowerCase` also maps other letters, for example the Kelvin sign to `k`, so a message spelling a keyword with such letters is matched by the page but not by the model.
- Json: numbers are integers only, because every number the model writes or reads is a count; a leading zero before further digits is refused, as `JSON.parse` refuses it. A `\u` escape naming half of a surrogate pair is not parsed. An object keeps every member, duplicates included, where `JSON.parse` keeps only the last one; `Json.Lookup` and `Json.Property` read the last one, so lookups agree, but a re-stringified object would not. `Json.Stringify` writes every integer in plain digits, where `JSON.stringify` switches to exponent form from 1e21 on.
- The Prisma schema, the next-auth adapter and the Google provider are left out. The survey table is a sequence of records and a session is its user id. A company id of a type the database would refuse is accepted by the model, as by the route's own checks.
- The HTML `required` attributes of the user-info form are left out. Native browser validation, which would also demand a gender, is not part of the page's code.
- Survey listings from `Get` order records of equal `createdAt` by store order. The database leaves that order open.
- The "Error processing audio" alert of `sendAudioAnswer` (src/app/interview/start/page.tsx:417-420) is not modelled, because `Interview.Transcript` is typed as a string. In the page, a transcript that is present but not a string (a number, say) passes the `|| ''` fallback at page.tsx:396 and makes `transcript.trim()` at page.tsx:412 throw inside that `try`; the model has no such value.
- The transcript does not strictly alternate between questions and answers, and the model follows the code here. A turn whose reply has an empty question appends nothing, and an answer typed before a session exists is still appended (`TurnMessages`, `SendAnswer`).
- Clipboard writes, the `copied` timer, rendering, animation and the sidebar, layout and landing pages are presentation only.
