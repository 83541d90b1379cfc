/** The respondent interview page: a user-info form, then a chat in which the
    interview backend asks questions and the respondent answers by text or by a
    recorded voice note. Remote replies, the speech services and the clock are
    inputs of the operations that use them. */
module Interview {
  import opened Options
  import opened Text
  import opened Storage

  datatype Step = UserInfoStep | ChatStep
  datatype Role = User | Assistant

  /** One entry of the chat transcript; `timestamp` is the clock reading, in
      milliseconds, at which the entry was made. */
  datatype Message = Message(id: string, role: Role, content: string, timestamp: nat)

  datatype UserInfo = UserInfo(name: string, age: string, gender: string, surveyId: string)
  datatype UserField = NameField | AgeField | GenderField | SurveyIdField

  type AudioChunk = seq<bv8>
  datatype Blob = Blob(chunks: seq<AudioChunk>)

  /** The requests the page sends to the interview backend and to the
      speech-to-text service, in the order it sends them. */
  datatype Request =
    | StartRequest(surveyId: string, name: string, age: string, gender: string)
    | TurnRequest(surveyId: string, message: string)
    | SpeechToTextRequest(audio: Blob)

  const ClosingText := "That concludes our interview! Thank you for your time."
  const ApologyText := "Sorry, there was an error fetching the next question."
  const StartFailedAlert := "Failed to start interview. Please try again."
  const MicrophoneAlert := "Could not access microphone. Please check permissions."
  const UnclearAudioAlert := "Could not understand the audio. Please try again."

  // ---------------------------------------------------------------------------
  // Replies of the remote services

  /** `data.ai_session` of the reply to the start request. */
  datatype StartSession = StartSession(sessionId: Option<string>, initialResponse: Option<string>, status: Option<int>)
  /** `StartFailed`: a non-ok status, a network error or a body that is not JSON. */
  datatype StartReply = StartFailed | StartOk(session: Option<StartSession>)

  /** The two shapes a turn reply's `data` can take: `ai_session` (the shape of
      the opening reply) and `ai_response` with a top-level `status`. */
  datatype AiSession = AiSession(initialResponse: Option<string>, status: Option<int>)
  datatype AiResponse = AiResponse(message: Option<string>)
  datatype TurnData = TurnData(aiSession: Option<AiSession>, aiResponse: Option<AiResponse>, status: Option<int>)
  /** `TurnFailed`: a non-ok status, a network error or a body that is not JSON;
      `TurnOk(None)` is a JSON body without `data`. */
  datatype TurnReply = TurnFailed | TurnOk(data: Option<TurnData>)

  /** A turn reply brought to one shape: the next question and the status. */
  datatype Turn = Turn(question: Option<string>, status: Option<int>)

  /** The speech-to-text reply, `results.channels[0].alternatives[0].transcript`
      with every step optional. */
  datatype SttAlternative = SttAlternative(transcript: Option<string>)
  datatype SttChannel = SttChannel(alternatives: Option<seq<SttAlternative>>)
  datatype SttResults = SttResults(channels: Option<seq<SttChannel>>)
  datatype SttReply = SttFailed | SttOk(results: Option<SttResults>)

  // ---------------------------------------------------------------------------
  // Pure decisions

  /** The form only starts the interview when name, age and survey id are filled in. */
  predicate CanStart(u: UserInfo) {
    u.name != "" && u.age != "" && u.surveyId != ""
  }

  /** A turn can only be fetched with a session id and a survey id. */
  predicate CanFetch(sessionId: Option<string>, u: UserInfo) {
    Truthy(sessionId) && u.surveyId != ""
  }

  /** The start reply carries both a session id and an opening question. */
  predicate StartSucceeds(reply: StartReply) {
    reply.StartOk? && reply.session.Some?
    && Truthy(reply.session.value.sessionId) && Truthy(reply.session.value.initialResponse)
  }

  /** The body of the start request: the gender is lower-cased. */
  function StartPayload(u: UserInfo): (r: Request)
    ensures r.StartRequest? && r.surveyId == u.surveyId && r.name == u.name && r.age == u.age
    ensures r.gender == ToLower(u.gender)
    ensures |r.gender| == |u.gender| && ToLower(r.gender) == r.gender
  {
    ToLowerIdempotent(u.gender);
    StartRequest(u.surveyId, u.name, u.age, ToLower(u.gender))
  }

  /** The survey id taken from the address: the route parameter when it is
      non-empty, else the `surveyId` query parameter. */
  function UrlSurveyId(route: Option<string>, query: Option<string>): (r: Option<string>)
    ensures Truthy(r) <==> Truthy(route) || Truthy(query)
    ensures Truthy(route) ==> r == route
    ensures Truthy(r) && !Truthy(route) ==> r == query
  {
    if Truthy(route) then route else query
  }

  function FieldOf(u: UserInfo, f: UserField): string {
    match f
    case NameField => u.name
    case AgeField => u.age
    case GenderField => u.gender
    case SurveyIdField => u.surveyId
  }

  /** The form's change handlers: one field takes the new value. */
  function WithField(u: UserInfo, f: UserField, value: string): (r: UserInfo)
    ensures FieldOf(r, f) == value
    ensures forall g :: g != f ==> FieldOf(r, g) == FieldOf(u, g)
  {
    match f
    case NameField => u.(name := value)
    case AgeField => u.(age := value)
    case GenderField => u.(gender := value)
    case SurveyIdField => u.(surveyId := value)
  }

  /** Brings a turn reply to one shape. `ai_session` wins over `ai_response`;
      a reply with neither is malformed (`None`), as is a failed one. */
  function Normalize(reply: TurnReply): (r: Option<Turn>)
    ensures r.Some? <==> reply.TurnOk? && reply.data.Some?
                         && (reply.data.value.aiSession.Some? || reply.data.value.aiResponse.Some?)
    ensures r.Some? && reply.data.value.aiSession.None? ==>
              r.value.question == reply.data.value.aiResponse.value.message
              && r.value.status == reply.data.value.status
  {
    match reply
    case TurnFailed => None
    case TurnOk(data) =>
      if data.None? then None
      else if data.value.aiSession.Some? then
        Some(Turn(data.value.aiSession.value.initialResponse, data.value.aiSession.value.status))
      else if data.value.aiResponse.Some? then
        Some(Turn(data.value.aiResponse.value.message, data.value.status))
      else None
  }

  /** Whenever `ai_session` is present, the question and status come from it:
      `ai_response` and the top-level status are ignored. */
  lemma AiSessionWins(s: AiSession, other: Option<AiResponse>, status: Option<int>)
    ensures Normalize(TurnOk(Some(TurnData(Some(s), other, status))))
         == Some(Turn(s.initialResponse, s.status))
  {
  }

  /** Status -1 ends the interview. */
  predicate IsTerminal(t: Turn) {
    t.status == Some(-1)
  }

  function OpeningMessage(question: string, now: nat): (m: Message)
    ensures m.id == "q-initial" && m.role == Assistant && m.content == question
  {
    Message("q-initial", Assistant, question, now)
  }

  function QuestionMessage(question: string, now: nat): (m: Message)
    ensures m.role == Assistant && m.content == question
    ensures |m.id| > 2 && m.id[..2] == "q-" && AllDigits(m.id[2..])
  {
    var digits := NatToString(now);
    assert ("q-" + digits)[2..] == digits;
    Message("q-" + digits, Assistant, question, now)
  }

  function ClosingMessage(now: nat): Message {
    Message("end", Assistant, ClosingText, now)
  }

  function ApologyMessage(now: nat): Message {
    Message("error", Assistant, ApologyText, now)
  }

  /** The respondent's answer as it enters the transcript: trimmed, and with an
      id made of the clock reading and `-user`. */
  function AnswerMessage(answer: string, now: nat): (m: Message)
    ensures m.role == User && m.content == Trim(answer)
    ensures m.content == [] <==> IsBlank(answer)
    ensures |m.id| > 5 && m.id[|m.id| - 5..] == "-user"
  {
    var id := NatToString(now) + "-user";
    assert id[|id| - 5..] == "-user";
    Message(id, User, Trim(answer), now)
  }

  /** What one turn appends to the transcript. */
  function TurnMessages(reply: TurnReply, now: nat): (r: seq<Message>)
    ensures |r| <= 1
    ensures forall m :: m in r ==> m.role == Assistant
    // every failure, and a malformed reply, appends exactly the apology
    ensures Normalize(reply).None? ==> r == [ApologyMessage(now)]
    // status -1 appends exactly the closing message, even with a question
    ensures Normalize(reply).Some? && IsTerminal(Normalize(reply).value) ==> r == [ClosingMessage(now)]
    // otherwise the question, whenever it is non-empty
    ensures (Normalize(reply).Some? && !IsTerminal(Normalize(reply).value) && Truthy(Normalize(reply).value.question)) ==>
              r == [QuestionMessage(Normalize(reply).value.question.value, now)]
    ensures r == [] <==> Normalize(reply).Some? && !IsTerminal(Normalize(reply).value)
                         && !Truthy(Normalize(reply).value.question)
  {
    match Normalize(reply)
    case None => [ApologyMessage(now)]
    case Some(t) =>
      if IsTerminal(t) then [ClosingMessage(now)]
      else if Truthy(t.question) then [QuestionMessage(t.question.value, now)]
      else []
  }

  /** Whether the page shows the speaking indicator after a turn: the closing
      text and a question are spoken, and the flag then reflects whether the
      text-to-speech service succeeded; otherwise it is left as it was. */
  function SpeakingAfterTurn(reply: TurnReply, ttsOk: bool, speaking: bool): (r: bool)
    // a spoken turn (closing text or question) sets the flag to the outcome of speech
    ensures |TurnMessages(reply, 0)| == 1 && TurnMessages(reply, 0)[0].id != "error" ==> r == ttsOk
    // any other turn leaves the flag as it was
    ensures r != speaking ==> |TurnMessages(reply, 0)| == 1 && TurnMessages(reply, 0)[0].id != "error"
  {
    match Normalize(reply)
    case None => speaking
    case Some(t) => if IsTerminal(t) || Truthy(t.question) then ttsOk else speaking
  }

  /** The optional chain `results?.channels?.[0]?.alternatives?.[0]?.transcript`. */
  function FirstTranscript(reply: SttReply): Option<string> {
    if reply.SttFailed? || reply.results.None? then None
    else
      var channels := reply.results.value.channels;
      if channels.None? || |channels.value| == 0 then None
      else
        var alternatives := channels.value[0].alternatives;
        if alternatives.None? || |alternatives.value| == 0 then None
        else alternatives.value[0].transcript
  }

  /** The transcript of a recording: the first alternative of the first channel,
      and the empty string on any failure or missing field. */
  function Transcript(reply: SttReply): (r: string)
    ensures reply.SttFailed? ==> r == ""
    ensures r != "" <==> Truthy(FirstTranscript(reply))
    ensures r != "" ==> FirstTranscript(reply) == Some(r)
  {
    var t := FirstTranscript(reply);
    if Truthy(t) then t.value else ""
  }

  /** Every turn request in `rs` carries a non-blank answer. */
  predicate AnswersNonBlank(rs: seq<Request>) {
    forall i :: 0 <= i < |rs| && rs[i].TurnRequest? ==> !IsBlank(rs[i].message)
  }

  // ---------------------------------------------------------------------------
  // The page

  class InterviewPage {
    const storage: SessionStorage
    var step: Step
    var userInfo: UserInfo
    var sessionId: Option<string>
    var messages: seq<Message>
    var inputText: string
    var isSpeaking: bool
    var isProcessing: bool
    var isRecording: bool
    var audioChunks: seq<AudioChunk>
    var recordedAudio: Option<Blob>
    /** The texts of the alerts shown, in order. */
    var alerts: seq<string>
    var requests: seq<Request>

    /** The chat step is reached exactly when a session is open, and the chat
        always opens with the opening question. */
    ghost predicate Valid()
      reads this
    {
      (step == ChatStep <==> sessionId.Some?)
      && (sessionId.Some? ==> sessionId.value != "")
      && (step == ChatStep ==> |messages| > 0 && messages[0].id == "q-initial" && messages[0].role == Assistant)
    }

    constructor (storage: SessionStorage)
      ensures Valid()
      ensures this.storage == storage
      ensures step == UserInfoStep && userInfo == UserInfo("", "", "", "") && sessionId == None
      ensures messages == [] && inputText == "" && !isSpeaking && !isProcessing && !isRecording
      ensures audioChunks == [] && recordedAudio == None && alerts == [] && requests == []
    {
      this.storage := storage;
      step := UserInfoStep;
      userInfo := UserInfo("", "", "", "");
      sessionId := None;
      messages := [];
      inputText := "";
      isSpeaking := false;
      isProcessing := false;
      isRecording := false;
      audioChunks := [];
      recordedAudio := None;
      alerts := [];
      requests := [];
    }

    /** The mount effect: a survey id in the address is copied into the form
        and into session storage. */
    method ApplyUrlSurveyId(route: Option<string>, query: Option<string>)
      modifies this`userInfo, storage
      ensures var id := UrlSurveyId(route, query);
              if Truthy(id) then
                userInfo == old(userInfo).(surveyId := id.value)
                && storage.items == old(storage.items)["surveyId" := id.value]
              else
                userInfo == old(userInfo) && storage.items == old(storage.items)
    {
      var id := UrlSurveyId(route, query);
      if Truthy(id) {
        userInfo := userInfo.(surveyId := id.value);
        storage.SetItem("surveyId", id.value);
      }
    }

    /** A change event on one of the form's inputs. */
    method EditField(f: UserField, value: string)
      modifies this`userInfo
      ensures userInfo == WithField(old(userInfo), f, value)
    {
      userInfo := WithField(userInfo, f, value);
    }

    /** `startInterview`: one start request; on success the session id is kept
        (and stored), the transcript becomes the opening question alone and the
        chat opens; on any failure an alert is shown and nothing else moves. */
    method StartInterview(reply: StartReply, ttsOk: bool, now: nat)
      requires Valid()
      modifies this`isProcessing, this`sessionId, this`messages, this`step, this`isSpeaking,
               this`alerts, this`requests, storage
      ensures Valid()
      ensures requests == old(requests) + [StartPayload(userInfo)]
      ensures !isProcessing
      ensures StartSucceeds(reply) ==>
                var s := reply.session.value;
                sessionId == s.sessionId && step == ChatStep
                && messages == [OpeningMessage(s.initialResponse.value, now)]
                && storage.items == old(storage.items)["session_id" := s.sessionId.value]
                && isSpeaking == ttsOk && alerts == old(alerts)
      ensures !StartSucceeds(reply) ==>
                sessionId == old(sessionId) && step == old(step) && messages == old(messages)
                && storage.items == old(storage.items) && isSpeaking == old(isSpeaking)
                && alerts == old(alerts) + [StartFailedAlert]
    {
      isProcessing := true;
      requests := requests + [StartPayload(userInfo)];
      if StartSucceeds(reply) {
        var s := reply.session.value;
        storage.SetItem("session_id", s.sessionId.value);
        sessionId := s.sessionId;
        messages := [OpeningMessage(s.initialResponse.value, now)];
        step := ChatStep;
        isSpeaking := ttsOk;
      } else {
        alerts := alerts + [StartFailedAlert];
      }
      isProcessing := false;
    }

    /** The form's submit handler: the gate, then `startInterview`. */
    method SubmitUserInfo(reply: StartReply, ttsOk: bool, now: nat)
      requires Valid()
      modifies this`isProcessing, this`sessionId, this`messages, this`step, this`isSpeaking,
               this`alerts, this`requests, storage
      ensures Valid()
      ensures !CanStart(userInfo) ==>
                isProcessing == old(isProcessing) && sessionId == old(sessionId)
                && messages == old(messages) && step == old(step) && isSpeaking == old(isSpeaking)
                && alerts == old(alerts) && requests == old(requests) && storage.items == old(storage.items)
      ensures CanStart(userInfo) ==>
                requests == old(requests) + [StartPayload(userInfo)] && !isProcessing
      ensures CanStart(userInfo) && StartSucceeds(reply) ==>
                var s := reply.session.value;
                sessionId == s.sessionId && step == ChatStep
                && messages == [OpeningMessage(s.initialResponse.value, now)]
                && storage.items == old(storage.items)["session_id" := s.sessionId.value]
                && isSpeaking == ttsOk && alerts == old(alerts)
      ensures CanStart(userInfo) && !StartSucceeds(reply) ==>
                sessionId == old(sessionId) && step == old(step) && messages == old(messages)
                && storage.items == old(storage.items) && isSpeaking == old(isSpeaking)
                && alerts == old(alerts) + [StartFailedAlert]
    {
      if CanStart(userInfo) {
        StartInterview(reply, ttsOk, now);
      }
    }

    /** `fetchNextQuestion`: without a session id or a survey id nothing
        happens; otherwise one turn request is sent and what the reply calls
        for is appended to the transcript. */
    method FetchNextQuestion(answer: string, reply: TurnReply, ttsOk: bool, now: nat)
      requires Valid()
      modifies this`messages, this`isProcessing, this`isSpeaking, this`requests
      ensures Valid()
      ensures !CanFetch(sessionId, userInfo) ==>
                messages == old(messages) && isProcessing == old(isProcessing)
                && isSpeaking == old(isSpeaking) && requests == old(requests)
      ensures CanFetch(sessionId, userInfo) ==>
                requests == old(requests) + [TurnRequest(userInfo.surveyId, answer)]
                && messages == old(messages) + TurnMessages(reply, now)
                && !isProcessing
                && isSpeaking == SpeakingAfterTurn(reply, ttsOk, old(isSpeaking))
    {
      if !CanFetch(sessionId, userInfo) {
        return;
      }
      isProcessing := true;
      requests := requests + [TurnRequest(userInfo.surveyId, answer)];
      messages := messages + TurnMessages(reply, now);
      isSpeaking := SpeakingAfterTurn(reply, ttsOk, isSpeaking);
      isProcessing := false;
    }

    /** `sendAnswer`: a blank answer is ignored; otherwise the trimmed answer is
        appended, the input is cleared and the untrimmed answer is forwarded. */
    method SendAnswer(answer: string, reply: TurnReply, ttsOk: bool, now: nat)
      requires Valid()
      modifies this`messages, this`inputText, this`isProcessing, this`isSpeaking, this`requests
      ensures Valid()
      ensures IsBlank(answer) ==>
                messages == old(messages) && inputText == old(inputText)
                && isProcessing == old(isProcessing) && isSpeaking == old(isSpeaking)
                && requests == old(requests)
      ensures !IsBlank(answer) ==>
                inputText == ""
                && messages == old(messages) + [AnswerMessage(answer, now)]
                               + (if CanFetch(sessionId, userInfo) then TurnMessages(reply, now) else [])
                && requests == old(requests)
                               + (if CanFetch(sessionId, userInfo) then [TurnRequest(userInfo.surveyId, answer)] else [])
                && (CanFetch(sessionId, userInfo) ==>
                      !isProcessing && isSpeaking == SpeakingAfterTurn(reply, ttsOk, old(isSpeaking)))
                && (!CanFetch(sessionId, userInfo) ==>
                      isProcessing == old(isProcessing) && isSpeaking == old(isSpeaking))
      ensures AnswersNonBlank(old(requests)) ==> AnswersNonBlank(requests)
    {
      if IsBlank(answer) {
        return;
      }
      messages := messages + [AnswerMessage(answer, now)];
      inputText := "";
      FetchNextQuestion(answer, reply, ttsOk, now);
    }

    /** `startRecording`: with the microphone, the chunk buffer is emptied and
        recording starts; without it, an alert is shown. */
    method StartRecording(microphoneOk: bool)
      modifies this`isRecording, this`audioChunks, this`alerts
      ensures microphoneOk ==> isRecording && audioChunks == [] && alerts == old(alerts)
      ensures !microphoneOk ==>
                isRecording == old(isRecording) && audioChunks == old(audioChunks)
                && alerts == old(alerts) + [MicrophoneAlert]
    {
      if microphoneOk {
        audioChunks := [];
        isRecording := true;
      } else {
        alerts := alerts + [MicrophoneAlert];
      }
    }

    /** The recorder's data handler: only non-empty chunks are kept. */
    method ChunkRecorded(chunk: AudioChunk)
      modifies this`audioChunks
      ensures audioChunks == old(audioChunks) + (if |chunk| > 0 then [chunk] else [])
    {
      if |chunk| > 0 {
        audioChunks := audioChunks + [chunk];
      }
    }

    /** `stopRecording` together with the recorder's stop handler: the chunks
        become the recorded audio. */
    method StopRecording()
      modifies this`isRecording, this`recordedAudio
      ensures old(isRecording) ==> !isRecording && recordedAudio == Some(Blob(audioChunks))
      ensures !old(isRecording) ==> !isRecording && recordedAudio == old(recordedAudio)
    {
      if isRecording {
        isRecording := false;
        recordedAudio := Some(Blob(audioChunks));
      }
    }

    /** `sendAudioAnswer`: without a recording nothing happens; otherwise the
        recording is transcribed, a non-blank transcript is sent as the answer,
        a blank one raises an alert, and the recording is cleared. */
    method SendAudioAnswer(stt: SttReply, reply: TurnReply, ttsOk: bool, now: nat)
      requires Valid()
      modifies this`messages, this`inputText, this`isProcessing, this`isSpeaking, this`requests,
               this`recordedAudio, this`alerts
      ensures Valid()
      ensures old(recordedAudio).None? ==>
                messages == old(messages) && inputText == old(inputText)
                && isProcessing == old(isProcessing) && isSpeaking == old(isSpeaking)
                && requests == old(requests) && recordedAudio == None && alerts == old(alerts)
      ensures old(recordedAudio).Some? ==>
                var t := Transcript(stt);
                var sent := old(requests) + [SpeechToTextRequest(old(recordedAudio).value)];
                recordedAudio == None && !isProcessing
                && (IsBlank(t) ==>
                      messages == old(messages) && inputText == old(inputText)
                      && isSpeaking == old(isSpeaking) && requests == sent
                      && alerts == old(alerts) + [UnclearAudioAlert])
                && (!IsBlank(t) ==>
                      alerts == old(alerts) && inputText == ""
                      && messages == old(messages) + [AnswerMessage(t, now)]
                                     + (if CanFetch(sessionId, userInfo) then TurnMessages(reply, now) else [])
                      && requests == sent
                                     + (if CanFetch(sessionId, userInfo) then [TurnRequest(userInfo.surveyId, t)] else [])
                      && isSpeaking == (if CanFetch(sessionId, userInfo)
                                        then SpeakingAfterTurn(reply, ttsOk, old(isSpeaking))
                                        else old(isSpeaking)))
      ensures AnswersNonBlank(old(requests)) ==> AnswersNonBlank(requests)
    {
      if recordedAudio.None? {
        return;
      }
      isProcessing := true;
      requests := requests + [SpeechToTextRequest(recordedAudio.value)];
      var t := Transcript(stt);
      if !IsBlank(t) {
        SendAnswer(t, reply, ttsOk, now);
      } else {
        alerts := alerts + [UnclearAudioAlert];
      }
      isProcessing := false;
      recordedAudio := None;
    }
  }
}
