/**
 * The voice turn controller of the frontend (`VoiceInterview` in
 * frontend/app/page.tsx): four flags, a status line and a transcript, driven
 * by starting the call, holding and releasing the microphone, processing one
 * recorded answer, and ending the call. Backend answers and device outcomes
 * are inputs; audio playback always finishes.
 */
module Voice {
  import opened Common

  /** One transcript entry: 'user' or 'ai' with its text. */
  datatype Turn = Turn(role: Role, text: string)

  const Welcome: string := "Click START CALL to begin voice interview"
  const Starting: string := "Starting interview..."
  const StartFailed: string := "Failed to start. Is backend running?"
  const AiSpeaking: string := "AI is speaking..."
  const YourTurn: string := "Your turn! Hold mic to speak."
  const Listening: string := "\U{1F3A4} LISTENING... Release to send"
  const MicDenied: string := "Microphone access denied!"
  const Released: string := "Processing..."
  const ProcessingSpeech: string := "Processing your speech..."
  const NotHeard: string := "Could not hear you. Try again."
  const TurnError: string := "Error. Try again."
  const CallEnded: string := "Call ended. Click START CALL to begin again."
  const DefaultQuestion: string := "Tell me about yourself."

  class VoiceInterview {
    var isCallActive: bool
    var isListening: bool
    var isSpeaking: bool
    var isProcessing: bool
    var status: string
    var messages: seq<Turn>
    /** Whether `mediaRecorderRef` holds a recorder. */
    var hasRecorder: bool

    /** Half duplex: the microphone records only during a call, through a
        recorder, and never while the AI speaks or a turn is processed. */
    ghost predicate Valid()
      reads this
    {
      isListening ==> isCallActive && hasRecorder && !isSpeaking && !isProcessing
    }

    /** Whether the hold-to-talk button is enabled. */
    predicate MicEnabled()
      reads this
    {
      isCallActive && !isSpeaking && !isProcessing
    }

    constructor()
      ensures Valid()
      ensures !isCallActive && !isListening && !isSpeaking && !isProcessing
      ensures status == Welcome && messages == [] && !hasRecorder
    {
      isCallActive := false;
      isListening := false;
      isSpeaking := false;
      isProcessing := false;
      status := Welcome;
      messages := [];
      hasRecorder := false;
    }

    /** `startCall`, offered only while no call is active. `question` is the
        opening question request (its `question` field, possibly absent) and
        `ttsOk` whether the speech request for it succeeded. A failed question
        request ends the call with the log untouched; a failed speech request
        ends it too, with the question logged and speaking still on. */
    method StartCall(question: Reply<Option<string>>, ttsOk: bool)
      requires !isCallActive && Valid()
      modifies this
      ensures Valid() && !isProcessing && !isListening && hasRecorder == old(hasRecorder)
      ensures question.Failed? ==>
                !isCallActive && status == StartFailed && messages == old(messages) && isSpeaking == old(isSpeaking)
      ensures question.Ok? ==>
                messages == [Turn(Ai, if Truthy(question.value) then question.value.value else DefaultQuestion)]
      ensures question.Ok? && ttsOk ==> isCallActive && !isSpeaking && status == YourTurn && MicEnabled()
      ensures question.Ok? && !ttsOk ==> !isCallActive && isSpeaking && status == StartFailed
    {
      isCallActive := true;
      status := Starting;
      isProcessing := true;
      match question {
        case Ok(field) =>
          var text := if Truthy(field) then field.value else DefaultQuestion;
          messages := [Turn(Ai, text)];
          status := AiSpeaking;
          isSpeaking := true;
          if ttsOk {
            isSpeaking := false;
            status := YourTurn;
          } else {
            status := StartFailed;
            isCallActive := false;
          }
        case Failed(_) =>
          status := StartFailed;
          isCallActive := false;
      }
      isProcessing := false;
    }

    /** `startListening` (the button is shown during a call): while the AI
        speaks or a turn is processed nothing happens; otherwise a granted
        microphone starts a fresh recorder and listening, a refused one only
        changes the status. */
    method StartListening(micOk: bool)
      requires isCallActive && Valid()
      modifies this
      ensures Valid()
      ensures !old(MicEnabled()) ==> unchanged(this)
      ensures old(MicEnabled()) && micOk ==> isListening && hasRecorder && status == Listening
      ensures old(MicEnabled()) && !micOk ==> isListening == old(isListening) && hasRecorder == old(hasRecorder) && status == MicDenied
      ensures isCallActive && isSpeaking == old(isSpeaking) && isProcessing == old(isProcessing) && messages == old(messages)
    {
      if isSpeaking || isProcessing {
        return;
      }
      if micOk {
        hasRecorder := true;
        isListening := true;
        status := Listening;
      } else {
        status := MicDenied;
      }
    }

    /** `stopListening`: when listening, the recorder stops and listening
        ends; `stopped` says that the recorder's stop handler will process the
        recording. Otherwise nothing happens. */
    method StopListening() returns (stopped: bool)
      requires Valid()
      modifies this
      ensures Valid() && !isListening
      ensures stopped == old(isListening)
      ensures stopped ==> status == Released
      ensures !stopped ==> unchanged(this)
      ensures isCallActive == old(isCallActive) && isSpeaking == old(isSpeaking) && isProcessing == old(isProcessing)
      ensures messages == old(messages) && hasRecorder == old(hasRecorder)
    {
      stopped := hasRecorder && isListening;
      if stopped {
        isListening := false;
        status := Released;
      }
    }

    /** `processAudio`, run by the recorder's stop handler once listening has
        ended. `transcript` is the speech-to-text answer (its `text` field,
        possibly absent), `reply` the chat answer and `ttsOk` whether the
        speech request succeeded. An empty transcript logs nothing; a heard
        one is logged, then the reply; every path ends with processing off,
        but a failed speech request leaves speaking on. */
    method ProcessAudio(transcript: Reply<Option<string>>, reply: Reply<string>, ttsOk: bool)
      requires !isListening && Valid()
      modifies this
      ensures Valid() && !isProcessing && !isListening
      ensures isCallActive == old(isCallActive) && hasRecorder == old(hasRecorder)
      ensures transcript.Failed? ==> messages == old(messages) && isSpeaking == old(isSpeaking) && status == TurnError
      ensures transcript.Ok? && !Truthy(transcript.value) ==>
                messages == old(messages) && isSpeaking == old(isSpeaking) && status == NotHeard
      ensures transcript.Ok? && Truthy(transcript.value) && reply.Failed? ==>
                messages == old(messages) + [Turn(User, transcript.value.value)]
                && isSpeaking == old(isSpeaking) && status == TurnError
      ensures transcript.Ok? && Truthy(transcript.value) && reply.Ok? ==>
                messages == old(messages) + [Turn(User, transcript.value.value), Turn(Ai, reply.value)]
      ensures transcript.Ok? && Truthy(transcript.value) && reply.Ok? && ttsOk ==> !isSpeaking && status == YourTurn
      ensures transcript.Ok? && Truthy(transcript.value) && reply.Ok? && !ttsOk ==>
                isSpeaking && status == TurnError && !MicEnabled()
    {
      isProcessing := true;
      status := ProcessingSpeech;
      match transcript {
        case Failed(_) =>
          status := TurnError;
        case Ok(field) =>
          if !Truthy(field) {
            status := NotHeard;
            isProcessing := false;
            return;
          }
          messages := messages + [Turn(User, field.value)];
          match reply {
            case Failed(_) =>
              status := TurnError;
            case Ok(answer) =>
              messages := messages + [Turn(Ai, answer)];
              status := AiSpeaking;
              isSpeaking := true;
              if ttsOk {
                isSpeaking := false;
                status := YourTurn;
              } else {
                status := TurnError;
              }
          }
      }
      isProcessing := false;
    }

    /** `endCall`, from any state: the recorder is stopped (a failure is
        swallowed), all four flags go off and the transcript is cleared.
        `lateTurn` says that a recording was in progress, whose stop handler
        will still process it after the call has ended. */
    method EndCall() returns (lateTurn: bool)
      modifies this
      ensures Valid()
      ensures !isCallActive && !isListening && !isSpeaking && !isProcessing
      ensures messages == [] && status == CallEnded && hasRecorder == old(hasRecorder)
      ensures lateTurn == (old(hasRecorder) && old(isListening))
    {
      lateTurn := hasRecorder && isListening;
      isCallActive := false;
      isListening := false;
      isSpeaking := false;
      isProcessing := false;
      status := CallEnded;
      messages := [];
    }
  }
}
