/** The chat client component (client/src/components/Chatbot.jsx): its React
    state, the module-level `recognition` and `silenceTimer` handles, and the
    browser events that drive them, each event a method. Callbacks handed to
    `setTimeout` without a handle are kept in `deferred` until the browser
    runs them; a request sent and not yet answered stays in `inFlight`. */
module ChatClient {
  import opened Wrappers
  import opened Text
  import opened Stages
  import opened Dialogue
  import opened SilenceTimer

  /** The speech synthesiser, which `speak` keeps to at most one utterance:
      queued until its `onstart` event, then playing until its `onend`. */
  datatype Speech = Silent | Queued(text: string) | Playing(text: string)

  /** A callback scheduled with `setTimeout` whose handle is not kept. */
  datatype Deferred = SpeakLater(text: string) | ListenLater

  /** The recognisers after `recognition.stop()` on the instance `handle`
      names: that one stops capturing, every other keeps its state. */
  function Stopped(recognizers: seq<bool>, handle: Option<nat>): (r: seq<bool>)
    ensures |r| == |recognizers|
    ensures forall k :: 0 <= k < |r| ==> r[k] == (recognizers[k] && handle != Some(k))
  {
    if handle.Some? && handle.value < |recognizers| then recognizers[handle.value := false]
    else recognizers
  }

  /** Stopping twice is stopping once. */
  lemma StoppedIdempotent(recognizers: seq<bool>, handle: Option<nat>)
    ensures Stopped(Stopped(recognizers, handle), handle) == Stopped(recognizers, handle)
  {
  }

  class Chatbot {
    const userId: string
    const tone: string
    /** Whether the browser offers `SpeechRecognition` at all. */
    const canRecognize: bool

    var messages: seq<Message>
    var input: string
    var stage: string
    var loading: bool
    var ttsOn: bool
    var voiceMode: bool
    var voiceTranscript: string

    /** Every recognition instance created so far; true while it captures. */
    var recognizers: seq<bool>
    /** The module-level `recognition`: the index of the instance it holds, or null. */
    var recognition: Option<nat>
    /** The module-level `silenceTimer`, while it is pending. */
    var silenceTimer: Option<Timer>
    /** The time in milliseconds. */
    var clock: int

    var speech: Speech
    var deferred: multiset<Deferred>
    /** Request bodies sent and not answered yet, oldest first. */
    var inFlight: seq<Payload>
    /** The greeting request sent when the component mounts is unanswered. */
    var greetingPending: bool

    ghost predicate Valid()
      reads this
    {
      && (recognition.None? <==> recognizers == [])
      && (recognition.Some? ==> recognition.value == |recognizers| - 1)
      && (voiceMode ==> ttsOn)
      && (!speech.Silent? ==> ttsOn)
      && (loading ==> inFlight != [])
      && (forall p :: p in inFlight ==> Outgoing(p, userId))
      && (silenceTimer.Some? ==> silenceTimer.value.deadline - SilenceDelay <= clock)
    }

    /** Some recognition instance is capturing speech. */
    predicate Capturing()
      reads this
    {
      true in recognizers
    }

    /** The component mounting at time `now`: initial state, with the greeting
        request (an empty `message`) on its way. */
    constructor (userId: string, canRecognize: bool, now: int)
      ensures Valid()
      ensures this.userId == userId && tone == "simple" && this.canRecognize == canRecognize
      ensures messages == [] && input == "" && stage == AskMode && !loading
      ensures !ttsOn && !voiceMode && voiceTranscript == ""
      ensures recognizers == [] && recognition == None && silenceTimer == None && clock == now
      ensures speech == Silent && deferred == multiset{} && inFlight == [] && greetingPending
    {
      this.userId := userId;
      tone := "simple";
      this.canRecognize := canRecognize;
      messages := [];
      input := "";
      stage := AskMode;
      loading := false;
      ttsOn := false;
      voiceMode := false;
      voiceTranscript := "";
      recognizers := [];
      recognition := None;
      silenceTimer := None;
      clock := now;
      speech := Silent;
      deferred := multiset{};
      inFlight := [];
      greetingPending := true;
    }

    /** The greeting reply: it sets the stage and replaces the whole transcript. */
    method GreetingArrived(resStage: string, reply: string)
      requires Valid() && greetingPending
      modifies this`stage, this`messages, this`greetingPending
      ensures Valid()
      ensures stage == resStage && messages == [Message(Bot, reply)] && !greetingPending
    {
      stage := resStage;
      messages := [Message(Bot, reply)];
      greetingPending := false;
    }

    /** Typing into the input box. */
    method Type(text: string)
      requires Valid()
      modifies this`input
      ensures Valid() && input == text
    {
      input := text;
    }

    /** `stopListening`: stops the instance the global handle holds, if any. */
    method StopListening()
      requires Valid()
      modifies this`recognizers
      ensures Valid()
      ensures recognizers == Stopped(old(recognizers), recognition)
      ensures recognition.Some? ==> !recognizers[recognition.value]
    {
      if recognition.Some? {
        recognizers := recognizers[recognition.value := false];
      }
    }

    /** The effect of `startListening`: without a recogniser nothing happens;
        otherwise a new capturing instance replaces the global handle, and the
        instance it held before is left as it was. */
    twostate predicate Listened()
      reads this
    {
      if canRecognize then
        recognizers == old(recognizers) + [true] && recognition == Some(|old(recognizers)|)
      else
        recognizers == old(recognizers) && recognition == old(recognition)
    }

    method StartListening()
      requires Valid()
      modifies this`recognizers, this`recognition
      ensures Valid() && Listened()
    {
      if !canRecognize {
        return;
      }
      recognizers := recognizers + [true];
      recognition := Some(|recognizers| - 1);
    }

    /** `speak`: a no-op while speech is off; otherwise any queued or playing
        utterance is cancelled and the text, without asterisks, is queued. */
    method Speak(text: string)
      requires Valid()
      modifies this`speech
      ensures Valid()
      ensures speech == if ttsOn then Queued(Without(text, '*')) else old(speech)
    {
      if !ttsOn {
        return;
      }
      speech := Silent;
      speech := Queued(Without(text, '*'));
    }

    /** None of the fields a submit may change has changed. */
    twostate predicate NothingSent()
      reads this
    {
      && messages == old(messages) && input == old(input) && loading == old(loading)
      && voiceMode == old(voiceMode) && ttsOn == old(ttsOn) && deferred == old(deferred)
      && inFlight == old(inFlight) && recognizers == old(recognizers)
    }

    /** The effect of `sendMessage` once the text `msg` is accepted: it is
        appended as a user entry, the input box is cleared, the request is
        sent with the stage's one key, and choosing voice or both turns voice
        mode and speech on and schedules the spoken greeting and listening. */
    twostate predicate Sent(msg: string, fromVoice: bool)
      reads this
    {
      && messages == old(messages) + [UserEntry(msg, fromVoice)]
      && input == "" && loading
      && inFlight == old(inFlight) + [PayloadFor(userId, tone, old(stage), msg)]
      && recognizers == (if fromVoice then Stopped(old(recognizers), old(recognition))
                         else old(recognizers))
      && if VoiceChosen(old(stage), msg) then
           && voiceMode && ttsOn
           && deferred == old(deferred) + multiset{SpeakLater(VoiceGreeting), ListenLater}
         else
           voiceMode == old(voiceMode) && ttsOn == old(ttsOn) && deferred == old(deferred)
    }

    /** The effect of `sendMessage` up to the request: blank input is ignored;
        otherwise the trimmed text, after the shortcuts of the stage, is sent. */
    twostate predicate Submitted(raw: string, fromVoice: bool, sent: bool)
      reads this
    {
      && sent == !IsBlank(raw)
      && (!sent ==> NothingSent())
      && (sent ==> Sent(Shortcut(old(stage), Trim(raw)), fromVoice))
    }

    /** The reassignments of `msg` at mode selection. */
    static method ApplyShortcut(stage: string, trimmed: string) returns (msg: string)
      ensures msg == Shortcut(stage, trimmed)
    {
      msg := trimmed;
      if stage == AskMode {
        if msg == "1" { msg := "text"; }
        if msg == "2" { msg := "voice"; }
        if msg == "3" { msg := "both"; }
      }
    }

    /** The user entry of `sendMessage`; a spoken turn first stops the
        recogniser the global handle holds. */
    method AppendUserEntry(msg: string, fromVoice: bool)
      requires Valid()
      modifies this`messages, this`recognizers
      ensures Valid()
      ensures messages == old(messages) + [UserEntry(msg, fromVoice)]
      ensures recognizers == if fromVoice then Stopped(old(recognizers), recognition) else old(recognizers)
    {
      if !fromVoice {
        messages := messages + [Message(User, msg)];
      } else {
        StopListening();
        messages := messages + [Message(User, VoicePrefix + msg)];
      }
    }

    /** The request body of `sendMessage`, filled in key by key; choosing voice
        or both at mode selection also turns voice mode and speech on and
        schedules the spoken greeting and listening. */
    method BuildPayload(msg: string) returns (payload: Payload)
      requires Valid()
      modifies this`voiceMode, this`ttsOn, this`deferred
      ensures Valid()
      ensures payload == PayloadFor(userId, tone, stage, msg)
      ensures if VoiceChosen(stage, msg) then
                && voiceMode && ttsOn
                && deferred == old(deferred) + multiset{SpeakLater(VoiceGreeting), ListenLater}
              else
                voiceMode == old(voiceMode) && ttsOn == old(ttsOn) && deferred == old(deferred)
    {
      payload := Payload(userId, tone, None, None, None, None);
      if stage == AskMode {
        payload := payload.(mode := Some(msg));
        if msg == "voice" || msg == "both" {
          voiceMode := true;
          ttsOn := true;
          deferred := deferred + multiset{SpeakLater(VoiceGreeting), ListenLater};
        }
      } else if stage == AskLocation {
        payload := payload.(location := Some(msg));
      } else if stage == AskSymptoms {
        payload := payload.(symptoms := Some(msg));
      } else {
        payload := payload.(message := Some(msg));
      }
    }

    /** `sendMessage` from clearing the input box to sending the request. */
    method Dispatch(msg: string)
      requires Valid() && Outgoing(PayloadFor(userId, tone, stage, msg), userId)
      modifies this`input, this`loading, this`voiceMode, this`ttsOn, this`deferred, this`inFlight
      ensures Valid()
      ensures input == "" && loading
      ensures inFlight == old(inFlight) + [PayloadFor(userId, tone, stage, msg)]
      ensures if VoiceChosen(stage, msg) then
                && voiceMode && ttsOn
                && deferred == old(deferred) + multiset{SpeakLater(VoiceGreeting), ListenLater}
              else
                voiceMode == old(voiceMode) && ttsOn == old(ttsOn) && deferred == old(deferred)
    {
      input := "";
      var payload := BuildPayload(msg);
      Enqueue(payload);
    }

    /** The request `payload` goes out and the component shows it is waiting.
        React applies the state updates of one handler together, so `loading`
        is set here, with the request on its way. */
    method Enqueue(payload: Payload)
      requires Valid() && Outgoing(payload, userId)
      modifies this`inFlight, this`loading
      ensures Valid() && loading && inFlight == old(inFlight) + [payload]
    {
      inFlight := inFlight + [payload];
      loading := true;
    }

    /** The part of `sendMessage` after the blank check and the shortcuts. */
    method Send(msg: string, fromVoice: bool)
      requires Valid() && Outgoing(PayloadFor(userId, tone, stage, msg), userId)
      modifies this`messages, this`input, this`loading, this`voiceMode, this`ttsOn,
               this`deferred, this`inFlight, this`recognizers
      ensures Valid() && Sent(msg, fromVoice)
    {
      AppendUserEntry(msg, fromVoice);
      Dispatch(msg);
    }

    /** `sendMessage(override, fromVoice)` until it awaits the reply. */
    method Submit(override: Option<string>, fromVoice: bool) returns (sent: bool)
      requires Valid()
      modifies this`messages, this`input, this`loading, this`voiceMode, this`ttsOn,
               this`deferred, this`inFlight, this`recognizers
      ensures Valid()
      ensures Submitted(RawInput(override, old(input)), fromVoice, sent)
    {
      var raw := if override.Some? then override.value else input;
      if IsBlank(raw) {
        TrimEmptyIffBlank(raw);
        return false;
      }
      var msg := ApplyShortcut(stage, Trim(raw));
      SentPayloadOutgoing(userId, tone, stage, raw);
      Send(msg, fromVoice);
      sent := true;
    }

    /** The reply to request `j`: the stage is taken from it, the reply is
        appended and spoken, listening is scheduled again when in voice mode,
        and `loading` is cleared. */
    method ReplyArrived(j: nat, resStage: string, reply: string)
      requires Valid() && j < |inFlight|
      modifies this`stage, this`messages, this`speech, this`deferred, this`inFlight, this`loading
      ensures Valid()
      ensures stage == resStage && messages == old(messages) + [Message(Bot, reply)]
      ensures speech == if ttsOn then Queued(Without(reply, '*')) else old(speech)
      ensures deferred == old(deferred) + if voiceMode then multiset{ListenLater} else multiset{}
      ensures inFlight == old(inFlight[..j] + inFlight[j + 1..]) && !loading
    {
      stage := resStage;
      messages := messages + [Message(Bot, reply)];
      Speak(reply);
      if voiceMode {
        deferred := deferred + multiset{ListenLater};
      }
      Settle(j);
    }

    /** Request `j` is answered or has failed: it leaves `inFlight` and
        `loading` is cleared. */
    method Settle(j: nat)
      requires Valid() && j < |inFlight|
      modifies this`inFlight, this`loading
      ensures Valid()
      ensures inFlight == old(inFlight[..j] + inFlight[j + 1..]) && !loading
    {
      inFlight := inFlight[..j] + inFlight[j + 1..];
      loading := false;
    }

    /** Request `j` failed: one fixed bot entry, the stage untouched, `loading` cleared. */
    method ReplyFailed(j: nat)
      requires Valid() && j < |inFlight|
      modifies this`messages, this`inFlight, this`loading
      ensures Valid()
      ensures messages == old(messages) + [Message(Bot, ServerError)] && stage == old(stage)
      ensures inFlight == old(inFlight[..j] + inFlight[j + 1..]) && !loading
    {
      messages := messages + [Message(Bot, ServerError)];
      Settle(j);
    }

    /** `onresult` of any recognition instance: the joined, trimmed segments
        become the shown transcript, and the pending silence timer is
        replaced by one that expires 2500 ms from now with that text. */
    method RecognitionResult(segments: seq<string>)
      requires Valid() && recognizers != []
      modifies this`voiceTranscript, this`silenceTimer
      ensures Valid()
      ensures voiceTranscript == Trim(Concat(segments))
      ensures silenceTimer == Step(old(silenceTimer), Heard(clock, voiceTranscript)).0
    {
      var text := Trim(Concat(segments));
      voiceTranscript := text;
      silenceTimer := None;
      silenceTimer := Some(Arm(clock, text));
    }

    /** The clock reaching `now`. A silence timer that is due fires: the shown
        transcript is cleared and its text is submitted as spoken input. */
    method AdvanceClock(now: int) returns (fired: Option<string>)
      requires Valid() && clock <= now
      modifies this`clock, this`silenceTimer, this`voiceTranscript,
               this`messages, this`input, this`loading, this`voiceMode, this`ttsOn,
               this`deferred, this`inFlight, this`recognizers
      ensures Valid() && clock == now
      ensures (silenceTimer, fired) == Step(old(silenceTimer), Tick(now))
      ensures fired.Some? ==> voiceTranscript == "" && Submitted(fired.value, true, !IsBlank(fired.value))
      ensures fired.None? ==> voiceTranscript == old(voiceTranscript) && NothingSent()
    {
      clock := now;
      fired := None;
      if silenceTimer.Some? && Due(silenceTimer.value, now) {
        var text := silenceTimer.value.text;
        silenceTimer := None;
        fired := Some(text);
        voiceTranscript := "";
        label before:
        var sent := Submit(Some(text), true);
        assert Submitted@before(text, true, sent);
      }
    }

    /** The Stop button: voice mode off and the current instance stopped. The
        pending silence timer, the speech and the scheduled callbacks are left
        alone, so a pending finalization still fires. */
    method StopPressed()
      requires Valid()
      modifies this`voiceMode, this`recognizers
      ensures Valid()
      ensures !voiceMode && recognizers == Stopped(old(recognizers), recognition)
      ensures silenceTimer == old(silenceTimer) && speech == old(speech) && deferred == old(deferred)
    {
      voiceMode := false;
      StopListening();
    }

    /** The utterance's `onstart`: it plays, and only now is capture stopped. */
    method UtteranceStarted()
      requires Valid() && speech.Queued?
      modifies this`speech, this`recognizers
      ensures Valid()
      ensures speech == Playing(old(speech).text)
      ensures recognizers == Stopped(old(recognizers), recognition)
    {
      speech := Playing(speech.text);
      StopListening();
    }

    /** The utterance's `onend`: listening restarts only in voice mode. */
    method UtteranceEnded()
      requires Valid() && speech.Playing?
      modifies this`speech, this`recognizers, this`recognition
      ensures Valid() && speech == Silent
      ensures voiceMode ==> Listened()
      ensures !voiceMode ==> recognizers == old(recognizers) && recognition == old(recognition)
    {
      speech := Silent;
      if voiceMode {
        StartListening();
      }
    }

    /** Instance `k` stopping on its own (the browser ends a session after
        silence or an error). */
    method RecognitionEnded(k: nat)
      requires Valid() && k < |recognizers|
      modifies this`recognizers
      ensures Valid() && recognizers == old(recognizers)[k := false]
    {
      recognizers := recognizers[k := false];
    }

    /** The browser running a scheduled callback. */
    method RunDeferred(d: Deferred)
      requires Valid() && d in deferred
      modifies this`deferred, this`speech, this`recognizers, this`recognition
      ensures Valid()
      ensures deferred == old(deferred) - multiset{d}
      ensures d.SpeakLater? ==> && speech == (if ttsOn then Queued(Without(d.text, '*')) else old(speech))
                                && recognizers == old(recognizers) && recognition == old(recognition)
      ensures d.ListenLater? ==> speech == old(speech) && Listened()
    {
      deferred := deferred - multiset{d};
      match d
      case SpeakLater(text) => Speak(text);
      case ListenLater => StartListening();
    }
  }

  /** Choosing voice with the quick reply 2 on a fresh component: once the
      server's reply arrives it is queued for speech, and a listening restart
      is pending beside it. */
  method ChooseVoice(reply: string) returns (c: Chatbot)
    ensures c.Valid() && c.canRecognize && c.voiceMode
    ensures c.speech.Queued? && ListenLater in c.deferred
  {
    c := new Chatbot("user-1", true, 0);
    assert "2"[0] == '2' && !IsBlank("2");
    TrimTrimmed("2");
    var sent := c.Submit(Some("2"), false);
    assert sent && c.voiceMode && |c.inFlight| == 1;
    c.ReplyArrived(0, AskLocation, reply);
  }

  /** Capture and playback can overlap: when the queued reply starts playing
      (which stops capture) and the pending listening restart runs next, a
      recogniser captures while the reply is still playing. */
  method CaptureDuringPlayback(c: Chatbot)
    requires c.Valid() && c.canRecognize && c.speech.Queued? && ListenLater in c.deferred
    modifies c
    ensures c.Valid() && c.speech.Playing? && c.Capturing()
  {
    c.UtteranceStarted();
    c.RunDeferred(ListenLater);
    assert c.recognizers[|c.recognizers| - 1];
  }
}
