/** What the chat client sends for one turn: the numeric shortcuts at mode
    selection, the single stage-dependent field of the request body, and the
    transcript entries it appends (client/src/components/Chatbot.jsx). */
module Dialogue {
  import opened Wrappers
  import opened Text
  import opened Stages

  /** The text that replaces the user's input when it was spoken. */
  const VoicePrefix := "\U{1F3A4} "
  /** The bot entry appended when a request fails. */
  const ServerError := "Server error."
  /** Spoken once after voice or both has been chosen. */
  const VoiceGreeting := "Okay, I am listening. Tell me how you feel."

  datatype Sender = User | Bot
  datatype Message = Message(sender: Sender, text: string)

  /** The JSON body of one request; an absent key is `None`. */
  datatype Payload = Payload(
    userId: string, tone: string,
    mode: Option<string>, location: Option<string>,
    symptoms: Option<string>, message: Option<string>)

  /** The four stage-dependent keys of a request body. */
  datatype Field = ModeKey | LocationKey | SymptomsKey | MessageKey

  function Get(p: Payload, f: Field): Option<string> {
    match f
    case ModeKey => p.mode
    case LocationKey => p.location
    case SymptomsKey => p.symptoms
    case MessageKey => p.message
  }

  /** The stage-dependent keys present in `p`. */
  function Fields(p: Payload): set<Field> {
    (if p.mode.Some? then {ModeKey} else {}) + (if p.location.Some? then {LocationKey} else {})
    + (if p.symptoms.Some? then {SymptomsKey} else {}) + (if p.message.Some? then {MessageKey} else {})
  }

  /** `override ?? input`: an explicit text wins, the input box is the fallback. */
  function RawInput(override: Option<string>, input: string): string {
    override.GetOr(input)
  }

  /** The quick replies 1, 2 and 3 stand for text, voice and both, but only
      while the mode is being chosen; every other input is kept as it is. */
  function Shortcut(stage: string, msg: string): (r: string)
    ensures stage != AskMode ==> r == msg
    ensures stage == AskMode ==>
      && (msg == "1" ==> r == "text") && (msg == "2" ==> r == "voice") && (msg == "3" ==> r == "both")
    ensures r != msg ==> msg in {"1", "2", "3"} && r in {"text", "voice", "both"}
  {
    if stage == AskMode && msg == "1" then "text"
    else if stage == AskMode && msg == "2" then "voice"
    else if stage == AskMode && msg == "3" then "both"
    else msg
  }

  /** The key a request carries at `stage`: the three intake stages have their
      own, every other stage string (the server's "answer" included) uses
      `message`. */
  function KeyFor(stage: string): (f: Field)
    ensures f == MessageKey <==> !IsIntake(stage)
    ensures (f == ModeKey <==> stage == AskMode) && (f == LocationKey <==> stage == AskLocation)
            && (f == SymptomsKey <==> stage == AskSymptoms)
  {
    if stage == AskMode then ModeKey
    else if stage == AskLocation then LocationKey
    else if stage == AskSymptoms then SymptomsKey
    else MessageKey
  }

  /** The request body the client builds for text `msg` at `stage`. */
  function PayloadFor(userId: string, tone: string, stage: string, msg: string): (p: Payload)
    ensures p.userId == userId && p.tone == tone
    ensures Fields(p) == {KeyFor(stage)}
    ensures Get(p, KeyFor(stage)) == Some(msg)
  {
    var f := KeyFor(stage);
    Payload(userId, tone,
      if f == ModeKey then Some(msg) else None,
      if f == LocationKey then Some(msg) else None,
      if f == SymptomsKey then Some(msg) else None,
      if f == MessageKey then Some(msg) else None)
  }

  /** A body the client may have in flight: its own id, exactly one
      stage-dependent key, and that key's text not blank. */
  predicate Outgoing(p: Payload, userId: string) {
    && p.userId == userId
    && |Fields(p)| == 1
    && forall f :: f in Fields(p) ==> !IsBlank(Get(p, f).value)
  }

  /** Choosing voice or both at mode selection turns voice mode and speech on. */
  predicate VoiceChosen(stage: string, msg: string) {
    stage == AskMode && (msg == "voice" || msg == "both")
  }

  /** The user's transcript entry, marked with a microphone when spoken. */
  function UserEntry(msg: string, fromVoice: bool): Message {
    Message(User, if fromVoice then VoicePrefix + msg else msg)
  }

  /** The submitted text of an accepted turn is trimmed and never blank, and
      the shortcuts keep it so. */
  lemma SentTextTrimmed(stage: string, raw: string)
    requires !IsBlank(raw)
    ensures var msg := Shortcut(stage, Trim(raw)); IsTrimmed(msg) && msg != [] && !IsBlank(msg)
  {
    TrimEmptyIffBlank(raw);
    TrimSpec(raw);
    var msg := Shortcut(stage, Trim(raw));
    if msg != Trim(raw) {
      assert msg in {"text", "voice", "both"};
    }
    assert !IsSpace(msg[0]);
  }

  /** Every accepted turn produces a body the server can act on: one key, the
      one of the current stage, holding non-blank text. */
  lemma SentPayloadOutgoing(userId: string, tone: string, stage: string, raw: string)
    requires !IsBlank(raw)
    ensures var msg := Shortcut(stage, Trim(raw));
      Outgoing(PayloadFor(userId, tone, stage, msg), userId)
  {
    SentTextTrimmed(stage, raw);
  }

  /** Voice mode is switched on exactly for the inputs 2, 3, voice and both
      (surrounding white space aside) at mode selection, and at no other stage. */
  lemma VoiceChosenIff(stage: string, raw: string)
    ensures VoiceChosen(stage, Shortcut(stage, Trim(raw)))
        <==> stage == AskMode && Trim(raw) in {"2", "3", "voice", "both"}
  {
  }
}
