/** The server's intake dialogue as values (server/app.py): the session
    record, the choice `get_session` makes, one `/chat` turn from a session to
    the updated session and the response, the severity test and the hospital
    table. The class in intake_server.dfy performs these steps in place on
    the session store. */
module Intake {
  import opened Wrappers
  import opened Text
  import opened Stages

  /** Seconds after its creation that a session is discarded. */
  const SessionTtl: real := 1800.0

  /** One entry of `SESSIONS`; a key the Python dict lacks is `None`. */
  datatype Session = Session(
    created: real, stage: string,
    mode: Option<string>, location: Option<string>, symptoms: Option<string>)

  function Fresh(now: real): Session {
    Session(now, AskMode, None, None, None)
  }

  /** The session `get_session` hands out at time `now`: the stored one unless
      there is none or it was created more than 1800 seconds before `now`. */
  function Lookup(sessions: map<string, Session>, userId: string, now: real): (s: Session)
    ensures s == Fresh(now) || (userId in sessions && s == sessions[userId])
    ensures now - s.created <= SessionTtl
    ensures userId in sessions && now - sessions[userId].created <= SessionTtl
            ==> s == sessions[userId]
  {
    var ses := if userId in sessions then sessions[userId] else Fresh(now);
    if now - ses.created > SessionTtl then Fresh(now) else ses
  }

  /** Python truthiness of an optional string: present and non-empty. */
  predicate Truthy(o: Option<string>) {
    o.Some? && o.value != ""
  }

  /** Python truthiness of an optional number: present and non-zero. */
  predicate NonZero(o: Option<real>) {
    o.Some? && o.value != 0.0
  }

  /** What every stored session satisfies: it waits for one of the three
      intake inputs, it has a mode once past mode selection, and a location
      whenever it waits for symptoms. */
  predicate SessionOk(s: Session) {
    && IsIntake(s.stage)
    && (s.stage != AskMode ==> Truthy(s.mode))
    && (s.stage == AskSymptoms ==> s.location.Some?)
  }

  /** The fields of a `/chat` body that the turn reads. */
  datatype ChatRequest = ChatRequest(
    userId: string, mode: Option<string>, location: Option<string>,
    symptoms: Option<string>, lat: Option<real>, lon: Option<real>)

  /** Answers of the outside services for one turn: the `name` in the weather
      record found for the coordinates (`None` when the lookup failed or the
      record has no name), and the stripped text of the generated advice
      (`None` when the call raised). */
  datatype Services = Services(placeName: Option<string>, advice: Option<string>)

  datatype Needs = Needs(mode: bool, location: bool, symptoms: bool)

  datatype ChatResponse = ChatResponse(
    reply: string, stage: string, needs: Needs, escalate: bool,
    hospitals: Option<seq<string>>, caseSummary: Option<string>)

  /** A turn either answers, leaving the session as it stands, or raises
      (a missing key), leaving the session as far as it had been updated. */
  datatype Outcome = Replied(session: Session, response: ChatResponse) | Raised(session: Session)

  const ModePrompt := "How would you like advice?\n1) Text\n2) Voice\n3) Both"
  const LocationPrompt := "Send your location or type your city (e.g., Noida / Delhi):"
  const FeelingPrompt := "How are you feeling? Describe symptoms briefly."
  const SymptomsPrompt := "Describe symptoms briefly:"
  const AdviceFallback :=
    "I couldn't think clearly. Try again.\nDisclaimer: This is not a substitute for professional medical advice."

  function DetectedPrompt(name: string): string {
    "Detected your location as **" + name + "**.\n" + FeelingPrompt
  }

  /** A response that asks for the next input and carries no advice. */
  function Prompt(reply: string, stage: string, needs: Needs): ChatResponse {
    ChatResponse(reply, stage, needs, false, None, None)
  }

  /** The `needs` flags a response at `stage` should carry: the one input the
      stage asks for, none after the final answer. */
  function NeedsFor(stage: string): (n: Needs)
    ensures !IsIntake(stage) ==> n == Needs(false, false, false)
    ensures n.mode <==> stage == AskMode
    ensures n.location <==> stage == AskLocation
    ensures n.symptoms <==> stage == AskSymptoms
  {
    Needs(stage == AskMode, stage == AskLocation, stage == AskSymptoms)
  }

  const Alarming := ["chest pain", "blood", "fainting", "difficulty breathing"]

  /** Python's `any(w in text for w in words)`. */
  function AnyContained(words: seq<string>, text: string): (b: bool)
    ensures b <==> exists k :: 0 <= k < |words| && Contains(text, words[k])
  {
    if words == [] then false
    else
      var rest := AnyContained(words[1..], text);
      assert forall k :: 1 <= k < |words| ==> words[k] == words[1..][k - 1];
      Contains(text, words[0]) || rest
  }

  /** `severe`: some alarming phrase occurs in the lower-cased symptoms. */
  function Severe(symptoms: string): (b: bool)
    ensures b <==> exists k :: 0 <= k < |Alarming| && Contains(Lower(symptoms), Alarming[k])
  {
    AnyContained(Alarming, Lower(symptoms))
  }

  /** The severity test ignores the case of ASCII letters. */
  lemma SevereIgnoresCase(symptoms: string)
    ensures Severe(Lower(symptoms)) == Severe(symptoms)
  {
    LowerIdempotent(symptoms);
  }

  const CityHospitals: map<string, seq<string>> := map[
    "noida" := ["Jaypee Hospital", "Fortis Hospital"],
    "greater noida" := ["Yatharth Hospital", "Sharda Hospital"],
    "delhi" := ["AIIMS", "Sir Ganga Ram Hospital"]]

  /** `CITY_HOSPITALS.get(city.lower(), [])`. */
  function HospitalsFor(city: string): (h: seq<string>)
    ensures h != [] <==> Lower(city) in CityHospitals
    ensures h != [] ==> h == CityHospitals[Lower(city)]
  {
    if Lower(city) in CityHospitals then CityHospitals[Lower(city)] else []
  }

  /** The hospital lookup ignores the case of ASCII letters. */
  lemma HospitalsIgnoreCase(city: string)
    ensures HospitalsFor(Lower(city)) == HospitalsFor(city)
  {
    LowerIdempotent(city);
  }

  /** Non-zero coordinates for which the weather lookup found a named place. */
  predicate PlaceFound(req: ChatRequest, svc: Services) {
    NonZero(req.lat) && NonZero(req.lon) && svc.placeName.Some?
  }

  /** The location block: a named place found for non-zero coordinates wins,
      then a typed location; without either the turn asks again and the
      session stays as it was. Only the location and the stage can change. */
  function LocationStep(ses: Session, req: ChatRequest, svc: Services): (r: Outcome)
    ensures r.Replied?
    ensures r.session.created == ses.created && r.session.mode == ses.mode
            && r.session.symptoms == ses.symptoms
    ensures r.response.stage == AskSymptoms <==> PlaceFound(req, svc) || Truthy(req.location)
    ensures r.response.stage == AskSymptoms ==>
              && r.session.stage == AskSymptoms
              && r.session.location == (if PlaceFound(req, svc) then svc.placeName else req.location)
    ensures r.response.stage != AskSymptoms ==>
              r.session == ses && r.response == Prompt(LocationPrompt, AskLocation, Needs(false, true, false))
  {
    if PlaceFound(req, svc) then
      Replied(ses.(location := svc.placeName, stage := AskSymptoms),
              Prompt(DetectedPrompt(svc.placeName.value), AskSymptoms, Needs(false, false, true)))
    else if Truthy(req.location) then
      Replied(ses.(location := req.location, stage := AskSymptoms),
              Prompt(FeelingPrompt, AskSymptoms, Needs(false, false, true)))
    else
      Replied(ses, Prompt(LocationPrompt, AskLocation, Needs(false, true, false)))
  }

  /** The final answer: advice, escalation and hospitals for the recorded
      city and symptoms; the session goes back to mode selection. A session
      missing either raises, unchanged. */
  function FinalAnswer(ses: Session, svc: Services): (r: Outcome)
    ensures r.Raised? <==> ses.location.None? || ses.symptoms.None?
    ensures r.Raised? ==> r.session == ses
    ensures r.Replied? ==>
              && r.session == ses.(stage := AskMode) && r.response.stage == Answer
              && r.response.reply == svc.advice.GetOr(AdviceFallback)
  {
    if ses.location.None? || ses.symptoms.None? then Raised(ses)
    else
      var city := ses.location.value;
      var symptoms := ses.symptoms.value;
      var escalate := Severe(symptoms);
      Replied(ses.(stage := AskMode),
              ChatResponse(svc.advice.GetOr(AdviceFallback), Answer, Needs(false, false, false),
                           escalate, Some(HospitalsFor(city)),
                           if escalate then Some(symptoms + " in " + city) else None))
  }

  /** The mode block: a mode given while the mode is being chosen is
      recorded and the session moves on to the location; otherwise nothing
      changes. */
  function ModeStep(ses: Session, req: ChatRequest): (r: Session)
    ensures r.created == ses.created && r.location == ses.location && r.symptoms == ses.symptoms
    ensures r == ses <==> !(ses.stage == AskMode && Truthy(req.mode))
    ensures r != ses ==> r.mode == req.mode && r.stage == AskLocation
  {
    if ses.stage == AskMode && Truthy(req.mode) then ses.(mode := req.mode, stage := AskLocation)
    else ses
  }

  /** The symptoms block: symptoms given while they are awaited are recorded
      and the session moves on to the answer; otherwise nothing changes. */
  function SymptomsStep(ses: Session, req: ChatRequest): (r: Session)
    ensures r.created == ses.created && r.mode == ses.mode && r.location == ses.location
    ensures r == ses <==> !(ses.stage == AskSymptoms && Truthy(req.symptoms))
    ensures r != ses ==> r.symptoms == req.symptoms && r.stage == Answer
  {
    if ses.stage == AskSymptoms && Truthy(req.symptoms) then ses.(symptoms := req.symptoms, stage := Answer)
    else ses
  }

  /** What follows the symptoms block: at mode selection and while symptoms
      are awaited the turn asks again with the session as it is; at any other
      stage it gives the final answer. */
  function PromptOrAnswer(ses: Session, svc: Services): (r: Outcome)
    ensures ses.stage == AskMode || ses.stage == AskSymptoms ==>
              && r.Replied? && r.session == ses && r.response.stage == ses.stage
              && r.response.needs == NeedsFor(ses.stage) && !r.response.escalate
    ensures ses.stage != AskMode && ses.stage != AskSymptoms ==> r == FinalAnswer(ses, svc)
  {
    if ses.stage == AskMode then Replied(ses, Prompt(ModePrompt, AskMode, Needs(true, false, false)))
    else if ses.stage == AskSymptoms then Replied(ses, Prompt(SymptomsPrompt, AskSymptoms, Needs(false, false, true)))
    else FinalAnswer(ses, svc)
  }

  /** One `/chat` turn on the session `get_session` returned, block by block. */
  function Turn(ses: Session, req: ChatRequest, svc: Services): Outcome {
    var s1 := ModeStep(ses, req);
    if s1.stage == AskLocation then LocationStep(s1, req, svc)
    else PromptOrAnswer(SymptomsStep(s1, req), svc)
  }

  /** What every response promises about itself and the session stored with
      it. The flags name exactly the input the returned stage asks for. The
      stored stage is the returned one, except that "answer" is stored as mode
      selection. Only the final answer carries advice data, and that data is
      computed from the recorded city and symptoms. */
  predicate Coherent(r: Outcome) {
    r.Replied? ==>
      && r.response.needs == NeedsFor(r.response.stage)
      && r.session.stage == (if r.response.stage == Answer then AskMode else r.response.stage)
      && (r.response.stage != Answer ==>
              !r.response.escalate && r.response.hospitals.None? && r.response.caseSummary.None?)
      && (r.response.stage == Answer ==>
              && r.session.location.Some? && r.session.symptoms.Some?
              && r.response.escalate == Severe(r.session.symptoms.value)
              && (r.response.caseSummary.Some? <==> r.response.escalate)
              && r.response.hospitals == Some(HospitalsFor(r.session.location.value)))
  }

  /** The mode block keeps a stored session's invariant and creation time. */
  lemma ModeStepKeeps(ses: Session, req: ChatRequest)
    requires SessionOk(ses)
    ensures SessionOk(ModeStep(ses, req)) && ModeStep(ses, req).created == ses.created
  {
  }

  /** The location block keeps a stored session's invariant and creation time. */
  lemma LocationStepKeeps(ses: Session, req: ChatRequest, svc: Services)
    requires SessionOk(ses) && ses.stage == AskLocation
    ensures SessionOk(LocationStep(ses, req, svc).session)
    ensures LocationStep(ses, req, svc).session.created == ses.created
  {
  }

  /** On a session waiting for its location, the location block answers
      coherently. */
  lemma LocationStepCoherent(ses: Session, req: ChatRequest, svc: Services)
    requires ses.stage == AskLocation
    ensures Coherent(LocationStep(ses, req, svc))
  {
  }

  /** On a stored session that is not waiting for its location, the blocks
      after the location block answer and keep the invariant and the creation
      time. */
  lemma FinalBlocksKeep(ses: Session, req: ChatRequest, svc: Services)
    requires SessionOk(ses) && ses.stage != AskLocation
    ensures var r := PromptOrAnswer(SymptomsStep(ses, req), svc);
      r.Replied? && SessionOk(r.session) && r.session.created == ses.created
  {
  }

  /** The blocks after the location block answer coherently whenever they
      answer. */
  lemma FinalBlocksCoherent(ses: Session, req: ChatRequest, svc: Services)
    ensures Coherent(PromptOrAnswer(SymptomsStep(ses, req), svc))
  {
  }

  /** What every turn guarantees: a stored session keeps the invariant and
      its creation time, the turn answers, and the answer is coherent. */
  lemma TurnSpec(ses: Session, req: ChatRequest, svc: Services)
    ensures var r := Turn(ses, req, svc);
      && (SessionOk(ses) ==> r.Replied? && SessionOk(r.session) && r.session.created == ses.created)
      && Coherent(r)
  {
    var s1 := ModeStep(ses, req);
    if SessionOk(ses) {
      ModeStepKeeps(ses, req);
    }
    if s1.stage == AskLocation {
      LocationStepCoherent(s1, req, svc);
      if SessionOk(ses) {
        LocationStepKeeps(s1, req, svc);
      }
    } else {
      FinalBlocksCoherent(s1, req, svc);
      if SessionOk(ses) {
        FinalBlocksKeep(s1, req, svc);
      }
    }
  }

  /** From each intake stage a turn moves forward by at most the inputs it
      carries, and never from mode selection straight to the answer: the
      location block always returns. Leaving mode selection takes a mode,
      reaching the symptoms stage takes a place found for the coordinates
      or a typed location, and reaching the answer takes symptoms. */
  lemma TurnProgress(ses: Session, req: ChatRequest, svc: Services)
    requires SessionOk(ses)
    ensures var s := Turn(ses, req, svc).response.stage;
      && (ses.stage == AskMode ==> s in {AskMode, AskLocation, AskSymptoms})
      && (ses.stage == AskLocation ==> s in {AskLocation, AskSymptoms})
      && (ses.stage == AskSymptoms ==> s in {AskSymptoms, Answer})
      && (ses.stage == AskMode && s != AskMode ==> Truthy(req.mode))
      && (ses.stage in {AskMode, AskLocation} && s == AskSymptoms ==>
            PlaceFound(req, svc) || Truthy(req.location))
      && (ses.stage == AskSymptoms && s == Answer ==> Truthy(req.symptoms))
  {
  }

  /** The final answer comes exactly from a session waiting for symptoms that
      receives non-empty symptoms, and records them. */
  lemma AnswerIff(ses: Session, req: ChatRequest, svc: Services)
    requires SessionOk(ses)
    ensures var r := Turn(ses, req, svc);
      (r.response.stage == Answer <==> ses.stage == AskSymptoms && Truthy(req.symptoms))
      && (r.response.stage == Answer ==> r.session.symptoms == req.symptoms)
  {
  }

  /** A turn that does not get the input its stage waits for changes nothing:
      the same stage is returned and the session stays as it was. */
  lemma MissingInputKeepsSession(ses: Session, req: ChatRequest, svc: Services)
    requires SessionOk(ses)
    ensures var r := Turn(ses, req, svc);
      r.response.stage == ses.stage <==> r.session == ses
  {
  }

  /** At mode selection, every request without a non-empty mode gets the
      mode prompt and leaves the session as it was; one with a mode records
      it and moves past mode selection. */
  lemma ModeBlock(ses: Session, req: ChatRequest, svc: Services)
    requires ses.stage == AskMode
    ensures var r := Turn(ses, req, svc);
      && (!Truthy(req.mode) ==> r == Replied(ses, Prompt(ModePrompt, AskMode, Needs(true, false, false))))
      && (Truthy(req.mode) ==>
            r.Replied? && r.session.mode == req.mode && r.response.stage in {AskLocation, AskSymptoms})
  {
  }

  /** While the location is awaited, every request is answered in the
      location block: a place found for non-zero coordinates is recorded in
      preference to a typed location, a typed location otherwise, and
      without either the stage stays and the session is unchanged. */
  lemma LocationPriority(ses: Session, req: ChatRequest, svc: Services)
    requires ses.stage == AskLocation
    ensures var r := Turn(ses, req, svc);
      && r.Replied?
      && (PlaceFound(req, svc) ==> r.session.location == svc.placeName && r.response.stage == AskSymptoms)
      && (!PlaceFound(req, svc) && Truthy(req.location) ==>
            r.session.location == req.location && r.response.stage == AskSymptoms)
      && (!PlaceFound(req, svc) && !Truthy(req.location) ==>
            r.session == ses && r.response.stage == AskLocation)
  {
  }

  /** While symptoms are awaited, a request without non-empty symptoms gets
      the symptoms prompt and changes nothing; one with symptoms records
      them and gets the final answer, after which the session is back at
      mode selection. */
  lemma SymptomsBlock(ses: Session, req: ChatRequest, svc: Services)
    requires ses.stage == AskSymptoms
    ensures var r := Turn(ses, req, svc);
      && (!Truthy(req.symptoms) ==>
            r == Replied(ses, Prompt(SymptomsPrompt, AskSymptoms, Needs(false, false, true))))
      && (Truthy(req.symptoms) && ses.location.Some? ==>
            && r.Replied? && r.response.stage == Answer
            && r.session == ses.(symptoms := req.symptoms, stage := AskMode)
            && r.response.reply == svc.advice.GetOr(AdviceFallback))
      && (Truthy(req.symptoms) && ses.location.None? ==> r.Raised?)
  {
  }

  /** The whole intake: a fresh session given a mode, then a typed location,
      then symptoms, answers on the third turn and is back at mode selection. */
  lemma IntakeWalk(now: real, uid: string, mode: string, city: string, symptoms: string, svc: Services)
    requires mode != "" && city != "" && symptoms != ""
    ensures var r1 := Turn(Fresh(now), ChatRequest(uid, Some(mode), None, None, None, None), svc);
            var r2 := Turn(r1.session, ChatRequest(uid, None, Some(city), None, None, None), svc);
            var r3 := Turn(r2.session, ChatRequest(uid, None, None, Some(symptoms), None, None), svc);
            && r1.response.stage == AskLocation && r2.response.stage == AskSymptoms
            && r3.response.stage == Answer && r3.session.stage == AskMode
            && r3.response.hospitals == Some(HospitalsFor(city))
            && r3.response.escalate == Severe(symptoms)
  {
  }
}
