/** The `/chat` endpoint of server/app.py as it runs: the module-level
    `SESSIONS` dict, `get_session` storing the session it returns, and `chat`
    updating that same session record field by field. */
module IntakeServer {
  import opened Wrappers
  import opened Stages
  import opened Intake

  class SessionStore {
    /** `SESSIONS`, keyed by user id. */
    var sessions: map<string, Session>

    ghost predicate Valid()
      reads this
    {
      forall u :: u in sessions ==> SessionOk(sessions[u])
    }

    constructor ()
      ensures Valid() && sessions == map[]
    {
      sessions := map[];
    }

    /** `get_session`: the stored session, or a fresh one when there is none
        or it has expired; either way the result is stored under `userId`. */
    method GetSession(userId: string, now: real) returns (ses: Session)
      modifies this
      ensures ses == Lookup(old(sessions), userId, now)
      ensures sessions == old(sessions)[userId := ses]
      ensures old(Valid()) ==> Valid()
    {
      ses := if userId in sessions then sessions[userId] else Fresh(now);
      if now - ses.created > SessionTtl {
        ses := Fresh(now);
      }
      sessions := sessions[userId := ses];
    }

    /** `chat`. The Python session is a dict shared with `SESSIONS`, so every
        field update is written back to the store at once. `None` is the
        request failing with a missing key. */
    method Chat(req: ChatRequest, now: real, svc: Services) returns (r: Option<ChatResponse>)
      modifies this
      ensures var out := Turn(Lookup(old(sessions), req.userId, now), req, svc);
        && sessions == old(sessions)[req.userId := out.session]
        && r == (if out.Replied? then Some(out.response) else None)
      ensures old(Valid()) ==> Valid() && r.Some?
    {
      var ses := GetSession(req.userId, now);
      ghost var start := ses;

      if ses.stage == AskMode && Truthy(req.mode) {
        ses := ses.(mode := req.mode);
        ses := ses.(stage := AskLocation);
        sessions := sessions[req.userId := ses];
      }
      assert ses == ModeStep(start, req);
      assert sessions == old(sessions)[req.userId := ses];

      if ses.stage == AskLocation {
        r := LocationBlock(req.userId, ses, req, svc);
        if old(Valid()) {
          ModeStepKeeps(start, req);
          LocationStepKeeps(ses, req, svc);
        }
      } else {
        r := FinalBlocks(req.userId, ses, req, svc);
        if old(Valid()) {
          ModeStepKeeps(start, req);
          FinalBlocksKeep(ses, req, svc);
        }
      }
    }

    /** The location block of `chat`, on the session `ses` stored under `userId`. */
    method LocationBlock(userId: string, ses: Session, req: ChatRequest, svc: Services)
        returns (r: Option<ChatResponse>)
      requires userId in sessions && sessions[userId] == ses
      modifies this
      ensures sessions == old(sessions)[userId := LocationStep(ses, req, svc).session]
      ensures r == Some(LocationStep(ses, req, svc).response)
    {
      var ses := ses;
      if NonZero(req.lat) && NonZero(req.lon) {
        var wx := svc.placeName;
        if wx.Some? {
          ses := ses.(location := wx);
          ses := ses.(stage := AskSymptoms);
          sessions := sessions[userId := ses];
          return Some(Prompt(DetectedPrompt(wx.value), AskSymptoms, Needs(false, false, true)));
        }
      }
      if Truthy(req.location) {
        ses := ses.(location := req.location);
        ses := ses.(stage := AskSymptoms);
        sessions := sessions[userId := ses];
        return Some(Prompt(FeelingPrompt, AskSymptoms, Needs(false, false, true)));
      }
      return Some(Prompt(LocationPrompt, AskLocation, Needs(false, true, false)));
    }

    /** The rest of `chat` after the location block: the symptoms block, the
        prompts that ask again, and the final answer. */
    method FinalBlocks(userId: string, ses: Session, req: ChatRequest, svc: Services)
        returns (r: Option<ChatResponse>)
      requires userId in sessions && sessions[userId] == ses
      modifies this
      ensures var out := PromptOrAnswer(SymptomsStep(ses, req), svc);
        && sessions == old(sessions)[userId := out.session]
        && r == (if out.Replied? then Some(out.response) else None)
    {
      var ses := ses;
      if ses.stage == AskSymptoms && Truthy(req.symptoms) {
        ses := ses.(symptoms := req.symptoms);
        ses := ses.(stage := Answer);
        sessions := sessions[userId := ses];
      }

      if ses.stage == AskMode {
        return Some(Prompt(ModePrompt, AskMode, Needs(true, false, false)));
      }
      if ses.stage == AskSymptoms {
        return Some(Prompt(SymptomsPrompt, AskSymptoms, Needs(false, false, true)));
      }

      if ses.location.None? || ses.symptoms.None? {
        return None;
      }
      var city := ses.location.value;
      var symptoms := ses.symptoms.value;
      var reply := if svc.advice.Some? then svc.advice.value else AdviceFallback;
      var esc := Severe(symptoms);
      var hospitals := HospitalsFor(city);
      ses := ses.(stage := AskMode);
      sessions := sessions[userId := ses];
      r := Some(ChatResponse(reply, Answer, Needs(false, false, false), esc, Some(hospitals),
                             if esc then Some(symptoms + " in " + city) else None));
    }
  }
}
