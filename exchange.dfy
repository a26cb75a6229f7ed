/** The two sides of the `/chat` exchange together: the body the client
    builds, read by the server as its request. */
module Exchange {
  import opened Wrappers
  import opened Text
  import opened Stages
  import opened Dialogue
  import opened Intake

  /** The server's view of a typed request body: `lat` and `lon` are only
      sent by the location button, and `message` and `tone` are not read by
      the turn. */
  function RequestOf(p: Payload): ChatRequest {
    ChatRequest(p.userId, p.mode, p.location, p.symptoms, None, None)
  }

  /** The stage a turn moves on to when it gets the input it asked for. */
  function Advance(stage: string): string {
    if stage == AskMode then AskLocation
    else if stage == AskLocation then AskSymptoms
    else Answer
  }

  /** When the client and the stored session agree on the stage, every
      accepted input moves the dialogue one stage on: the client's key is the
      one the server reads at that stage, and the text under it is never
      empty. */
  lemma AgreedStageAdvances(ses: Session, userId: string, tone: string,
                                               raw: string, svc: Services)
    requires SessionOk(ses) && !IsBlank(raw)
    ensures var msg := Shortcut(ses.stage, Trim(raw));
            var r := Turn(ses, RequestOf(PayloadFor(userId, tone, ses.stage, msg)), svc);
            && r.Replied? && r.response.stage == Advance(ses.stage)
            && (ses.stage == AskMode ==> r.session.mode == Some(msg))
            && (ses.stage == AskLocation ==> r.session.location == Some(msg))
            && (ses.stage == AskSymptoms ==> r.session.symptoms == Some(msg))
  {
    var msg := Shortcut(ses.stage, Trim(raw));
    SentTextTrimmed(ses.stage, raw);
    var p := PayloadFor(userId, tone, ses.stage, msg);
    assert Get(p, KeyFor(ses.stage)) == Some(msg);
    if ses.stage == AskMode {
      assert p.mode == Some(msg);
    } else if ses.stage == AskLocation {
      assert p.location == Some(msg);
    } else {
      assert p.symptoms == Some(msg);
    }
  }

  /** After the final answer the client is at "answer" while the stored
      session is back at mode selection. The next typed text goes out as
      `message`, which the turn does not read: the server asks for the mode
      again and the session stays as it was. */
  lemma TextAfterAnswerIgnored(ses: Session, userId: string, tone: string, msg: string, svc: Services)
    requires SessionOk(ses) && ses.stage == AskMode
    ensures var r := Turn(ses, RequestOf(PayloadFor(userId, tone, Answer, msg)), svc);
            r == Replied(ses, Prompt(ModePrompt, AskMode, Needs(true, false, false)))
  {
    var p := PayloadFor(userId, tone, Answer, msg);
    assert Fields(p) == {MessageKey};
    assert p.mode.None?;
  }
}
