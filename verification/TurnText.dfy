/** The final text of a turn: what the model said last, as far as this process heard it. */
module TurnText {
  import opened Wrappers
  import opened TurnMachine
  import TurnIds
  import opened TurnReplies
  import opened TurnSafety
  import opened TurnAccount

  /** The last reply after the first messages that says something says `text`; if none does, it is empty. */
  ghost predicate SaidLast(c: Config, e: Env, first: nat, ms: seq<Message>, text: string)
    decreases |ms|
  {
    if |ms| <= first then text == ""
    else
      var before := ms[..|ms| - 1];
      if ms[|ms| - 1].role.Assistant? then
        exists r :: ReplyAt(c, e, ms, |ms| - 1, r)
                    && if r.content != "" then text == r.content else SaidLast(c, e, first, before, text)
      else SaidLast(c, e, first, before, text)
  }

  /** What a step that is no model call does to messages and text. */
  ghost predicate AddsAnswer(t: Turn, t': Turn) {
    && t'.finalText == t.finalText
    && (t'.messages == t.messages
        || (OneMore(t.messages, t'.messages) && t'.messages[|t.messages|].role.Tool?))
  }

  lemma SaveAdds(c: Config, e: Env, s: State, phase: Phase)
    ensures Save(c, e, s, phase).turn == s.turn.(failed := Save(c, e, s, phase).turn.failed)
  {
  }

  lemma StartAdds(c: Config, s: State, p: Prepared)
    requires s.turn.next < |s.turn.pending|
    ensures AddsAnswer(s.turn, StartCall(c, s, p).turn)
  {
  }

  lemma BeginAdds(c: Config, e: Env, s: State, stop: Option<Status>)
    ensures AddsAnswer(s.turn, BeginCall(c, e, s, stop).turn)
  {
    hide StartCall, Prepare;
    if s.turn.next < |s.turn.pending| {
      BeginCallCases(c, e, s, stop, StopBeforeCall(c, e, s, stop));
      StartAdds(c, s.(now := s.now + 1), Prepare(c, s.turn.pending[s.turn.next]));
    }
  }

  lemma InCallAdds(c: Config, e: Env, s: State)
    requires Wf(c, s) && InCall(s.pc)
    ensures AddsAnswer(s.turn, Step(c, e, s).turn)
  {
    hide Save;
    match s.pc
    case PreSave(request) =>
      SaveAdds(c, e, s.(turn := s.turn.(inFlight := Some(s.turn.pending[s.turn.next].id))), ToolsPhase);
    case _ =>
  }

  lemma StepAdds(c: Config, e: Env, s: State)
    requires Wf(c, s) && !s.pc.Asking?
    ensures AddsAnswer(s.turn, Step(c, e, s).turn)
  {
    hide BeginCall, Save;
    if InCall(s.pc) {
      InCallAdds(c, e, s);
    } else {
      match s.pc
      case NextCall(stop) => BeginAdds(c, e, s, stop);
      case FinalSave => SaveAdds(c, e, s, ModelPhase);
      case ReplySave => SaveAdds(c, e, s, ToolsPhase);
      case AnswerSave(_) => SaveAdds(c, e, s, ToolsPhase);
      case ClearSave(_) => SaveAdds(c, e, s.(turn := Cleared(s.turn)), ModelPhase);
      case _ =>
    }
  }

  lemma SaidAfterAnswer(c: Config, e: Env, first: nat, t: Turn, t': Turn)
    requires AddsAnswer(t, t') && first <= |t.messages| && SaidLast(c, e, first, t.messages, t.finalText)
    ensures SaidLast(c, e, first, t'.messages, t'.finalText)
  {
    if t'.messages != t.messages {
      assert t'.messages[..|t'.messages| - 1] == t.messages;
    }
  }

  lemma SaidAfterReply(c: Config, e: Env, first: nat, s: State)
    requires Lawful(c) && ValidEnv(e) && Inv(c, s) && s.pc.Asking?
    requires first <= |s.turn.messages| && SaidLast(c, e, first, s.turn.messages, s.turn.finalText)
    ensures SaidLast(c, e, first, AskModel(c, e, s).turn.messages, AskModel(c, e, s).turn.finalText)
  {
    hide Lawful, Inv, ReplyAt, TakeReply;
    var t, t1 := s.turn, s.turn.(iterations := s.turn.iterations + 1);
    var answer := e.model(t.messages, s.now);
    if answer.Reply? {
      var r, t' := answer.response, TakeReply(c, t1, answer.response);
      AskedModelPc(c, e, s, r, t');
      AskingIsOk(c, s);
      ReplyIsRepeated(c, t1, r);
      ReplyFacts(c, e, t, s.now, r, t');
      assert t'.messages[..|t'.messages| - 1] == t.messages;
      ReplyHasRole(c, e, t'.messages, |t.messages|, r);
    }
  }

  lemma AskingIsOk(c: Config, s: State)
    requires Inv(c, s) && s.pc.Asking?
    ensures var t1 := s.turn.(iterations := s.turn.iterations + 1);
            TurnIds.IdsOk(s.turn) && TurnIds.IdsOk(t1) && s.turn.pending == []
  {
  }

  lemma ReplyHasRole(c: Config, e: Env, ms: seq<Message>, n: nat, r: Response)
    requires ReplyAt(c, e, ms, n, r)
    ensures ms[n].role.Assistant?
  {
  }

  lemma {:induction false} SaidToTheEnd(c: Config, e: Env, first: nat, s: State)
    requires Lawful(c) && ValidEnv(e) && Inv(c, s) && Wf(c, s)
    requires first <= |s.turn.messages| && SaidLast(c, e, first, s.turn.messages, s.turn.finalText)
    ensures var last := Run(c, e, s).turn; SaidLast(c, e, first, last.messages, last.finalText)
    decreases CallsLeft(c, s), WorkLeft(s)
  {
    hide Lawful, ValidEnv, Inv, SaidLast, Step;
    if !s.pc.Done? {
      StepMakesProgress(c, e, s);
      StepKeeps(c, e, s);
      var s' := Step(c, e, s);
      RunStep(c, e, s);
      if s.pc.Asking? {
        SaidAfterReply(c, e, first, s);
        AskedGrows(c, e, s);
      } else {
        StepAdds(c, e, s);
        SaidAfterAnswer(c, e, first, s.turn, s'.turn);
      }
      SaidToTheEnd(c, e, first, s');
    }
  }

  lemma AskedGrows(c: Config, e: Env, s: State)
    requires Wf(c, s) && s.pc.Asking?
    ensures Step(c, e, s) == AskModel(c, e, s) && |s.turn.messages| <= |AskModel(c, e, s).turn.messages|
  {
    var t := s.turn.(iterations := s.turn.iterations + 1);
    var answer := e.model(t.messages, s.now);
    if answer.Reply? {
      AskedModelPc(c, e, s, answer.response, TakeReply(c, t, answer.response));
    }
  }

  /**
   * The text a turn returns is that of the last reply that says something, of those the process that
   * returns was given: a process that takes over starts without a text.
   */
  lemma FinalTextIsTrue(c: Config, e: Env, messages: seq<Message>, schedule: seq<bool>)
    requires ValidConfig(c) && ValidEnv(e) && (c.hasStore || true !in schedule)
    requires schedule == [] || schedule[|schedule| - 1]
    ensures var s := Exec(c, e, messages, schedule);
            var last := Run(c, e, s).turn;
            SaidLast(c, e, |s.turn.messages|, last.messages, last.finalText)
  {
    ValidIsLawful(c);
    AlwaysInv(c, e, messages, schedule);
    var s := Exec(c, e, messages, schedule);
    SaidToTheEnd(c, e, |s.turn.messages|, s);
  }
}
