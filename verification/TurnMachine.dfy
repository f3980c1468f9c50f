/**
 * One agent turn as a step system (runTurn.ts). A step performs at most one effect that
 * outlives the process: a model call, an approval, a save, an invocation. What the process
 * holds in memory is `turn` and `pc`; `durable` is the last checkpoint the store keeps, and
 * `trace` records every effect of every process that worked on the turn.
 */
module TurnMachine {
  import opened Wrappers
  import opened Texts
  import opened ToolCalls
  import ToolIds

  // ---- Transcript ----

  datatype Role = User | Assistant | System | Tool

  datatype Block =
    | TextBlock(text: string)
    | ToolUse(id: string, name: string, input: Json)
    | ToolResult(toolUseId: string, text: string)
    | OtherBlock

  /** Text of a tool message, by what determines it. */
  datatype Answer =
    | NotRun(because: Status)
    | CutOff(finish: FinishReason)
    | CouldNotResolve(problem: Problem)
    | BadParameters(tool: string)
    | NobodyToAsk(tool: string)
    | NotApproved(tool: string)
    | CannotResumeSafely
    | CouldNotSaveFirst
    | Ran(text: string)

  datatype Content = Text(text: string) | Blocks(blocks: seq<Block>) | Answered(answer: Answer)

  datatype Message = Message(role: Role, content: Content, toolCallId: Option<string>, name: string, isError: bool)

  datatype Call = Call(id: string, name: string, args: Json)

  datatype FinishReason = Stop | ToolCalls | Length | ContentFilter | Other

  datatype Usage = Usage(input: nat, output: nat, cached: nat, cacheWrite: nat)

  function AddUsage(a: Usage, b: Usage): Usage {
    Usage(a.input + b.input, a.output + b.output, a.cached + b.cached, a.cacheWrite + b.cacheWrite)
  }

  const NO_USAGE := Usage(0, 0, 0, 0)

  datatype Response = Response(content: string, blocks: seq<Block>, calls: seq<Call>,
                               finish: FinishReason, usage: Usage)

  /** Ids of the tool_use blocks, in order. */
  function UseIds(blocks: seq<Block>): seq<string> {
    if blocks == [] then []
    else if blocks[0].ToolUse? then [blocks[0].id] + UseIds(blocks[1..])
    else UseIds(blocks[1..])
  }

  /** Ids answered by the tool_result blocks, in order. */
  function ResultIds(blocks: seq<Block>): seq<string> {
    if blocks == [] then []
    else if blocks[0].ToolResult? then [blocks[0].toolUseId] + ResultIds(blocks[1..])
    else ResultIds(blocks[1..])
  }

  function CallIds(calls: seq<Call>): (ids: seq<string>)
    ensures |ids| == |calls|
    ensures forall i :: 0 <= i < |calls| ==> ids[i] == calls[i].id
  {
    seq(|calls|, i requires 0 <= i < |calls| => calls[i].id)
  }

  function UsesOf(m: Message): seq<string> {
    if m.content.Blocks? then UseIds(m.content.blocks) else []
  }

  function ResultsOf(m: Message): seq<string> {
    (if m.toolCallId.Some? && m.toolCallId.value != "" then [m.toolCallId.value] else [])
    + (if m.content.Blocks? then ResultIds(m.content.blocks) else [])
  }

  /** Every tool-call id that occurs in the transcript. */
  function KnownIds(ms: seq<Message>): set<string> {
    if ms == [] then {}
    else
      var m := ms[|ms| - 1];
      KnownIds(ms[..|ms| - 1]) + ToolIds.Elements(UsesOf(m)) + ToolIds.Elements(ResultsOf(m))
  }

  // ---- Host and options ----

  datatype Request = Request(id: string, name: string, args: Args)

  datatype Phase = ModelPhase | ToolsPhase

  datatype Checkpoint = Checkpoint(runId: string, iteration: nat, messages: seq<Message>, usage: Usage, phase: Phase,
                                   pending: seq<Call>, next: nat, finish: Option<FinishReason>,
                                   inFlight: Option<string>)

  datatype Status = Completed | MaxIterations | TokenBudget | Aborted | ProviderError | CheckpointFailed

  datatype ModelAnswer = Reply(response: Response) | Failed(aborted: bool)

  datatype Approval = Granted | Refused | AbortedWhileAsking

  datatype ToolOutcome = ToolOutcome(success: bool, text: string)

  /** A save that throws may or may not have reached the store. */
  datatype SaveOutcome = Saved | Lost | FailedButStored

  /**
   * The outside world. The number each function takes is the moment it is asked, so that the
   * same question may get a different answer later: nothing at all is assumed about it.
   */
  datatype Env = Env(aborted: nat -> bool,
                     model: (seq<Message>, nat) -> ModelAnswer,
                     approve: (Request, nat) -> Approval,
                     invoke: (Request, nat) -> ToolOutcome,
                     resumeInvocation: (Request, nat) -> ToolOutcome,
                     save: nat -> SaveOutcome)

  /**
   * Options of a turn and the abilities of its host, with the three rules a turn applies to calls:
   * `resolve` finds the tool, `validate` checks and coerces parameters, `assignIds` gives ids.
   */
  datatype Config = Config(runId: string, tools: seq<ToolSpec>, maxIterations: nat, maxTotalTokens: Option<nat>,
                           hasStore: bool, canApprove: bool, canResume: bool,
                           resolve: Call -> Resolved,
                           validate: (ToolSpec, Args) -> Option<Args>,
                           assignIds: (seq<string>, set<string>, nat) -> seq<string>)

  ghost predicate ResolvesBy(c: Config, lib: Library, index: Index) {
    && IndexFor(c.tools, index)
    && forall call :: c.resolve(call) == ResolveToolCall(lib, call.name, call.args, index)
  }

  /** Calls are resolved against the index of the allowed tools, and ids are made unique. */
  ghost predicate ValidConfig(c: Config) {
    && c.maxIterations >= 1
    && (exists lib, index :: ResolvesBy(c, lib, index))
    && (forall raws, seen, n :: c.assignIds(raws, seen, n) == ToolIds.UniqueIds(raws, seen, n))
  }

  /** The options of a turn as it sets itself up: the index of its tools and the source's own rule for ids. */
  function ConfigFor(runId: string, tools: seq<ToolSpec>, maxIterations: nat, maxTotalTokens: Option<nat>,
                     hasStore: bool, canApprove: bool, canResume: bool, lib: Library, index: Index,
                     validate: (ToolSpec, Args) -> Option<Args>): Config
  {
    Config(runId, tools, maxIterations, maxTotalTokens, hasStore, canApprove, canResume,
           (call: Call) => ResolveToolCall(lib, call.name, call.args, index), validate,
           (raws: seq<string>, seen: set<string>, n: nat) => ToolIds.UniqueIds(raws, seen, n))
  }

  /** Every tool list whose index can be built gives valid options. */
  lemma ConfigForIsValid(runId: string, tools: seq<ToolSpec>, maxIterations: nat, maxTotalTokens: Option<nat>,
                         hasStore: bool, canApprove: bool, canResume: bool, lib: Library, index: Index,
                         validate: (ToolSpec, Args) -> Option<Args>)
    requires IndexFor(tools, index) && maxIterations >= 1
    ensures ValidConfig(ConfigFor(runId, tools, maxIterations, maxTotalTokens, hasStore, canApprove, canResume, lib,
                                  index, validate))
  {
    var c := ConfigFor(runId, tools, maxIterations, maxTotalTokens, hasStore, canApprove, canResume, lib, index,
                       validate);
    assert ResolvesBy(c, lib, index);
  }

  /** The two facts about these rules on which safety rests. */
  ghost predicate Lawful(c: Config) {
    && (forall call :: c.resolve(call).Dispatch? ==> c.resolve(call).spec in c.tools)
    && (forall raws, seen, n :: |c.assignIds(raws, seen, n)| == |raws|
                                && ToolIds.FreshIds(c.assignIds(raws, seen, n), seen))
  }

  lemma ValidIsLawful(c: Config)
    requires ValidConfig(c)
    ensures Lawful(c)
  {
    var lib, index :| ResolvesBy(c, lib, index);
    forall call ensures c.resolve(call).Dispatch? ==> c.resolve(call).spec in c.tools {
      OnlyAllowedToolsRun(lib, c.tools, index, call.name, call.args);
    }
    forall raws, seen, n ensures |c.assignIds(raws, seen, n)| == |raws|
                                 && ToolIds.FreshIds(c.assignIds(raws, seen, n), seen) {
      ToolIds.UniqueIdsAreFresh(raws, seen, n);
    }
  }

  /** The adapters' promise: tool_use blocks and tool calls match one to one and in order. */
  predicate WellFormedResponse(r: Response) {
    UseIds(r.blocks) == CallIds(r.calls) && ResultIds(r.blocks) == []
  }

  ghost predicate ValidEnv(e: Env) {
    forall ms, at :: e.model(ms, at).Reply? ==> WellFormedResponse(e.model(ms, at).response)
  }

  // ---- State ----

  /** The variables of the loop. `failed` is "a save has failed". */
  datatype Turn = Turn(messages: seq<Message>, usage: Usage, iterations: nat, pending: seq<Call>, next: nat,
                       finish: Option<FinishReason>, inFlight: Option<string>, finalText: string,
                       failed: bool, seen: set<string>)

  /** Where the process stands; `stop` is the loop's stop reason. */
  datatype Pc =
    | Head
    | Asking
    | FinalSave
    | ReplySave
    | NextCall(stop: Option<Status>)
    | Approving(request: Request)
    | PreSave(request: Request)
    | Invoking(request: Request)
    | Resuming(request: Request)
    | AnswerSave(stop: Option<Status>)
    | ClearSave(stop: Option<Status>)
    | Done(status: Status)

  datatype Event =
    | AskedModel(iteration: nat)
    | AskedApproval(request: Request, answer: Approval)
    | SavedState(checkpoint: Checkpoint, outcome: SaveOutcome)
    | Invoked(request: Request)
    | ResumedInvocation(request: Request)
    | Restarted

  datatype State = State(turn: Turn, pc: Pc, now: nat, trace: seq<Event>, durable: Option<Checkpoint>)

  /** The process is in the middle of one particular call. */
  predicate InCall(pc: Pc) {
    pc.Approving? || pc.PreSave? || pc.Invoking? || pc.Resuming?
  }

  predicate Wf(c: Config, s: State) {
    && (InCall(s.pc) ==> s.turn.next < |s.turn.pending|)
    && (s.pc.Asking? ==> s.turn.iterations < c.maxIterations)
  }

  function FreshTurn(messages: seq<Message>): Turn {
    Turn(messages, NO_USAGE, 0, [], 0, None, None, "", false, KnownIds(messages))
  }

  function ResumedTurn(k: Checkpoint): Turn {
    Turn(k.messages, k.usage, k.iteration, k.pending, k.next, k.finish, k.inFlight, "", false, KnownIds(k.messages))
  }

  function Start(messages: seq<Message>): State {
    State(FreshTurn(messages), Head, 0, [], None)
  }

  // ---- Steps ----

  predicate OverBudget(c: Config, t: Turn) {
    c.maxTotalTokens.Some? && t.usage.input + t.usage.output >= c.maxTotalTokens.value
  }

  predicate WasCutOff(t: Turn) {
    t.finish == Some(Length) || t.finish == Some(ContentFilter)
  }

  function Snapshot(c: Config, t: Turn, phase: Phase): Checkpoint {
    if phase.ToolsPhase? then
      Checkpoint(c.runId, t.iterations, t.messages, t.usage, ToolsPhase, t.pending, t.next, t.finish, t.inFlight)
    else
      Checkpoint(c.runId, t.iterations, t.messages, t.usage, ModelPhase, [], 0, None, None)
  }

  /** The `checkpoint` closure: no further save is tried once one has failed. */
  function Save(c: Config, e: Env, s: State, phase: Phase): State {
    if s.turn.failed || !c.hasStore then s
    else
      var k := Snapshot(c, s.turn, phase);
      var outcome := e.save(s.now);
      s.(turn := s.turn.(failed := outcome != Saved),
         now := s.now + 1,
         trace := s.trace + [SavedState(k, outcome)],
         durable := if outcome == Lost then s.durable else Some(k))
  }

  /** The stop reason after a save: the one already there, else a failed save. */
  function StopAfterSave(s: State, stop: Option<Status>): Option<Status> {
    if stop.None? && s.turn.failed then Some(CheckpointFailed) else stop
  }

  /** Ids replaced position by position in the calls and in the tool_use blocks. */
  function WithIds(calls: seq<Call>, ids: seq<string>): seq<Call> {
    if calls == [] || ids == [] then []
    else [calls[0].(id := ids[0])] + WithIds(calls[1..], ids[1..])
  }

  function BlocksWithIds(blocks: seq<Block>, ids: seq<string>): seq<Block> {
    if blocks == [] then []
    else if blocks[0].ToolUse? && ids != [] then
      [blocks[0].(id := ids[0])] + BlocksWithIds(blocks[1..], ids[1..])
    else [blocks[0]] + BlocksWithIds(blocks[1..], ids)
  }

  /** tool_use blocks renamed to the wire name of the tool they resolve to. */
  function CanonicalBlocks(c: Config, blocks: seq<Block>, calls: seq<Call>): seq<Block> {
    if blocks == [] then []
    else if !blocks[0].ToolUse? then [blocks[0]] + CanonicalBlocks(c, blocks[1..], calls)
    else if calls == [] then [blocks[0]] + CanonicalBlocks(c, blocks[1..], calls)
    else
      var r := c.resolve(calls[0]);
      var b := if r.Dispatch? && Trim(blocks[0].name) != "exec"
               then blocks[0].(name := WireName(r.spec.name)) else blocks[0];
      [b] + CanonicalBlocks(c, blocks[1..], calls[1..])
  }

  /** The assistant message of a reply whose calls were given these ids. */
  function ReplyMessage(c: Config, r: Response, ids: seq<string>): Message {
    var renamed := if r.calls == [] then r.blocks else BlocksWithIds(r.blocks, ids);
    var blocks := CanonicalBlocks(c, renamed, WithIds(r.calls, ids));
    Message(Assistant, if blocks == [] then Text(r.content) else Blocks(blocks), None, "", false)
  }

  /** Appends the model's reply to the turn. */
  function TakeReply(c: Config, t: Turn, r: Response): Turn {
    var ids := c.assignIds(CallIds(r.calls), t.seen, t.iterations);
    var t' := t.(messages := t.messages + [ReplyMessage(c, r, ids)],
                 usage := AddUsage(t.usage, r.usage),
                 finalText := if r.content != "" then r.content else t.finalText,
                 seen := t.seen + ToolIds.Elements(ids));
    if r.calls == [] then t'
    else t'.(pending := WithIds(r.calls, ids), next := 0, finish := Some(r.finish), inFlight := None)
  }

  function AskModel(c: Config, e: Env, s: State): State {
    var t := s.turn.(iterations := s.turn.iterations + 1);
    var s' := s.(turn := t, now := s.now + 1, trace := s.trace + [AskedModel(t.iterations)]);
    match e.model(t.messages, s.now)
    case Failed(aborted) => s'.(pc := Done(if aborted then Aborted else ProviderError))
    case Reply(r) =>
      s'.(turn := TakeReply(c, t, r), pc := if r.calls == [] then FinalSave else ReplySave)
  }

  function LoopHead(c: Config, e: Env, s: State): State {
    var s' := s.(now := s.now + 1);
    if e.aborted(s.now) then s'.(pc := Done(Aborted))
    else if s.turn.pending != [] then
      s'.(pc := NextCall(if s.turn.failed then Some(CheckpointFailed) else None))
    else if s.turn.iterations >= c.maxIterations then s'.(pc := Done(MaxIterations))
    else if OverBudget(c, s.turn) then s'.(pc := Done(TokenBudget))
    else s'.(pc := Asking)
  }

  /** Appends the answer of the current call and moves past it. */
  function Record(s: State, answer: Answer, success: bool, stop: Option<Status>): State
    requires s.turn.next < |s.turn.pending|
  {
    var t := s.turn;
    var call := t.pending[t.next];
    var message := Message(Tool, Answered(answer), Some(call.id), call.name, !success);
    s.(turn := t.(messages := t.messages + [message], next := t.next + 1, inFlight := None), pc := AnswerSave(stop))
  }

  datatype Prepared = Runnable(spec: ToolSpec, request: Request) | NotRunnable(answer: Answer)

  /** Resolution and parameter validation of one call. */
  function Prepare(c: Config, call: Call): Prepared {
    match c.resolve(call)
    case Unresolved(problem) => NotRunnable(CouldNotResolve(problem))
    case Dispatch(spec, args) =>
      match c.validate(spec, args)
      case None => NotRunnable(BadParameters(spec.name))
      case Some(params) => Runnable(spec, Request(call.id, spec.name, params))
  }

  /** The stop reason in force when a call's turn comes. */
  function StopBeforeCall(c: Config, e: Env, s: State, stop: Option<Status>): Option<Status> {
    var stop' := if e.aborted(s.now) then Some(Aborted) else stop;
    if stop'.None? && OverBudget(c, s.turn) then Some(TokenBudget) else stop'
  }

  /** `runOneTool` up to its first effect, for a call that was prepared as `p`. */
  function StartCall(c: Config, s: State, p: Prepared): State
    requires s.turn.next < |s.turn.pending|
  {
    var resuming := s.turn.inFlight == Some(s.turn.pending[s.turn.next].id);
    if p.NotRunnable? then Record(s, p.answer, false, None)
    else if !resuming && p.spec.NeedsApproval() then
      if c.canApprove then s.(pc := Approving(p.request))
      else Record(s, NobodyToAsk(p.spec.name), false, None)
    else if !resuming then s.(pc := PreSave(p.request))
    else if c.canResume then s.(pc := Resuming(p.request))
    else Record(s, CannotResumeSafely, false, Some(CheckpointFailed))
  }

  function BeginCall(c: Config, e: Env, s: State, stop: Option<Status>): State {
    if s.turn.next >= |s.turn.pending| then s.(pc := ClearSave(stop))
    else
      var stop' := StopBeforeCall(c, e, s, stop);
      var s' := s.(now := s.now + 1);
      if stop'.Some? then Record(s', NotRun(stop'.value), false, stop')
      else if WasCutOff(s.turn) then Record(s', CutOff(s.turn.finish.value), false, None)
      else StartCall(c, s', Prepare(c, s.turn.pending[s.turn.next]))
  }

  function AskApproval(e: Env, s: State, request: Request): State
    requires s.turn.next < |s.turn.pending|
  {
    var answer := e.approve(request, s.now);
    var s' := s.(now := s.now + 1, trace := s.trace + [AskedApproval(request, answer)]);
    match answer
    case Granted => s'.(pc := PreSave(request))
    case Refused => Record(s', NotApproved(request.name), false, None)
    case AbortedWhileAsking => Record(s', NotRun(Aborted), false, Some(Aborted))
  }

  function SaveInFlight(c: Config, e: Env, s: State, request: Request): State
    requires s.turn.next < |s.turn.pending|
  {
    var s' := Save(c, e, s.(turn := s.turn.(inFlight := Some(s.turn.pending[s.turn.next].id))), ToolsPhase);
    if s'.turn.failed then Record(s', CouldNotSaveFirst, false, Some(CheckpointFailed))
    else s'.(pc := Invoking(request))
  }

  function RunTool(s: State, event: Event, outcome: ToolOutcome): State
    requires s.turn.next < |s.turn.pending|
  {
    Record(s.(now := s.now + 1, trace := s.trace + [event]), Ran(outcome.text), outcome.success, None)
  }

  function Cleared(t: Turn): Turn {
    t.(pending := [], next := 0, finish := None, inFlight := None)
  }

  function Step(c: Config, e: Env, s: State): (s': State)
    requires Wf(c, s)
    ensures Wf(c, s')
  {
    match s.pc
    case Head => LoopHead(c, e, s)
    case Asking => AskModel(c, e, s)
    case FinalSave =>
      var s' := Save(c, e, s, ModelPhase);
      s'.(pc := Done(if s'.turn.failed then CheckpointFailed else Completed))
    case ReplySave => Save(c, e, s, ToolsPhase).(pc := Head)
    case NextCall(stop) => BeginCall(c, e, s, stop)
    case Approving(request) => AskApproval(e, s, request)
    case PreSave(request) => SaveInFlight(c, e, s, request)
    case Invoking(request) => RunTool(s, Invoked(request), e.invoke(request, s.now))
    case Resuming(request) => RunTool(s, ResumedInvocation(request), e.resumeInvocation(request, s.now))
    case AnswerSave(stop) =>
      var s' := Save(c, e, s, ToolsPhase);
      s'.(pc := NextCall(StopAfterSave(s', stop)))
    case ClearSave(stop) =>
      var s' := Save(c, e, s.(turn := Cleared(s.turn)), ModelPhase);
      var stop' := StopAfterSave(s', stop);
      s'.(pc := if stop'.Some? then Done(stop'.value) else Head)
    case Done(_) => s
  }

  // ---- Running to the end ----

  /** Model calls that are still allowed. */
  ghost function CallsLeft(c: Config, s: State): nat {
    if s.turn.iterations < c.maxIterations then c.maxIterations - s.turn.iterations else 0
  }

  /** Work left before the next model call. */
  ghost function WorkLeft(s: State): nat {
    var open := if s.turn.next < |s.turn.pending| then |s.turn.pending| - s.turn.next else 0;
    match s.pc
    case Done(_) => 0
    case FinalSave => 1
    case Asking => 1
    case Head => if s.turn.pending == [] then 2 else 20 * open + 15
    case ReplySave => 20 * open + 16
    case NextCall(_) => 20 * open + 10
    case Approving(_) => 20 * open + 8
    case PreSave(_) => 20 * open + 6
    case Invoking(_) => 20 * open + 4
    case Resuming(_) => 20 * open + 4
    case AnswerSave(_) => 20 * open + 11
    case ClearSave(_) => 3
  }

  /** What a call's turn leads to, by the stop reason in force. */
  lemma BeginCallCases(c: Config, e: Env, s: State, stop: Option<Status>, stop': Option<Status>)
    requires s.turn.next < |s.turn.pending| && stop' == StopBeforeCall(c, e, s, stop)
    ensures var s' := s.(now := s.now + 1);
            BeginCall(c, e, s, stop) ==
              if stop'.Some? then Record(s', NotRun(stop'.value), false, stop')
              else if WasCutOff(s.turn) then Record(s', CutOff(s.turn.finish.value), false, None)
              else StartCall(c, s', Prepare(c, s.turn.pending[s.turn.next]))
  {
  }

  lemma RecordMakesProgress(c: Config, s: State, answer: Answer, success: bool, stop: Option<Status>)
    requires s.turn.next < |s.turn.pending|
    ensures var s' := Record(s, answer, success, stop);
            && CallsLeft(c, s') == CallsLeft(c, s)
            && WorkLeft(s') == 20 * (|s.turn.pending| - s.turn.next) - 9
  {
  }

  lemma BeginMakesProgress(c: Config, e: Env, s: State, stop: Option<Status>)
    requires s.pc == NextCall(stop)
    ensures var s' := BeginCall(c, e, s, stop); CallsLeft(c, s') == CallsLeft(c, s) && WorkLeft(s') < WorkLeft(s)
  {
    if s.turn.next < |s.turn.pending| {
      var s' := s.(now := s.now + 1);
      var stop' := StopBeforeCall(c, e, s, stop);
      BeginCallCases(c, e, s, stop, stop');
      if stop'.Some? {
        RecordMakesProgress(c, s', NotRun(stop'.value), false, stop');
      } else if WasCutOff(s.turn) {
        RecordMakesProgress(c, s', CutOff(s.turn.finish.value), false, None);
      } else {
        StartMakesProgress(c, s', Prepare(c, s.turn.pending[s.turn.next]));
      }
    }
  }

  lemma StartMakesProgress(c: Config, s: State, p: Prepared)
    requires s.turn.next < |s.turn.pending|
    ensures var s' := StartCall(c, s, p);
            CallsLeft(c, s') == CallsLeft(c, s) && WorkLeft(s') < 20 * (|s.turn.pending| - s.turn.next) + 10
  {
  }

  lemma StepMakesProgress(c: Config, e: Env, s: State)
    requires Wf(c, s) && !s.pc.Done?
    ensures var s' := Step(c, e, s);
            || CallsLeft(c, s') < CallsLeft(c, s)
            || (CallsLeft(c, s') == CallsLeft(c, s) && WorkLeft(s') < WorkLeft(s))
  {
    match s.pc
    case NextCall(stop) => BeginMakesProgress(c, e, s, stop);
    case Asking => AskMakesProgress(c, e, s);
    case Approving(request) => InCallMakesProgress(c, e, s);
    case PreSave(request) => InCallMakesProgress(c, e, s);
    case _ =>
  }

  lemma AskMakesProgress(c: Config, e: Env, s: State)
    requires s.turn.iterations < c.maxIterations
    ensures CallsLeft(c, AskModel(c, e, s)) < CallsLeft(c, s)
  {
  }

  lemma InCallMakesProgress(c: Config, e: Env, s: State)
    requires Wf(c, s) && (s.pc.Approving? || s.pc.PreSave?)
    ensures CallsLeft(c, Step(c, e, s)) == CallsLeft(c, s) && WorkLeft(Step(c, e, s)) < WorkLeft(s)
  {
  }

  /** The state in which the turn returns: every turn ends, whatever the world answers. */
  ghost function Run(c: Config, e: Env, s: State): (r: State)
    requires Wf(c, s)
    ensures r.pc.Done?
    decreases CallsLeft(c, s), WorkLeft(s)
  {
    if s.pc.Done? then s
    else
      StepMakesProgress(c, e, s);
      Run(c, e, Step(c, e, s))
  }

  lemma RunStep(c: Config, e: Env, s: State)
    requires Wf(c, s)
    ensures Run(c, e, Step(c, e, s)) == Run(c, e, s)
  {
  }

  // ---- Crashes ----

  /**
   * The process dies and a new one takes over: from the latest stored checkpoint, or from the
   * original messages when nothing was ever stored.
   */
  function Crash(messages: seq<Message>, s: State): State {
    State(if s.durable.Some? then ResumedTurn(s.durable.value) else FreshTurn(messages),
          Head, s.now + 1, s.trace + [Restarted], s.durable)
  }

  /** Runs any schedule of steps (`false`) and crashes (`true`). */
  function Exec(c: Config, e: Env, messages: seq<Message>, schedule: seq<bool>): (s: State)
    ensures Wf(c, s)
    decreases |schedule|
  {
    if schedule == [] then Start(messages)
    else
      var s := Exec(c, e, messages, schedule[..|schedule| - 1]);
      if schedule[|schedule| - 1] then Crash(messages, s) else Step(c, e, s)
  }

  lemma ExecMore(c: Config, e: Env, messages: seq<Message>, schedule: seq<bool>, n: nat)
    requires n < |schedule| && !schedule[n]
    ensures Exec(c, e, messages, schedule[..n + 1]) == Step(c, e, Exec(c, e, messages, schedule[..n]))
  {
    assert schedule[..n + 1][..n] == schedule[..n];
  }

  /** Three steps more, without a crash. */
  lemma ExecThree(c: Config, e: Env, messages: seq<Message>, before: seq<bool>, three: seq<bool>)
    requires |three| == 3 && true !in three
    ensures Exec(c, e, messages, before + three) == Step(c, e, Step(c, e, Step(c, e, Exec(c, e, messages, before))))
    ensures before == [] ==> before + three == three && Exec(c, e, messages, before) == Start(messages)
  {
    ExecMore(c, e, messages, before + three, |before|);
    ExecMore(c, e, messages, before + three, |before| + 1);
    ExecMore(c, e, messages, before + three, |before| + 2);
    assert (before + three)[..|before|] == before && (before + three)[..|before| + 3] == before + three;
  }
}
