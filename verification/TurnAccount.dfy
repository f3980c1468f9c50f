/**
 * The transcript as an account of what happened: every message after the first ones is a reply of
 * the model or the true answer to one of its calls, every request to the host is what such a call
 * becomes, and the status of a finished turn says why it ended.
 */
module TurnAccount {
  import opened Wrappers
  import opened TurnMachine
  import opened TurnIds
  import opened TurnReplies
  import opened TurnSafety

  // ---- Calls ----

  /** The request a call becomes: of the tool it resolves to, with the parameters that validation let through. */
  ghost predicate Becomes(c: Config, call: Call, r: Request) {
    && r.id == call.id
    && var resolved := c.resolve(call);
    && resolved.Dispatch? && resolved.spec.name == r.name
    && c.validate(resolved.spec, resolved.args) == Some(r.args)
  }

  /** Validation does not let the call's parameters through. */
  predicate BadCall(c: Config, call: Call, tool: string) {
    var resolved := c.resolve(call);
    resolved.Dispatch? && resolved.spec.name == tool && c.validate(resolved.spec, resolved.args).None?
  }

  /** The call's tool does anything but read or write, or says that it needs approval. */
  predicate NeedsHuman(c: Config, call: Call) {
    var resolved := c.resolve(call);
    && resolved.Dispatch?
    && (resolved.spec.requiresApproval || !(resolved.spec.sideEffect.Read? || resolved.spec.sideEffect.Write?))
  }

  /** The reply was cut off, so its calls may be incomplete. */
  predicate Incomplete(r: Response) {
    r.finish.Length? || r.finish.ContentFilter?
  }

  // ---- Replies in the transcript ----

  /** The message is the reply `r` the model once gave to those before it. */
  ghost predicate IsReply(c: Config, e: Env, before: seq<Message>, m: Message, r: Response) {
    && Repeats(c, r, m) && |UsesOf(m)| == |r.calls|
    && exists at :: e.model(before, at) == Reply(r)
  }

  ghost predicate ReplyAt(c: Config, e: Env, ms: seq<Message>, n: nat, r: Response) {
    n < |ms| && IsReply(c, e, ms[..n], ms[n], r)
  }

  /** The ith call of that reply, under the id the message gave it. */
  ghost predicate CallAt(c: Config, e: Env, ms: seq<Message>, n: nat, i: nat, r: Response, call: Call) {
    && ReplyAt(c, e, ms, n, r) && i < |r.calls|
    && call == Call(UsesOf(ms[n])[i], r.calls[i].name, r.calls[i].args)
  }

  predicate Adds(a: Usage, b: Usage, sum: Usage) {
    && sum.input == a.input + b.input && sum.output == a.output + b.output
    && sum.cached == a.cached + b.cached && sum.cacheWrite == a.cacheWrite + b.cacheWrite
  }

  /** There are `n` replies after the first messages, and they used `u`. */
  ghost predicate Used(c: Config, e: Env, first: nat, ms: seq<Message>, u: Usage, n: nat)
    decreases |ms|
  {
    if |ms| <= first then u == NO_USAGE && n == 0
    else
      var m, before := ms[|ms| - 1], ms[..|ms| - 1];
      if m.role.Assistant? then
        && n > 0
        && exists r, v :: ReplyAt(c, e, ms, |ms| - 1, r) && Used(c, e, first, before, v, n - 1) && Adds(v, r.usage, u)
      else Used(c, e, first, before, u, n)
  }

  predicate Over(c: Config, u: Usage) {
    c.maxTotalTokens.Some? && u.input + u.output >= c.maxTotalTokens.value
  }

  ghost predicate TokensLeft(c: Config, e: Env, first: nat, ms: seq<Message>) {
    exists u, k :: Used(c, e, first, ms, u, k) && !Over(c, u)
  }

  // ---- Requests ----

  function RequestOf(ev: Event): Option<Request> {
    match ev
    case AskedApproval(r, _) => Some(r)
    case Invoked(r) => Some(r)
    case ResumedInvocation(r) => Some(r)
    case _ => None
  }

  /** The request is what a call of a complete reply becomes, and that reply left tokens to go on with. */
  ghost predicate RequestFor(c: Config, e: Env, first: nat, ms: seq<Message>, n: nat, i: nat, reply: Response,
                             call: Call, ev: Event) {
    && first <= n && CallAt(c, e, ms, n, i, reply, call) && !Incomplete(reply)
    && RequestOf(ev).Some? && Becomes(c, call, RequestOf(ev).value)
    && (ev.AskedApproval? ==> NeedsHuman(c, call) && c.canApprove)
    && (ev.ResumedInvocation? ==> c.canResume)
    && TokensLeft(c, e, first, ms[..n + 1])
  }

  ghost predicate Requested(c: Config, e: Env, first: nat, ms: seq<Message>, ev: Event) {
    exists n, i, reply, call :: RequestFor(c, e, first, ms, n, i, reply, call, ev)
  }

  ghost predicate AllRequested(c: Config, e: Env, first: nat, ms: seq<Message>, trace: seq<Event>) {
    forall ev :: ev in trace && RequestOf(ev).Some? ==> Requested(c, e, first, ms, ev)
  }

  ghost predicate Unasked(trace: seq<Event>, id: string) {
    forall ev :: ev in trace && RequestOf(ev).Some? ==> RequestOf(ev).value.id != id
  }

  // ---- Answers ----

  ghost predicate SaveFailed(past: seq<Event>) {
    exists k, o :: SavedState(k, o) in past && o != Saved
  }

  ghost predicate CouldNotResume(first: nat, ms: seq<Message>) {
    exists n :: first <= n < |ms| && ms[n].content == Answered(CannotResumeSafely)
  }

  /** Why a turn stops in the middle of its calls. */
  ghost predicate Stopped(c: Config, e: Env, first: nat, ms: seq<Message>, past: seq<Event>, status: Status) {
    match status
    case Aborted => (exists at :: e.aborted(at)) || (exists r :: AskedApproval(r, AbortedWhileAsking) in past)
    case TokenBudget => exists u, k :: Used(c, e, first, ms, u, k) && Over(c, u)
    case CheckpointFailed => SaveFailed(past) || CouldNotResume(first, ms)
    case _ => false
  }

  /** The tool ran and put out `text`. */
  ghost predicate Did(c: Config, e: Env, past: seq<Event>, call: Call, text: string, success: bool) {
    || (exists r, at :: Becomes(c, call, r) && Invoked(r) in past && e.invoke(r, at) == ToolOutcome(success, text))
    || (exists r, at :: Becomes(c, call, r) && ResumedInvocation(r) in past
                        && e.resumeInvocation(r, at) == ToolOutcome(success, text))
  }

  /** The answer is true of the call: of the messages before it and of what was done. */
  ghost predicate TrueAnswer(c: Config, e: Env, first: nat, ms: seq<Message>, past: seq<Event>, reply: Response,
                             call: Call, answer: Answer, success: bool) {
    && (success ==> answer.Ran?)
    && match answer
       case NotRun(status) => Stopped(c, e, first, ms, past, status)
       case CutOff(finish) => finish == reply.finish && Incomplete(reply)
       case CouldNotResolve(problem) => c.resolve(call) == ToolCalls.Unresolved(problem)
       case BadParameters(tool) => BadCall(c, call, tool)
       case NobodyToAsk(tool) =>
         && NeedsHuman(c, call) && c.resolve(call).spec.name == tool && !c.canApprove
         && (exists r :: Becomes(c, call, r))
       case NotApproved(tool) =>
         exists r :: Becomes(c, call, r) && r.name == tool && AskedApproval(r, Refused) in past
       case CannotResumeSafely => !c.canResume && exists r :: Becomes(c, call, r)
       case CouldNotSaveFirst =>
         && (exists r :: Becomes(c, call, r))
         && exists k, o :: SavedState(k, o) in past && o != Saved && k.inFlight == Some(call.id)
       case Ran(text) => Did(c, e, past, call, text, success)
  }

  /** The message answers this call, which is one of the reply at `n` before it. */
  ghost predicate IsAnswer(c: Config, e: Env, first: nat, before: seq<Message>, m: Message, past: seq<Event>, n: nat,
                           i: nat, reply: Response, call: Call) {
    && first <= n && CallAt(c, e, before, n, i, reply, call)
    && m.role.Tool? && m.toolCallId == Some(call.id) && m.name == call.name && m.content.Answered?
    && TrueAnswer(c, e, first, before, past, reply, call, m.content.answer, !m.isError)
  }

  /** A message is a reply or a true answer. */
  ghost predicate Entry(c: Config, e: Env, first: nat, before: seq<Message>, m: Message, past: seq<Event>) {
    || (exists r :: IsReply(c, e, before, m, r))
    || (exists n, i, reply, call :: IsAnswer(c, e, first, before, m, past, n, i, reply, call))
  }

  ghost predicate Entries(c: Config, e: Env, first: nat, ms: seq<Message>, past: seq<Event>) {
    forall n :: first <= n < |ms| ==> Entry(c, e, first, ms[..n], ms[n], past)
  }

  /** Answers of which none but a call that nobody was asked about can be given. */
  predicate SaysUntouched(m: Message) {
    && m.content.Answered?
    && (m.content.answer.CutOff? || m.content.answer.CouldNotResolve? || m.content.answer.BadParameters?)
  }

  ghost predicate UntouchedIsUnasked(first: nat, ms: seq<Message>, past: seq<Event>) {
    forall n :: first <= n < |ms| && SaysUntouched(ms[n]) && ms[n].toolCallId.Some? ==>
      Unasked(past, ms[n].toolCallId.value)
  }

  // ---- The invariant ----

  /** The pending calls are those of the reply at `n`, which left the turn as it is but for the answers. */
  ghost predicate PendingFrom(c: Config, e: Env, first: nat, t: Turn, n: nat, r: Response) {
    && first <= n && ReplyAt(c, e, t.messages, n, r) && t.finish == Some(r.finish)
    && |t.pending| == |r.calls|
    && (forall i :: 0 <= i < |t.pending| ==> CallAt(c, e, t.messages, n, i, r, t.pending[i]))
    && Used(c, e, first, t.messages[..n + 1], t.usage, t.iterations)
  }

  /** No message after the first ones answers the calls from `next` on. */
  ghost predicate StillOpen(first: nat, t: Turn) {
    forall n, i :: first <= n < |t.messages| && t.next <= i < |t.pending| ==>
      t.messages[n].toolCallId != Some(t.pending[i].id)
  }

  /** The reply whose calls are pending was not cut off. */
  predicate Whole(finish: Option<FinishReason>) {
    finish != Some(Length) && finish != Some(ContentFilter)
  }

  /** What was asked of the host under the id of an open call is what that call becomes. */
  ghost predicate OpenRequests(c: Config, t: Turn, trace: seq<Event>) {
    && (forall ev :: ev in trace && RequestOf(ev).Some? ==> RequestOf(ev).value.id in t.seen)
    && (forall ev, i :: ev in trace && RequestOf(ev).Some? && t.next <= i < |t.pending|
                        && RequestOf(ev).value.id == t.pending[i].id ==>
          Becomes(c, t.pending[i], RequestOf(ev).value) && Whole(t.finish))
  }

  /** The messages of a memory image or checkpoint agree with the history. */
  ghost predicate Written(c: Config, e: Env, first: nat, ms: seq<Message>, trace: seq<Event>) {
    && Entries(c, e, first, ms, trace)
    && AllRequested(c, e, first, ms, trace)
    && UntouchedIsUnasked(first, ms, trace)
  }

  /** So do its pending calls, and what was used. */
  ghost predicate Kept(c: Config, e: Env, first: nat, t: Turn, trace: seq<Event>) {
    && (t.pending != [] ==> exists n, r :: PendingFrom(c, e, first, t, n, r))
    && StillOpen(first, t)
    && OpenRequests(c, t, trace)
    && Used(c, e, first, t.messages, t.usage, t.iterations)
  }

  ghost predicate Account(c: Config, e: Env, first: seq<Message>, t: Turn, trace: seq<Event>) {
    && first <= t.messages
    && Written(c, e, |first|, t.messages, trace)
    && Kept(c, e, |first|, t, trace)
  }

  // ---- More history, more messages ----

  lemma MoreHistory(c: Config, e: Env, first: nat, ms: seq<Message>, past: seq<Event>, ev: Event)
    requires Entries(c, e, first, ms, past)
    ensures Entries(c, e, first, ms, past + [ev])
  {
    forall n | first <= n < |ms| ensures Entry(c, e, first, ms[..n], ms[n], past + [ev]) {
      EntryStays(c, e, first, ms[..n], ms[n], past, ev);
    }
  }

  lemma EntryStays(c: Config, e: Env, first: nat, before: seq<Message>, m: Message, past: seq<Event>, ev: Event)
    requires Entry(c, e, first, before, m, past)
    ensures Entry(c, e, first, before, m, past + [ev])
  {
    if n, i, reply, call :| IsAnswer(c, e, first, before, m, past, n, i, reply, call) {
      StillTrue(c, e, first, before, past, ev, reply, call, m.content.answer, !m.isError);
      assert IsAnswer(c, e, first, before, m, past + [ev], n, i, reply, call);
    }
  }

  /** What is true of a call stays true. */
  lemma StillTrue(c: Config, e: Env, first: nat, ms: seq<Message>, past: seq<Event>, ev: Event, reply: Response,
                  call: Call, answer: Answer, success: bool)
    requires TrueAnswer(c, e, first, ms, past, reply, call, answer, success)
    ensures TrueAnswer(c, e, first, ms, past + [ev], reply, call, answer, success)
  {
    match answer
    case NotRun(status) => StillStopped(c, e, first, ms, past, ev, status);
    case NotApproved(tool) =>
      var r :| Becomes(c, call, r) && r.name == tool && AskedApproval(r, Refused) in past;
      assert AskedApproval(r, Refused) in past + [ev];
    case CouldNotSaveFirst =>
      var k, o :| SavedState(k, o) in past && o != Saved && k.inFlight == Some(call.id);
      assert SavedState(k, o) in past + [ev];
    case Ran(text) => StillDid(c, e, past, ev, call, text, success);
    case _ =>
  }

  lemma StillStopped(c: Config, e: Env, first: nat, ms: seq<Message>, past: seq<Event>, ev: Event, status: Status)
    requires Stopped(c, e, first, ms, past, status)
    ensures Stopped(c, e, first, ms, past + [ev], status)
  {
    match status
    case Aborted =>
      if r :| AskedApproval(r, AbortedWhileAsking) in past {
        assert AskedApproval(r, AbortedWhileAsking) in past + [ev];
      }
    case CheckpointFailed =>
      if SaveFailed(past) {
        var k, o :| SavedState(k, o) in past && o != Saved;
        assert SavedState(k, o) in past + [ev];
      }
    case _ =>
  }

  lemma StillDid(c: Config, e: Env, past: seq<Event>, ev: Event, call: Call, text: string, success: bool)
    requires Did(c, e, past, call, text, success)
    ensures Did(c, e, past + [ev], call, text, success)
  {
    if r, at :| Becomes(c, call, r) && Invoked(r) in past && e.invoke(r, at) == ToolOutcome(success, text) {
      assert Invoked(r) in past + [ev];
    } else {
      var r, at :| Becomes(c, call, r) && ResumedInvocation(r) in past
                   && e.resumeInvocation(r, at) == ToolOutcome(success, text);
      assert ResumedInvocation(r) in past + [ev];
    }
  }

  /** `all` are the messages `ms` and one more. */
  ghost predicate OneMore(ms: seq<Message>, all: seq<Message>) {
    |all| == |ms| + 1 && ms == all[..|ms|]
  }

  lemma ReplyStays(c: Config, e: Env, ms: seq<Message>, all: seq<Message>, n: nat, r: Response)
    requires OneMore(ms, all) && ReplyAt(c, e, ms, n, r)
    ensures ReplyAt(c, e, all, n, r)
  {
    assert all[..n] == ms[..n] && all[n] == ms[n];
  }

  lemma MoreMessages(c: Config, e: Env, first: nat, ms: seq<Message>, all: seq<Message>, past: seq<Event>)
    requires Entries(c, e, first, ms, past) && OneMore(ms, all) && Entry(c, e, first, ms, all[|ms|], past)
    ensures Entries(c, e, first, all, past)
  {
    forall n | first <= n < |all| ensures Entry(c, e, first, all[..n], all[n], past) {
      if n < |ms| {
        assert all[..n] == ms[..n];
      }
    }
  }

  lemma RequestsStay(c: Config, e: Env, first: nat, ms: seq<Message>, all: seq<Message>, trace: seq<Event>)
    requires AllRequested(c, e, first, ms, trace) && OneMore(ms, all)
    ensures AllRequested(c, e, first, all, trace)
  {
    forall ev | ev in trace && RequestOf(ev).Some? ensures Requested(c, e, first, all, ev) {
      var n, i, reply, call :| RequestFor(c, e, first, ms, n, i, reply, call, ev);
      RequestStays(c, e, first, ms, all, n, i, reply, call, ev);
    }
  }

  lemma RequestStays(c: Config, e: Env, first: nat, ms: seq<Message>, all: seq<Message>, n: nat, i: nat,
                     reply: Response, call: Call, ev: Event)
    requires OneMore(ms, all) && RequestFor(c, e, first, ms, n, i, reply, call, ev)
    ensures RequestFor(c, e, first, all, n, i, reply, call, ev)
  {
    ReplyStays(c, e, ms, all, n, reply);
    assert all[..n + 1] == ms[..n + 1] && all[n] == ms[n];
  }

  lemma UsedStays(c: Config, e: Env, first: nat, ms: seq<Message>, all: seq<Message>, u: Usage, n: nat)
    requires OneMore(ms, all) && first <= |ms| && !all[|ms|].role.Assistant? && Used(c, e, first, ms, u, n)
    ensures Used(c, e, first, all, u, n)
  {
    assert all[..|all| - 1] == ms;
  }

  lemma UsedMore(c: Config, e: Env, first: nat, ms: seq<Message>, all: seq<Message>, v: Usage, n: nat, r: Response,
                 u: Usage)
    requires OneMore(ms, all) && first <= |ms| && Used(c, e, first, ms, v, n) && ReplyAt(c, e, all, |ms|, r)
    requires Adds(v, r.usage, u)
    ensures Used(c, e, first, all, u, n + 1)
  {
    assert all[..|all| - 1] == ms;
  }

  // ---- Keeping the account ----

  /** The account speaks of these fields only. */
  predicate SameBooks(t: Turn, t': Turn) {
    && t'.messages == t.messages && t'.usage == t.usage && t'.iterations == t.iterations && t'.pending == t.pending
    && t'.next == t.next && t'.seen == t.seen && (t.pending != [] ==> t'.finish == t.finish)
  }

  lemma SameKept(c: Config, e: Env, first: nat, t: Turn, trace: seq<Event>, t': Turn)
    requires Kept(c, e, first, t, trace) && SameBooks(t, t')
    ensures Kept(c, e, first, t', trace)
  {
    if t.pending != [] {
      var n, r :| PendingFrom(c, e, first, t, n, r);
      assert PendingFrom(c, e, first, t', n, r);
    }
  }

  lemma SameAccount(c: Config, e: Env, first: seq<Message>, t: Turn, trace: seq<Event>, t': Turn)
    requires Account(c, e, first, t, trace) && SameBooks(t, t')
    ensures Account(c, e, first, t', trace)
  {
    SameKept(c, e, |first|, t, trace, t');
  }

  lemma RequestsLater(c: Config, e: Env, first: nat, ms: seq<Message>, trace: seq<Event>, ev: Event)
    requires AllRequested(c, e, first, ms, trace) && (RequestOf(ev).Some? ==> Requested(c, e, first, ms, ev))
    ensures AllRequested(c, e, first, ms, trace + [ev])
  {
  }

  lemma UntouchedLater(first: nat, ms: seq<Message>, trace: seq<Event>, ev: Event)
    requires UntouchedIsUnasked(first, ms, trace) && RequestOf(ev).None?
    ensures UntouchedIsUnasked(first, ms, trace + [ev])
  {
  }

  lemma KeptLater(c: Config, e: Env, first: nat, t: Turn, trace: seq<Event>, ev: Event)
    requires Kept(c, e, first, t, trace) && OpenRequests(c, t, trace + [ev])
    ensures Kept(c, e, first, t, trace + [ev])
  {
  }

  lemma EventAccount(c: Config, e: Env, first: seq<Message>, t: Turn, trace: seq<Event>, ev: Event)
    requires Account(c, e, first, t, trace) && RequestOf(ev).None?
    ensures Account(c, e, first, t, trace + [ev])
  {
    MoreHistory(c, e, |first|, t.messages, trace, ev);
    RequestsLater(c, e, |first|, t.messages, trace, ev);
    UntouchedLater(|first|, t.messages, trace, ev);
    RequestsGrow(c, t, trace, ev);
    KeptLater(c, e, |first|, t, trace, ev);
  }

  /** A request for the next pending call. */
  lemma RequestAccount(c: Config, e: Env, first: seq<Message>, t: Turn, trace: seq<Event>, ev: Event)
    requires Account(c, e, first, t, trace) && IdsOk(t) && t.next < |t.pending|
    requires RequestOf(ev).Some? && Becomes(c, t.pending[t.next], RequestOf(ev).value) && Whole(t.finish)
    requires Requested(c, e, |first|, t.messages, ev)
    ensures Account(c, e, first, t, trace + [ev])
  {
    MoreHistory(c, e, |first|, t.messages, trace, ev);
    RequestsLater(c, e, |first|, t.messages, trace, ev);
    RequestLeavesUntouched(|first|, t, trace, ev);
    RequestsGrow(c, t, trace, ev);
    KeptLater(c, e, |first|, t, trace, ev);
  }

  lemma RequestsGrow(c: Config, t: Turn, trace: seq<Event>, ev: Event)
    requires OpenRequests(c, t, trace)
    requires RequestOf(ev).Some? ==> IdsOk(t) && t.next < |t.pending| && Whole(t.finish)
                                     && Becomes(c, t.pending[t.next], RequestOf(ev).value)
    ensures OpenRequests(c, t, trace + [ev])
  {
  }

  lemma RequestLeavesUntouched(first: nat, t: Turn, trace: seq<Event>, ev: Event)
    requires UntouchedIsUnasked(first, t.messages, trace) && StillOpen(first, t) && t.next < |t.pending|
    requires RequestOf(ev).Some? && RequestOf(ev).value.id == t.pending[t.next].id
    ensures UntouchedIsUnasked(first, t.messages, trace + [ev])
  {
    forall n | first <= n < |t.messages| && SaysUntouched(t.messages[n]) && t.messages[n].toolCallId.Some?
      ensures Unasked(trace + [ev], t.messages[n].toolCallId.value)
    {
      assert t.messages[n].toolCallId != Some(t.pending[t.next].id);
    }
  }

  /** The next pending call gets its answer. */
  lemma AnswerAccount(c: Config, e: Env, first: seq<Message>, t: Turn, trace: seq<Event>, m: Message, t': Turn)
    requires Account(c, e, first, t, trace) && IdsOk(t) && t.next < |t.pending|
    requires t' == t.(messages := t.messages + [m], next := t.next + 1, inFlight := None)
    requires m.role.Tool? && m.toolCallId == Some(t.pending[t.next].id) && Entry(c, e, |first|, t.messages, m, trace)
    requires SaysUntouched(m) ==> Unasked(trace, t.pending[t.next].id)
    ensures Account(c, e, first, t', trace)
  {
    assert OneMore(t.messages, t'.messages);
    MoreMessages(c, e, |first|, t.messages, t'.messages, trace);
    RequestsStay(c, e, |first|, t.messages, t'.messages, trace);
    UsedStays(c, e, |first|, t.messages, t'.messages, t.usage, t.iterations);
    var n, r :| PendingFrom(c, e, |first|, t, n, r);
    PendingStays(c, e, |first|, t, n, r, t');
    AnswerUntouched(|first|, t, trace, m, t');
  }

  lemma PendingStays(c: Config, e: Env, first: nat, t: Turn, n: nat, r: Response, t': Turn)
    requires PendingFrom(c, e, first, t, n, r) && OneMore(t.messages, t'.messages)
    requires t'.pending == t.pending && t'.finish == t.finish && t'.usage == t.usage && t'.iterations == t.iterations
    ensures PendingFrom(c, e, first, t', n, r)
  {
    ReplyStays(c, e, t.messages, t'.messages, n, r);
    assert t'.messages[..n + 1] == t.messages[..n + 1] && t'.messages[n] == t.messages[n];
    forall i | 0 <= i < |t'.pending| ensures CallAt(c, e, t'.messages, n, i, r, t'.pending[i]) {
      assert CallAt(c, e, t.messages, n, i, r, t.pending[i]);
    }
  }

  lemma AnswerUntouched(first: nat, t: Turn, trace: seq<Event>, m: Message, t': Turn)
    requires UntouchedIsUnasked(first, t.messages, trace) && StillOpen(first, t) && IdsOk(t) && t.next < |t.pending|
    requires t' == t.(messages := t.messages + [m], next := t.next + 1, inFlight := None)
    requires m.toolCallId == Some(t.pending[t.next].id)
    requires SaysUntouched(m) ==> Unasked(trace, t.pending[t.next].id)
    ensures UntouchedIsUnasked(first, t'.messages, trace) && StillOpen(first, t')
  {
    forall n, i | first <= n < |t'.messages| && t'.next <= i < |t'.pending|
      ensures t'.messages[n].toolCallId != Some(t'.pending[i].id)
    {
      if n < |t.messages| {
        assert t'.messages[n] == t.messages[n];
      }
    }
  }

  lemma {:induction false} AnsweredIsKnown(ms: seq<Message>, n: nat)
    requires n < |ms| && ms[n].toolCallId.Some? && ms[n].toolCallId.value != ""
    ensures ms[n].toolCallId.value in KnownIds(ms)
    decreases |ms|
  {
    if n < |ms| - 1 {
      AnsweredIsKnown(ms[..|ms| - 1], n);
    } else {
      assert ResultsOf(ms[n])[0] == ms[n].toolCallId.value;
    }
  }

  /** Ids that a reply's calls are given occur nowhere before. */
  ghost predicate NewIds(t: Turn, t': Turn) {
    forall i :: 0 <= i < |t'.pending| ==> t'.pending[i].id !in t.seen && t'.pending[i].id != ""
  }

  lemma CallsGetNewIds(c: Config, t: Turn, r: Response, t': Turn)
    requires Lawful(c) && WellFormedResponse(r) && IdsOk(t) && t.pending == [] && t' == TakeReply(c, t, r)
    ensures NewIds(t, t') && OneMore(t.messages, t'.messages) && t.seen <= t'.seen
    ensures t'.messages[|t.messages|].toolCallId.None?
  {
    ReplyMessageIds(c, t, r);
    ReplyIsRepeated(c, t, r);
    var ids := c.assignIds(CallIds(r.calls), t.seen, t.iterations);
    forall i | 0 <= i < |t'.pending| ensures t'.pending[i].id !in t.seen && t'.pending[i].id != "" {
      assert t'.pending[i].id == ids[i];
    }
  }

  lemma NewCallsAreUnasked(c: Config, t: Turn, t': Turn, trace: seq<Event>)
    requires NewIds(t, t') && t.seen <= t'.seen && OpenRequests(c, t, trace)
    ensures OpenRequests(c, t', trace)
  {
  }

  lemma NewCallsAreOpen(first: nat, t: Turn, t': Turn)
    requires NewIds(t, t') && t.seen == KnownIds(t.messages) && OneMore(t.messages, t'.messages)
    requires t'.messages[|t.messages|].toolCallId.None?
    ensures StillOpen(first, t')
  {
    forall n, i | first <= n < |t'.messages| && t'.next <= i < |t'.pending|
      ensures t'.messages[n].toolCallId != Some(t'.pending[i].id)
    {
      if n < |t.messages| {
        assert t'.messages[n] == t.messages[n];
        if t.messages[n].toolCallId == Some(t'.pending[i].id) { AnsweredIsKnown(t.messages, n); }
      }
    }
  }

  /** The model's reply, asked for as the next iteration. */
  lemma ReplyAccount(c: Config, e: Env, first: seq<Message>, t: Turn, trace: seq<Event>, at: nat, r: Response, t': Turn)
    requires Lawful(c) && WellFormedResponse(r) && Account(c, e, first, t, trace) && IdsOk(t) && t.pending == []
    requires e.model(t.messages, at) == Reply(r) && t' == TakeReply(c, t.(iterations := t.iterations + 1), r)
    ensures Account(c, e, first, t', trace)
    ensures r.calls == [] ==> EndsInFinal(c, e, t'.messages)
  {
    ReplyFacts(c, e, t, at, r, t');
    ReplyWritten(c, e, |first|, t.messages, t'.messages, r, trace);
    ReplyKept(c, e, |first|, t, trace, r, t');
    if r.calls == [] { EndsInReply(c, e, t.messages, t'.messages, r); }
  }

  lemma ReplyFacts(c: Config, e: Env, t: Turn, at: nat, r: Response, t': Turn)
    requires Lawful(c) && WellFormedResponse(r) && IdsOk(t) && t.pending == []
    requires e.model(t.messages, at) == Reply(r) && t' == TakeReply(c, t.(iterations := t.iterations + 1), r)
    ensures OneMore(t.messages, t'.messages) && IsReply(c, e, t.messages, t'.messages[|t.messages|], r)
    ensures ReplyAt(c, e, t'.messages, |t.messages|, r)
    ensures Adds(t.usage, r.usage, t'.usage) && t'.iterations == t.iterations + 1
    ensures r.calls == [] <==> t'.pending == []
  {
    ReplyIsRepeated(c, t.(iterations := t.iterations + 1), r);
    RepeatedIsReply(c, e, t.messages, t'.messages, at, r);
  }

  lemma ReplyKept(c: Config, e: Env, first: nat, t: Turn, trace: seq<Event>, r: Response, t': Turn)
    requires Lawful(c) && WellFormedResponse(r) && Kept(c, e, first, t, trace) && IdsOk(t) && t.pending == []
    requires t' == TakeReply(c, t.(iterations := t.iterations + 1), r) && first <= |t.messages|
    requires OneMore(t.messages, t'.messages) && ReplyAt(c, e, t'.messages, |t.messages|, r)
    requires Adds(t.usage, r.usage, t'.usage) && t'.iterations == t.iterations + 1
    requires r.calls == [] <==> t'.pending == []
    ensures Kept(c, e, first, t', trace)
  {
    hide TakeReply, Used, OpenRequests, StillOpen, PendingFrom, OneMore, ReplyAt, Lawful, IdsOk;
    var t1 := t.(iterations := t.iterations + 1);
    SameTurn(c, t, t1, trace);
    CallsGetNewIds(c, t1, r, t');
    NewCallsAreUnasked(c, t1, t', trace);
    NewCallsAreOpen(first, t1, t');
    UsedMore(c, e, first, t.messages, t'.messages, t.usage, t.iterations, r, t'.usage);
    if r.calls != [] {
      NewCallsPend(c, e, first, t1, r, t');
    }
  }

  lemma SameTurn(c: Config, t: Turn, t': Turn, trace: seq<Event>)
    requires IdsOk(t) && OpenRequests(c, t, trace) && t' == t.(iterations := t'.iterations)
    ensures IdsOk(t') && OpenRequests(c, t', trace) && t'.seen == KnownIds(t'.messages)
  {
  }

  lemma RepeatedIsReply(c: Config, e: Env, ms: seq<Message>, all: seq<Message>, at: nat, r: Response)
    requires OneMore(ms, all) && Repeats(c, r, all[|ms|]) && |UsesOf(all[|ms|])| == |r.calls|
    requires e.model(ms, at) == Reply(r)
    ensures IsReply(c, e, ms, all[|ms|], r) && ReplyAt(c, e, all, |ms|, r)
  {
  }

  lemma ReplySaysMore(c: Config, e: Env, ms: seq<Message>, m: Message, r: Response)
    requires IsReply(c, e, ms, m, r)
    ensures !SaysUntouched(m) && m.role.Assistant?
  {
  }

  lemma UntouchedStays(first: nat, ms: seq<Message>, all: seq<Message>, trace: seq<Event>)
    requires UntouchedIsUnasked(first, ms, trace) && OneMore(ms, all) && !SaysUntouched(all[|ms|])
    ensures UntouchedIsUnasked(first, all, trace)
  {
    forall n | first <= n < |all| && SaysUntouched(all[n]) && all[n].toolCallId.Some?
      ensures Unasked(trace, all[n].toolCallId.value)
    {
      assert n < |ms| && all[n] == ms[n];
    }
  }

  lemma EndsInReply(c: Config, e: Env, ms: seq<Message>, all: seq<Message>, r: Response)
    requires OneMore(ms, all) && IsReply(c, e, ms, all[|ms|], r) && r.calls == []
    ensures EndsInFinal(c, e, all)
  {
    assert all[..|all| - 1] == ms;
  }

  lemma ReplyEntry(c: Config, e: Env, first: nat, ms: seq<Message>, m: Message, r: Response, trace: seq<Event>)
    requires IsReply(c, e, ms, m, r)
    ensures Entry(c, e, first, ms, m, trace)
  {
  }

  lemma ReplyWritten(c: Config, e: Env, first: nat, ms: seq<Message>, all: seq<Message>, r: Response,
                     trace: seq<Event>)
    requires Written(c, e, first, ms, trace) && OneMore(ms, all) && first <= |ms| && IsReply(c, e, ms, all[|ms|], r)
    ensures Written(c, e, first, all, trace)
  {
    ReplyEntry(c, e, first, ms, all[|ms|], r, trace);
    ReplySaysMore(c, e, ms, all[|ms|], r);
    MoreMessages(c, e, first, ms, all, trace);
    RequestsStay(c, e, first, ms, all, trace);
    UntouchedStays(first, ms, all, trace);
  }

  lemma NewCallsPend(c: Config, e: Env, first: nat, t: Turn, r: Response, t': Turn)
    requires Lawful(c) && WellFormedResponse(r) && IdsOk(t) && t.pending == [] && t' == TakeReply(c, t, r)
    requires first <= |t.messages| && r.calls != [] && ReplyAt(c, e, t'.messages, |t.messages|, r)
    requires Used(c, e, first, t'.messages, t'.usage, t'.iterations)
    ensures PendingFrom(c, e, first, t', |t.messages|, r)
  {
    hide Used;
    ReplyIsRepeated(c, t, r);
    assert t'.messages[..|t.messages| + 1] == t'.messages;
  }

  /** The last message is a reply without calls. */
  ghost predicate EndsInFinal(c: Config, e: Env, ms: seq<Message>) {
    ms != [] && exists r :: IsReply(c, e, ms[..|ms| - 1], ms[|ms| - 1], r) && r.calls == []
  }
}
