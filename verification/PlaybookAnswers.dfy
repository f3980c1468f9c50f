/** What an answer to a pending question does, told from the state before it and the text of the answer. */
module PlaybookAnswers {
  import opened Wrappers
  import opened Texts
  import opened Playbook
  import opened PlaybookRuns
  import opened PlaybookDecisions
  import opened PlaybookSteps
  import Routes

  /** The answer reads "true" or "yes", white space and case aside. */
  predicate SaysYes(lower: string -> string, text: string) {
    lower(Trim(text)) == "true" || lower(Trim(text)) == "yes"
  }

  /** The route is the first whose label the answer repeats, case aside. */
  predicate NamedFirst(lower: string -> string, text: string, routes: seq<Routes.Route>, k: nat) {
    && k < |routes| && lower(routes[k].name) == lower(Trim(text))
    && forall j :: 0 <= j < k ==> lower(routes[j].name) != lower(Trim(text))
  }

  predicate NoneNamed(lower: string -> string, text: string, routes: seq<Routes.Route>) {
    forall j :: 0 <= j < |routes| ==> lower(routes[j].name) != lower(Trim(text))
  }

  /** The route is the first of those that share the most with the answer, if any shares a token. */
  ghost predicate BestFirst(lower: string -> string, text: string, routes: seq<Routes.Route>, k: nat) {
    var score := Routes.Scores(lower, Trim(text));
    && k < |routes| && Routes.IsTop(score, routes, routes[k])
    && forall j :: 0 <= j < k ==> !Routes.IsTop(score, routes, routes[j])
  }

  ghost predicate NothingShared(lower: string -> string, text: string, routes: seq<Routes.Route>) {
    forall r :: r in routes ==> Routes.Scores(lower, Trim(text))(r) <= 0.0
  }

  /** The route of an answer: the one it names, else the one it comes clearly closest to. */
  ghost predicate Chosen(lower: string -> string, text: string, routes: seq<Routes.Route>, r: Routes.Route) {
    if NoneNamed(lower, text, routes) then Routes.ClearWinner(Routes.Scores(lower, Trim(text)), routes, r)
    else exists k: nat :: NamedFirst(lower, text, routes, k) && r == routes[k]
  }

  ghost predicate Choosable(lower: string -> string, text: string, routes: seq<Routes.Route>) {
    exists r :: Chosen(lower, text, routes, r)
  }

  ghost predicate FollowsChosen(d: Definition, lower: string -> string, s: State, p: Decision, text: string,
                                action: Action, s': State) {
    exists r :: Chosen(lower, text, p.routes, r)
                && NodeDone(d, s, p.nodeId, Text(Trim(text)), r.handleId, action, s')
  }

  ghost predicate TakesBest(d: Definition, lower: string -> string, s: State, p: Decision, text: string, action: Action,
                            s': State) {
    exists k: nat :: BestFirst(lower, text, p.routes, k)
      && NodeDone(d, s, p.nodeId, Text("[soft-fallback] " + Trim(text)), p.routes[k].handleId, action, s')
  }

  /** A router follows the chosen route; it asks once more, and then takes the best route or gives up. */
  ghost predicate RouterAnswered(d: Definition, lower: string -> string, s: State, p: Decision, text: string,
                                 action: Action, s': State) {
    if Choosable(lower, text, p.routes) then FollowsChosen(d, lower, s, p, text, action, s')
    else if p.retryCount == 0 then Asked(s, p.(retryCount := 1), PromptAgent, action, s')
    else if NothingShared(lower, text, p.routes) then s' == s.(pending := None) && action == WorkflowFailed
    else TakesBest(d, lower, s, p, text, action, s')
  }

  /** The answer whether to stop a loop. */
  ghost predicate StopAnswered(d: Definition, lower: string -> string, s: State, loop: string, text: string,
                               action: Action, s': State) {
    if loop !in s.loops then LeftTo(s, WorkflowFailed, action, s')
    else if SaysYes(lower, text) then LoopDone(d, s, loop, s.loops[loop], ConditionMet, action, s')
    else PassBegun(s, loop, s.loops[loop], action, s')
  }

  /** The answer how often to run a loop. */
  ghost predicate CountAnswered(d: Definition, s: State, loop: string, text: string, action: Action, s': State) {
    if loop !in s.loops then LeftTo(s, WorkflowFailed, action, s')
    else if CountIn(text) == 0 then LoopDone(d, s, loop, s.loops[loop], OrchestratorZero, action, s')
    else PassBegun(s, loop, s.loops[loop].(resolvedMax := Some(CountIn(text))), action, s')
  }

  ghost predicate AnswerDoes(d: Definition, lower: string -> string, s: State, text: string, action: Action,
                             s': State) {
    if s.pending.None? || s.pending.value.nodeId !in NodeIds(d) then LeftTo(s, WorkflowFailed, action, s')
    else
      var p := s.pending.value;
      match p.kind
      case RouterDecision => RouterAnswered(d, lower, s, p, text, action, s')
      case ConditionDecision =>
        NodeDone(d, s, p.nodeId, Passed(SaysYes(lower, text)),
                 if SaysYes(lower, text) then "condition-true" else "condition-false", action, s')
      case StopDecision => StopAnswered(d, lower, s, p.nodeId, text, action, s')
      case CountDecision => CountAnswered(d, s, p.nodeId, text, action, s')
      case InputDecision => NodeDone(d, s, p.nodeId, Text(text), "", action, s')
      case ResponseDecision => NodeDone(d, s, p.nodeId, Text(text), "", action, s')
  }

  lemma {:induction false} FirstNamed(lower: string -> string, text: string, routes: seq<Routes.Route>) returns (k: nat)
    ensures if k < |routes| then NamedFirst(lower, text, routes, k) else NoneNamed(lower, text, routes)
  {
    k := 0;
    while k < |routes| && lower(routes[k].name) != lower(Trim(text))
      invariant k <= |routes| && forall j :: 0 <= j < k ==> lower(routes[j].name) != lower(Trim(text))
    {
      k := k + 1;
    }
  }

  lemma NamedIsChosen(lower: string -> string, text: string, routes: seq<Routes.Route>, k: nat, r: Routes.Route)
    requires NamedFirst(lower, text, routes, k)
    ensures Chosen(lower, text, routes, r) <==> r == routes[k]
  {
    assert !NoneNamed(lower, text, routes);
    assert forall j: nat :: NamedFirst(lower, text, routes, j) ==> j == k;
  }

  /** What the cascade matches is what is chosen, and nothing else is. */
  lemma MatchIsChosen(lower: string -> string, text: string, routes: seq<Routes.Route>, r: Routes.Route)
    requires routes != [] && Routes.Different(routes)
    ensures Routes.MatchRoute(lower, text, routes) == Routes.Matched(r) <==> Chosen(lower, text, routes, r)
  {
    var k := FirstNamed(lower, text, routes);
    if k < |routes| {
      Routes.ExactIsFirst(lower, Trim(text), routes, k);
      NamedIsChosen(lower, text, routes, k, r);
    } else {
      NoneIsExact(lower, text, routes);
      Routes.SimilarityMatchExactly(lower, text, routes, r);
    }
  }

  lemma NoneIsExact(lower: string -> string, text: string, routes: seq<Routes.Route>)
    requires NoneNamed(lower, text, routes)
    ensures Routes.Exact(lower, Trim(text), routes).None?
  {
  }

  lemma FirstBest(lower: string -> string, text: string, routes: seq<Routes.Route>) returns (k: nat)
    requires !NothingShared(lower, text, routes)
    ensures BestFirst(lower, text, routes, k)
    ensures var score := Routes.Scores(lower, Trim(text));
            Routes.Fallback(score, routes, Routes.Rank(score, routes)) == Some(routes[k])
  {
    var score := Routes.Scores(lower, Trim(text));
    Routes.SimilarityScoresNames(lower, Trim(text), routes);
    Routes.FallbackIsBest(score, routes);
    var best := Routes.Fallback(score, routes, Routes.Rank(score, routes)).value;
    k := FirstTop(score, routes, best);
    Routes.FallbackIsFirst(score, routes, k);
  }

  lemma FirstTop(score: Routes.Route -> real, routes: seq<Routes.Route>, best: Routes.Route) returns (k: nat)
    requires best in routes && Routes.IsTop(score, routes, best)
    ensures k < |routes| && Routes.IsTop(score, routes, routes[k])
    ensures forall j :: 0 <= j < k ==> !Routes.IsTop(score, routes, routes[j])
  {
    hide Routes.IsTop;
    k := 0;
    while k < |routes| && !Routes.IsTop(score, routes, routes[k])
      invariant k <= |routes| && forall j :: 0 <= j < k ==> !Routes.IsTop(score, routes, routes[j])
    {
      k := k + 1;
    }
  }

  lemma RouterDoes(d: Definition, lower: string -> string, s: State, p: Decision, text: string, ch: Change)
    requires p.routes != [] && Routes.Different(p.routes) && ch == ResolveRouter(lower, p, text)
    ensures RouterAnswered(d, lower, s, p, text, ActionOf(d, s, ch), Apply(d, s, ch))
  {
    hide NodeDone, Chosen, BestFirst, Routes.MatchRoute;
    var m := Routes.MatchRoute(lower, text, p.routes);
    if m.Matched? {
      MatchIsChosen(lower, text, p.routes, m.route);
      FinishDoes(d, s, p.nodeId, Text(Trim(text)), m.route.handleId);
    } else {
      forall r ensures !Chosen(lower, text, p.routes, r) {
        MatchIsChosen(lower, text, p.routes, r);
      }
      if p.retryCount >= 1 { RetriedDoes(d, lower, s, p, text, ch); }
    }
  }

  lemma RetriedDoes(d: Definition, lower: string -> string, s: State, p: Decision, text: string, ch: Change)
    requires p.routes != [] && p.retryCount >= 1 && Routes.MatchRoute(lower, text, p.routes).Unmatched?
    requires ch == ResolveRouter(lower, p, text)
    ensures if NothingShared(lower, text, p.routes) then ch == Forget
            else TakesBest(d, lower, s, p, text, ActionOf(d, s, ch), Apply(d, s, ch))
  {
    RouterSettlesExactly(lower, p, text);
    Routes.UnmatchedIsRanked(lower, text, p.routes);
    if !NothingShared(lower, text, p.routes) {
      var k := FirstBest(lower, text, p.routes);
      FinishDoes(d, s, p.nodeId, Text("[soft-fallback] " + Trim(text)), p.routes[k].handleId);
    }
  }

  lemma YesIsYes(lower: string -> string, text: string)
    ensures IsYes(lower, text) <==> SaysYes(lower, text)
  {
  }

  lemma StopDoes(d: Definition, lower: string -> string, s: State, loop: string, text: string, ch: Change)
    requires ch == ResolveStop(s, loop, SaysYes(lower, text))
    ensures StopAnswered(d, lower, s, loop, text, ActionOf(d, s, ch), Apply(d, s, ch))
  {
    if loop in s.loops {
      EndDoes(d, s, loop, s.loops[loop], ConditionMet);
      BeginDoes(d, s, loop, s.loops[loop]);
    }
  }

  lemma CountDoes(d: Definition, s: State, loop: string, text: string, ch: Change)
    requires ch == ResolveCount(s, loop, CountIn(text))
    ensures CountAnswered(d, s, loop, text, ActionOf(d, s, ch), Apply(d, s, ch))
  {
    if loop in s.loops {
      EndDoes(d, s, loop, s.loops[loop], OrchestratorZero);
      BeginDoes(d, s, loop, s.loops[loop].(resolvedMax := Some(CountIn(text))));
    }
  }

  /** What an answer does, whatever the definition and the state are; the routes of a question are different. */
  lemma AnswerExactly(d: Definition, lower: string -> string, s: State, text: string)
    requires AnswerableDecision(s)
    requires s.pending.Some? && s.pending.value.kind.RouterDecision? ==> Routes.Different(s.pending.value.routes)
    ensures var ch := ResolveDecision(d, lower, s, text);
            AnswerDoes(d, lower, s, text, ActionOf(d, s, ch), Apply(d, s, ch))
  {
    hide RouterAnswered, StopAnswered, CountAnswered, NodeDone, SaysYes, IsYes, ResolveRouter;
    if s.pending.Some? && s.pending.value.nodeId in NodeIds(d) {
      var p, ch := s.pending.value, ResolveDecision(d, lower, s, text);
      YesIsYes(lower, text);
      match p.kind
      case RouterDecision => RouterDoes(d, lower, s, p, text, ch);
      case StopDecision => StopDoes(d, lower, s, p.nodeId, text, ch);
      case CountDecision => CountDoes(d, s, p.nodeId, text, ch);
      case _ => FinishDoes(d, s, ch.id, ch.value, ch.handle);
    }
  }

  // ---- On every run ----

  /** The routes of a router's question are different. */
  ghost predicate RoutesDiffer(pending: Option<Decision>) {
    pending.Some? && pending.value.kind.RouterDecision? ==> Routes.Different(pending.value.routes)
  }

  lemma AskedRoutesDiffer(d: Definition, s: State, node: Node, body: set<string>, stop: bool, inside: bool)
    ensures var ch := ProcessNode(d, s, node, body, stop, inside);
            RoutesDiffer(s.pending) ==> RoutesDiffer(Apply(d, s, ch).pending)
  {
    hide Frontier, Downstream, FinishPass, Starts;
    DecisionRoutesDiffer(node.config.routes);
  }

  lemma StepRoutesDiffer(d: Definition, s: State, stop: bool)
    requires RoutesDiffer(s.pending)
    ensures RoutesDiffer(Apply(d, s, NextStep(d, s, stop)).pending)
  {
    hide RoutesDiffer, ProcessNode, Batch, Missing;
    if s.status == Running && s.pending.None? {
      NextCases(d, s, stop);
      var ready := ReadyNodes(d, s, s.current);
      if ready != [] && GetNode(d, ready[0]).Some? {
        var node := GetNode(d, ready[0]).value;
        AskedRoutesDiffer(d, s, node, Body(d, node.id), stop, InsideParallelBranch(d, node.id));
      }
    }
  }

  lemma AnswerRoutesDiffer(d: Definition, lower: string -> string, s: State, text: string)
    requires AnswerableDecision(s) && RoutesDiffer(s.pending)
    ensures RoutesDiffer(Apply(d, s, ResolveDecision(d, lower, s, text)).pending)
  {
    hide Routes.Different, Routes.MatchRoute, Routes.Fallback;
  }

  lemma {:induction false} AlwaysRoutesDiffer(d: Definition, lower: string -> string, w: World, moves: seq<Move>)
    requires RoutesDiffer(w.state.pending)
    ensures RoutesDiffer(PlayAll(d, lower, w, moves).state.pending)
    decreases |moves|
  {
    hide RoutesDiffer;
    if moves != [] {
      var n := |moves| - 1;
      AlwaysRoutesDiffer(d, lower, w, moves[..n]);
      PlayRoutesDiffer(d, lower, PlayAll(d, lower, w, moves[..n]), moves[n]);
    }
  }

  lemma PlayRoutesDiffer(d: Definition, lower: string -> string, w: World, m: Move)
    requires RoutesDiffer(w.state.pending)
    ensures RoutesDiffer(Play(d, lower, w, m).state.pending)
  {
    if Allowed(w, m) {
      match m
      case Next(stop) => StepRoutesDiffer(d, w.state, stop);
      case Complete(_, _) =>
      case Decide(text) => AnswerRoutesDiffer(d, lower, w.state, text);
    }
  }

  /** Every answer on every run that starts without a question does exactly this. */
  lemma AnswerOnRun(d: Definition, lower: string -> string, w: World, moves: seq<Move>, text: string)
    requires w.state.pending.None? && Allowed(PlayAll(d, lower, w, moves), Decide(text))
    ensures var w' := PlayAll(d, lower, w, moves);
            var ch := Outcome(d, lower, w', Decide(text));
            AnswerDoes(d, lower, w'.state, text, ActionOf(d, w'.state, ch), Apply(d, w'.state, ch))
  {
    hide AnswerDoes;
    AlwaysRoutesDiffer(d, lower, w, moves);
    AnswerExactly(d, lower, PlayAll(d, lower, w, moves).state, text);
  }
}
