/** What an answer to a pending decision selects. */
module PlaybookDecisions {
  import opened Wrappers
  import opened Texts
  import opened Playbook
  import opened PlaybookRuns
  import Routes

  /** The nodes an edge of `id` leads to along a handle. */
  ghost predicate Selected(d: Definition, id: string, handle: string, x: string) {
    id in NodeIds(d) && exists e :: e in d.edges && e.source == id && e.target == x && Follows(e, handle)
  }

  lemma AdvancedFrontier(d: Definition, s: State, id: string, value: Value, handle: string)
    ensures AsSet(Advance(d, s, id, value, handle).current)
            == (AsSet(s.current) - {id}) + (AsSet(Downstream(d, [id], handle)) - AsSet(s.completed + [id]))
  {
    FrontierSet(s.current, id, Downstream(d, [id], handle), s.completed + [id]);
  }

  lemma InFrontier(current: seq<string>, before: seq<string>, down: seq<string>, completed: seq<string>, id: string,
                   x: string)
    requires AsSet(current) == (AsSet(before) - {id}) + (AsSet(down) - AsSet(completed + [id]))
    ensures x in current <==> x != id && (x in before || (x in down && x !in completed))
  {
    assert x in current <==> x in AsSet(current);
    assert x in completed + [id] <==> x in completed || x == id;
  }

  /** Completing a node puts exactly what its selected edges lead to in the frontier, completed nodes aside. */
  lemma FinishSelects(d: Definition, s: State, id: string, value: Value, handle: string, x: string)
    ensures var s' := Apply(d, s, Finish(id, value, handle));
            x in s'.current <==>
              x != id && (x in s.current || (x !in s.completed && Selected(d, id, handle, x)))
  {
    AdvancedFrontier(d, s, id, value, handle);
    InFrontier(Advance(d, s, id, value, handle).current, s.current, Downstream(d, [id], handle), s.completed, id, x);
    DownstreamOfMany(d, [id], handle, x);
  }

  /**
   * A router's answer settles it unless no route matches the first time, when the router is asked
   * once more. A route it settles on is the matched one, or after that a top scorer; a router is
   * given up exactly when nothing overlaps the second time.
   */
  lemma RouterSettlesExactly(lower: string -> string, decision: Decision, text: string)
    requires decision.routes != []
    ensures var ch := ResolveRouter(lower, decision, text);
            var score := Routes.Scores(lower, Trim(text));
            var found := Routes.MatchRoute(lower, text, decision.routes);
            && (ch.AskAbout? <==> found.Unmatched? && decision.retryCount == 0)
            && (ch == Forget <==>
                  && found.Unmatched? && decision.retryCount >= 1
                  && forall r :: r in decision.routes ==> score(r) <= 0.0)
            && (found.Matched? ==> ch.Finish? && ch.handle == found.route.handleId)
            && (ch.Finish? && found.Unmatched? ==>
                  exists r :: r in decision.routes && ch.handle == r.handleId
                              && Routes.IsTop(score, decision.routes, r))
            && (ch.AskAbout? ==> ch.decision == decision.(retryCount := 1))
            && (ch.Finish? ==> ch.id == decision.nodeId)
  {
    var score := Routes.Scores(lower, Trim(text));
    Routes.UnmatchedIsRanked(lower, text, decision.routes);
    Routes.SimilarityScoresNames(lower, Trim(text), decision.routes);
    Routes.FallbackIsBest(score, decision.routes);
  }

  /** The routes of a decision are different, whatever their labels: each has a handle of its own. */
  lemma DecisionRoutesDiffer(labels: seq<string>)
    ensures Routes.Different(DecisionRoutes(labels))
  {
    forall i, j | 0 <= i < j < |labels| ensures Routes.HandleOf(i) != Routes.HandleOf(j) {
      Routes.HandlesDiffer(i, j);
    }
  }

  /** A condition follows its true branch exactly on the answers "true" and "yes", its false branch otherwise. */
  lemma ConditionSelectsBranch(d: Definition, lower: string -> string, s: State, text: string, x: string)
    requires s.pending.Some? && s.pending.value.kind.ConditionDecision? && s.pending.value.nodeId in NodeIds(d)
    ensures var id := s.pending.value.nodeId;
            var yes := lower(Trim(text)) == "true" || lower(Trim(text)) == "yes";
            var s' := Apply(d, s, ResolveDecision(d, lower, s, text));
            && id in s'.completed && s'.outputs[id] == Output(id, Passed(yes)) && s'.pending == None
            && (x in s'.current <==>
                  x != id && (x in s.current || (x !in s.completed &&
                    exists e :: e in d.edges && e.source == id && e.target == x
                                && e.sourceHandle in {"", if yes then "condition-true" else "condition-false"})))
  {
    var id, yes := s.pending.value.nodeId, IsYes(lower, text);
    var handle := if yes then "condition-true" else "condition-false";
    FinishSelects(d, s, id, Passed(yes), handle, x);
    forall e: Edge ensures Follows(e, handle) <==> e.sourceHandle in {"", handle} {}
  }
}
