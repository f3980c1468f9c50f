/** What `TakeReply` and `Record` do to the ids of a transcript. */
module TurnIds {
  import opened Wrappers
  import opened TurnMachine
  import ToolIds

  /** The loop variables agree about tool-call ids. */
  ghost predicate IdsOk(t: Turn) {
    && t.next <= |t.pending|
    && t.seen == KnownIds(t.messages)
    && (forall i :: 0 <= i < |t.pending| ==> t.pending[i].id != "" && t.pending[i].id in t.seen)
    && (forall i, j :: 0 <= i < j < |t.pending| ==> t.pending[i].id != t.pending[j].id)
    && (t.inFlight.Some? ==> t.next < |t.pending| && t.inFlight.value == t.pending[t.next].id)
  }

  lemma KnownIdsAppend(ms: seq<Message>, m: Message)
    ensures KnownIds(ms + [m])
            == KnownIds(ms) + ToolIds.Elements(UsesOf(m)) + ToolIds.Elements(ResultsOf(m))
  {
    assert (ms + [m])[..|ms|] == ms;
  }

  /** The message calls a tool, or answers a call, under this id: with a block or as a whole. */
  ghost predicate Carries(m: Message, id: string) {
    || (id != "" && m.toolCallId == Some(id))
    || (m.content.Blocks? && exists b :: b in m.content.blocks && ((b.ToolUse? && b.id == id)
                                                                  || (b.ToolResult? && b.toolUseId == id)))
  }

  lemma {:induction false} BlockIds(blocks: seq<Block>, id: string)
    ensures id in UseIds(blocks) <==> exists b :: b in blocks && b.ToolUse? && b.id == id
    ensures id in ResultIds(blocks) <==> exists b :: b in blocks && b.ToolResult? && b.toolUseId == id
  {
    if blocks != [] {
      assert blocks == [blocks[0]] + blocks[1..];
      BlockIds(blocks[1..], id);
    }
  }

  /** The known ids are those that occur in the transcript, on whichever side of a call. */
  lemma {:induction false} KnownIdsExactly(ms: seq<Message>, id: string)
    ensures id in KnownIds(ms) <==> exists m :: m in ms && Carries(m, id)
    decreases |ms|
  {
    if ms != [] {
      var front, last := ms[..|ms| - 1], ms[|ms| - 1];
      assert ms == front + [last];
      KnownIdsExactly(front, id);
      if last.content.Blocks? { BlockIds(last.content.blocks, id); }
      assert id in ToolIds.Elements(UsesOf(last)) + ToolIds.Elements(ResultsOf(last)) <==> Carries(last, id);
    }
  }

  lemma {:induction false} RenamedUseIds(blocks: seq<Block>, ids: seq<string>)
    requires |UseIds(blocks)| == |ids|
    ensures UseIds(BlocksWithIds(blocks, ids)) == ids
    ensures ResultIds(BlocksWithIds(blocks, ids)) == ResultIds(blocks)
    ensures |BlocksWithIds(blocks, ids)| == |blocks|
  {
    if blocks != [] {
      if blocks[0].ToolUse? {
        RenamedUseIds(blocks[1..], ids[1..]);
      } else {
        RenamedUseIds(blocks[1..], ids);
      }
      var rest := BlocksWithIds(blocks, ids)[1..];
      assert BlocksWithIds(blocks, ids) == [BlocksWithIds(blocks, ids)[0]] + rest;
    }
  }

  lemma {:induction false} CanonicalKeepsIds(c: Config, blocks: seq<Block>, calls: seq<Call>)
    ensures UseIds(CanonicalBlocks(c, blocks, calls)) == UseIds(blocks)
    ensures ResultIds(CanonicalBlocks(c, blocks, calls)) == ResultIds(blocks)
    ensures |CanonicalBlocks(c, blocks, calls)| == |blocks|
  {
    if blocks != [] {
      CanonicalKeepsIds(c, blocks[1..], if blocks[0].ToolUse? && calls != [] then calls[1..] else calls);
      var all := CanonicalBlocks(c, blocks, calls);
      assert all == [all[0]] + all[1..];
    }
  }

  lemma {:induction false} WithIdsIds(calls: seq<Call>, ids: seq<string>)
    requires |ids| == |calls|
    ensures CallIds(WithIds(calls, ids)) == ids
  {
    if calls != [] {
      WithIdsIds(calls[1..], ids[1..]);
      var all := WithIds(calls, ids);
      assert all == [all[0]] + WithIds(calls[1..], ids[1..]);
      assert CallIds(all) == [ids[0]] + CallIds(WithIds(calls[1..], ids[1..]));
    }
  }

  /** The reply's message carries exactly the ids of the calls that become pending. */
  lemma ReplyMessageIds(c: Config, t: Turn, r: Response)
    requires Lawful(c) && WellFormedResponse(r) && IdsOk(t)
    ensures var t' := TakeReply(c, t, r);
            && |t'.messages| == |t.messages| + 1 && t'.messages[..|t.messages|] == t.messages
            && var m := t'.messages[|t.messages|];
            && UsesOf(m) == c.assignIds(CallIds(r.calls), t.seen, t.iterations)
            && ResultsOf(m) == []
            && (r.calls != [] ==> CallIds(t'.pending) == UsesOf(m))
  {
    var ids := c.assignIds(CallIds(r.calls), t.seen, t.iterations);
    var calls := WithIds(r.calls, ids);
    WithIdsIds(r.calls, ids);
    if r.calls != [] {
      RenamedUseIds(r.blocks, ids);
      CanonicalKeepsIds(c, BlocksWithIds(r.blocks, ids), calls);
      assert UseIds(r.blocks) != [];
    } else {
      assert CallIds(r.calls) == [];
      CanonicalKeepsIds(c, r.blocks, calls);
    }
  }

  lemma TakeReplyKeepsIds(c: Config, t: Turn, r: Response)
    requires Lawful(c) && WellFormedResponse(r) && IdsOk(t) && t.pending == []
    ensures IdsOk(TakeReply(c, t, r))
  {
    ReplyMessageIds(c, t, r);
    var t' := TakeReply(c, t, r);
    var m := t'.messages[|t.messages|];
    var ids := c.assignIds(CallIds(r.calls), t.seen, t.iterations);
    assert t'.messages == t.messages + [m];
    KnownIdsAppend(t.messages, m);
    if r.calls != [] {
      forall i | 0 <= i < |t'.pending| ensures t'.pending[i].id == ids[i] && ids[i] in ToolIds.Elements(ids) {
        assert CallIds(t'.pending)[i] == ids[i];
      }
    }
  }

  lemma RecordKeepsIds(s: State, answer: Answer, success: bool, stop: Option<Status>)
    requires IdsOk(s.turn) && s.turn.next < |s.turn.pending|
    ensures IdsOk(Record(s, answer, success, stop).turn)
  {
    var t := s.turn;
    var call := t.pending[t.next];
    var m := Message(Tool, Answered(answer), Some(call.id), call.name, !success);
    KnownIdsAppend(t.messages, m);
    assert ResultsOf(m) == [call.id];
  }

  /** A reply with one call leaves that call pending. */
  lemma CallOpens(c: Config, t: Turn, r: Response)
    requires Lawful(c) && |r.calls| == 1
    ensures var t' := TakeReply(c, t, r);
            && |t'.pending| == 1 && t'.next == 0 && t'.failed == t.failed
            && t'.usage == AddUsage(t.usage, r.usage) && t'.iterations == t.iterations
  {
    WithIdsIds(r.calls, c.assignIds(CallIds(r.calls), t.seen, t.iterations));
    assert |CallIds(TakeReply(c, t, r).pending)| == 1;
  }
}
