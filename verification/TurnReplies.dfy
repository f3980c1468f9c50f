/** What the transcript keeps of a model's reply: everything but the ids and the spelling of tool names. */
module TurnReplies {
  import opened Wrappers
  import opened Texts
  import ToolCalls
  import opened TurnMachine
  import opened TurnIds

  /** The tool_use blocks, in order. */
  function Uses(blocks: seq<Block>): (r: seq<Block>)
    ensures |r| == |UseIds(blocks)|
    ensures forall k :: 0 <= k < |r| ==> r[k].ToolUse? && r[k].id == UseIds(blocks)[k]
  {
    if blocks == [] then []
    else if blocks[0].ToolUse? then [blocks[0]] + Uses(blocks[1..])
    else Uses(blocks[1..])
  }

  /** The name a tool_use block is stored under: the wire name of its tool, unless it means the exec tool or none. */
  function StoredName(c: Config, name: string, call: Call): string {
    var resolved := c.resolve(call);
    if resolved.Dispatch? && Trim(name) != "exec" then ToolCalls.WireName(resolved.spec.name) else name
  }

  /** Every block in its place, and none but tool_use blocks changed. */
  predicate SamePlaces(blocks: seq<Block>, stored: seq<Block>) {
    && |stored| == |blocks|
    && forall j :: 0 <= j < |blocks| ==>
         if blocks[j].ToolUse? then stored[j].ToolUse? else stored[j] == blocks[j]
  }

  /** The tool_use blocks have the new ids, in order, and the inputs they had. */
  predicate SameUses(c: Config, blocks: seq<Block>, calls: seq<Call>, ids: seq<string>, stored: seq<Block>) {
    && |Uses(stored)| == |Uses(blocks)| == |calls| == |ids|
    && forall k :: 0 <= k < |calls| ==>
         var use := Uses(blocks)[k];
         Uses(stored)[k] == ToolUse(ids[k], StoredName(c, use.name, calls[k].(id := ids[k])), use.input)
  }

  lemma StoredBlock(c: Config, blocks: seq<Block>, calls: seq<Call>, ids: seq<string>)
    requires blocks != [] && blocks[0].ToolUse? && calls != [] && ids != []
    ensures CanonicalBlocks(c, BlocksWithIds(blocks, ids), WithIds(calls, ids))
            == [ToolUse(ids[0], StoredName(c, blocks[0].name, calls[0].(id := ids[0])), blocks[0].input)]
               + CanonicalBlocks(c, BlocksWithIds(blocks[1..], ids[1..]), WithIds(calls[1..], ids[1..]))
  {
    var named, renamed := BlocksWithIds(blocks, ids), WithIds(calls, ids);
    assert named[1..] == BlocksWithIds(blocks[1..], ids[1..]) && renamed[1..] == WithIds(calls[1..], ids[1..]);
  }

  lemma KeptBlock(c: Config, blocks: seq<Block>, calls: seq<Call>, ids: seq<string>)
    requires blocks != [] && !blocks[0].ToolUse?
    ensures CanonicalBlocks(c, BlocksWithIds(blocks, ids), calls)
            == [blocks[0]] + CanonicalBlocks(c, BlocksWithIds(blocks[1..], ids), calls)
  {
    assert BlocksWithIds(blocks, ids)[1..] == BlocksWithIds(blocks[1..], ids);
  }

  lemma {:induction false} StoredBlocks(c: Config, blocks: seq<Block>, calls: seq<Call>, ids: seq<string>)
    requires |UseIds(blocks)| == |calls| == |ids|
    ensures var stored := CanonicalBlocks(c, BlocksWithIds(blocks, ids), WithIds(calls, ids));
            SamePlaces(blocks, stored) && SameUses(c, blocks, calls, ids, stored)
  {
    if blocks != [] {
      if blocks[0].ToolUse? {
        StoredBlocks(c, blocks[1..], calls[1..], ids[1..]);
        StoredBlock(c, blocks, calls, ids);
      } else {
        StoredBlocks(c, blocks[1..], calls, ids);
        KeptBlock(c, blocks, WithIds(calls, ids), ids);
      }
      var stored := CanonicalBlocks(c, BlocksWithIds(blocks, ids), WithIds(calls, ids));
      assert stored[1..] == if blocks[0].ToolUse?
                            then CanonicalBlocks(c, BlocksWithIds(blocks[1..], ids[1..]), WithIds(calls[1..], ids[1..]))
                            else CanonicalBlocks(c, BlocksWithIds(blocks[1..], ids), WithIds(calls, ids));
    }
  }

  /** The message is the reply, its calls under the ids of the message. */
  ghost predicate Repeats(c: Config, r: Response, m: Message) {
    && m.role == Assistant && m.toolCallId == None && m.name == "" && !m.isError
    && (if r.blocks == [] then m.content == Text(r.content) && r.calls == []
        else
          && m.content.Blocks? && SamePlaces(r.blocks, m.content.blocks)
          && |UsesOf(m)| == |r.calls| && SameUses(c, r.blocks, r.calls, UsesOf(m), m.content.blocks))
  }

  /** What a reply adds to the turn: its message, its usage, its text, and its calls as pending ones. */
  lemma ReplyIsRepeated(c: Config, t: Turn, r: Response)
    requires Lawful(c) && WellFormedResponse(r) && IdsOk(t) && t.pending == []
    ensures var t' := TakeReply(c, t, r);
            && |t'.messages| == |t.messages| + 1 && t'.messages[..|t.messages|] == t.messages
            && Repeats(c, r, t'.messages[|t.messages|])
            && t'.usage.input == t.usage.input + r.usage.input && t'.usage.output == t.usage.output + r.usage.output
            && t'.usage.cached == t.usage.cached + r.usage.cached
            && t'.usage.cacheWrite == t.usage.cacheWrite + r.usage.cacheWrite
            && t'.finalText == (if r.content != "" then r.content else t.finalText)
            && |t'.pending| == |r.calls| && t'.next == 0 && t'.iterations == t.iterations
            && (forall i :: 0 <= i < |r.calls| ==>
                  t'.pending[i] == Call(UsesOf(t'.messages[|t.messages|])[i], r.calls[i].name, r.calls[i].args))
            && (r.calls != [] ==> t'.finish == Some(r.finish))
  {
    ReplyMessageIds(c, t, r);
    var ids := c.assignIds(CallIds(r.calls), t.seen, t.iterations);
    var m := ReplyMessage(c, r, ids);
    if r.calls == [] {
      assert ids == [] && WithIds(r.calls, ids) == [];
      UnchangedBlocks(c, r.blocks);
    }
    if r.blocks != [] {
      StoredBlocks(c, r.blocks, r.calls, ids);
    }
    CallsWithIds(r.calls, ids);
  }

  lemma {:induction false} UnchangedBlocks(c: Config, blocks: seq<Block>)
    ensures BlocksWithIds(blocks, []) == blocks
  {
    if blocks != [] {
      UnchangedBlocks(c, blocks[1..]);
    }
  }

  lemma {:induction false} CallsWithIds(calls: seq<Call>, ids: seq<string>)
    requires |ids| == |calls|
    ensures |WithIds(calls, ids)| == |calls|
    ensures forall i :: 0 <= i < |calls| ==> WithIds(calls, ids)[i] == Call(ids[i], calls[i].name, calls[i].args)
  {
    if calls != [] {
      CallsWithIds(calls[1..], ids[1..]);
    }
  }
}
