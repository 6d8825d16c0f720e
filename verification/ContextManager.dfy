/** `AgentContextManager`: the mutable conversation, its prune loops against `Pruned`. */
module ContextManager {
  import opened Base
  import opened ContextPruning

  class AgentContextManager {
    var messages: seq<Message>
    const maxTurnsHistory: Option<int>
    const maxContextTokens: Option<int>

    constructor (maxTurnsHistory: Option<int>, maxContextTokens: Option<int>)
      ensures messages == [] && this.maxTurnsHistory == maxTurnsHistory && this.maxContextTokens == maxContextTokens
    {
      messages := [];
      this.maxTurnsHistory, this.maxContextTokens := maxTurnsHistory, maxContextTokens;
    }

    /** `initialize`, the system prompt already built. */
    method Initialize(systemContent: string, scenarioPrompt: string)
      modifies this
      ensures messages == [System(systemContent), User(scenarioPrompt)]
    {
      messages := [];
      messages := messages + [System(systemContent)];
      messages := messages + [User(scenarioPrompt)];
    }

    method AddAssistantTurn(content: string, toolCalls: seq<ToolCall>)
      modifies this
      ensures messages == old(messages) + [Assistant(content, toolCalls)]
    {
      messages := messages + [Assistant(content, toolCalls)];
    }

    /** A result of the assistant's turn leaves an orphan-free history orphan-free, and stays in its block. */
    method AddToolResult(toolCallId: string, toolName: string, output: string, isError: Option<bool>)
      modifies this
      ensures messages == old(messages) + [Tool(toolCallId, toolName, output, isError == Some(true))]
      ensures NoOrphans(old(messages)) && Matched(old(messages), toolCallId) ==> NoOrphans(messages)
    {
      messages := messages + [Tool(toolCallId, toolName, output, isError == Some(true))];
      OrphansAppend(old(messages), messages[|messages| - 1]);
    }

    method GetEstimatedTokenCount() returns (total: nat)
      ensures total == MessagesTokens(messages)
    {
      total := 0;
      for i := 0 to |messages|
        invariant total == MessagesTokens(messages[..i])
      {
        assert messages[..i + 1][..i] == messages[..i];
        total := total + MessageTokens(messages[i]);
      }
      assert messages[..|messages|] == messages;
    }

    /** `pruneHistory`: cut into blocks, shift blocks off by turns, then by tokens, and put the rest back. */
    method PruneHistory(maxTurns: Option<int>, maxTokens: Option<int>)
      modifies this
      ensures messages == Pruned(old(messages), Limits(if maxTurns.Some? then maxTurns else maxTurnsHistory,
                                                       if maxTokens.Some? then maxTokens else maxContextTokens))
    {
      if |messages| <= 2 {
        return;
      }
      var limits := Limits(if maxTurns.Some? then maxTurns else maxTurnsHistory,
                           if maxTokens.Some? then maxTokens else maxContextTokens);
      var blocks := CutBlocks(messages);
      blocks := ShiftBlocks(BaseTokens(messages), blocks, limits);
      var result := [messages[0], messages[1]];
      result := PushAll(result, blocks);
      assert [messages[0], messages[1]] == messages[..2];
      messages := result;
    }
  }

  /** The blocks that both prune loops leave. */
  method ShiftBlocks(baseTokens: nat, all: seq<seq<Message>>, limits: Limits) returns (blocks: seq<seq<Message>>)
    ensures blocks == all[KeepFrom(baseTokens, all, limits, 0)..]
  {
    ghost var k;
    blocks, k := ShiftByTurns(baseTokens, all, limits);
    blocks, k := ShiftByTokens(baseTokens, blocks, all, k, limits);
    KeepFromIs(baseTokens, all, limits, k);
  }

  /** `estimateMessageTokens`: for an assistant message the loop adds the estimates of its tool calls. */
  method EstimateMessageTokens(message: Message) returns (count: nat)
    ensures count == MessageTokens(message)
  {
    match message
    case System(content) => count := EstimateTokens(content) + 4;
    case User(content) => count := EstimateTokens(content) + 4;
    case Assistant(content, toolCalls) =>
      count := EstimateTokens(content) + 4;
      for i := 0 to |toolCalls|
        invariant count == EstimateTokens(content) + 4 + CallTokens(toolCalls[..i])
      {
        assert toolCalls[..i + 1][..i] == toolCalls[..i];
        var argsStr := if |toolCalls[i].rawArguments| > 0 then toolCalls[i].rawArguments
                       else toolCalls[i].argumentsJson;
        count := count + EstimateTokens(toolCalls[i].name) + EstimateTokens(argsStr) + EstimateTokens(toolCalls[i].id)
                 + 8;
      }
      assert toolCalls[..|toolCalls|] == toolCalls;
    case Tool(toolCallId, name, content, _) =>
      count := EstimateTokens(content) + EstimateTokens(name) + EstimateTokens(toolCallId) + 6;
  }

  lemma OrphansAppend(messages: seq<Message>, m: Message)
    requires m.Tool?
    ensures NoOrphans(messages) && Matched(messages, m.toolCallId) ==> NoOrphans(messages + [m])
  {
    var all := messages + [m];
    if NoOrphans(messages) && Matched(messages, m.toolCallId) {
      forall i | 0 <= i < |all| && all[i].Tool? ensures Matched(all[..i], all[i].toolCallId) {
        assert all[..i] == messages[..i];
        assert messages[..|messages|] == messages;
      }
    }
  }

  /** The finished blocks and the one being filled. */
  function Joined(blocks: seq<seq<Message>>, current: seq<Message>): seq<seq<Message>> {
    if current == [] then blocks else blocks + [current]
  }

  lemma CutStep(blocks: seq<seq<Message>>, current: seq<Message>, m: Message)
    requires current == [] ==> blocks == []
    ensures Push(Joined(blocks, current), m)
            == if StartsBlock(m) then Joined(blocks, current) + [[m]] else blocks + [current + [m]]
  {
    if current == [] {
      assert current + [m] == [m];
    } else if !StartsBlock(m) {
      PushOpen(blocks, current, m);
    }
  }

  /** Reading message `i` pushes it onto the blocks cut so far. */
  lemma CutMessage(messages: seq<Message>, i: nat, blocks: seq<seq<Message>>, current: seq<Message>)
    requires 2 <= i < |messages| && Blocks(messages[2..i]) == Joined(blocks, current)
    requires current == [] ==> blocks == []
    ensures Blocks(messages[2..i + 1])
            == if StartsBlock(messages[i]) then Joined(blocks, current) + [[messages[i]]]
               else blocks + [current + [messages[i]]]
  {
    assert messages[2..i + 1] == messages[2..i] + [messages[i]];
    BlocksPush(messages[2..i], messages[i]);
    CutStep(blocks, current, messages[i]);
  }

  /** The turn blocks of everything behind the first two messages. */
  method CutBlocks(messages: seq<Message>) returns (blocks: seq<seq<Message>>)
    requires |messages| >= 2
    ensures blocks == Blocks(messages[2..])
  {
    blocks := [];
    var currentBlock: seq<Message> := [];
    for i := 2 to |messages|
      invariant Blocks(messages[2..i]) == Joined(blocks, currentBlock)
      invariant currentBlock == [] ==> blocks == []
    {
      var msg := messages[i];
      CutMessage(messages, i, blocks, currentBlock);
      if StartsBlock(msg) {
        if |currentBlock| > 0 {
          blocks := blocks + [currentBlock];
          currentBlock := [];
        }
        assert currentBlock + [msg] == [msg];
      }
      currentBlock := currentBlock + [msg];
    }
    assert messages[2..|messages|] == messages[2..];
    if |currentBlock| > 0 {
      blocks := blocks + [currentBlock];
    }
  }

  /** The inner loops over a block list: its tokens on top of a start value. */
  method TotalTokens(start: nat, blocks: seq<seq<Message>>) returns (total: nat)
    ensures total == start + MessagesTokens(Flatten(blocks))
  {
    total := start;
    for b := 0 to |blocks|
      invariant total == start + MessagesTokens(Flatten(blocks[..b]))
    {
      var block := blocks[b];
      ghost var before := total;
      for i := 0 to |block|
        invariant total == before + MessagesTokens(block[..i])
      {
        assert block[..i + 1][..i] == block[..i];
        total := total + MessageTokens(block[i]);
      }
      assert block[..|block|] == block;
      assert blocks[..b + 1] == blocks[..b] + [block];
      FlattenLast(blocks[..b], block);
      TokensAppend(Flatten(blocks[..b]), block);
    }
    assert blocks[..|blocks|] == blocks;
  }

  /** The first prune loop: shift while there are more blocks than turns allowed. */
  method ShiftByTurns(ghost baseTokens: nat, all: seq<seq<Message>>, limits: Limits)
    returns (blocks: seq<seq<Message>>, ghost k: nat)
    ensures k <= |all| && blocks == all[k..] && TurnsOk(|blocks|, limits.turns)
    ensures forall j :: 0 <= j < k ==> !Legal(baseTokens, all[j..], limits)
  {
    blocks, k := all, 0;
    if limits.turns.Some? && limits.turns.value > 0 {
      while |blocks| > limits.turns.value
        invariant k <= |all| && blocks == all[k..]
        invariant forall j :: 0 <= j < k ==> !Legal(baseTokens, all[j..], limits)
      {
        blocks, k := blocks[1..], k + 1;
      }
    }
  }

  /** The second prune loop: shift while the tokens exceed the limit and more than one block is left. */
  method ShiftByTokens(baseTokens: nat, given: seq<seq<Message>>, ghost all: seq<seq<Message>>, ghost from: nat,
                       limits: Limits)
    returns (blocks: seq<seq<Message>>, ghost k: nat)
    requires from <= |all| && given == all[from..] && TurnsOk(|given|, limits.turns)
    requires forall j :: 0 <= j < from ==> !Legal(baseTokens, all[j..], limits)
    ensures k <= |all| && blocks == all[k..] && Legal(baseTokens, blocks, limits)
    ensures forall j :: 0 <= j < k ==> !Legal(baseTokens, all[j..], limits)
  {
    blocks, k := given, from;
    if limits.tokens.None? || limits.tokens.value <= 0 {
      return;
    }
    while |blocks| > 0
      invariant k <= |all| && blocks == all[k..] && TurnsOk(|blocks|, limits.turns)
      invariant forall j :: 0 <= j < k ==> !Legal(baseTokens, all[j..], limits)
    {
      var totalTokens := TotalTokens(baseTokens, blocks);
      if totalTokens > limits.tokens.value && |blocks| > 1 {
        blocks, k := blocks[1..], k + 1;
      } else {
        break;
      }
    }
  }

  /** The final loops: push every message of every block. */
  method PushAll(head: seq<Message>, blocks: seq<seq<Message>>) returns (result: seq<Message>)
    ensures result == head + Flatten(blocks)
  {
    result := head;
    for b := 0 to |blocks|
      invariant result == head + Flatten(blocks[..b])
    {
      ghost var before := result;
      for i := 0 to |blocks[b]|
        invariant result == before + blocks[b][..i]
      {
        result := result + [blocks[b][i]];
      }
      assert blocks[..b + 1] == blocks[..b] + [blocks[b]];
      FlattenLast(blocks[..b], blocks[b]);
    }
    assert blocks[..|blocks|] == blocks;
  }

  /** The place found by the loops is the one the specification names. */
  lemma KeepFromIs(baseTokens: nat, blocks: seq<seq<Message>>, limits: Limits, k: nat)
    requires k <= |blocks| && Legal(baseTokens, blocks[k..], limits)
    requires forall j :: 0 <= j < k ==> !Legal(baseTokens, blocks[j..], limits)
    ensures KeepFrom(baseTokens, blocks, limits, 0) == k
  {
    var r := KeepFrom(baseTokens, blocks, limits, 0);
    assert r <= k;
  }
}
