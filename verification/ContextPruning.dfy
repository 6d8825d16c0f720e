/** Conversation histories, their token estimates, and what pruning them should mean. */
module ContextPruning {
  import opened Base

  datatype ToolCall = ToolCall(id: string, name: string, rawArguments: string, argumentsJson: string)

  datatype Message =
    | System(content: string)
    | User(content: string)
    | Assistant(content: string, toolCalls: seq<ToolCall>)
    | Tool(toolCallId: string, name: string, content: string, isError: bool)

  // ----- token estimates

  /** The words of a text: the places where a run of other characters than white space begins. */
  function Words(text: string): nat {
    if text == [] then 0
    else
      var n := |text| - 1;
      Words(text[..n]) + if !IsSpace(text[n]) && (n == 0 || IsSpace(text[n - 1])) then 1 else 0
  }

  /** `estimateTokens`: a quarter token for each character and each word, rounded up. */
  function EstimateTokens(text: string): nat {
    if text == [] then 0 else if Words(text) == 0 then 1 else (|text| + Words(text) + 3) / 4
  }

  lemma {:induction false} WordsBounded(text: string)
    ensures 2 * Words(text) <= |text| + if text != [] && !IsSpace(text[|text| - 1]) then 1 else 0
    ensures Words(text) == 0 <==> !Nonblank(text)
  {
    if text != [] {
      var n := |text| - 1;
      WordsBounded(text[..n]);
      if Nonblank(text[..n]) {
        var i :| 0 <= i < n && !IsSpace(text[..n][i]);
        assert !IsSpace(text[i]);
      }
    }
  }

  /** An estimate is zero for the empty text only, and never more than half a token a character, plus one. */
  lemma EstimateBounds(text: string)
    ensures EstimateTokens(text) == 0 <==> text == []
    ensures 8 * EstimateTokens(text) <= 3 * |text| + 7
  {
    WordsBounded(text);
  }

  function CallTokens(calls: seq<ToolCall>): nat {
    if calls == [] then 0
    else
      var c := calls[|calls| - 1];
      CallTokens(calls[..|calls| - 1]) + EstimateTokens(c.name) +
      EstimateTokens(if c.rawArguments != [] then c.rawArguments else c.argumentsJson) + EstimateTokens(c.id) + 8
  }

  function MessageTokens(m: Message): nat {
    match m
    case System(content) => EstimateTokens(content) + 4
    case User(content) => EstimateTokens(content) + 4
    case Assistant(content, calls) => EstimateTokens(content) + 4 + CallTokens(calls)
    case Tool(id, name, content, _) => EstimateTokens(content) + EstimateTokens(name) + EstimateTokens(id) + 6
  }

  function MessagesTokens(messages: seq<Message>): nat {
    if messages == [] then 0 else MessagesTokens(messages[..|messages| - 1]) + MessageTokens(messages[|messages| - 1])
  }

  lemma {:induction false} TokensAppend(a: seq<Message>, b: seq<Message>)
    ensures MessagesTokens(a + b) == MessagesTokens(a) + MessagesTokens(b)
  {
    if b == [] {
      assert a + b == a;
    } else {
      TokensAppend(a, b[..|b| - 1]);
      assert (a + b)[..|a + b| - 1] == a + b[..|b| - 1];
    }
  }

  // ----- what an estimate counts

  /** An unbroken run of characters is one word ... */
  lemma {:induction false} OneWord(text: string)
    requires text != [] && forall i :: 0 <= i < |text| ==> !IsSpace(text[i])
    ensures Words(text) == 1
  {
    if |text| > 1 {
      OneWord(text[..|text| - 1]);
    }
  }

  /** ... and the words on either side of a space add up, so these two say what words are. */
  lemma {:induction false} WordsJoin(a: string, gap: char, b: string)
    requires IsSpace(gap)
    ensures Words(a + [gap] + b) == Words(a) + Words(b)
  {
    var text := a + [gap] + b;
    assert (a + [gap])[..|a|] == a;
    if b == [] {
      assert text == a + [gap];
    } else {
      WordsJoin(a, gap, b[..|b| - 1]);
      assert text[..|text| - 1] == a + [gap] + b[..|b| - 1];
    }
  }

  /** A text is estimated at a quarter of its characters and words, rounded up; blank text at one token. */
  lemma EstimateIs(text: string)
    ensures Nonblank(text) ==> 4 * (EstimateTokens(text) - 1) < |text| + Words(text) <= 4 * EstimateTokens(text)
    ensures text != [] && !Nonblank(text) ==> EstimateTokens(text) == 1
  {
    WordsBounded(text);
  }

  /** The text that stands for the arguments of a call. */
  function ArgumentText(call: ToolCall): string {
    if call.rawArguments == "" then call.argumentsJson else call.rawArguments
  }

  /** Text costs four tokens more in any message but a result, where it costs six more; each call costs eight more. */
  lemma MessageCosts(content: string, calls: seq<ToolCall>, call: ToolCall, id: string, name: string, isError: bool)
    ensures MessageTokens(System(content)) == MessageTokens(User(content)) == MessageTokens(Assistant(content, []))
    ensures MessageTokens(User(content)) == 4 + EstimateTokens(content)
    ensures MessageTokens(Assistant(content, calls + [call]))
            == MessageTokens(Assistant(content, calls)) + 8 + EstimateTokens(call.id) + EstimateTokens(call.name) +
               EstimateTokens(ArgumentText(call))
    ensures MessageTokens(Tool(id, name, content, isError))
            == 6 + EstimateTokens(id) + EstimateTokens(name) + EstimateTokens(content)
    ensures MessagesTokens([User(content)]) == MessageTokens(User(content))
  {
    assert (calls + [call])[..|calls|] == calls;
    assert [User(content)][..0] == [];
  }

  // ----- turn blocks

  predicate StartsBlock(m: Message) {
    m.Assistant? || m.User?
  }

  /** A message opens a block of its own or joins the last one. */
  function Push(blocks: seq<seq<Message>>, m: Message): seq<seq<Message>> {
    if blocks == [] || StartsBlock(m) then blocks + [[m]]
    else blocks[..|blocks| - 1] + [blocks[|blocks| - 1] + [m]]
  }

  /** Turn blocks: a new one at every assistant or user message. */
  function Blocks(messages: seq<Message>): seq<seq<Message>> {
    if messages == [] then [] else Push(Blocks(messages[..|messages| - 1]), messages[|messages| - 1])
  }

  function Flatten(blocks: seq<seq<Message>>): seq<Message> {
    if blocks == [] then [] else Flatten(blocks[..|blocks| - 1]) + blocks[|blocks| - 1]
  }

  /**
   * A block is not empty, begins with an assistant or user message unless it is the first, and holds none further in.
   */
  predicate WellFormedBlock(block: seq<Message>, first: bool) {
    block != [] && (first || StartsBlock(block[0])) && forall i :: 0 < i < |block| ==> !StartsBlock(block[i])
  }

  predicate WellFormed(blocks: seq<seq<Message>>) {
    forall b :: 0 <= b < |blocks| ==> WellFormedBlock(blocks[b], b == 0)
  }

  lemma PushWellFormed(blocks: seq<seq<Message>>, m: Message)
    requires WellFormed(blocks)
    ensures WellFormed(Push(blocks, m)) && Push(blocks, m) != []
  {
  }

  lemma FlattenLast(blocks: seq<seq<Message>>, block: seq<Message>)
    ensures Flatten(blocks + [block]) == Flatten(blocks) + block
  {
    assert (blocks + [block])[..|blocks|] == blocks;
  }

  lemma PushFlatten(blocks: seq<seq<Message>>, m: Message)
    ensures Flatten(Push(blocks, m)) == Flatten(blocks) + [m]
  {
    if blocks == [] || StartsBlock(m) {
      FlattenLast(blocks, [m]);
    } else {
      var front, last := blocks[..|blocks| - 1], blocks[|blocks| - 1];
      FlattenLast(front, last + [m]);
      assert Flatten(front) + (last + [m]) == Flatten(front) + last + [m];
    }
  }

  lemma {:induction false} BlocksAreWellFormed(messages: seq<Message>)
    ensures WellFormed(Blocks(messages)) && (messages != [] ==> Blocks(messages) != [])
  {
    if messages != [] {
      var front := messages[..|messages| - 1];
      BlocksAreWellFormed(front);
      PushWellFormed(Blocks(front), messages[|messages| - 1]);
    }
  }

  lemma {:induction false} BlocksPartition(messages: seq<Message>)
    ensures Flatten(Blocks(messages)) == messages
  {
    if messages != [] {
      var front, m := messages[..|messages| - 1], messages[|messages| - 1];
      BlocksPartition(front);
      PushFlatten(Blocks(front), m);
      assert messages == front + [m];
    }
  }

  lemma BlocksPush(messages: seq<Message>, m: Message)
    ensures Blocks(messages + [m]) == Push(Blocks(messages), m)
  {
    assert (messages + [m])[..|messages|] == messages;
  }

  /** A list of well-formed blocks is read back from its messages. */
  lemma {:induction false} BlocksOfFlatten(blocks: seq<seq<Message>>)
    requires WellFormed(blocks)
    ensures Blocks(Flatten(blocks)) == blocks
  {
    if blocks != [] {
      var front, last := blocks[..|blocks| - 1], blocks[|blocks| - 1];
      BlocksOfFlatten(front);
      BlocksOfOpen(front, last, Flatten(front), |last|);
      assert last[..|last|] == last;
      assert blocks == front + [last];
    }
  }

  lemma {:induction false} BlocksOfOpen(done: seq<seq<Message>>, block: seq<Message>, before: seq<Message>, i: nat)
    requires Blocks(before) == done && 0 < i <= |block| && WellFormedBlock(block, done == [])
    ensures Blocks(before + block[..i]) == done + [block[..i]]
  {
    assert block[..i - 1] + [block[i - 1]] == block[..i];
    assert before + block[..i - 1] + [block[i - 1]] == before + block[..i];
    BlocksPush(before + block[..i - 1], block[i - 1]);
    if i == 1 {
      assert before + block[..0] == before;
    } else {
      BlocksOfOpen(done, block, before, i - 1);
      PushOpen(done, block[..i - 1], block[i - 1]);
    }
  }

  lemma PushOpen(done: seq<seq<Message>>, open: seq<Message>, m: Message)
    requires !StartsBlock(m)
    ensures Push(done + [open], m) == done + [open + [m]]
  {
    assert (done + [open])[..|done|] == done;
  }

  // ----- which suffixes are legal

  datatype Limits = Limits(turns: Option<int>, tokens: Option<int>)

  predicate TurnsOk(n: nat, turns: Option<int>) {
    turns.None? || turns.value <= 0 || n <= turns.value
  }

  predicate TokensOk(baseTokens: nat, blocks: seq<seq<Message>>, tokens: Option<int>) {
    tokens.None? || tokens.value <= 0 || |blocks| <= 1 || baseTokens + MessagesTokens(Flatten(blocks)) <= tokens.value
  }

  predicate Legal(baseTokens: nat, blocks: seq<seq<Message>>, limits: Limits) {
    TurnsOk(|blocks|, limits.turns) && TokensOk(baseTokens, blocks, limits.tokens)
  }

  /** Where the longest legal suffix that starts at or after `k` begins. */
  function KeepFrom(baseTokens: nat, blocks: seq<seq<Message>>, limits: Limits, k: nat): (r: nat)
    requires k <= |blocks|
    ensures k <= r <= |blocks| && Legal(baseTokens, blocks[r..], limits)
    ensures forall j :: k <= j < r ==> !Legal(baseTokens, blocks[j..], limits)
    decreases |blocks| - k
  {
    if k == |blocks| || Legal(baseTokens, blocks[k..], limits) then k else KeepFrom(baseTokens, blocks, limits, k + 1)
  }

  function BaseTokens(messages: seq<Message>): nat
    requires |messages| >= 2
  {
    MessageTokens(messages[0]) + MessageTokens(messages[1])
  }

  /** The first two messages and the turn blocks from `j` on. */
  function Keeping(messages: seq<Message>, j: nat): seq<Message>
    requires |messages| > 2 && j <= |Blocks(messages[2..])|
  {
    messages[..2] + Flatten(Blocks(messages[2..])[j..])
  }

  function FirstKept(messages: seq<Message>, limits: Limits): (k: nat)
    requires |messages| > 2
    ensures k <= |Blocks(messages[2..])|
  {
    KeepFrom(BaseTokens(messages), Blocks(messages[2..]), limits, 0)
  }

  /** `pruneHistory`: the first two messages and the longest legal suffix of the turn blocks. */
  function Pruned(messages: seq<Message>, limits: Limits): seq<Message> {
    if |messages| <= 2 then messages else Keeping(messages, FirstKept(messages, limits))
  }

  // ----- what pruning keeps

  lemma {:induction false} FlattenSplit(blocks: seq<seq<Message>>, k: nat)
    requires k <= |blocks|
    ensures Flatten(blocks) == Flatten(blocks[..k]) + Flatten(blocks[k..])
  {
    if k == |blocks| {
      assert blocks[..k] == blocks;
    } else {
      var n := |blocks| - 1;
      FlattenSplit(blocks[..n], k);
      assert blocks[..n][..k] == blocks[..k] && blocks[..n][k..] == blocks[k..][..n - k];
    }
  }

  lemma LegalShrinks(baseTokens: nat, blocks: seq<seq<Message>>, limits: Limits, j: nat, k: nat)
    requires j <= k <= |blocks| && Legal(baseTokens, blocks[j..], limits)
    ensures Legal(baseTokens, blocks[k..], limits)
  {
    FlattenSplit(blocks[j..], k - j);
    assert blocks[j..][k - j..] == blocks[k..];
    TokensAppend(Flatten(blocks[j..][..k - j]), Flatten(blocks[k..]));
  }

  /** Some block is always left. */
  lemma FirstKeptExists(messages: seq<Message>, limits: Limits)
    requires |messages| > 2
    ensures FirstKept(messages, limits) < |Blocks(messages[2..])|
  {
    BlocksAreWellFormed(messages[2..]);
    var blocks := Blocks(messages[2..]);
    assert Legal(BaseTokens(messages), blocks[|blocks| - 1..], limits);
  }

  lemma SuffixWellFormed(blocks: seq<seq<Message>>, k: nat)
    requires WellFormed(blocks) && k <= |blocks|
    ensures WellFormed(blocks[k..])
  {
  }

  /** The history kept from block `j` on has exactly those blocks. */
  lemma KeepingParts(messages: seq<Message>, j: nat)
    requires |messages| > 2 && j <= |Blocks(messages[2..])|
    ensures |Keeping(messages, j)| >= 2 && Keeping(messages, j)[..2] == messages[..2]
    ensures Keeping(messages, j)[2..] == Flatten(Blocks(messages[2..])[j..])
    ensures Blocks(Keeping(messages, j)[2..]) == Blocks(messages[2..])[j..]
  {
    var blocks := Blocks(messages[2..]);
    BlocksAreWellFormed(messages[2..]);
    SuffixWellFormed(blocks, j);
    BlocksOfFlatten(blocks[j..]);
    assert Keeping(messages, j)[2..] == Flatten(blocks[j..]);
  }

  lemma HeadTokens(messages: seq<Message>)
    requires |messages| >= 2
    ensures MessagesTokens(messages[..2]) == BaseTokens(messages)
  {
    TokensAppend([messages[0]], [messages[1]]);
    assert messages[..2] == [messages[0]] + [messages[1]];
    assert MessagesTokens([messages[0]]) == MessageTokens(messages[0]) &&
           MessagesTokens([messages[1]]) == MessageTokens(messages[1]);
  }

  /**
   * Within the turn limit, and within the token limit unless a single block is left; stated on the history as returned.
   */
  predicate Allowed(history: seq<Message>, limits: Limits) {
    |history| >= 2 &&
    var turns := |Blocks(history[2..])|;
    && TurnsOk(turns, limits.turns)
    && (limits.tokens.None? || limits.tokens.value <= 0 || turns <= 1 || MessagesTokens(history) <= limits.tokens.value)
  }

  lemma KeepingAllowed(messages: seq<Message>, j: nat, limits: Limits)
    requires |messages| > 2 && j <= |Blocks(messages[2..])|
    ensures Allowed(Keeping(messages, j), limits) <==> Legal(BaseTokens(messages), Blocks(messages[2..])[j..], limits)
  {
    KeepingParts(messages, j);
    TokensAppend(messages[..2], Flatten(Blocks(messages[2..])[j..]));
    HeadTokens(messages);
  }

  /**
   * Pruning returns the longest allowed suffix: a suffix of the blocks is allowed exactly when it begins no earlier
   * than the kept one.
   */
  lemma PruningIsLongest(messages: seq<Message>, limits: Limits, j: nat)
    requires |messages| > 2 && j <= |Blocks(messages[2..])|
    ensures Pruned(messages, limits) == Keeping(messages, FirstKept(messages, limits))
    ensures FirstKept(messages, limits) < |Blocks(messages[2..])|
    ensures Allowed(Keeping(messages, j), limits) <==> FirstKept(messages, limits) <= j
  {
    FirstKeptExists(messages, limits);
    KeepingAllowed(messages, j, limits);
    if FirstKept(messages, limits) <= j {
      LegalShrinks(BaseTokens(messages), Blocks(messages[2..]), limits, FirstKept(messages, limits), j);
    }
  }

  lemma SuffixIsKept(baseTokens: nat, blocks: seq<seq<Message>>, limits: Limits)
    ensures KeepFrom(baseTokens, blocks[KeepFrom(baseTokens, blocks, limits, 0)..], limits, 0) == 0
  {
    var rest := blocks[KeepFrom(baseTokens, blocks, limits, 0)..];
    assert rest[0..] == rest;
  }

  lemma KeepingAll(messages: seq<Message>)
    requires |messages| > 2
    ensures Keeping(messages, 0) == messages
  {
    BlocksPartition(messages[2..]);
    assert Blocks(messages[2..])[0..] == Blocks(messages[2..]);
  }

  lemma SameHead(a: seq<Message>, b: seq<Message>)
    requires |a| >= 2 && |b| >= 2 && a[..2] == b[..2]
    ensures BaseTokens(a) == BaseTokens(b)
  {
    assert a[0] == a[..2][0] && a[1] == a[..2][1] && b[0] == b[..2][0] && b[1] == b[..2][1];
  }

  /** Pruning twice with the same limits prunes once. */
  lemma PruningIdempotent(messages: seq<Message>, limits: Limits)
    ensures Pruned(Pruned(messages, limits), limits) == Pruned(messages, limits)
  {
    if |messages| > 2 {
      var k := FirstKept(messages, limits);
      var once := Keeping(messages, k);
      FirstKeptExists(messages, limits);
      KeepingParts(messages, k);
      if |once| > 2 {
        SameHead(once, messages);
        SuffixIsKept(BaseTokens(messages), Blocks(messages[2..]), limits);
        KeepingAll(once);
      }
    }
  }

  // ----- tool results and their assistant messages

  predicate Requests(m: Message, id: string) {
    m.Assistant? && exists c :: 0 <= c < |m.toolCalls| && m.toolCalls[c].id == id
  }

  predicate Matched(before: seq<Message>, id: string) {
    exists j :: 0 <= j < |before| && Requests(before[j], id)
  }

  /** Every tool result comes after an assistant message that requested it. */
  predicate NoOrphans(messages: seq<Message>) {
    forall i :: 0 <= i < |messages| && messages[i].Tool? ==> Matched(messages[..i], messages[i].toolCallId)
  }

  /** A tool result of a later block finds its request in its own block or in the two messages that are always kept. */
  predicate Anchored(head: seq<Message>, block: seq<Message>)
    requires block != []
  {
    forall i :: 0 <= i < |block| && block[i].Tool? ==>
      Requests(block[0], block[i].toolCallId) || Matched(head, block[i].toolCallId)
  }

  predicate LaterBlocksAnchored(messages: seq<Message>)
    requires |messages| > 2
  {
    var blocks := Blocks(messages[2..]);
    forall b :: 1 <= b < |blocks| && blocks[b] != [] ==> Anchored(messages[..2], blocks[b])
  }

  lemma MatchedGrows(a: seq<Message>, b: seq<Message>, id: string)
    requires Matched(a, id)
    ensures Matched(a + b, id)
  {
    var j :| 0 <= j < |a| && Requests(a[j], id);
    assert Requests((a + b)[j], id);
  }

  /** Appending an anchored block whose first message starts a block leaves no orphan. */
  lemma AppendAnchored(head: seq<Message>, middle: seq<Message>, block: seq<Message>)
    requires NoOrphans(head + middle) && block != [] && Anchored(head, block) && StartsBlock(block[0])
    ensures NoOrphans(head + middle + block)
  {
    var all := head + middle + block;
    var n := |head + middle|;
    forall i | 0 <= i < |all| && all[i].Tool? ensures Matched(all[..i], all[i].toolCallId) {
      if i < n {
        assert all[..i] == (head + middle)[..i];
      } else {
        var id := all[i].toolCallId;
        assert all[i] == block[i - n] && i > n;
        if Requests(block[0], id) {
          assert all[..i][n] == block[0];
        } else {
          assert all[..i] == head + (middle + block)[..i - |head|];
          MatchedGrows(head, (middle + block)[..i - |head|], id);
        }
      }
    }
  }

  lemma {:induction false} SuffixHasNoOrphans(head: seq<Message>, blocks: seq<seq<Message>>, k: nat, j: nat)
    requires WellFormed(blocks) && 1 <= k <= j <= |blocks| && NoOrphans(head)
    requires forall b :: 1 <= b < |blocks| ==> Anchored(head, blocks[b])
    ensures NoOrphans(head + Flatten(blocks[k..j]))
  {
    if j == k {
      assert head + Flatten(blocks[k..j]) == head;
    } else {
      SuffixHasNoOrphans(head, blocks, k, j - 1);
      AppendAnchored(head, Flatten(blocks[k..j - 1]), blocks[j - 1]);
      assert blocks[k..j][..j - 1 - k] == blocks[k..j - 1];
      assert head + Flatten(blocks[k..j]) == head + Flatten(blocks[k..j - 1]) + blocks[j - 1];
    }
  }

  lemma PrefixHasNoOrphans(messages: seq<Message>, n: nat)
    requires n <= |messages| && NoOrphans(messages)
    ensures NoOrphans(messages[..n])
  {
    forall i | 0 <= i < n && messages[i].Tool? ensures Matched(messages[..n][..i], messages[i].toolCallId) {
      assert messages[..n][..i] == messages[..i];
    }
  }

  lemma KeepingLater(head: seq<Message>, blocks: seq<seq<Message>>, j: nat)
    requires WellFormed(blocks) && 1 <= j <= |blocks| && NoOrphans(head)
    requires forall b :: 1 <= b < |blocks| && blocks[b] != [] ==> Anchored(head, blocks[b])
    ensures NoOrphans(head + Flatten(blocks[j..]))
  {
    SuffixHasNoOrphans(head, blocks, j, |blocks|);
    assert blocks[j..|blocks|] == blocks[j..];
  }

  lemma AnchoredNeverOrphans(messages: seq<Message>, j: nat)
    requires |messages| > 2 && j <= |Blocks(messages[2..])| && NoOrphans(messages) && LaterBlocksAnchored(messages)
    ensures NoOrphans(Keeping(messages, j))
  {
    if j == 0 {
      KeepingAll(messages);
    } else {
      BlocksAreWellFormed(messages[2..]);
      PrefixHasNoOrphans(messages, 2);
      KeepingLater(messages[..2], Blocks(messages[2..]), j);
    }
  }

  /** Every suffix of the blocks can be asked for with a turn limit. */
  lemma TurnLimitKeeps(messages: seq<Message>, b: nat)
    requires |messages| > 2 && b < |Blocks(messages[2..])|
    ensures FirstKept(messages, Limits(Some(|Blocks(messages[2..])| - b), None)) == b
  {
    var blocks, limits := Blocks(messages[2..]), Limits(Some(|Blocks(messages[2..])| - b), None);
    assert Legal(BaseTokens(messages), blocks[b..], limits);
    assert forall j :: 0 <= j < b ==> !Legal(BaseTokens(messages), blocks[j..], limits);
  }

  /** What follows a list of messages cannot request their tool results. */
  lemma OrphanFreeBlock(head: seq<Message>, block: seq<Message>, rest: seq<Message>)
    requires NoOrphans(head + block + rest) && WellFormedBlock(block, false)
    ensures Anchored(head, block)
  {
    var kept := head + block + rest;
    var n := |head|;
    forall i | 0 <= i < |block| && block[i].Tool?
      ensures Requests(block[0], block[i].toolCallId) || Matched(head, block[i].toolCallId)
    {
      var id := block[i].toolCallId;
      assert kept[n + i] == block[i];
      var j :| 0 <= j < n + i && Requests(kept[..n + i][j], id);
      if j < n {
        assert Requests(head[j], id);
      } else {
        assert kept[..n + i][j] == block[j - n];
        assert j == n;
      }
    }
  }

  lemma FlattenFrom(blocks: seq<seq<Message>>, b: nat)
    requires b < |blocks|
    ensures Flatten(blocks[b..]) == blocks[b] + Flatten(blocks[b + 1..])
  {
    FlattenSplit(blocks[b..], 1);
    FlattenOne(blocks[b]);
    assert blocks[b..][..1] == [blocks[b]] && blocks[b..][1..] == blocks[b + 1..];
  }

  lemma NeverOrphansAnchored(messages: seq<Message>, b: nat)
    requires |messages| > 2 && 1 <= b < |Blocks(messages[2..])| && NoOrphans(Keeping(messages, b))
    ensures Blocks(messages[2..])[b] != [] && Anchored(messages[..2], Blocks(messages[2..])[b])
  {
    var head, blocks := messages[..2], Blocks(messages[2..]);
    BlocksAreWellFormed(messages[2..]);
    FlattenFrom(blocks, b);
    var rest := Flatten(blocks[b + 1..]);
    assert head + (blocks[b] + rest) == head + blocks[b] + rest;
    OrphanFreeBlock(head, blocks[b], rest);
  }

  lemma FlattenOne(block: seq<Message>)
    ensures Flatten([block]) == block
  {
    assert [block][..0] == [];
  }

  /**
   * Pruning an orphan-free history leaves no orphan under any limits exactly when every tool result of a block after
   * the first finds its request in its own block or among the first two messages.
   */
  lemma NeverOrphansExactly(messages: seq<Message>)
    requires |messages| > 2 && NoOrphans(messages)
    ensures (forall limits :: NoOrphans(Pruned(messages, limits))) <==> LaterBlocksAnchored(messages)
  {
    if LaterBlocksAnchored(messages) {
      forall limits ensures NoOrphans(Pruned(messages, limits)) {
        AnchoredNeverOrphans(messages, FirstKept(messages, limits));
      }
    } else {
      var blocks := Blocks(messages[2..]);
      var b :| 1 <= b < |blocks| && blocks[b] != [] && !Anchored(messages[..2], blocks[b]);
      TurnLimitKeeps(messages, b);
      if NoOrphans(Keeping(messages, b)) {
        NeverOrphansAnchored(messages, b);
      }
      assert !NoOrphans(Pruned(messages, Limits(Some(|blocks| - b), None)));
    }
  }

  /** An agent whose user speaks before the tool result of call `c` arrives. */
  function InterruptedCall(c: ToolCall): seq<Message> {
    [System("s"), User("u"), Assistant("", [c]), User("wait"), Tool(c.id, c.name, "done", false)]
  }

  lemma InterruptedBlocks(call: Message, user: Message, result: Message)
    requires StartsBlock(call) && StartsBlock(user) && !StartsBlock(result)
    ensures Blocks([call, user, result]) == [[call], [user, result]]
  {
    var blocks := [[call], [user, result]];
    FlattenOne([call]);
    FlattenLast([[call]], [user, result]);
    assert blocks == [[call]] + [[user, result]];
    assert [call] + [user, result] == [call, user, result];
    BlocksOfFlatten(blocks);
  }

  lemma InterruptedKept(h: seq<Message>)
    requires |h| == 5 && StartsBlock(h[2]) && StartsBlock(h[3]) && !StartsBlock(h[4])
    ensures Pruned(h, Limits(Some(1), None)) == [h[0], h[1], h[3], h[4]]
  {
    assert h[2..] == [h[2], h[3], h[4]];
    InterruptedBlocks(h[2], h[3], h[4]);
    TurnLimitKeeps(h, 1);
    FlattenOne([h[3], h[4]]);
    assert Blocks(h[2..])[1..] == [[h[3], h[4]]];
    assert h[..2] == [h[0], h[1]];
  }

  lemma InterruptedComplete(c: ToolCall)
    ensures NoOrphans(InterruptedCall(c))
  {
    var h := InterruptedCall(c);
    assert Requests(h[2], c.id) by {
      assert h[2].toolCalls[0].id == c.id;
    }
    assert Matched(h[..4], c.id) by {
      assert h[..4][2] == h[2];
    }
  }

  /** Keeping one turn of that history drops the request and keeps its result. */
  lemma PruningOrphans(c: ToolCall)
    ensures NoOrphans(InterruptedCall(c))
    ensures !NoOrphans(Pruned(InterruptedCall(c), Limits(Some(1), None)))
  {
    var h := InterruptedCall(c);
    InterruptedComplete(c);
    InterruptedKept(h);
    var kept := [h[0], h[1], h[3], h[4]];
    assert kept[3].Tool? && !Matched(kept[..3], c.id);
  }
}
