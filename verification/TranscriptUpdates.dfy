/** What each session update does to a transcript, in full and in plain words. */
module TranscriptUpdates {
  import opened Wrappers
  import opened Transcripts

  // ----- What blocks, statuses and contents show -----

  /** The text a block shows: its own, a link in Markdown, or a word in brackets. */
  predicate ShowsBlock(b: Block, shown: string) {
    match b
    case TextBlock(text) => shown == text
    case ResourceBlock(text) => shown == text
    case LinkBlock(name, uri) => shown == "[" + name + "](" + uri + ")"
    case BinaryBlock => shown == "[binary resource]"
    case ImageBlock => shown == "[image]"
    case AudioBlock => shown == "[audio]"
    case UnknownBlock => shown == ""
  }

  /** A status the wire may grow counts as running. */
  predicate ShowsStatus(wire: WireStatus, status: ToolStatus) {
    match wire
    case WirePending => status == Pending
    case WireInProgress => status == Running
    case WireUnknown => status == Running
    case WireCompleted => status == Done
    case WireFailed => status == Failed
  }

  /** One part of a tool call's output: nothing for an empty text or an unknown kind. */
  ghost predicate ShowsPart(part: WireContent, shown: seq<Content>) {
    match part
    case WireBlock(block) => exists text :: ShowsBlock(block, text) && shown == if text == "" then [] else [Plain(text)]
    case WireDiff(path, a, b) => shown == [Diff(path, a, b)]
    case WireTerminal(id) => shown == [Terminal(id)]
    case WireOther => shown == []
  }

  ghost predicate ShowsParts(parts: seq<WireContent>, shown: seq<Content>)
    decreases |parts|
  {
    if parts == [] then shown == []
    else exists n :: 0 <= n <= |shown| && ShowsPart(parts[0], shown[..n]) && ShowsParts(parts[1..], shown[n..])
  }

  lemma BlockExactly(b: Block)
    ensures ShowsBlock(b, BlockText(b)) && forall shown :: ShowsBlock(b, shown) ==> shown == BlockText(b)
  {
  }

  lemma StatusExactly(wire: WireStatus)
    ensures ShowsStatus(wire, StatusOf(wire))
  {
  }

  lemma {:induction false} ContentsExactly(parts: seq<WireContent>)
    ensures ShowsParts(parts, Contents(parts))
  {
    hide BlockText, ShowsBlock;
    if parts != [] {
      var front, back := Contents([parts[0]]), Contents(parts[1..]);
      OnePart(parts[0]);
      ContentsExactly(parts[1..]);
      assert [parts[0]][1..] == [] && Contents([]) == [] && forall x: seq<Content> :: x + [] == x;
      assert Contents(parts) == front + back;
      assert (front + back)[..|front|] == front && (front + back)[|front|..] == back;
    }
  }

  lemma OnePart(part: WireContent)
    ensures ShowsPart(part, Contents([part]))
  {
    assert [part][1..] == [] && Contents([]) == [] && forall x: seq<Content> :: x + [] == x;
    if part.WireBlock? {
      BlockExactly(part.block);
      assert ShowsBlock(part.block, BlockText(part.block));
    }
  }

  // ----- Tool calls -----

  /** The entry of a new tool call says what the call says. */
  ghost predicate IsOfCall(tool: Tool, call: Call) {
    && tool.id == call.id && tool.title == call.title && tool.kind == Some(call.kind) && ShowsStatus(call.status, tool.status)
    && ShowsParts(call.content, tool.content) && tool.input == call.input
  }

  /** Fields that are given change; the others, and the id, stay. */
  ghost predicate Changed(tool: Tool, fields: Fields, after: Tool) {
    && after.id == tool.id
    && after.title == (if fields.title.Some? then fields.title.value else tool.title)
    && after.kind == (if fields.kind.Some? then fields.kind else tool.kind)
    && (if fields.status.Some? then ShowsStatus(fields.status.value, after.status) else after.status == tool.status)
    && (if fields.content.Some? then ShowsParts(fields.content.value, after.content) else after.content == tool.content)
    && after.input == if fields.input.Some? then fields.input else tool.input
  }

  ghost predicate NewestAt(es: seq<Entry>, id: string, k: nat) {
    && k < |es| && es[k].ToolEntry? && es[k].tool.id == id
    && forall j :: k < j < |es| ==> !(es[j].ToolEntry? && es[j].tool.id == id)
  }

  ghost predicate NoneAt(es: seq<Entry>, id: string) { forall j :: 0 <= j < |es| ==> !(es[j].ToolEntry? && es[j].tool.id == id) }

  lemma {:induction false} ToolAtExactly(es: seq<Entry>, id: string)
    ensures match ToolAt(es, id)
            case None => NoneAt(es, id)
            case Some(k) => NewestAt(es, id, k) && forall j: nat :: NewestAt(es, id, j) ==> j == k
  {
    if es != [] && !IsTool(es[|es| - 1], id) {
      var front := es[..|es| - 1];
      ToolAtExactly(front, id);
      if ToolAt(front, id).Some? {
        assert NewestAt(es, id, ToolAt(front, id).value);
        forall j: nat | NewestAt(es, id, j) ensures NewestAt(front, id, j) {
        }
      }
    }
  }

  lemma CallExactly(call: Call)
    ensures IsOfCall(CallTool(call), call)
  {
    hide Contents;
    StatusExactly(call.status);
    ContentsExactly(call.content);
  }

  lemma FieldsExactly(tool: Tool, fields: Fields)
    ensures Changed(tool, fields, WithFields(tool, fields))
  {
    hide Contents;
    if fields.status.Some? { StatusExactly(fields.status.value); }
    if fields.content.Some? { ContentsExactly(fields.content.value); }
  }

  /** A tool call replaces the newest entry with its id, or comes last; an update changes that entry, or
      comes last as a running call of which only the update is known. No other entry changes. */
  lemma ToolsExactly(es: seq<Entry>, call: Call, id: string, fields: Fields)
    ensures var d := Applied(es, ToolCall(call));
            && (forall k: nat :: NewestAt(es, call.id, k) ==> exists tool :: IsOfCall(tool, call) && d == es[k := ToolEntry(tool)])
            && (NoneAt(es, call.id) ==> exists tool :: IsOfCall(tool, call) && d == es + [ToolEntry(tool)])
    ensures var d := Applied(es, ToolCallUpdate(id, fields));
            && (forall k: nat :: NewestAt(es, id, k) ==> exists tool :: Changed(es[k].tool, fields, tool) && d == es[k := ToolEntry(tool)])
            && (NoneAt(es, id) ==> exists tool :: Changed(Tool(id, "", None, Running, [], None), fields, tool) && d == es + [ToolEntry(tool)])
  {
    hide IsOfCall, Changed, NewestAt, NoneAt, WithFields, CallTool, ToolAt;
    CallsExactly(es, call);
    ToolAtExactly(es, id);
    NoneNewest(es, id);
    var known := match Find(es, id) { case Some(t) => t case None => UnseenTool(id) };
    FieldsExactly(known, fields);
    SameToolId(known, fields);
  }

  lemma CallsExactly(es: seq<Entry>, call: Call)
    ensures var d := Applied(es, ToolCall(call));
            && (forall k: nat :: NewestAt(es, call.id, k) ==> exists tool :: IsOfCall(tool, call) && d == es[k := ToolEntry(tool)])
            && (NoneAt(es, call.id) ==> exists tool :: IsOfCall(tool, call) && d == es + [ToolEntry(tool)])
  {
    hide IsOfCall, NewestAt, NoneAt, ToolAt, Contents;
    ToolAtExactly(es, call.id);
    NoneNewest(es, call.id);
    CallExactly(call);
  }

  lemma SameToolId(tool: Tool, fields: Fields)
    ensures WithFields(tool, fields).id == tool.id
  {
  }

  lemma NoneNewest(es: seq<Entry>, id: string)
    ensures NoneAt(es, id) ==> forall k: nat :: !NewestAt(es, id, k)
  {
  }

  // ----- Chunks, and the end of a turn -----

  /** A chunk of the user's, the agent's or its thoughts goes to the end of the last entry when that is of
      its kind and, for the agent, of its message; else it begins an entry. No other entry changes. */
  lemma ChunksExactly(es: seq<Entry>, block: Block, message: Option<string>, text: string)
    requires ShowsBlock(block, text)
    ensures Applied(es, AgentChunk(block, message))
            == if es != [] && es[|es| - 1].Agent? && (message.None? || es[|es| - 1].message == message)
               then es[|es| - 1 := Agent(es[|es| - 1].text + text, es[|es| - 1].message)]
               else es + [Agent(text, message)]
    ensures Applied(es, ThoughtChunk(block))
            == if es != [] && es[|es| - 1].Thought? then es[|es| - 1 := Thought(es[|es| - 1].text + text)] else es + [Thought(text)]
    ensures Applied(es, UserChunk(block))
            == if es != [] && es[|es| - 1].User? then es[|es| - 1 := User(es[|es| - 1].text + text, es[|es| - 1].chips)] else es + [User(text, [])]
    ensures Applied(es, Update.Aside) == es
  {
    hide ShowsBlock, BlockText;
    BlockExactly(block);
  }

  /** At the end of a turn exactly the tool calls that were pending or running count as failed. */
  lemma SettledExactly(es: seq<Entry>)
    ensures |Settled(es)| == |es|
    ensures forall k :: 0 <= k < |es| ==>
              Settled(es)[k] == if es[k].ToolEntry? && (es[k].tool.status == Pending || es[k].tool.status == Running)
                                then ToolEntry(es[k].tool.(status := Failed)) else es[k]
  {
    hide Settled;
  }
}
