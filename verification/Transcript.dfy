/** A conversation folded from session updates (thread.rs). */
module Transcripts {
  import opened Wrappers
  import opened Text

  datatype ToolKind = Execute | ReadKind | EditKind | OtherKind

  datatype ToolStatus = Pending | Running | Done | Failed

  /** A status as the wire has it; the schema may grow more. */
  datatype WireStatus = WirePending | WireInProgress | WireCompleted | WireFailed | WireUnknown

  datatype Block =
    | TextBlock(text: string)
    | LinkBlock(name: string, uri: string)
    | ResourceBlock(text: string)
    | BinaryBlock
    | ImageBlock
    | AudioBlock
    | UnknownBlock

  datatype WireContent =
    | WireBlock(block: Block)
    | WireDiff(path: string, old_text: Option<string>, new_text: string)
    | WireTerminal(id: string)
    | WireOther

  datatype Content =
    | Plain(text: string)
    | Diff(path: string, old_text: Option<string>, new_text: string)
    | Terminal(id: string)

  /** A tool call's raw input (opaque), and the shell command it shows, if it shows one. */
  datatype Input = Input(json: string, command: Option<string>)

  datatype Tool = Tool(id: string, title: string, kind: Option<ToolKind>, status: ToolStatus,
                       content: seq<Content>, input: Option<Input>)

  datatype Call = Call(id: string, title: string, kind: ToolKind, status: WireStatus,
                       content: seq<WireContent>, input: Option<Input>)

  datatype Fields = Fields(title: Option<string>, kind: Option<ToolKind>, status: Option<WireStatus>,
                           content: Option<seq<WireContent>>, input: Option<Input>)

  datatype Entry =
    | User(text: string, chips: seq<string>)
    | Agent(text: string, message: Option<string>)
    | Thought(text: string)
    | ToolEntry(tool: Tool)
    | Notice(text: string, error: bool)

  /** A session update; `Aside` stands for the ones that leave the entries alone (plan, commands,
      mode, title, usage, settings). */
  datatype Update =
    | UserChunk(block: Block)
    | AgentChunk(block: Block, message: Option<string>)
    | ThoughtChunk(block: Block)
    | ToolCall(call: Call)
    | ToolCallUpdate(id: string, fields: Fields)
    | Aside

  function BlockText(b: Block): string {
    match b
    case TextBlock(text) => text
    case LinkBlock(name, uri) => "[" + name + "](" + uri + ")"
    case ResourceBlock(text) => text
    case BinaryBlock => "[binary resource]"
    case ImageBlock => "[image]"
    case AudioBlock => "[audio]"
    case UnknownBlock => ""
  }

  function StatusOf(s: WireStatus): ToolStatus {
    match s
    case WirePending => Pending
    case WireInProgress => Running
    case WireCompleted => Done
    case WireFailed => Failed
    case WireUnknown => Running
  }

  function Contents(content: seq<WireContent>): seq<Content> {
    if content == [] then []
    else
      (match content[0]
       case WireBlock(block) => if BlockText(block) == "" then [] else [Plain(BlockText(block))]
       case WireDiff(path, a, b) => [Diff(path, a, b)]
       case WireTerminal(id) => [Terminal(id)]
       case WireOther => [])
      + Contents(content[1..])
  }

  function CallTool(call: Call): Tool {
    Tool(call.id, call.title, Some(call.kind), StatusOf(call.status), Contents(call.content), call.input)
  }

  function UnseenTool(id: string): Tool {
    Tool(id, "", None, Running, [], None)
  }

  /** `apply_fields` */
  function WithFields(tool: Tool, fields: Fields): Tool {
    Tool(tool.id,
         if fields.title.Some? then fields.title.value else tool.title,
         if fields.kind.Some? then fields.kind else tool.kind,
         if fields.status.Some? then StatusOf(fields.status.value) else tool.status,
         if fields.content.Some? then Contents(fields.content.value) else tool.content,
         if fields.input.Some? then fields.input else tool.input)
  }

  predicate IsTool(e: Entry, id: string) {
    e.ToolEntry? && e.tool.id == id
  }

  /** The newest entry of a tool call. */
  function ToolAt(es: seq<Entry>, id: string): (r: Option<nat>)
    ensures r.Some? ==> r.value < |es| && IsTool(es[r.value], id)
  {
    if es == [] then None
    else if IsTool(es[|es| - 1], id) then Some(|es| - 1)
    else ToolAt(es[..|es| - 1], id)
  }

  function Find(es: seq<Entry>, id: string): Option<Tool> {
    match ToolAt(es, id)
    case Some(i) => Some(es[i].tool)
    case None => None
  }

  function PutTool(es: seq<Entry>, tool: Tool): seq<Entry> {
    match ToolAt(es, tool.id)
    case Some(i) => es[i := ToolEntry(tool)]
    case None => es + [ToolEntry(tool)]
  }

  /** Whether a text chunk continues the entry. */
  predicate Continues(e: Entry, u: Update) {
    match u
    case UserChunk(_) => e.User?
    case AgentChunk(_, id) => e.Agent? && (id.None? || e.message == id)
    case ThoughtChunk(_) => e.Thought?
    case _ => false
  }

  predicate IsChunk(u: Update) { u.UserChunk? || u.AgentChunk? || u.ThoughtChunk? }

  function Extended(e: Entry, text: string): Entry
    requires e.User? || e.Agent? || e.Thought?
  {
    match e
    case User(t, chips) => User(t + text, chips)
    case Agent(t, id) => Agent(t + text, id)
    case Thought(t) => Thought(t + text)
  }

  function FirstEntry(u: Update): Entry
    requires IsChunk(u)
  {
    match u
    case UserChunk(b) => User(BlockText(b), [])
    case AgentChunk(b, id) => Agent(BlockText(b), id)
    case ThoughtChunk(b) => Thought(BlockText(b))
  }

  /** The entries after one update. */
  function Applied(es: seq<Entry>, u: Update): seq<Entry> {
    match u
    case ToolCall(call) => PutTool(es, CallTool(call))
    case ToolCallUpdate(id, fields) =>
      PutTool(es, WithFields(match Find(es, id) { case Some(t) => t case None => UnseenTool(id) }, fields))
    case Aside => es
    case _ =>
      if es != [] && Continues(es[|es| - 1], u)
      then es[|es| - 1 := Extended(es[|es| - 1], BlockText(u.block))]
      else es + [FirstEntry(u)]
  }

  predicate Unsettled(e: Entry) {
    e.ToolEntry? && (e.tool.status.Pending? || e.tool.status.Running?)
  }

  function SettledEntry(e: Entry): Entry {
    if Unsettled(e) then ToolEntry(e.tool.(status := Failed)) else e
  }

  /** The entries once the turn ended. */
  function Settled(es: seq<Entry>): (r: seq<Entry>)
    ensures |r| == |es|
    ensures forall i :: 0 <= i < |es| ==> r[i] == SettledEntry(es[i])
  {
    if es == [] then [] else Settled(es[..|es| - 1]) + [SettledEntry(es[|es| - 1])]
  }

  class Transcript {
    var entries: seq<Entry>

    constructor ()
      ensures entries == []
    {
      entries := [];
    }

    method PushUser(text: string, chips: seq<string>)
      modifies this
      ensures entries == old(entries) + [User(text, chips)]
    {
      entries := entries + [User(text, chips)];
    }

    method PushNotice(text: string, error: bool)
      modifies this
      ensures entries == old(entries) + [Notice(text, error)]
    {
      entries := entries + [Notice(text, error)];
    }

    /** Searches from the newest entry. */
    method ToolIndex(id: string) returns (r: Option<nat>)
      ensures r == ToolAt(entries, id)
    {
      var n := |entries|;
      assert entries[..n] == entries;
      while n > 0
        invariant 0 <= n <= |entries|
        invariant ToolAt(entries[..n], id) == ToolAt(entries, id)
      {
        if IsTool(entries[n - 1], id) {
          return Some(n - 1);
        }
        assert entries[..n][..n - 1] == entries[..n - 1];
        n := n - 1;
      }
      r := None;
    }

    method SetTool(at: Option<nat>, tool: Tool)
      requires at == ToolAt(entries, tool.id)
      modifies this
      ensures entries == PutTool(old(entries), tool)
    {
      match at {
        case Some(i) => entries := entries[i := ToolEntry(tool)];
        case None => entries := entries + [ToolEntry(tool)];
      }
    }

    method AppendChunk(u: Update)
      requires IsChunk(u)
      modifies this
      ensures entries == Applied(old(entries), u)
    {
      var text := BlockText(u.block);
      if entries != [] && Continues(entries[|entries| - 1], u) {
        var last := entries[|entries| - 1];
        entries := entries[|entries| - 1 := Extended(last, text)];
      } else {
        entries := entries + [FirstEntry(u)];
      }
    }

    /** Folds one update in. */
    method Apply(u: Update)
      modifies this
      ensures entries == Applied(old(entries), u)
    {
      match u {
        case ToolCall(call) =>
          var at := ToolIndex(call.id);
          SetTool(at, CallTool(call));
        case ToolCallUpdate(id, fields) =>
          var at := ToolIndex(id);
          var tool := if at.Some? then entries[at.value].tool else UnseenTool(id);
          SetTool(at, WithFields(tool, fields));
        case Aside =>
        case _ => AppendChunk(u);
      }
    }

    /** Marks running tool calls as failed. */
    method Settle()
      modifies this
      ensures entries == Settled(old(entries))
    {
      ghost var before := entries;
      var i := 0;
      while i < |entries|
        invariant 0 <= i <= |entries| == |before|
        invariant forall j :: 0 <= j < |before| ==> entries[j] == if j < i then SettledEntry(before[j]) else before[j]
      {
        if Unsettled(entries[i]) {
          entries := entries[i := ToolEntry(entries[i].tool.(status := Failed))];
        }
        i := i + 1;
      }
      assert entries == Settled(before);
    }
  }

  // ----- Chunking -----

  function Fold(es: seq<Entry>, us: seq<Update>): seq<Entry>
    decreases |us|
  {
    if us == [] then es else Fold(Applied(es, us[0]), us[1..])
  }

  lemma {:induction false} FoldAppend(es: seq<Entry>, us: seq<Update>, vs: seq<Update>)
    ensures Fold(es, us + vs) == Fold(Fold(es, us), vs)
    decreases |us|
  {
    if us == [] {
      assert us + vs == vs;
    } else {
      assert (us + vs)[0] == us[0] && (us + vs)[1..] == us[1..] + vs;
      FoldAppend(Applied(es, us[0]), us[1..], vs);
    }
  }

  /** The chunk with other text, of the same kind and message. */
  function WithText(u: Update, text: string): Update
    requires IsChunk(u)
  {
    match u
    case UserChunk(_) => UserChunk(TextBlock(text))
    case AgentChunk(_, id) => AgentChunk(TextBlock(text), id)
    case ThoughtChunk(_) => ThoughtChunk(TextBlock(text))
  }

  function Chunks(u: Update, parts: seq<string>): seq<Update>
    requires IsChunk(u)
  {
    if parts == [] then [] else [WithText(u, parts[0])] + Chunks(u, parts[1..])
  }

  lemma SplitInTwo(es: seq<Entry>, u: Update, a: string, b: string)
    requires IsChunk(u)
    ensures Applied(Applied(es, WithText(u, a)), WithText(u, b)) == Applied(es, WithText(u, a + b))
  {
    var one := Applied(es, WithText(u, a));
    assert one != [] && Continues(one[|one| - 1], WithText(u, b));
    if es != [] && Continues(es[|es| - 1], u) {
      var e := es[|es| - 1];
      assert Extended(Extended(e, a), b) == Extended(e, a + b) by {
        assert e.text + a + b == e.text + (a + b);
      }
    }
  }

  /** However a message is cut into chunks, and whatever comes before and after it, the
      transcript is the one of the uncut message. */
  lemma {:induction false} ChunkingIsInvisible(es: seq<Entry>, before: seq<Update>, u: Update, parts: seq<string>,
                                               after: seq<Update>)
    requires IsChunk(u) && parts != []
    ensures Fold(es, before + Chunks(u, parts) + after) == Fold(es, before + [WithText(u, Concat(parts))] + after)
  {
    var start := Fold(es, before);
    PartsJoin(start, u, parts);
    FoldAppend(es, before + Chunks(u, parts), after);
    FoldAppend(es, before, Chunks(u, parts));
    FoldAppend(es, before + [WithText(u, Concat(parts))], after);
    FoldAppend(es, before, [WithText(u, Concat(parts))]);
    assert Fold(start, [WithText(u, Concat(parts))]) == Fold(Applied(start, WithText(u, Concat(parts))), []);
  }

  lemma {:induction false} PartsJoin(es: seq<Entry>, u: Update, parts: seq<string>)
    requires IsChunk(u) && parts != []
    ensures Fold(es, Chunks(u, parts)) == Applied(es, WithText(u, Concat(parts)))
    decreases |parts|
  {
    hide Applied;
    var first, rest := WithText(u, parts[0]), parts[1..];
    assert Chunks(u, parts)[1..] == Chunks(u, rest);
    if rest == [] {
      assert Concat(parts) == parts[0] + "" == parts[0];
      assert Chunks(u, rest) == [];
    } else {
      PartsJoin(Applied(es, first), u, rest);
      SplitInTwo(es, u, parts[0], Concat(rest));
    }
  }

  // ----- The text of the conversation -----

  datatype Voice = UserVoice | AgentVoice | ThoughtVoice

  function SaidBy(e: Entry, v: Voice): string {
    match (e, v)
    case (User(text, _), UserVoice) => text
    case (Agent(text, _), AgentVoice) => text
    case (Thought(text), ThoughtVoice) => text
    case _ => ""
  }

  function Said(es: seq<Entry>, v: Voice): string {
    if es == [] then "" else Said(es[..|es| - 1], v) + SaidBy(es[|es| - 1], v)
  }

  function ChunkBy(u: Update, v: Voice): string {
    match (u, v)
    case (UserChunk(b), UserVoice) => BlockText(b)
    case (AgentChunk(b, _), AgentVoice) => BlockText(b)
    case (ThoughtChunk(b), ThoughtVoice) => BlockText(b)
    case _ => ""
  }

  function Sent(us: seq<Update>, v: Voice): string {
    if us == [] then "" else ChunkBy(us[0], v) + Sent(us[1..], v)
  }

  lemma {:induction false} SaidUnlessTouched(es: seq<Entry>, i: nat, e: Entry, v: Voice)
    requires i < |es| && SaidBy(es[i], v) == SaidBy(e, v)
    ensures Said(es[i := e], v) == Said(es, v)
  {
    var n := |es| - 1;
    if i == n {
      assert es[i := e][..n] == es[..n];
    } else {
      assert es[i := e][..n] == es[..n][i := e];
      SaidUnlessTouched(es[..n], i, e, v);
    }
  }

  lemma SaidAfterApply(es: seq<Entry>, u: Update, v: Voice)
    ensures Said(Applied(es, u), v) == Said(es, v) + ChunkBy(u, v)
  {
    match u
    case Aside => assert Said(es, v) + "" == Said(es, v);
    case ToolCall(call) => SaidAfterPut(es, CallTool(call), v);
    case ToolCallUpdate(id, fields) =>
      SaidAfterPut(es, WithFields(match Find(es, id) { case Some(t) => t case None => UnseenTool(id) }, fields), v);
    case _ => SaidAfterChunk(es, u, v);
  }

  lemma SaidAfterChunk(es: seq<Entry>, u: Update, v: Voice)
    requires IsChunk(u)
    ensures Said(Applied(es, u), v) == Said(es, v) + ChunkBy(u, v)
  {
    hide BlockText, Said;
    var after := Applied(es, u);
    SaidStep(after, v);
    if es != [] && Continues(es[|es| - 1], u) {
      var n := |es| - 1;
      assert after[..n] == es[..n];
      ExtendedSays(es[n], u, v);
      SaidStep(es, v);
      Assoc(Said(es[..n], v), SaidBy(es[n], v), ChunkBy(u, v));
    } else {
      assert after[..|es|] == es;
    }
  }

  lemma SaidStep(es: seq<Entry>, v: Voice)
    requires es != []
    ensures Said(es, v) == Said(es[..|es| - 1], v) + SaidBy(es[|es| - 1], v)
  {
  }

  lemma ExtendedSays(e: Entry, u: Update, v: Voice)
    requires IsChunk(u) && Continues(e, u)
    ensures SaidBy(Extended(e, BlockText(u.block)), v) == SaidBy(e, v) + ChunkBy(u, v)
  {
    assert SaidBy(e, v) + "" == SaidBy(e, v);
  }

  lemma SaidAfterPut(es: seq<Entry>, tool: Tool, v: Voice)
    ensures Said(PutTool(es, tool), v) == Said(es, v) + ""
  {
    match ToolAt(es, tool.id) {
      case Some(i) => SaidUnlessTouched(es, i, ToolEntry(tool), v);
      case None =>
        assert (es + [ToolEntry(tool)])[..|es|] == es;
    }
    assert Said(es, v) + "" == Said(es, v);
  }

  /** No text is lost, doubled or reordered: what the entries of a voice say is exactly what its
      chunks said, in order. */
  lemma {:induction false} TextIsConserved(es: seq<Entry>, us: seq<Update>, v: Voice)
    ensures Said(Fold(es, us), v) == Said(es, v) + Sent(us, v)
    decreases |us|
  {
    hide Applied, Said, ChunkBy;
    if us == [] {
      assert Said(es, v) + "" == Said(es, v);
    } else {
      SaidAfterApply(es, us[0], v);
      TextIsConserved(Applied(es, us[0]), us[1..], v);
      Assoc(Said(es, v), ChunkBy(us[0], v), Sent(us[1..], v));
    }
  }

  // ----- Indices and ids -----

  /** An index keeps naming the same entry: texts only grow, tools keep their id. */
  predicate SameEntry(a: Entry, b: Entry) {
    match a
    case User(text, chips) => b.User? && text <= b.text && chips == b.chips
    case Agent(text, message) => b.Agent? && text <= b.text && message == b.message
    case Thought(text) => b.Thought? && text <= b.text
    case ToolEntry(tool) => b.ToolEntry? && tool.id == b.tool.id
    case Notice(_, _) => a == b
  }

  ghost predicate Keeps(a: seq<Entry>, b: seq<Entry>) {
    |a| <= |b| && forall i :: 0 <= i < |a| ==> SameEntry(a[i], b[i])
  }

  lemma AppliedKeeps(es: seq<Entry>, u: Update)
    ensures Keeps(es, Applied(es, u))
  {
  }

  lemma {:induction false} FoldKeeps(es: seq<Entry>, us: seq<Update>)
    ensures Keeps(es, Fold(es, us))
    decreases |us|
  {
    hide Applied;
    if us != [] {
      AppliedKeeps(es, us[0]);
      FoldKeeps(Applied(es, us[0]), us[1..]);
      KeepsChain(es, Applied(es, us[0]), Fold(es, us));
    }
  }

  lemma KeepsChain(a: seq<Entry>, b: seq<Entry>, c: seq<Entry>)
    requires Keeps(a, b) && Keeps(b, c)
    ensures Keeps(a, c)
  {
    forall i | 0 <= i < |a| ensures SameEntry(a[i], c[i]) {
      SameEntryChain(a[i], b[i], c[i]);
    }
  }

  lemma SameEntryChain(a: Entry, b: Entry, c: Entry)
    requires SameEntry(a, b) && SameEntry(b, c)
    ensures SameEntry(a, c)
  {
  }

  lemma SettledKeeps(es: seq<Entry>)
    ensures Keeps(es, Settled(es))
    ensures forall i :: 0 <= i < |es| ==> !Unsettled(Settled(es)[i])
    ensures Settled(Settled(es)) == Settled(es)
  {
    hide Settled;
  }

  /** At most one entry per tool call. */
  ghost predicate UniqueTools(es: seq<Entry>) {
    forall i, j :: 0 <= i < j < |es| && es[i].ToolEntry? && es[j].ToolEntry? ==> es[i].tool.id != es[j].tool.id
  }

  lemma {:induction false} ToolAtFinds(es: seq<Entry>, id: string)
    ensures ToolAt(es, id).None? <==> forall i :: 0 <= i < |es| ==> !IsTool(es[i], id)
    ensures UniqueTools(es) ==> forall i :: 0 <= i < |es| && IsTool(es[i], id) ==> ToolAt(es, id) == Some(i)
  {
    if es != [] {
      ToolAtFinds(es[..|es| - 1], id);
    }
  }

  lemma PutKeepsUnique(es: seq<Entry>, tool: Tool)
    requires UniqueTools(es)
    ensures UniqueTools(PutTool(es, tool))
  {
    ToolAtFinds(es, tool.id);
  }

  lemma {:induction false} FoldKeepsUnique(es: seq<Entry>, us: seq<Update>)
    requires UniqueTools(es)
    ensures UniqueTools(Fold(es, us))
    decreases |us|
  {
    if us != [] {
      AppliedKeepsUnique(es, us[0]);
      FoldKeepsUnique(Applied(es, us[0]), us[1..]);
    }
  }

  lemma AppliedKeepsUnique(es: seq<Entry>, u: Update)
    requires UniqueTools(es)
    ensures UniqueTools(Applied(es, u))
  {
    match u
    case ToolCall(call) => PutKeepsUnique(es, CallTool(call));
    case ToolCallUpdate(id, fields) =>
      PutKeepsUnique(es, WithFields(match Find(es, id) { case Some(t) => t case None => UnseenTool(id) }, fields));
    case _ =>
  }

  // ----- One tool call on its own -----

  /** A tool call followed alone through the updates that name it. */
  function Follow(tool: Option<Tool>, id: string, us: seq<Update>): Option<Tool>
    decreases |us|
  {
    if us == [] then tool else Follow(Next(tool, id, us[0]), id, us[1..])
  }

  function Next(tool: Option<Tool>, id: string, u: Update): Option<Tool> {
    match u
    case ToolCall(call) => if call.id == id then Some(CallTool(call)) else tool
    case ToolCallUpdate(other, fields) =>
      if other != id then tool
      else Some(WithFields(match tool { case Some(t) => t case None => UnseenTool(id) }, fields))
    case _ => tool
  }

  lemma FindAfterPut(es: seq<Entry>, tool: Tool, id: string)
    requires UniqueTools(es)
    ensures Find(PutTool(es, tool), id) == if tool.id == id then Some(tool) else Find(es, id)
  {
    var after := PutTool(es, tool);
    PutKeepsUnique(es, tool);
    ToolAtFinds(es, tool.id);
    ToolAtFinds(es, id);
    ToolAtFinds(after, id);
    match ToolAt(es, tool.id) {
      case Some(i) =>
        assert after[i] == ToolEntry(tool);
        if tool.id != id && ToolAt(es, id).Some? {
          var k := ToolAt(es, id).value;
          assert IsTool(after[k], id);
        }
      case None =>
        assert after[|es|] == ToolEntry(tool);
        if tool.id != id && ToolAt(es, id).Some? {
          var k := ToolAt(es, id).value;
          assert IsTool(after[k], id);
        }
    }
  }

  lemma FindAfterChunk(es: seq<Entry>, u: Update, id: string)
    requires UniqueTools(es) && IsChunk(u)
    ensures Find(Applied(es, u), id) == Find(es, id)
  {
    var after := Applied(es, u);
    AppliedKeepsUnique(es, u);
    ToolAtFinds(es, id);
    ToolAtFinds(after, id);
    if ToolAt(es, id).Some? {
      var k := ToolAt(es, id).value;
      assert IsTool(after[k], id);
    }
  }

  lemma FindAfterApply(es: seq<Entry>, u: Update, id: string)
    requires UniqueTools(es)
    ensures Find(Applied(es, u), id) == Next(Find(es, id), id, u)
  {
    hide PutTool, WithFields, CallTool, Find;
    match u
    case ToolCall(call) =>
      ToolIdOfCall(call);
      FindAfterPut(es, CallTool(call), id);
    case ToolCallUpdate(other, fields) =>
      var tool := match Find(es, other) { case Some(t) => t case None => UnseenTool(other) };
      ToolIdOfFind(es, other);
      ToolIdOfFields(tool, fields);
      FindAfterPut(es, WithFields(tool, fields), id);
    case Aside =>
    case _ => FindAfterChunk(es, u, id);
  }

  /** Tool calls don't interfere: in any interleaving of updates, the entry of a tool call is
      what its own updates make of it. */
  lemma {:induction false} ToolsAreIndependent(es: seq<Entry>, id: string, us: seq<Update>)
    requires UniqueTools(es)
    ensures Find(Fold(es, us), id) == Follow(Find(es, id), id, us)
    decreases |us|
  {
    hide Applied, Next, Find;
    if us != [] {
      AppliedKeepsUnique(es, us[0]);
      FindAfterApply(es, us[0], id);
      ToolsAreIndependent(Applied(es, us[0]), id, us[1..]);
    }
  }

  lemma ToolIdOfCall(call: Call)
    ensures CallTool(call).id == call.id
  {
  }

  lemma ToolIdOfFields(tool: Tool, fields: Fields)
    ensures WithFields(tool, fields).id == tool.id
  {
  }

  lemma ToolIdOfFind(es: seq<Entry>, id: string)
    ensures Find(es, id).Some? ==> Find(es, id).value.id == id
  {
  }
}
