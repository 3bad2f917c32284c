/** The streaming tool coordinator: it watches the chunks of a response and submits the tool uses it may
    start early. It runs in lockstep with the accumulator that builds the response. */
module StreamingCoordinator {
  import opened Collections
  import opened Messages
  import opened Orchestration
  import opened StreamingMerge
  import opened StreamingTheorems
  import X = StreamingExecutor

  datatype DeltaType = TextDelta | ThinkingDelta | InputJSONDelta | OtherDelta

  datatype StreamChunk =
    | BlockStart(block: Option<Block>)
    | BlockDelta(deltaType: DeltaType, delta: string, partialJSON: string)
    | BlockStop
    | MessageDelta
    | MessageStop
    | ErrorChunk

  /** JSON decoding of a non-blank string into an object, if it is one. */
  type Parser = string -> Option<Input>

  /** parseStreamingToolInput: a blank input is the empty object. */
  function StreamingInput(parse: Parser, raw: string): Option<Input> {
    if Blank(raw) then Some(map[]) else parse(raw)
  }

  /** parseToolUseInputJSON: a blank input is no input. */
  function ResponseInput(parse: Parser, raw: string): Option<Input> {
    if Blank(raw) then None else parse(raw)
  }

  function WithInput(use: ToolUse, input: Option<Input>): ToolUse {
    if input.Some? then use.(input := input.value) else use
  }

  // ---------------------------------------------------------------------------------------------
  // The accumulator

  datatype Accumulator = Accumulator(content: seq<Block>, currentBlock: Option<Block>, toolUseInput: string)

  const EmptyAccumulator := Accumulator([], None, "")

  function ApplyDelta(parse: Parser, a: Accumulator, c: StreamChunk): Accumulator
    requires c.BlockDelta?
  {
    match a.currentBlock
    case Some(Text(t)) =>
      if c.deltaType.TextDelta? then a.(currentBlock := Some(Text(t + c.delta))) else a
    case Some(Thinking(t)) =>
      if c.deltaType.ThinkingDelta? then a.(currentBlock := Some(Thinking(t + c.delta))) else a
    case Some(ToolUseBlock(use)) =>
      if c.deltaType.InputJSONDelta? then
        var raw := a.toolUseInput + c.partialJSON;
        a.(toolUseInput := raw, currentBlock := Some(ToolUseBlock(WithInput(use, ResponseInput(parse, raw)))))
      else a
    case _ => a
  }

  /** The current block as it enters the content. */
  function Finished(parse: Parser, a: Accumulator): Block
    requires a.currentBlock.Some?
  {
    match a.currentBlock.value
    case ToolUseBlock(use) =>
      if a.toolUseInput != "" then ToolUseBlock(WithInput(use, ResponseInput(parse, a.toolUseInput)))
      else ToolUseBlock(use)
    case b => b
  }

  function Finalize(parse: Parser, a: Accumulator): Accumulator {
    if a.currentBlock == None then a.(toolUseInput := "")
    else Accumulator(a.content + [Finished(parse, a)], None, "")
  }

  function AddChunk(parse: Parser, a: Accumulator, c: StreamChunk): Accumulator {
    match c
    case BlockStart(block) => Accumulator(a.content, block, "")
    case BlockDelta(_, _, _) => ApplyDelta(parse, a, c)
    case BlockStop => Finalize(parse, a)
    case MessageStop => Finalize(parse, a)
    case _ => a
  }

  function Accumulated(parse: Parser, cs: seq<StreamChunk>): Accumulator {
    if cs == [] then EmptyAccumulator
    else AddChunk(parse, Accumulated(parse, cs[..|cs| - 1]), cs[|cs| - 1])
  }

  /** Build: a block that was never closed is appended to the content. */
  function Build(parse: Parser, a: Accumulator): seq<Block> {
    a.content + if a.currentBlock.Some? then [Finished(parse, a)] else []
  }

  // ---------------------------------------------------------------------------------------------
  // The coordinator

  /** The coordinator's fields, with the log of what it submitted to its executor. */
  datatype State = State(
    toolIndex: nat, currentTool: Option<ToolUse>, inputJSON: string,
    submitted: map<nat, ToolUse>, submissions: seq<X.Chunk>)

  const Initial := State(0, None, "", map[], [])

  predicate CanStream(w: World, use: ToolUse) {
    && use.name != "" && use.id != "" && use.name in w.tools
    && w.tools[use.name].safe(use.input) && w.tools[use.name].readOnly(use.input)
  }

  function Started(s: State, block: Option<Block>): State {
    match block
    case Some(ToolUseBlock(use)) => s.(currentTool := Some(use), inputJSON := "")
    case _ => s.(currentTool := None, inputJSON := "")
  }

  function WithDelta(parse: Parser, s: State, c: StreamChunk): State
    requires c.BlockDelta?
  {
    if s.currentTool == None || !c.deltaType.InputJSONDelta? then s
    else
      var raw := s.inputJSON + c.partialJSON;
      s.(inputJSON := raw, currentTool := Some(WithInput(s.currentTool.value, StreamingInput(parse, raw))))
  }

  function FinishedTool(w: World, parse: Parser, s: State): State {
    if s.currentTool == None then s
    else
      var use :=
        if s.inputJSON != "" then WithInput(s.currentTool.value, StreamingInput(parse, s.inputJSON))
        else s.currentTool.value;
      var next := s.(toolIndex := s.toolIndex + 1, currentTool := None, inputJSON := "");
      if CanStream(w, use) then
        next.(submitted := s.submitted[s.toolIndex := use], submissions := s.submissions + [X.Chunk(use, s.toolIndex)])
      else next
  }

  function Observed(w: World, parse: Parser, s: State, c: StreamChunk): State {
    match c
    case BlockStart(block) => Started(s, block)
    case BlockDelta(_, _, _) => WithDelta(parse, s, c)
    case BlockStop => FinishedTool(w, parse, s)
    case MessageStop => FinishedTool(w, parse, s)
    case _ => s
  }

  function Watched(w: World, parse: Parser, cs: seq<StreamChunk>): State {
    if cs == [] then Initial
    else Observed(w, parse, Watched(w, parse, cs[..|cs| - 1]), cs[|cs| - 1])
  }

  class StreamingToolCoordinator {
    const w: World
    const parse: Parser
    var toolIndex: nat
    var currentTool: Option<ToolUse>
    var inputJSON: string
    var submitted: map<nat, ToolUse>
    /** The calls made to the executor's SubmitToolUse. */
    var submissions: seq<X.Chunk>

    function Fields(): State
      reads this
    {
      State(toolIndex, currentTool, inputJSON, submitted, submissions)
    }

    constructor (w: World, parse: Parser)
      ensures this.w == w && this.parse == parse && Fields() == Initial
    {
      this.w, this.parse := w, parse;
      toolIndex, currentTool, inputJSON, submitted, submissions := 0, None, "", map[], [];
    }

    method StartBlock(block: Option<Block>)
      modifies this
      ensures Fields() == Started(old(Fields()), block)
    {
      currentTool := None;
      inputJSON := "";
      match block {
        case Some(ToolUseBlock(use)) => currentTool := Some(use);
        case _ =>
      }
    }

    method ApplyDelta(c: StreamChunk)
      requires c.BlockDelta?
      modifies this
      ensures Fields() == WithDelta(parse, old(Fields()), c)
    {
      if currentTool == None || !c.deltaType.InputJSONDelta? {
        return;
      }
      inputJSON := inputJSON + c.partialJSON;
      var input := StreamingInput(parse, inputJSON);
      if input.Some? {
        currentTool := Some(currentTool.value.(input := input.value));
      }
    }

    method FinishCurrentTool()
      modifies this
      ensures Fields() == FinishedTool(w, parse, old(Fields()))
    {
      if currentTool == None {
        return;
      }
      var index := toolIndex;
      toolIndex := toolIndex + 1;
      var use := currentTool.value;
      currentTool := None;
      if |inputJSON| > 0 {
        var input := StreamingInput(parse, inputJSON);
        if input.Some? {
          use := use.(input := input.value);
        }
      }
      inputJSON := "";
      if !CanStream(w, use) {
        return;
      }
      submitted := submitted[index := use];
      submissions := submissions + [X.Chunk(use, index)];
    }

    method Observe(c: StreamChunk)
      modifies this
      ensures Fields() == Observed(w, parse, old(Fields()), c)
    {
      match c {
        case BlockStart(block) => StartBlock(block);
        case BlockDelta(_, _, _) => ApplyDelta(c);
        case BlockStop => FinishCurrentTool();
        case MessageStop => FinishCurrentTool();
        case _ =>
      }
    }

    /** A whole stream, chunk by chunk. */
    method ObserveAll(cs: seq<StreamChunk>)
      requires Fields() == Initial
      modifies this
      ensures Fields() == Watched(w, parse, cs)
    {
      var i := 0;
      while i < |cs|
        invariant 0 <= i <= |cs|
        invariant Fields() == Watched(w, parse, cs[..i])
      {
        assert cs[..i + 1][..i] == cs[..i];
        Observe(cs[i]);
        i := i + 1;
      }
      assert cs[..|cs|] == cs;
    }
  }

  // ---------------------------------------------------------------------------------------------
  // The tool blocks of a stream, apart from both machines

  /** A tool block that a stream opened: what it started with, how many tool blocks were started before
      it, its text so far, whether a fragment left the text blank, and what the text last decoded to. */
  datatype ToolBlock = ToolBlock(use: ToolUse, position: nat, raw: string, blankSeen: bool, decoded: Option<Input>) {
    /** The tool use as the coordinator sees it: blank text is the empty input. */
    function Coordinated(): ToolUse {
      if decoded.Some? then use.(input := decoded.value) else if blankSeen then use.(input := map[]) else use
    }

    /** The tool use as it enters the response: blank text is no input. */
    function Extracted(): ToolUse {
      if decoded.Some? then use.(input := decoded.value) else use
    }

    /** The two differ: the block started with an input, a fragment left its text blank, and no later
        text decoded. */
    predicate Erases() {
      use.input != map[] && blankSeen && decoded == None
    }

    function Extended(parse: Parser, fragment: string): (b: ToolBlock)
      ensures b.use == use && b.position == position && b.raw == raw + fragment
    {
      var text := raw + fragment;
      if Blank(text) then this.(raw := text, blankSeen := true)
      else if parse(text).Some? then this.(raw := text, decoded := parse(text))
      else this.(raw := text)
    }
  }

  /** The tool uses that the blocks of a stream start with, in order. */
  function StartedTools(cs: seq<StreamChunk>): seq<ToolUse> {
    if cs == [] then []
    else
      var c := cs[|cs| - 1];
      StartedTools(cs[..|cs| - 1]) + if c.BlockStart? && ToolOf(c.block).Some? then [ToolOf(c.block).value] else []
  }

  function Opened(cs: seq<StreamChunk>, block: Option<Block>): Option<ToolBlock> {
    match ToolOf(block)
    case Some(use) => Some(ToolBlock(use, |StartedTools(cs)|, "", false, None))
    case None => None
  }

  /** The tool block that is open after the stream; another block start throws it away. */
  function OpenAfter(parse: Parser, cs: seq<StreamChunk>): Option<ToolBlock> {
    if cs == [] then None
    else
      var before, open := cs[..|cs| - 1], OpenAfter(parse, cs[..|cs| - 1]);
      match cs[|cs| - 1]
      case BlockStart(block) => Opened(before, block)
      case BlockDelta(deltaType, _, fragment) =>
        if open.Some? && deltaType.InputJSONDelta? then Some(open.value.Extended(parse, fragment)) else open
      case BlockStop => None
      case MessageStop => None
      case _ => open
  }

  /** The tool blocks that were closed, in order. */
  function Closed(parse: Parser, cs: seq<StreamChunk>): seq<ToolBlock> {
    if cs == [] then []
    else
      var before := cs[..|cs| - 1];
      var open := OpenAfter(parse, before);
      Closed(parse, before) +
      if cs[|cs| - 1] in {BlockStop, MessageStop} && open.Some? then [open.value] else []
  }

  function CoordinatedUses(bs: seq<ToolBlock>): (uses: seq<ToolUse>)
    ensures |uses| == |bs| && forall i :: 0 <= i < |bs| ==> uses[i] == bs[i].Coordinated()
  {
    seq(|bs|, i requires 0 <= i < |bs| => bs[i].Coordinated())
  }

  function ExtractedUses(bs: seq<ToolBlock>): (uses: seq<ToolUse>)
    ensures |uses| == |bs| && forall i :: 0 <= i < |bs| ==> uses[i] == bs[i].Extracted()
  {
    seq(|bs|, i requires 0 <= i < |bs| => bs[i].Extracted())
  }

  /** The text of an open block explains its input. */
  predicate Read(parse: Parser, b: ToolBlock) {
    if Blank(b.raw) then b.decoded == None && (b.raw != "" ==> b.blankSeen)
    else parse(b.raw).Some? ==> b.decoded == parse(b.raw)
  }

  // ---------------------------------------------------------------------------------------------
  // Both machines against the blocks, over every stream of chunks

  /** The tool uses that may be streamed, under their ordinals. */
  function Streamable(w: World, uses: seq<ToolUse>): seq<X.Chunk> {
    if uses == [] then []
    else
      var n := |uses| - 1;
      Streamable(w, uses[..n]) + if CanStream(w, uses[n]) then [X.Chunk(uses[n], n)] else []
  }

  function ToolOf(block: Option<Block>): Option<ToolUse> {
    match block
    case Some(ToolUseBlock(use)) => Some(use)
    case _ => None
  }

  ghost predicate SubmittedAre(submitted: map<nat, ToolUse>, submissions: seq<X.Chunk>) {
    && (forall i :: i in submitted ==> X.Chunk(submitted[i], i) in submissions)
    && (forall k :: 0 <= k < |submissions| ==> (
      submissions[k].index in submitted && submitted[submissions[k].index] == submissions[k].use))
  }

  /** The coordinator's fields, in terms of the open block and the closed ones. */
  ghost predicate Coordinates(w: World, s: State, open: Option<ToolBlock>, closed: seq<ToolBlock>) {
    && s.currentTool == (if open.Some? then Some(open.value.Coordinated()) else None)
    && (open.Some? ==> s.inputJSON == open.value.raw)
    && s.toolIndex == |closed|
    && s.submissions == Streamable(w, CoordinatedUses(closed))
    && (forall k :: 0 <= k < |s.submissions| ==> s.submissions[k].index < |closed|)
    && SubmittedAre(s.submitted, s.submissions)
  }

  /** And the accumulator's. */
  ghost predicate Accumulates(a: Accumulator, open: Option<ToolBlock>, closed: seq<ToolBlock>) {
    && ToolOf(a.currentBlock) == (if open.Some? then Some(open.value.Extracted()) else None)
    && (open.Some? ==> a.toolUseInput == open.value.raw)
    && ToolUses(a.content) == ExtractedUses(closed)
  }

  lemma BlankPrefix(a: string, b: string)
    requires Blank(a + b)
    ensures Blank(a)
  {
    forall i | 0 <= i < |a| ensures IsSpace(a[i]) {
      assert (a + b)[i] == a[i];
    }
  }

  lemma SubmitOne(submitted: map<nat, ToolUse>, submissions: seq<X.Chunk>, index: nat, use: ToolUse)
    requires SubmittedAre(submitted, submissions) && forall k :: 0 <= k < |submissions| ==> submissions[k].index < index
    ensures SubmittedAre(submitted[index := use], submissions + [X.Chunk(use, index)])
  {
    var all := submissions + [X.Chunk(use, index)];
    assert all[|submissions|] == X.Chunk(use, index);
    var after := submitted[index := use];
    forall i | i in after ensures X.Chunk(after[i], i) in all {
      if i != index {
        assert X.Chunk(submitted[i], i) in submissions;
      } else {
        assert all[|submissions|] in all;
      }
    }
  }

  lemma OneBlock(b: Block)
    ensures ToolUses([b]) == if b.ToolUseBlock? then [b.use] else []
  {
    assert [b][1..] == [] && ToolUses([]) == [];
  }

  lemma FinishedContent(parse: Parser, a: Accumulator)
    requires a.currentBlock.Some?
    ensures var b := Finished(parse, a);
      ToolUses(a.content + [b]) == ToolUses(a.content) + if b.ToolUseBlock? then [b.use] else []
  {
    ToolUsesAppend(a.content, [Finished(parse, a)]);
    OneBlock(Finished(parse, a));
  }

  lemma ExtendedIsRead(parse: Parser, b: ToolBlock, fragment: string)
    requires Read(parse, b)
    ensures Read(parse, b.Extended(parse, fragment))
  {
    if Blank(b.raw + fragment) {
      BlankPrefix(b.raw, fragment);
    }
  }

  lemma {:induction false} OpenIsRead(parse: Parser, cs: seq<StreamChunk>)
    ensures var open := OpenAfter(parse, cs); open.Some? ==> Read(parse, open.value)
  {
    if cs != [] {
      var n := |cs| - 1;
      OpenIsRead(parse, cs[..n]);
      var open := OpenAfter(parse, cs[..n]);
      if cs[n].BlockDelta? && open.Some? {
        ExtendedIsRead(parse, open.value, cs[n].partialJSON);
      }
    }
  }

  lemma CloseCoordinates(w: World, parse: Parser, s: State, open: Option<ToolBlock>, closed: seq<ToolBlock>)
    requires Coordinates(w, s, open, closed) && (open.Some? ==> Read(parse, open.value))
    ensures Coordinates(w, FinishedTool(w, parse, s), None, closed + if open.Some? then [open.value] else [])
  {
    if open.Some? {
      var b, uses := open.value, CoordinatedUses(closed + [open.value]);
      assert uses[..|closed|] == CoordinatedUses(closed);
      SubmitOne(s.submitted, s.submissions, s.toolIndex, b.Coordinated());
    } else {
      assert closed + [] == closed;
    }
  }

  lemma CloseAccumulates(parse: Parser, a: Accumulator, open: Option<ToolBlock>, closed: seq<ToolBlock>)
    requires Accumulates(a, open, closed) && (open.Some? ==> Read(parse, open.value))
    ensures Accumulates(Finalize(parse, a), None, closed + if open.Some? then [open.value] else [])
  {
    if open.Some? {
      assert ExtractedUses(closed + [open.value]) == ExtractedUses(closed) + [open.value.Extracted()];
    } else {
      assert closed + [] == closed;
    }
    if a.currentBlock.Some? {
      FinishedContent(parse, a);
    }
  }

  lemma {:induction false} StreamCoordinates(w: World, parse: Parser, cs: seq<StreamChunk>)
    ensures Coordinates(w, Watched(w, parse, cs), OpenAfter(parse, cs), Closed(parse, cs))
  {
    hide Streamable, SubmittedAre;
    if cs == [] {
      NothingWatched(w);
    } else {
      var n := |cs| - 1;
      var open, closed := OpenAfter(parse, cs[..n]), Closed(parse, cs[..n]);
      StreamCoordinates(w, parse, cs[..n]);
      OpenIsRead(parse, cs[..n]);
      assert closed + [] == closed;
      if cs[n] in {BlockStop, MessageStop} {
        CloseCoordinates(w, parse, Watched(w, parse, cs[..n]), open, closed);
      } else if cs[n].BlockDelta? && open.Some? {
        DeltaLockstep(parse, open.value, cs[n].partialJSON);
      }
    }
  }

  lemma NothingWatched(w: World)
    ensures Coordinates(w, Initial, None, [])
  {
  }

  lemma {:induction false} StreamAccumulates(parse: Parser, cs: seq<StreamChunk>)
    ensures Accumulates(Accumulated(parse, cs), OpenAfter(parse, cs), Closed(parse, cs))
  {
    if cs != [] {
      var n := |cs| - 1;
      var open, closed := OpenAfter(parse, cs[..n]), Closed(parse, cs[..n]);
      StreamAccumulates(parse, cs[..n]);
      OpenIsRead(parse, cs[..n]);
      assert closed + [] == closed;
      if cs[n] in {BlockStop, MessageStop} {
        CloseAccumulates(parse, Accumulated(parse, cs[..n]), open, closed);
      } else if cs[n].BlockDelta? && open.Some? {
        DeltaLockstep(parse, open.value, cs[n].partialJSON);
      }
    }
  }

  /** Over every stream, malformed, overlapping, unclosed or not, the coordinator and the accumulator
      hold the same blocks, each with its own reading of blank text. */
  lemma StreamsInLockstep(w: World, parse: Parser, cs: seq<StreamChunk>)
    ensures Coordinates(w, Watched(w, parse, cs), OpenAfter(parse, cs), Closed(parse, cs))
    ensures Accumulates(Accumulated(parse, cs), OpenAfter(parse, cs), Closed(parse, cs))
  {
    StreamCoordinates(w, parse, cs);
    StreamAccumulates(parse, cs);
  }

  /** What one more fragment makes of the tool use in both machines. */
  lemma DeltaLockstep(parse: Parser, b: ToolBlock, fragment: string)
    requires Read(parse, b)
    ensures var text, next := b.raw + fragment, b.Extended(parse, fragment);
      && next.raw == text
      && next.Coordinated() == WithInput(b.Coordinated(), StreamingInput(parse, text))
      && next.Extracted() == WithInput(b.Extracted(), ResponseInput(parse, text))
  {
    if Blank(b.raw + fragment) {
      BlankPrefix(b.raw, fragment);
    }
  }

  // ---------------------------------------------------------------------------------------------
  // Exactly when the coordinator submits what the accumulator extracts

  lemma {:induction false} StreamableAt(w: World, uses: seq<ToolUse>, c: X.Chunk)
    ensures c in Streamable(w, uses) <==> c.index < |uses| && uses[c.index] == c.use && CanStream(w, c.use)
  {
    if uses != [] {
      StreamableAt(w, uses[..|uses| - 1], c);
    }
  }

  /** The coordinator submits exactly the streamable tool uses among the closed blocks. */
  ghost predicate SubmitsTheResponse(w: World, parse: Parser, cs: seq<StreamChunk>) {
    Watched(w, parse, cs).submissions == Streamable(w, ToolUses(Accumulated(parse, cs).content))
  }

  /** The coordinator's reading of the block cannot be told from the response's. */
  predicate Harmless(w: World, b: ToolBlock) {
    b.Erases() ==> !CanStream(w, b.Coordinated()) && !CanStream(w, b.Extracted())
  }

  lemma {:induction false} SameStreamable(w: World, a: seq<ToolUse>, b: seq<ToolUse>)
    requires |a| == |b| && forall i :: 0 <= i < |a| ==> a[i] == b[i] || (!CanStream(w, a[i]) && !CanStream(w, b[i]))
    ensures Streamable(w, a) == Streamable(w, b)
  {
    if a != [] {
      SameStreamable(w, a[..|a| - 1], b[..|b| - 1]);
    }
  }

  lemma SameStreamableAt(w: World, a: seq<ToolUse>, b: seq<ToolUse>, i: nat)
    requires Streamable(w, a) == Streamable(w, b) && i < |a| == |b|
    ensures a[i] == b[i] || (!CanStream(w, a[i]) && !CanStream(w, b[i]))
  {
    StreamableAt(w, a, X.Chunk(a[i], i));
    StreamableAt(w, b, X.Chunk(a[i], i));
    StreamableAt(w, a, X.Chunk(b[i], i));
    StreamableAt(w, b, X.Chunk(b[i], i));
  }

  ghost predicate AllHarmless(w: World, closed: seq<ToolBlock>) {
    forall i :: 0 <= i < |closed| ==> Harmless(w, closed[i])
  }

  lemma SameStreamableIff(w: World, closed: seq<ToolBlock>)
    ensures Streamable(w, CoordinatedUses(closed)) == Streamable(w, ExtractedUses(closed)) <==> AllHarmless(w, closed)
  {
    hide CanStream, Streamable;
    var a, b := CoordinatedUses(closed), ExtractedUses(closed);
    if AllHarmless(w, closed) {
      forall i | 0 <= i < |closed| ensures a[i] == b[i] || (!CanStream(w, a[i]) && !CanStream(w, b[i])) {
        assert Harmless(w, closed[i]);
      }
      SameStreamable(w, a, b);
    } else if Streamable(w, a) == Streamable(w, b) {
      var i :| 0 <= i < |closed| && !Harmless(w, closed[i]);
      SameStreamableAt(w, a, b, i);
    }
  }

  /** For every stream: the coordinator submits what the accumulator extracts exactly when no closed block
      that may be streamed had its input erased by blank text. */
  lemma SubmitsTheResponseIff(w: World, parse: Parser, cs: seq<StreamChunk>)
    ensures SubmitsTheResponse(w, parse, cs) <==> AllHarmless(w, Closed(parse, cs))
  {
    StreamsInLockstep(w, parse, cs);
    hide Closed, Watched, Accumulated, Streamable, CanStream, AllHarmless;
    SameStreamableIff(w, Closed(parse, cs));
  }

  /** Every tool block of the stream starts with an input from `starts`. */
  ghost predicate StartsFrom(cs: seq<StreamChunk>, starts: iset<Input>) {
    forall i, use :: 0 <= i < |cs| && cs[i] == BlockStart(Some(ToolUseBlock(use))) ==> use.input in starts
  }

  /** The coordinator is right about every stream whose tool blocks start with inputs from `starts`. */
  ghost predicate Faithful(starts: iset<Input>) {
    forall w, parse, cs :: StartsFrom(cs, starts) ==> SubmitsTheResponse(w, parse, cs)
  }

  lemma {:induction false} BlocksStart(parse: Parser, cs: seq<StreamChunk>, starts: iset<Input>)
    requires StartsFrom(cs, starts)
    ensures OpenAfter(parse, cs).Some? ==> OpenAfter(parse, cs).value.use.input in starts
    ensures forall i :: 0 <= i < |Closed(parse, cs)| ==> Closed(parse, cs)[i].use.input in starts
  {
    if cs != [] {
      BlocksStart(parse, cs[..|cs| - 1], starts);
    }
  }

  /** A tool block that starts with an input and receives one empty fragment: the coordinator submits
      the empty input, the response keeps the input of the start. */
  lemma EmptyFragmentErasesInput(w: World, parse: Parser, use: ToolUse)
    requires use.input != map[] && CanStream(w, use) && CanStream(w, use.(input := map[]))
    ensures var cs := [BlockStart(Some(ToolUseBlock(use))), BlockDelta(InputJSONDelta, "", ""), BlockStop];
      && Watched(w, parse, cs).submissions == [X.Chunk(use.(input := map[]), 0)]
      && ToolUses(Accumulated(parse, cs).content) == [use]
      && !SubmitsTheResponse(w, parse, cs)
  {
    var c1, c2 := BlockStart(Some(ToolUseBlock(use))), BlockDelta(InputJSONDelta, "", "");
    var cs := [c1, c2, BlockStop];
    ThreeChunks(w, parse, c1, c2, BlockStop);
    assert "" + "" == "";
    var erased := use.(input := map[]);
    assert Watched(w, parse, cs) == FinishedTool(w, parse, State(0, Some(erased), "", map[], []));
    assert Watched(w, parse, cs).submissions == [] + [X.Chunk(erased, 0)] == [X.Chunk(erased, 0)];
    assert Accumulated(parse, cs) == Finalize(parse, Accumulator([], Some(ToolUseBlock(use)), ""));
    assert Accumulated(parse, cs).content == [] + [ToolUseBlock(use)] == [ToolUseBlock(use)];
    OneBlock(ToolUseBlock(use));
    StreamableAt(w, [use], X.Chunk(erased, 0));
  }

  lemma ThreeChunks(w: World, parse: Parser, c1: StreamChunk, c2: StreamChunk, c3: StreamChunk)
    ensures Watched(w, parse, [c1, c2, c3])
      == Observed(w, parse, Observed(w, parse, Observed(w, parse, Initial, c1), c2), c3)
    ensures Accumulated(parse, [c1, c2, c3])
      == AddChunk(parse, AddChunk(parse, AddChunk(parse, EmptyAccumulator, c1), c2), c3)
  {
    assert [c1, c2, c3][..2] == [c1, c2] && [c1, c2][..1] == [c1] && [c1][..0] == [];
    assert Watched(w, parse, [c1]) == Observed(w, parse, Initial, c1);
    assert Watched(w, parse, [c1, c2]) == Observed(w, parse, Watched(w, parse, [c1]), c2);
    assert Accumulated(parse, [c1]) == AddChunk(parse, EmptyAccumulator, c1);
    assert Accumulated(parse, [c1, c2]) == AddChunk(parse, Accumulated(parse, [c1]), c2);
  }

  /** Right about all streams over given start inputs exactly when these are empty. */
  lemma FaithfulIffStartsEmpty(starts: iset<Input>)
    ensures Faithful(starts) <==> forall input :: input in starts ==> input == map[]
  {
    if forall input :: input in starts ==> input == map[] {
      forall w, parse, cs | StartsFrom(cs, starts) ensures SubmitsTheResponse(w, parse, cs) {
        BlocksStart(parse, cs, starts);
        SubmitsTheResponseIff(w, parse, cs);
      }
    }
    if Faithful(starts) {
      forall input | input in starts ensures input == map[] {
        if input != map[] {
          var w := AnyReadOnlyTool();
          var use := ToolUse("id", "tool", input);
          var parse: Parser := _ => None;
          var cs := [BlockStart(Some(ToolUseBlock(use))), BlockDelta(InputJSONDelta, "", ""), BlockStop];
          assert StartsFrom(cs, starts);
          assert SubmitsTheResponse(w, parse, cs);
          EmptyFragmentErasesInput(w, parse, use);
          assert false;
        }
      }
    }
  }

  /** A world with one read-only, concurrency-safe tool. */
  function AnyReadOnlyTool(): World {
    World(
      map["tool" := Tool(true, (i: Input) => Some(i), (i: Input) => true, (i: Input) => true)],
      (use: ToolUse, s: Setting) => Effect(Returned(ErrorResult, [], None), s.external),
      (m: ContextModifier, ctx: ToolContext) => ctx)
  }

  // ---------------------------------------------------------------------------------------------
  // What a submission is worth to a response

  /** For every stream: block i was submitted, under its ordinal, exactly when it was closed and may be
      streamed, and nothing else was submitted. */
  lemma SubmittedIsClosed(w: World, parse: Parser, cs: seq<StreamChunk>, i: nat)
    ensures var s, closed := Watched(w, parse, cs), Closed(parse, cs);
      && (i in s.submitted <==> i < |closed| && CanStream(w, closed[i].Coordinated()))
      && (i in s.submitted ==> s.submitted[i] == closed[i].Coordinated())
      && (i in s.submitted <==> i < |closed| && X.Chunk(closed[i].Coordinated(), i) in s.submissions)
  {
    var s, closed := Watched(w, parse, cs), Closed(parse, cs);
    StreamCoordinates(w, parse, cs);
    hide Watched, Closed, CanStream;
    if i in s.submitted {
      StreamableAt(w, CoordinatedUses(closed), X.Chunk(s.submitted[i], i));
    }
    if i < |closed| {
      StreamableAt(w, CoordinatedUses(closed), X.Chunk(closed[i].Coordinated(), i));
    }
  }

  /** For every stream: of the closed blocks exactly those are started early that have a name and an ID, name
      a registered tool, and carry an input for which the tool says that it may share a batch and that it
      only reads. */
  lemma OnlyReadersRunAhead(w: World, parse: Parser, cs: seq<StreamChunk>, i: nat)
    requires i < |Closed(parse, cs)|
    ensures var use := Closed(parse, cs)[i].Coordinated();
      X.Chunk(use, i) in Watched(w, parse, cs).submissions <==>
        && use.name != "" && use.id != "" && use.name in w.tools
        && w.tools[use.name].safe(use.input) && w.tools[use.name].readOnly(use.input)
    ensures forall c :: c in Watched(w, parse, cs).submissions ==> c.index < |Closed(parse, cs)|
  {
    StreamCoordinates(w, parse, cs);
    hide Watched, Closed;
    var closed := Closed(parse, cs);
    StreamableAt(w, CoordinatedUses(closed), X.Chunk(closed[i].Coordinated(), i));
  }

  lemma BuildExtends(parse: Parser, a: Accumulator)
    ensures ToolUses(a.content) <= ToolUses(Build(parse, a))
  {
    if a.currentBlock.Some? {
      FinishedContent(parse, a);
    } else {
      assert Build(parse, a) == a.content;
    }
  }

  /** Every submitted tool use has the id of the response's tool use at its ordinal. */
  ghost predicate Matches(w: World, parse: Parser, cs: seq<StreamChunk>, uses: seq<ToolUse>) {
    var submitted := Watched(w, parse, cs).submitted;
    forall i :: i in submitted ==> i < |uses| && submitted[i].id == uses[i].id
  }

  /** A response that the accumulator built is matched by every stream: only inputs may differ, and they
      do exactly for the blocks whose input blank text erased. */
  lemma SubmittedIsExtracted(w: World, parse: Parser, cs: seq<StreamChunk>)
    ensures var uses := ToolUses(Build(parse, Accumulated(parse, cs)));
      var submitted := Watched(w, parse, cs).submitted;
      && Matches(w, parse, cs, uses)
      && forall i :: i in submitted ==>
           i < |uses| && i < |Closed(parse, cs)| && (submitted[i] == uses[i] <==> !Closed(parse, cs)[i].Erases())
  {
    var closed, uses, submitted :=
      Closed(parse, cs), ToolUses(Build(parse, Accumulated(parse, cs))), Watched(w, parse, cs).submitted;
    StreamAccumulates(parse, cs);
    BuildExtends(parse, Accumulated(parse, cs));
    hide Watched, Accumulated, Closed, CanStream;
    forall i | i in submitted
      ensures i < |closed| <= |uses| && submitted[i].id == uses[i].id
      ensures submitted[i] == uses[i] <==> !closed[i].Erases()
    {
      SubmittedIsClosed(w, parse, cs, i);
      assert uses[i] == ExtractedUses(closed)[i];
    }
  }

  // ---------------------------------------------------------------------------------------------
  // Responses that list their tool uses themselves

  /** The response has one tool use per tool block of the stream, in the order of the starts. */
  predicate Lists(uses: seq<ToolUse>, cs: seq<StreamChunk>) {
    Ids(uses) == Ids(StartedTools(cs))
  }

  ghost predicate DistinctUses(uses: seq<ToolUse>) {
    forall i, j :: 0 <= i < j < |uses| ==> uses[i].id != uses[j].id
  }

  /** No tool use that may be streamed was closed after a tool block in front of it was thrown away: the
      i-th to be closed was the i-th to be started. */
  predicate ClosedInTurn(w: World, parse: Parser, cs: seq<StreamChunk>) {
    var closed := Closed(parse, cs);
    forall i :: 0 <= i < |closed| && CanStream(w, closed[i].Coordinated()) ==> closed[i].position == i
  }

  /** The blocks of a stream know where they started. */
  ghost predicate Placed(started: seq<ToolUse>, open: Option<ToolBlock>, closed: seq<ToolBlock>) {
    && (open.Some? ==> open.value.position == |started| - 1 && started[|started| - 1].id == open.value.use.id)
    && (forall i :: 0 <= i < |closed| ==>
          i <= closed[i].position < |started| && started[closed[i].position].id == closed[i].use.id)
    && (forall i, j :: 0 <= i < j < |closed| ==> closed[i].position < closed[j].position)
    && (open.Some? ==> |closed| <= open.value.position)
    && (open.Some? ==> forall i :: 0 <= i < |closed| ==> closed[i].position < open.value.position)
    && |closed| <= |started|
  }

  lemma {:induction false} BlocksArePlaced(parse: Parser, cs: seq<StreamChunk>)
    ensures Placed(StartedTools(cs), OpenAfter(parse, cs), Closed(parse, cs))
  {
    hide ToolBlock.Extended;
    if cs != [] {
      BlocksArePlaced(parse, cs[..|cs| - 1]);
    }
  }

  /** For every stream and every response that lists its tool blocks: the submissions match the response
      exactly when the streamable ones were closed in turn. */
  lemma MatchesIffClosedInTurn(w: World, parse: Parser, cs: seq<StreamChunk>, uses: seq<ToolUse>)
    requires Lists(uses, cs) && DistinctUses(uses)
    ensures Matches(w, parse, cs, uses) <==> ClosedInTurn(w, parse, cs)
  {
    var started, closed, submitted := StartedTools(cs), Closed(parse, cs), Watched(w, parse, cs).submitted;
    BlocksArePlaced(parse, cs);
    hide Watched, Closed, StartedTools, CanStream;
    forall i: nat
      ensures i in submitted <==> i < |closed| && CanStream(w, closed[i].Coordinated())
      ensures i in submitted ==> i < |uses| && (submitted[i].id == uses[i].id <==> closed[i].position == i)
    {
      SubmittedIsClosed(w, parse, cs, i);
      if i in submitted {
        var k := closed[i].position;
        assert Ids(uses)[k] == Ids(started)[k] == submitted[i].id;
      }
    }
  }

  /** In particular when every tool block was closed. */
  lemma AllClosedInTurn(w: World, parse: Parser, cs: seq<StreamChunk>)
    requires |Closed(parse, cs)| == |StartedTools(cs)|
    ensures ClosedInTurn(w, parse, cs)
  {
    BlocksArePlaced(parse, cs);
    PositionsAreTight(StartedTools(cs), Closed(parse, cs), |Closed(parse, cs)|);
  }

  lemma {:induction false} PositionsAreTight(started: seq<ToolUse>, closed: seq<ToolBlock>, k: nat)
    requires |closed| == |started| && k <= |closed| && Placed(started, None, closed)
    ensures forall i :: |closed| - k <= i < |closed| ==> closed[i].position == i
  {
    if k > 0 {
      PositionsAreTight(started, closed, k - 1);
      var i := |closed| - k;
      assert i + 1 < |closed| ==> closed[i + 1].position == i + 1;
    }
  }

  /** No tool block is closed within the stream. */
  predicate NoStops(cs: seq<StreamChunk>) {
    forall i :: 0 <= i < |cs| ==> cs[i] !in {BlockStop, MessageStop}
  }

  lemma {:induction false} NothingClosed(parse: Parser, cs: seq<StreamChunk>)
    requires NoStops(cs)
    ensures Closed(parse, cs) == []
  {
    if cs != [] {
      NothingClosed(parse, cs[..|cs| - 1]);
    }
  }

  /** A stream that announces its tool calls and closes the message once closes them in turn exactly when
      it announces at most one, or the last one may not be streamed. */
  lemma ClosedAtOnceIff(w: World, parse: Parser, cs: seq<StreamChunk>)
    requires NoStops(cs)
    ensures ClosedInTurn(w, parse, cs + [MessageStop]) <==>
      var open := OpenAfter(parse, cs);
      |StartedTools(cs)| <= 1 || open == None || !CanStream(w, open.value.Coordinated())
  {
    var all := cs + [MessageStop];
    assert all[..|cs|] == cs;
    NothingClosed(parse, cs);
    BlocksArePlaced(parse, cs);
    var open, closed := OpenAfter(parse, cs), Closed(parse, all);
    assert closed == if open.Some? then [open.value] else [];
    hide Closed, OpenAfter, StartedTools, CanStream;
    if open.Some? {
      assert closed[0] == open.value;
    }
  }

  /** Two overlapping tool blocks, as a stream sends them that announces every tool call and closes the
      message once: the first is thrown away, the second is submitted under ordinal 0. */
  lemma OverlapShiftsOrdinal(w: World, parse: Parser, a: ToolUse, b: ToolUse)
    requires CanStream(w, b) && a.id != b.id
    ensures var cs := [BlockStart(Some(ToolUseBlock(a))), BlockStart(Some(ToolUseBlock(b))), MessageStop];
      && Watched(w, parse, cs).submissions == [X.Chunk(b, 0)] && Watched(w, parse, cs).submitted == map[0 := b]
      && Lists([a, b], cs) && !Matches(w, parse, cs, [a, b])
  {
    var c1, c2 := BlockStart(Some(ToolUseBlock(a))), BlockStart(Some(ToolUseBlock(b)));
    var cs := [c1, c2, MessageStop];
    ThreeChunks(w, parse, c1, c2, MessageStop);
    assert Watched(w, parse, cs) == FinishedTool(w, parse, State(0, Some(b), "", map[], []));
    assert Watched(w, parse, cs).submissions == [] + [X.Chunk(b, 0)] == [X.Chunk(b, 0)];
    assert cs[..2] == [c1, c2] && [c1, c2][..1] == [c1] && [c1][..0] == [];
    assert StartedTools([c1]) == [a] && StartedTools([c1, c2]) == [a, b] && StartedTools(cs) == [a, b];
    assert 0 in Watched(w, parse, cs).submitted;
  }

  // ---------------------------------------------------------------------------------------------
  // The text of a block

  /** The text that the chunks add to a text block, or to a thinking block. */
  function TextOf(cs: seq<StreamChunk>, kind: DeltaType): string {
    if cs == [] then ""
    else
      var c := cs[|cs| - 1];
      TextOf(cs[..|cs| - 1], kind) + if c.BlockDelta? && c.deltaType == kind then c.delta else ""
  }

  function AddedTo(parse: Parser, a: Accumulator, cs: seq<StreamChunk>): Accumulator {
    if cs == [] then a else AddChunk(parse, AddedTo(parse, a, cs[..|cs| - 1]), cs[|cs| - 1])
  }

  predicate OnlyDeltas(cs: seq<StreamChunk>) {
    forall i :: 0 <= i < |cs| ==> cs[i].BlockDelta?
  }

  /** The block, with more text. */
  function Lengthened(start: Block, cs: seq<StreamChunk>): Block
    requires start.Text? || start.Thinking?
  {
    if start.Text? then Text(start.text + TextOf(cs, TextDelta)) else Thinking(start.text + TextOf(cs, ThinkingDelta))
  }

  lemma LengthenedOnce(parse: Parser, a: Accumulator, start: Block, cs: seq<StreamChunk>)
    requires cs != [] && cs[|cs| - 1].BlockDelta? && (start.Text? || start.Thinking?)
    requires a.currentBlock == Some(Lengthened(start, cs[..|cs| - 1]))
    ensures AddChunk(parse, a, cs[|cs| - 1]) == a.(currentBlock := Some(Lengthened(start, cs)))
  {
    var n, kind := |cs| - 1, if start.Text? then TextDelta else ThinkingDelta;
    var before := TextOf(cs[..n], kind);
    if cs[n].deltaType == kind {
      assert start.text + before + cs[n].delta == start.text + (before + cs[n].delta);
    } else {
      assert TextOf(cs, kind) == before + "" == before;
    }
  }

  lemma {:induction false} DeltasAddText(parse: Parser, a: Accumulator, start: Block, cs: seq<StreamChunk>)
    requires OnlyDeltas(cs) && (start.Text? || start.Thinking?) && a.currentBlock == Some(start)
    ensures AddedTo(parse, a, cs) == a.(currentBlock := Some(Lengthened(start, cs)))
  {
    if cs == [] {
      assert start.text + TextOf(cs, TextDelta) == start.text && start.text + TextOf(cs, ThinkingDelta) == start.text;
    } else {
      DeltasAddText(parse, a, start, cs[..|cs| - 1]);
      hide Lengthened, AddChunk;
      LengthenedOnce(parse, AddedTo(parse, a, cs[..|cs| - 1]), start, cs);
    }
  }

  /** A closed text or thinking block enters the response with its start and the text of its own deltas, in
      order, whatever other deltas come in between. */
  lemma ClosedTextBlock(parse: Parser, a: Accumulator, start: Block, cs: seq<StreamChunk>)
    requires OnlyDeltas(cs) && (start.Text? || start.Thinking?)
    ensures AddChunk(parse, AddedTo(parse, AddChunk(parse, a, BlockStart(Some(start))), cs), BlockStop).content
      == a.content + [if start.Text? then Text(start.text + TextOf(cs, TextDelta))
                      else Thinking(start.text + TextOf(cs, ThinkingDelta))]
  {
    DeltasAddText(parse, AddChunk(parse, a, BlockStart(Some(start))), start, cs);
  }

  // ---------------------------------------------------------------------------------------------
  // The input of a well-formed block

  function Fragments(fs: seq<string>): (cs: seq<StreamChunk>)
    ensures |cs| == |fs|
  {
    seq(|fs|, i requires 0 <= i < |fs| => BlockDelta(InputJSONDelta, "", fs[i]))
  }

  lemma {:induction false} FragmentsAccumulate(w: World, parse: Parser, s: State, use: ToolUse, fs: seq<string>)
    requires s.currentTool.Some? && s.currentTool.value.(input := map[]) == use.(input := map[]) && s.inputJSON == ""
    ensures var t := WatchedFrom(w, parse, s, Fragments(fs));
      && t == s.(currentTool := t.currentTool, inputJSON := Flatten(fs))
      && t.currentTool.Some? && t.currentTool.value.(input := map[]) == use.(input := map[])
  {
    if fs != [] {
      var n := |fs| - 1;
      FragmentsAccumulate(w, parse, s, use, fs[..n]);
      assert Fragments(fs)[..n] == Fragments(fs[..n]);
      assert fs == fs[..n] + [fs[n]] && [fs[n]][1..] == [];
      FlattenAppend(fs[..n], [fs[n]]);
      assert Flatten([fs[n]]) == fs[n] + [] == fs[n];
    }
  }

  function WatchedFrom(w: World, parse: Parser, s: State, cs: seq<StreamChunk>): State {
    if cs == [] then s
    else Observed(w, parse, WatchedFrom(w, parse, s, cs[..|cs| - 1]), cs[|cs| - 1])
  }

  /** A closed block whose fragments concatenate to a JSON object is submitted, if at all, with that
      object as its input, whatever its start input and however the fragments were cut. */
  lemma ClosedBlockInput(w: World, parse: Parser, s: State, use: ToolUse, fs: seq<string>)
    requires !Blank(Flatten(fs)) && parse(Flatten(fs)).Some?
    ensures var final := use.(input := parse(Flatten(fs)).value);
      var t := WatchedFrom(w, parse, s, [BlockStart(Some(ToolUseBlock(use)))] + Fragments(fs) + [BlockStop]);
      && t.toolIndex == s.toolIndex + 1
      && t.submissions == s.submissions + (if CanStream(w, final) then [X.Chunk(final, s.toolIndex)] else [])
  {
    var start := BlockStart(Some(ToolUseBlock(use)));
    var cs := [start] + Fragments(fs);
    assert (cs + [BlockStop])[..|cs|] == cs;
    WatchedAppend(w, parse, s, [start], Fragments(fs));
    assert [start][..0] == [];
    var s1 := Started(s, Some(ToolUseBlock(use)));
    assert WatchedFrom(w, parse, s, [start]) == s1;
    FragmentsAccumulate(w, parse, s1, use, fs);
  }

  lemma {:induction false} WatchedAppend(w: World, parse: Parser, s: State, a: seq<StreamChunk>, b: seq<StreamChunk>)
    ensures WatchedFrom(w, parse, s, a + b) == WatchedFrom(w, parse, WatchedFrom(w, parse, s, a), b)
  {
    if b == [] {
      assert a + b == a;
    } else {
      var n := |b| - 1;
      WatchedAppend(w, parse, s, a, b[..n]);
      assert (a + b)[..|a + b| - 1] == a + b[..n];
    }
  }
}
