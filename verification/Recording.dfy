/**
 * The recording half of the model fixtures: concurrent provider invocations append
 * interleaved lines to one log, and a parser takes the log apart again.
 *
 * `Step` is the recorder as a transition function; the classes below it are the mutable
 * recorder of the source, each method proved to perform exactly one `Step`. `Expected` is
 * read off the callback events alone, without any log, counter or run-id map.
 */
module Recording {
  import opened Common
  import opened Messages

  type RunId = string

  // ----- The log -----

  datatype Line =
    | Meta(name: string)
    | Invocation(index: nat, userText: string)
    | ChunkLine(invocation: nat, chunk: RecordedChunk)
    | EndLine(invocation: nat, text: string)
    | ErrorLine(failed: Option<nat>, message: string)

  datatype FixtureInvocation = FixtureInvocation(
    userText: string, chunks: seq<RecordedChunk>, finalText: string)

  /** The distinct user turns of an invocation sequence: runs of one prompt collapse. */
  function FixtureTurnTexts(invocations: seq<FixtureInvocation>): seq<string> {
    if invocations == [] then []
    else
      var before := FixtureTurnTexts(invocations[..|invocations| - 1]);
      var text := invocations[|invocations| - 1].userText;
      if before != [] && before[|before| - 1] == text then before else before + [text]
  }

  /** Collapsing keeps the first and last prompt, drops no prompt, invents none, and never
      leaves two equal neighbours. */
  lemma {:induction false} TurnTextsCollapse(invocations: seq<FixtureInvocation>)
    ensures var turns := FixtureTurnTexts(invocations);
      && (turns == [] <==> invocations == [])
      && (invocations != [] ==>
            turns[0] == invocations[0].userText
            && turns[|turns| - 1] == invocations[|invocations| - 1].userText)
      && (forall i :: 0 < i < |turns| ==> turns[i - 1] != turns[i])
      && (forall i :: 0 <= i < |invocations| ==> invocations[i].userText in turns)
      && (forall t :: t in turns ==> exists i :: 0 <= i < |invocations| && invocations[i].userText == t)
  {
    if invocations != [] {
      var n := |invocations| - 1;
      TurnTextsCollapse(invocations[..n]);
      var before := FixtureTurnTexts(invocations[..n]);
      var turns := FixtureTurnTexts(invocations);
      forall t | t in turns
        ensures exists i :: 0 <= i < |invocations| && invocations[i].userText == t
      {
        if t in before {
          var i :| 0 <= i < n && invocations[..n][i].userText == t;
          assert invocations[i].userText == t;
        } else {
          assert invocations[n].userText == t;
        }
      }
      forall i | 0 <= i < |invocations|
        ensures invocations[i].userText in turns
      {
        if i < n {
          assert invocations[..n][i].userText in before;
        } else {
          assert turns[|turns| - 1] == invocations[n].userText;
        }
      }
    }
  }

  // ----- Parsing a log -----

  datatype ScanState =
    | Scanning(found: seq<Option<FixtureInvocation>>)
    | Threw(message: string)

  /** Assignment to `array[i]`: the array grows over holes when `i` is past its end. */
  function Place(found: seq<Option<FixtureInvocation>>, i: nat, v: FixtureInvocation)
    : (r: seq<Option<FixtureInvocation>>)
  {
    if i < |found| then found[i := Some(v)]
    else found + seq(i - |found|, _ => None) + [Some(v)]
  }

  function ScanLine(st: ScanState, line: Line): ScanState {
    if st.Threw? then st
    else
      var found := st.found;
      match line
      case Meta(_) => st
      case Invocation(i, userText) => Scanning(Place(found, i, FixtureInvocation(userText, [], "")))
      case ChunkLine(i, chunk) =>
        if i < |found| && found[i].Some? then
          var inv := found[i].value;
          Scanning(found[i := Some(inv.(chunks := inv.chunks + [chunk]))])
        else st
      case EndLine(i, text) =>
        if i < |found| && found[i].Some? then
          Scanning(found[i := Some(found[i].value.(finalText := text))])
        else st
      case ErrorLine(_, message) => Threw(message)
  }

  function ScanLines(lines: seq<Line>): ScanState {
    if lines == [] then Scanning([])
    else ScanLine(ScanLines(lines[..|lines| - 1]), lines[|lines| - 1])
  }

  datatype ParseOutcome =
    | Parsed(name: string, invocations: seq<FixtureInvocation>, turns: seq<string>)
    | ProviderError(message: string)
    | MissingInvocation(index: nat)

  /** The first hole from `i` on, or the length. */
  function FirstHole(found: seq<Option<FixtureInvocation>>, i: nat): (r: nat)
    requires i <= |found|
    ensures i <= r <= |found|
    ensures forall k :: i <= k < r ==> found[k].Some?
    ensures r < |found| ==> found[r].None?
    decreases |found| - i
  {
    if i == |found| || found[i].None? then i else FirstHole(found, i + 1)
  }

  function Finish(name: string, st: ScanState): ParseOutcome {
    match st
    case Threw(message) => ProviderError(message)
    case Scanning(found) =>
      var hole := FirstHole(found, 0);
      if hole < |found| then MissingInvocation(hole)
      else
        var invocations := seq(|found|, i requires 0 <= i < |found| => found[i].value);
        Parsed(name, invocations, FixtureTurnTexts(invocations))
  }

  /** The file name is the fixture's identity whatever a `meta` line says. */
  function ParseLog(name: string, lines: seq<Line>): ParseOutcome {
    Finish(name, ScanLines(lines))
  }

  method ParseFixtureFile(name: string, lines: seq<Line>) returns (r: ParseOutcome)
    ensures r == ParseLog(name, lines)
  {
    var found: seq<Option<FixtureInvocation>> := [];
    for i := 0 to |lines|
      invariant ScanLines(lines[..i]) == Scanning(found)
    {
      assert lines[..i + 1][..i] == lines[..i];
      match lines[i]
      case Meta(_) =>
      case Invocation(index, userText) =>
        found := Place(found, index, FixtureInvocation(userText, [], ""));
      case ChunkLine(index, chunk) =>
        if index < |found| && found[index].Some? {
          var inv := found[index].value;
          found := found[index := Some(inv.(chunks := inv.chunks + [chunk]))];
        }
      case EndLine(index, text) =>
        if index < |found| && found[index].Some? {
          found := found[index := Some(found[index].value.(finalText := text))];
        }
      case ErrorLine(_, message) =>
        ThrewStays(lines, i + 1);
        return ProviderError(message);
    }
    assert lines[..|lines|] == lines;
    var missing := 0;
    while missing < |found| && found[missing].Some?
      invariant missing <= |found|
      invariant forall k :: 0 <= k < missing ==> found[k].Some?
    {
      missing := missing + 1;
    }
    if missing < |found| {
      return MissingInvocation(missing);
    }
    var invocations := seq(|found|, i requires 0 <= i < |found| => found[i].value);
    return Parsed(name, invocations, FixtureTurnTexts(invocations));
  }

  /** Once the parser has thrown, later lines do not matter. */
  lemma {:induction false} ThrewStays(lines: seq<Line>, i: nat)
    requires i <= |lines| && ScanLines(lines[..i]).Threw?
    ensures ScanLines(lines) == ScanLines(lines[..i])
  {
    if i == |lines| {
      assert lines[..i] == lines;
    } else {
      var front := lines[..|lines| - 1];
      assert front[..i] == lines[..i];
      ThrewStays(front, i);
    }
  }

  // ----- The recorder as a transition function -----

  datatype Output = Output(text: Option<string>, content: Json)

  function OutputText(output: Output): string {
    output.text.GetOr(ExtractText(output.content))
  }

  /** What reaches the recorder: an installation on a graph, or a callback of a handler that
      carries the generation it was created in. */
  datatype Event =
    | Install(name: string, conversation: Option<string>, messages: seq<Msg>)
    | Start(stamp: nat, run: RunId, prompt: seq<Msg>)
    | Token(stamp: nat, run: RunId, chunk: Option<Chunk>, token: Option<string>)
    | End(stamp: nat, run: RunId, output: Output)
    | Fail(stamp: nat, run: RunId, message: string)

  datatype Recorder = Recorder(
    initialized: bool,
    log: seq<Line>,
    counter: nat,
    conversation: Option<string>,
    generation: nat,
    runs: map<RunId, nat>)

  const INITIAL := Recorder(false, [], 0, None, 0, map[])

  function Initialized(st: Recorder, name: string): Recorder {
    Recorder(true, [Meta(name)], 0, None, st.generation + 1, map[])
  }

  predicate StartsNewRecording(st: Recorder, conversation: Option<string>, messages: seq<Msg>) {
    if st.counter == 0 then false
    else if conversation.Some? && st.conversation.Some? then st.conversation != conversation
    else IsConversationStart(messages)
  }

  predicate Resets(st: Recorder, e: Event) {
    e.Install? && (!st.initialized || StartsNewRecording(st, e.conversation, e.messages))
  }

  function Step(st: Recorder, e: Event): Recorder {
    match e
    case Install(name, conversation, messages) =>
      var st1 := if Resets(st, e) then Initialized(st, name) else st;
      if conversation.Some? then st1.(conversation := conversation) else st1
    case Start(stamp, run, prompt) =>
      if stamp != st.generation then st
      else st.(counter := st.counter + 1,
               runs := st.runs[run := st.counter],
               log := st.log + [Invocation(st.counter, LatestHumanText(prompt))])
    case Token(stamp, run, chunk, token) =>
      if stamp != st.generation || run !in st.runs then st
      else st.(log := st.log + [ChunkLine(st.runs[run], SerializeChunk(chunk, token))])
    case End(stamp, run, output) =>
      if stamp != st.generation || run !in st.runs then st
      else st.(log := st.log + [EndLine(st.runs[run], OutputText(output))], runs := st.runs - {run})
    case Fail(stamp, run, message) =>
      var st1 := st.(runs := st.runs - {run});
      if stamp != st.generation then st1
      else st1.(log := st.log + [ErrorLine(if run in st.runs then Some(st.runs[run]) else None, message)])
  }

  function Run(evs: seq<Event>): Recorder {
    if evs == [] then INITIAL else Step(Run(evs[..|evs| - 1]), evs[|evs| - 1])
  }

  /** Where the current recording began: just after the last installation that reset it. */
  function EpochStart(evs: seq<Event>): (r: nat)
    ensures r <= |evs|
  {
    if evs == [] then 0
    else if Resets(Run(evs[..|evs| - 1]), evs[|evs| - 1]) then |evs|
    else EpochStart(evs[..|evs| - 1])
  }

  // ----- What a recording should contain, from the events alone -----

  predicate Opens(e: Event, g: nat) {
    e.Start? && e.stamp == g
  }

  /** Positions at which generation `g` started an invocation, in order. */
  function Opened(evs: seq<Event>, g: nat): (r: seq<nat>)
    ensures forall k :: 0 <= k < |r| ==> r[k] < |evs| && Opens(evs[r[k]], g)
  {
    if evs == [] then []
    else
      var n := |evs| - 1;
      Opened(evs[..n], g) + (if Opens(evs[n], g) then [n] else [])
  }

  /** An invocation of `run` stops listening here. A failure callback drops the run's mapping
      whatever generation its handler belongs to. */
  predicate Closes(e: Event, g: nat, run: RunId) {
    || (e.Start? && e.stamp == g && e.run == run)
    || (e.End? && e.stamp == g && e.run == run)
    || (e.Fail? && e.run == run)
  }

  predicate StillOpen(evs: seq<Event>, i: nat, g: nat, run: RunId)
  {
    forall k :: i <= k < |evs| ==> !Closes(evs[k], g, run)
  }

  predicate Streams(e: Event, g: nat, run: RunId) {
    e.Token? && e.stamp == g && e.run == run
  }

  /** The chunks streamed to `run` from position `i` until it closes. */
  function ChunksFrom(evs: seq<Event>, i: nat, g: nat, run: RunId): seq<RecordedChunk>
    decreases |evs| - i
  {
    if i >= |evs| || Closes(evs[i], g, run) then []
    else (if Streams(evs[i], g, run) then [SerializeChunk(evs[i].chunk, evs[i].token)] else [])
         + ChunksFrom(evs, i + 1, g, run)
  }

  /** The text `run` ended with, or the empty text when it did not end properly. */
  function FinalTextFrom(evs: seq<Event>, i: nat, g: nat, run: RunId): string
    decreases |evs| - i
  {
    if i >= |evs| then ""
    else if Closes(evs[i], g, run) then (if evs[i].End? then OutputText(evs[i].output) else "")
    else FinalTextFrom(evs, i + 1, g, run)
  }

  function ExpectedAt(evs: seq<Event>, p: nat, g: nat): FixtureInvocation
    requires p < |evs| && evs[p].Start?
  {
    FixtureInvocation(
      LatestHumanText(evs[p].prompt),
      ChunksFrom(evs, p + 1, g, evs[p].run),
      FinalTextFrom(evs, p + 1, g, evs[p].run))
  }

  /** One invocation per start, in start order, each with its own prompt, chunks and text. */
  function Expected(evs: seq<Event>, g: nat): (r: seq<FixtureInvocation>)
    ensures |r| == |Opened(evs, g)|
  {
    var starts := Opened(evs, g);
    seq(|starts|, k requires 0 <= k < |starts| => ExpectedAt(evs, starts[k], g))
  }

  predicate HasError(evs: seq<Event>, g: nat) {
    exists i :: 0 <= i < |evs| && evs[i].Fail? && evs[i].stamp == g
  }

  // ----- One more event -----

  lemma StillOpenSnoc(evs: seq<Event>, e: Event, i: nat, g: nat, run: RunId)
    requires i <= |evs|
    ensures StillOpen(evs + [e], i, g, run) <==> StillOpen(evs, i, g, run) && !Closes(e, g, run)
  {
    if StillOpen(evs + [e], i, g, run) {
      assert (evs + [e])[|evs|] == e;
      forall k | i <= k < |evs| ensures !Closes(evs[k], g, run) {
        assert (evs + [e])[k] == evs[k];
      }
    }
  }

  lemma {:induction false} ChunksSnoc(evs: seq<Event>, e: Event, i: nat, g: nat, run: RunId)
    requires i <= |evs|
    ensures ChunksFrom(evs + [e], i, g, run)
         == ChunksFrom(evs, i, g, run)
            + (if StillOpen(evs, i, g, run) && Streams(e, g, run)
               then [SerializeChunk(e.chunk, e.token)] else [])
    decreases |evs| - i
  {
    var all := evs + [e];
    if i == |evs| {
      assert all[i] == e;
      assert ChunksFrom(all, i + 1, g, run) == [];
    } else {
      assert all[i] == evs[i];
      if !Closes(evs[i], g, run) {
        ChunksSnoc(evs, e, i + 1, g, run);
        assert StillOpen(evs, i, g, run) <==> StillOpen(evs, i + 1, g, run);
      }
    }
  }

  lemma {:induction false} FinalTextSnoc(evs: seq<Event>, e: Event, i: nat, g: nat, run: RunId)
    requires i <= |evs|
    ensures FinalTextFrom(evs + [e], i, g, run)
         == if StillOpen(evs, i, g, run) && Closes(e, g, run) && e.End? then OutputText(e.output)
            else FinalTextFrom(evs, i, g, run)
    ensures StillOpen(evs, i, g, run) ==> FinalTextFrom(evs, i, g, run) == ""
    decreases |evs| - i
  {
    var all := evs + [e];
    if i == |evs| {
      assert all[i] == e;
      assert FinalTextFrom(all, i + 1, g, run) == "";
    } else {
      assert all[i] == evs[i];
      if !Closes(evs[i], g, run) {
        FinalTextSnoc(evs, e, i + 1, g, run);
        assert StillOpen(evs, i, g, run) <==> StillOpen(evs, i + 1, g, run);
      }
    }
  }

  lemma OpenedSnoc(evs: seq<Event>, e: Event, g: nat)
    ensures Opened(evs + [e], g) == Opened(evs, g) + (if Opens(e, g) then [|evs|] else [])
  {
    assert (evs + [e])[..|evs|] == evs;
  }

  lemma ScanSnoc(log: seq<Line>, line: Line)
    ensures ScanLines(log + [line]) == ScanLine(ScanLines(log), line)
  {
    assert (log + [line])[..|log|] == log;
  }

  // ----- The recorder follows the events -----

  /** `run` is mapped to an invocation of its own that is still open. */
  predicate MappedRight(st: Recorder, evs: seq<Event>, g: nat, run: RunId)
    requires run in st.runs
  {
    var starts, k := Opened(evs, g), st.runs[run];
    k < |starts| && evs[starts[k]].run == run && StillOpen(evs, starts[k] + 1, g, run)
  }

  /** If the `k`-th invocation is still open, its run is mapped to it. */
  predicate OpenIsMapped(st: Recorder, evs: seq<Event>, g: nat, k: nat)
    requires k < |Opened(evs, g)|
  {
    var p := Opened(evs, g)[k];
    StillOpen(evs, p + 1, g, evs[p].run) ==> evs[p].run in st.runs && st.runs[evs[p].run] == k
  }

  /** The run-id map holds exactly the invocations that are still open. */
  predicate RunsTrack(st: Recorder, evs: seq<Event>, g: nat) {
    && (forall r :: r in st.runs ==> MappedRight(st, evs, g, r))
    && (forall k :: 0 <= k < |Opened(evs, g)| ==> OpenIsMapped(st, evs, g, k))
  }

  function AllFound(s: seq<FixtureInvocation>): seq<Option<FixtureInvocation>> {
    seq(|s|, i requires 0 <= i < |s| => Some(s[i]))
  }

  /** The log parses to the expected invocations, unless it holds a provider error. */
  predicate LogTracks(st: Recorder, evs: seq<Event>, g: nat) {
    if HasError(evs, g) then ScanLines(st.log).Threw?
    else ScanLines(st.log) == Scanning(AllFound(Expected(evs, g)))
  }

  predicate Tracks(st: Recorder, evs: seq<Event>, g: nat) {
    && st.initialized
    && st.generation == g
    && st.counter == |Opened(evs, g)|
    && RunsTrack(st, evs, g)
    && LogTracks(st, evs, g)
  }

  lemma HasErrorSnoc(evs: seq<Event>, e: Event, g: nat)
    ensures HasError(evs + [e], g) <==> HasError(evs, g) || (e.Fail? && e.stamp == g)
  {
    var all := evs + [e];
    assert all[|evs|] == e;
    if HasError(evs, g) {
      var i :| 0 <= i < |evs| && evs[i].Fail? && evs[i].stamp == g;
      assert all[i] == evs[i];
    }
  }

  lemma MappedRightStep(st: Recorder, evs: seq<Event>, g: nat, e: Event, run: RunId)
    requires st.generation == g && st.counter == |Opened(evs, g)|
    requires RunsTrack(st, evs, g) && !Resets(st, e) && run in Step(st, e).runs
    ensures MappedRight(Step(st, e), evs + [e], g, run)
  {
    OpenedSnoc(evs, e, g);
    var all := evs + [e];
    assert all[|evs|] == e;
    if !(Opens(e, g) && e.run == run) {
      assert run in st.runs && Step(st, e).runs[run] == st.runs[run] && !Closes(e, g, run);
      assert MappedRight(st, evs, g, run);
      var p := Opened(evs, g)[st.runs[run]];
      assert all[p] == evs[p];
      StillOpenSnoc(evs, e, p + 1, g, run);
    }
  }

  lemma OpenIsMappedStep(st: Recorder, evs: seq<Event>, g: nat, e: Event, k: nat)
    requires st.generation == g && st.counter == |Opened(evs, g)|
    requires RunsTrack(st, evs, g) && !Resets(st, e) && k < |Opened(evs + [e], g)|
    ensures OpenIsMapped(Step(st, e), evs + [e], g, k)
  {
    OpenedSnoc(evs, e, g);
    var all := evs + [e];
    assert all[|evs|] == e;
    if k < |Opened(evs, g)| {
      assert OpenIsMapped(st, evs, g, k);
      var p := Opened(evs, g)[k];
      assert all[p] == evs[p];
      StillOpenSnoc(evs, e, p + 1, g, evs[p].run);
    }
  }

  lemma RunsTrackStep(st: Recorder, evs: seq<Event>, g: nat, e: Event)
    requires st.generation == g && st.counter == |Opened(evs, g)|
    requires RunsTrack(st, evs, g) && !Resets(st, e)
    ensures Step(st, e).counter == |Opened(evs + [e], g)|
    ensures RunsTrack(Step(st, e), evs + [e], g)
  {
    OpenedSnoc(evs, e, g);
    forall r | r in Step(st, e).runs ensures MappedRight(Step(st, e), evs + [e], g, r) {
      MappedRightStep(st, evs, g, e, r);
    }
    forall k | 0 <= k < |Opened(evs + [e], g)| ensures OpenIsMapped(Step(st, e), evs + [e], g, k) {
      OpenIsMappedStep(st, evs, g, e, k);
    }
  }

  /** How one more event changes what is expected of an invocation already started. */
  lemma ExpectedSnoc(evs: seq<Event>, e: Event, p: nat, g: nat)
    requires p < |evs| && evs[p].Start?
    ensures var before, run, now := ExpectedAt(evs, p, g), evs[p].run, StillOpen(evs, p + 1, g, evs[p].run);
      && (evs + [e])[p] == evs[p]
      && ExpectedAt(evs + [e], p, g) ==
           if now && Streams(e, g, run) then before.(chunks := before.chunks + [SerializeChunk(e.chunk, e.token)])
           else if now && Closes(e, g, run) && e.End? then before.(finalText := OutputText(e.output))
           else before
  {
    assert (evs + [e])[p] == evs[p];
    ChunksSnoc(evs, e, p + 1, g, evs[p].run);
    FinalTextSnoc(evs, e, p + 1, g, evs[p].run);
  }

  /** The line an event appends, if any. */
  function LineOf(st: Recorder, e: Event): seq<Line> {
    match e
    case Install(_, _, _) => []
    case Start(stamp, _, prompt) =>
      if stamp == st.generation then [Invocation(st.counter, LatestHumanText(prompt))] else []
    case Token(stamp, run, chunk, token) =>
      if stamp == st.generation && run in st.runs then [ChunkLine(st.runs[run], SerializeChunk(chunk, token))] else []
    case End(stamp, run, output) =>
      if stamp == st.generation && run in st.runs then [EndLine(st.runs[run], OutputText(output))] else []
    case Fail(stamp, run, message) =>
      if stamp == st.generation
      then [ErrorLine(if run in st.runs then Some(st.runs[run]) else None, message)] else []
  }

  lemma StepAppends(st: Recorder, e: Event)
    requires !Resets(st, e)
    ensures Step(st, e).log == st.log + LineOf(st, e)
    ensures ScanLines(Step(st, e).log)
         == if LineOf(st, e) == [] then ScanLines(st.log) else ScanLine(ScanLines(st.log), LineOf(st, e)[0])
  {
    if LineOf(st, e) != [] {
      ScanSnoc(st.log, LineOf(st, e)[0]);
    } else {
      assert st.log + [] == st.log;
    }
  }

  /** The one invocation an event concerns, if it is mapped. */
  predicate Concerns(st: Recorder, e: Event, k: nat) {
    (e.Token? || e.End?) && e.stamp == st.generation && e.run in st.runs && st.runs[e.run] == k
  }

  lemma ExpectedStep(st: Recorder, evs: seq<Event>, g: nat, e: Event, k: nat)
    requires st.generation == g && RunsTrack(st, evs, g) && k < |Opened(evs, g)|
    ensures k < |Opened(evs + [e], g)|
    ensures var inv := Expected(evs, g)[k];
      Expected(evs + [e], g)[k] ==
        if !Concerns(st, e, k) then inv
        else if e.Token? then inv.(chunks := inv.chunks + [SerializeChunk(e.chunk, e.token)])
        else inv.(finalText := OutputText(e.output))
  {
    OpenedSnoc(evs, e, g);
    var p := Opened(evs, g)[k];
    ExpectedSnoc(evs, e, p, g);
    assert OpenIsMapped(st, evs, g, k);
    if Concerns(st, e, k) {
      assert MappedRight(st, evs, g, e.run);
    }
  }

  lemma ExpectedSteps(
    st: Recorder, evs: seq<Event>, g: nat, e: Event, before: seq<FixtureInvocation>,
    after: seq<FixtureInvocation>)
    requires st.generation == g && RunsTrack(st, evs, g)
    requires before == Expected(evs, g) && after == Expected(evs + [e], g)
    ensures |before| <= |after|
    ensures forall k :: 0 <= k < |before| && !Concerns(st, e, k) ==> after[k] == before[k]
    ensures forall k :: 0 <= k < |before| && Concerns(st, e, k) && e.Token? ==>
      after[k] == before[k].(chunks := before[k].chunks + [SerializeChunk(e.chunk, e.token)])
    ensures forall k :: 0 <= k < |before| && Concerns(st, e, k) && e.End? ==>
      after[k] == before[k].(finalText := OutputText(e.output))
  {
    OpenedSnoc(evs, e, g);
    forall k | 0 <= k < |before|
      ensures after[k] ==
        if !Concerns(st, e, k) then before[k]
        else if e.Token? then before[k].(chunks := before[k].chunks + [SerializeChunk(e.chunk, e.token)])
        else before[k].(finalText := OutputText(e.output))
    {
      ExpectedStep(st, evs, g, e, k);
    }
  }

  lemma ExpectedOpens(evs: seq<Event>, g: nat, e: Event)
    requires Opens(e, g)
    ensures |Opened(evs + [e], g)| == |Opened(evs, g)| + 1
    ensures Expected(evs + [e], g)[|Opened(evs, g)|] == FixtureInvocation(LatestHumanText(e.prompt), [], "")
  {
    OpenedSnoc(evs, e, g);
    assert (evs + [e])[|evs|] == e;
  }

  /** Scanning one more invocation line. */
  lemma ScanOpening(before: seq<FixtureInvocation>, after: seq<FixtureInvocation>, text: string)
    requires |after| == |before| + 1 && forall k :: 0 <= k < |before| ==> after[k] == before[k]
    requires after[|before|] == FixtureInvocation(text, [], "")
    ensures ScanLine(Scanning(AllFound(before)), Invocation(|before|, text)) == Scanning(AllFound(after))
  {
    assert AllFound(after) == AllFound(before) + [Some(after[|before|])];
  }

  /** Scanning a line that changes invocation `k`. */
  lemma ScanUpdate(before: seq<FixtureInvocation>, after: seq<FixtureInvocation>, k: nat)
    requires |after| == |before| && k < |before|
    requires forall i :: 0 <= i < |before| && i != k ==> after[i] == before[i]
    ensures AllFound(after) == AllFound(before)[k := Some(after[k])]
  {
  }

  /** The expected invocations change with one event exactly as the scan does with its line. */
  lemma ExpectedScans(
    st: Recorder, evs: seq<Event>, g: nat, e: Event, before: seq<FixtureInvocation>,
    after: seq<FixtureInvocation>)
    requires st.generation == g && st.counter == |Opened(evs, g)| && RunsTrack(st, evs, g)
    requires !Resets(st, e) && !(e.Fail? && e.stamp == g)
    requires before == Expected(evs, g) && after == Expected(evs + [e], g)
    ensures LineOf(st, e) == [] ==> after == before
    ensures LineOf(st, e) != [] ==> ScanLine(Scanning(AllFound(before)), LineOf(st, e)[0]) == Scanning(AllFound(after))
  {
    OpenedSnoc(evs, e, g);
    ExpectedSteps(st, evs, g, e, before, after);
    if Opens(e, g) {
      ExpectedOpens(evs, g, e);
      ScanOpening(before, after, LatestHumanText(e.prompt));
    } else if (e.Token? || e.End?) && e.stamp == g && e.run in st.runs {
      assert MappedRight(st, evs, g, e.run);
      assert Concerns(st, e, st.runs[e.run]);
      ScanUpdate(before, after, st.runs[e.run]);
      ScanOfMapped(st, e, before, after);
    } else {
      assert after == before;
    }
  }

  lemma ScanOfMapped(st: Recorder, e: Event, before: seq<FixtureInvocation>, after: seq<FixtureInvocation>)
    requires (e.Token? || e.End?) && e.stamp == st.generation
    requires e.run in st.runs && st.runs[e.run] < |before| == |after|
    requires AllFound(after) == AllFound(before)[st.runs[e.run] := Some(after[st.runs[e.run]])]
    requires var k := st.runs[e.run];
      after[k] ==
        if e.Token? then before[k].(chunks := before[k].chunks + [SerializeChunk(e.chunk, e.token)])
        else before[k].(finalText := OutputText(e.output))
    ensures LineOf(st, e) != [] && ScanLine(Scanning(AllFound(before)), LineOf(st, e)[0]) == Scanning(AllFound(after))
  {
    assert AllFound(before)[st.runs[e.run]] == Some(before[st.runs[e.run]]);
  }

  lemma LogTracksStep(st: Recorder, evs: seq<Event>, g: nat, e: Event)
    requires Tracks(st, evs, g) && !Resets(st, e)
    ensures LogTracks(Step(st, e), evs + [e], g)
  {
    HasErrorSnoc(evs, e, g);
    StepAppends(st, e);
    if !HasError(evs + [e], g) {
      ExpectedScans(st, evs, g, e, Expected(evs, g), Expected(evs + [e], g));
    } else if !HasError(evs, g) {
      assert LineOf(st, e) != [] && LineOf(st, e)[0].ErrorLine?;
    }
  }

  lemma TracksStep(st: Recorder, evs: seq<Event>, g: nat, e: Event)
    requires Tracks(st, evs, g) && !Resets(st, e)
    ensures Tracks(Step(st, e), evs + [e], g)
  {
    RunsTrackStep(st, evs, g, e);
    LogTracksStep(st, evs, g, e);
  }

  lemma FreshTracks(st: Recorder, name: string, conversation: Option<string>)
    ensures Tracks(Initialized(st, name).(conversation := conversation), [], st.generation + 1)
  {
    assert [Meta(name)][..0] == [];
    assert ScanLines([Meta(name)]) == Scanning([]);
  }

  /** In every run, whatever was installed, restarted or left over in it, the recorder tracks
      the events of the current recording. */
  lemma {:induction false} RunTracks(evs: seq<Event>)
    requires Run(evs).initialized
    ensures Tracks(Run(evs), evs[EpochStart(evs)..], Run(evs).generation)
  {
    var front, e := evs[..|evs| - 1], evs[|evs| - 1];
    RunSnoc(evs);
    EpochSnoc(evs);
    if Resets(Run(front), e) {
      ResetTracks(Run(front), e);
    } else {
      RunTracks(front);
      TracksOn(Run(front), front[EpochStart(front)..], e);
    }
  }

  lemma RunSnoc(evs: seq<Event>)
    requires |evs| > 0
    ensures Run(evs) == Step(Run(evs[..|evs| - 1]), evs[|evs| - 1])
  {
  }

  lemma EpochSnoc(evs: seq<Event>)
    requires |evs| > 0
    ensures var front, e := evs[..|evs| - 1], evs[|evs| - 1];
      evs[EpochStart(evs)..] == if Resets(Run(front), e) then [] else front[EpochStart(front)..] + [e]
  {
  }

  lemma ResetTracks(st: Recorder, e: Event)
    requires Resets(st, e)
    ensures Tracks(Step(st, e), [], Step(st, e).generation)
  {
    FreshTracks(st, e.name, if e.conversation.Some? then e.conversation else None);
  }

  lemma TracksOn(st: Recorder, epoch: seq<Event>, e: Event)
    requires Tracks(st, epoch, st.generation) && !Resets(st, e)
    ensures Tracks(Step(st, e), epoch + [e], Step(st, e).generation)
  {
    TracksStep(st, epoch, st.generation, e);
  }

  // ----- Main results about recording -----

  /** After `evs` the recorder stands at `st`, and `epoch` is what happened since the current
      recording began. */
  ghost predicate Recorded(evs: seq<Event>, st: Recorder, epoch: seq<Event>) {
    st == Run(evs) && st.initialized && epoch == evs[EpochStart(evs)..]
  }

  /** Parsing a recorded log gives back every invocation of the recording by index, with its
      own prompt, its own chunks in emission order and its final text and none missing; it
      fails exactly when a handler of this recording reported a provider error. */
  lemma RecordParseRoundTrip(evs: seq<Event>, name: string, st: Recorder, epoch: seq<Event>)
    requires Recorded(evs, st, epoch)
    ensures ParseLog(name, st.log).ProviderError? <==> HasError(epoch, st.generation)
    ensures !HasError(epoch, st.generation) ==>
      var expected := Expected(epoch, st.generation);
      ParseLog(name, st.log) == Parsed(name, expected, FixtureTurnTexts(expected))
  {
    RunTracks(evs);
    ParseTracked(name, st, epoch);
  }

  lemma ParseTracked(name: string, st: Recorder, epoch: seq<Event>)
    requires Tracks(st, epoch, st.generation)
    ensures ParseLog(name, st.log).ProviderError? <==> HasError(epoch, st.generation)
    ensures !HasError(epoch, st.generation) ==>
      var expected := Expected(epoch, st.generation);
      ParseLog(name, st.log) == Parsed(name, expected, FixtureTurnTexts(expected))
  {
    if !HasError(epoch, st.generation) {
      var expected := Expected(epoch, st.generation);
      assert FirstHole(AllFound(expected), 0) == |expected|;
      assert seq(|expected|, i requires 0 <= i < |expected| => AllFound(expected)[i].value) == expected;
    }
  }

  /** What a handler of an earlier generation can do: drop a run-id mapping, and nothing else.
      It is inert exactly when it is not a failure of a run that is currently mapped. */
  lemma StaleHandlerIsInertIff(st: Recorder, e: Event)
    requires !e.Install? && e.stamp != st.generation
    ensures Step(st, e) == st <==> !(e.Fail? && e.run in st.runs)
    ensures Step(st, e).(runs := st.runs) == st
  {
    if e.Fail? && e.run !in st.runs {
      assert st.runs - {e.run} == st.runs;
    }
  }

  /** Why the run ids must be fresh: a left-over failure that shares a current run's id makes
      the recorder lose that run's next chunk, which it would otherwise have recorded. */
  lemma SharedRunIdLosesChunks(st: Recorder, stale: nat, run: RunId, message: string, chunk: Chunk)
    requires stale != st.generation && run in st.runs
    ensures var token := Token(st.generation, run, Some(chunk), None);
      && Step(Step(st, Fail(stale, run, message)), token).log == st.log
      && |Step(st, token).log| == |st.log| + 1
  {
  }

  function RunFrom(st: Recorder, evs: seq<Event>): Recorder {
    if evs == [] then st else Step(RunFrom(st, evs[..|evs| - 1]), evs[|evs| - 1])
  }

  lemma {:induction false} RunSplit(evs: seq<Event>, i: nat)
    requires i <= |evs|
    ensures Run(evs) == RunFrom(Run(evs[..i]), evs[i..])
  {
    if i == |evs| {
      assert evs[..i] == evs && evs[i..] == [];
    } else {
      var front, e := evs[..|evs| - 1], evs[|evs| - 1];
      RunSplit(front, i);
      RunSnoc(evs);
      RunFromSnoc(Run(evs[..i]), front[i..], e);
      assert front[..i] == evs[..i] && evs[i..] == front[i..] + [e];
    }
  }

  predicate IsStale(e: Event, g: nat) {
    !e.Install? && e.stamp != g
  }

  function CurrentOnly(evs: seq<Event>, g: nat): seq<Event> {
    if evs == [] then []
    else
      CurrentOnly(evs[..|evs| - 1], g) + (if IsStale(evs[|evs| - 1], g) then [] else [evs[|evs| - 1]])
  }

  /** No left-over failure carries the id of a run that this recording started. */
  predicate FreshRuns(evs: seq<Event>, g: nat) {
    forall i, j | 0 <= i < |evs| && 0 <= j < |evs| && evs[i].Fail? && IsStale(evs[i], g) && Opens(evs[j], g)
      :: evs[i].run != evs[j].run
  }

  predicate WasStarted(evs: seq<Event>, g: nat, run: RunId) {
    exists j :: 0 <= j < |evs| && Opens(evs[j], g) && evs[j].run == run
  }

  lemma WasStartedSnoc(evs: seq<Event>, e: Event, g: nat, run: RunId)
    requires WasStarted(evs, g, run) || (Opens(e, g) && e.run == run)
    ensures WasStarted(evs + [e], g, run)
  {
    if WasStarted(evs, g, run) {
      var j :| 0 <= j < |evs| && Opens(evs[j], g) && evs[j].run == run;
      assert (evs + [e])[j] == evs[j];
    } else {
      assert (evs + [e])[|evs|] == e;
    }
  }

  predicate RunsWereStarted(st: Recorder, evs: seq<Event>, g: nat) {
    forall r :: r in st.runs ==> WasStarted(evs, g, r)
  }

  lemma RunsWereStartedStep(st: Recorder, evs: seq<Event>, e: Event)
    requires RunsWereStarted(st, evs, st.generation)
    requires Step(st, e).generation == st.generation
    ensures RunsWereStarted(Step(st, e), evs + [e], st.generation)
  {
    forall r | r in Step(st, e).runs ensures WasStarted(evs + [e], st.generation, r) {
      WasStartedSnoc(evs, e, st.generation, r);
    }
  }

  lemma {:induction false} GenerationGrows(st: Recorder, evs: seq<Event>)
    ensures st.generation <= RunFrom(st, evs).generation
  {
    if evs != [] {
      GenerationGrows(st, evs[..|evs| - 1]);
    }
  }

  lemma FreshFront(evs: seq<Event>, g: nat)
    requires evs != [] && FreshRuns(evs, g)
    ensures FreshRuns(evs[..|evs| - 1], g)
    ensures evs[|evs| - 1].Fail? && IsStale(evs[|evs| - 1], g) ==>
      !WasStarted(evs[..|evs| - 1], g, evs[|evs| - 1].run)
  {
    assert forall i :: 0 <= i < |evs| - 1 ==> evs[..|evs| - 1][i] == evs[i];
  }

  lemma RunFromSnoc(st: Recorder, evs: seq<Event>, e: Event)
    ensures RunFrom(st, evs + [e]) == Step(RunFrom(st, evs), e)
  {
    assert (evs + [e])[..|evs|] == evs;
  }

  lemma {:induction false} EraseStale(st: Recorder, evs: seq<Event>)
    requires st.runs == map[]
    requires RunFrom(st, evs).generation == st.generation
    requires FreshRuns(evs, st.generation)
    ensures RunFrom(st, evs) == RunFrom(st, CurrentOnly(evs, st.generation))
    ensures RunsWereStarted(RunFrom(st, evs), evs, st.generation)
  {
    if evs != [] {
      var n := |evs| - 1;
      var front, e := evs[..n], evs[n];
      GenerationGrows(st, front);
      FreshFront(evs, st.generation);
      EraseStale(st, front);
      var mid := RunFrom(st, front);
      assert front + [e] == evs;
      RunsWereStartedStep(mid, front, e);
      if IsStale(e, st.generation) {
        StaleHandlerIsInertIff(mid, e);
        assert CurrentOnly(evs, st.generation) == CurrentOnly(front, st.generation);
      } else {
        RunFromSnoc(st, CurrentOnly(front, st.generation), e);
      }
    }
  }

  lemma {:induction false} EpochBegins(evs: seq<Event>)
    requires Run(evs).initialized
    ensures var start := Run(evs[..EpochStart(evs)]);
      start.runs == map[] && start.generation == Run(evs).generation
  {
    var n := |evs| - 1;
    if Resets(Run(evs[..n]), evs[n]) {
      assert evs[..|evs|] == evs;
    } else {
      EpochBegins(evs[..n]);
      assert evs[..n][..EpochStart(evs)] == evs[..EpochStart(evs)];
    }
  }

  /** Handlers left over from earlier recordings are inert over the whole current recording:
      with fresh run ids, deleting all their callbacks leaves the same recorder and log. */
  lemma SupersededHandlersAreInert(evs: seq<Event>, st: Recorder, epoch: seq<Event>)
    requires Recorded(evs, st, epoch) && FreshRuns(epoch, st.generation)
    ensures st == RunFrom(Run(evs[..EpochStart(evs)]), CurrentOnly(epoch, st.generation))
  {
    RunSplit(evs, EpochStart(evs));
    EpochBegins(evs);
    EraseStale(Run(evs[..EpochStart(evs)]), epoch);
  }

  /** The indices of the `invocation` lines, in log order. */
  function InvocationIndices(log: seq<Line>): seq<nat> {
    if log == [] then []
    else
      var last := log[|log| - 1];
      InvocationIndices(log[..|log| - 1]) + (if last.Invocation? then [last.index] else [])
  }

  predicate RefersBelow(line: Line, n: nat) {
    match line
    case Meta(_) => true
    case Invocation(i, _) => i < n
    case ChunkLine(i, _) => i < n
    case EndLine(i, _) => i < n
    case ErrorLine(i, _) => i.Some? ==> i.value < n
  }

  predicate IndicesInOrder(st: Recorder) {
    && InvocationIndices(st.log) == seq(st.counter, i => i)
    && (forall k :: 0 <= k < |st.log| ==> RefersBelow(st.log[k], st.counter))
    && (forall r :: r in st.runs ==> st.runs[r] < st.counter)
  }

  lemma IndicesSnoc(log: seq<Line>, line: Line)
    ensures InvocationIndices(log + [line])
         == InvocationIndices(log) + (if line.Invocation? then [line.index] else [])
  {
    assert (log + [line])[..|log|] == log;
  }

  lemma IndicesAppend(log: seq<Line>, line: Line, before: nat, after: nat)
    requires InvocationIndices(log) == seq(before, i => i)
    requires forall k :: 0 <= k < |log| ==> RefersBelow(log[k], before)
    requires before <= after && RefersBelow(line, after)
    requires if line.Invocation? then line.index == before && after == before + 1 else after == before
    ensures InvocationIndices(log + [line]) == seq(after, i => i)
    ensures forall k :: 0 <= k < |log + [line]| ==> RefersBelow((log + [line])[k], after)
  {
    IndicesSnoc(log, line);
    Successor(before);
  }

  lemma Successor(n: nat)
    ensures seq(n, i => i) + [n] == seq(n + 1, i => i)
  {
  }

  lemma LineFitsCounter(st: Recorder, e: Event)
    requires !Resets(st, e) && forall r :: r in st.runs ==> st.runs[r] < st.counter
    ensures var st' := Step(st, e);
      && st.counter <= st'.counter
      && (LineOf(st, e) == [] ==> st'.counter == st.counter)
      && (forall line :: line in LineOf(st, e) ==>
            && RefersBelow(line, st'.counter)
            && (if line.Invocation? then line.index == st.counter && st'.counter == st.counter + 1
                else st'.counter == st.counter))
  {
  }

  lemma RunsStayBelow(st: Recorder, e: Event)
    requires forall r :: r in st.runs ==> st.runs[r] < st.counter
    ensures forall r :: r in Step(st, e).runs ==> Step(st, e).runs[r] < Step(st, e).counter
  {
  }

  lemma AppendsItsLine(st: Recorder, e: Event)
    requires !Resets(st, e)
    ensures Step(st, e).log == st.log + LineOf(st, e) && |LineOf(st, e)| <= 1
  {
  }

  lemma IndicesOfReset(name: string)
    ensures InvocationIndices([Meta(name)]) == []
  {
    IndicesSnoc([], Meta(name));
    assert [] + [Meta(name)] == [Meta(name)];
  }

  lemma IndicesStep(st: Recorder, e: Event)
    requires IndicesInOrder(st)
    ensures IndicesInOrder(Step(st, e))
  {
    RunsStayBelow(st, e);
    if Resets(st, e) {
      IndicesOfReset(e.name);
    } else {
      AppendsItsLine(st, e);
      LineFitsCounter(st, e);
      IndicesOfStep(st, Step(st, e), LineOf(st, e));
    }
  }

  lemma IndicesOfStep(st: Recorder, st': Recorder, lines: seq<Line>)
    requires IndicesInOrder(st) && |lines| <= 1 && st'.log == st.log + lines && st.counter <= st'.counter
    requires forall r :: r in st'.runs ==> st'.runs[r] < st'.counter
    requires lines == [] ==> st'.counter == st.counter
    requires forall line :: line in lines ==>
      && RefersBelow(line, st'.counter)
      && (if line.Invocation? then line.index == st.counter && st'.counter == st.counter + 1
          else st'.counter == st.counter)
    ensures IndicesInOrder(st')
  {
    if lines == [] {
      assert st'.log == st.log;
    } else {
      assert lines[0] in lines && lines == [lines[0]];
      IndicesAppend(st.log, lines[0], st.counter, st'.counter);
    }
  }

  /** In every run the log numbers its invocations 0, 1, ..., counter - 1 in order, and every
      other line refers to one of them. */
  lemma {:induction false} LogIndicesAreDense(evs: seq<Event>)
    ensures IndicesInOrder(Run(evs))
  {
    if evs != [] {
      LogIndicesAreDense(evs[..|evs| - 1]);
      IndicesStep(Run(evs[..|evs| - 1]), evs[|evs| - 1]);
    }
  }

  predicate Identified(evs: seq<Event>) {
    forall i :: 0 <= i < |evs| && evs[i].Install? ==> evs[i].conversation.Some?
  }

  lemma {:induction false} IdentifiedRun(evs: seq<Event>)
    requires Identified(evs)
    ensures Run(evs).initialized ==> Run(evs).conversation.Some?
  {
    if evs != [] {
      IdentifiedRun(evs[..|evs| - 1]);
    }
  }

  lemma {:induction false} CounterGrows(evs: seq<Event>, i: nat)
    requires EpochStart(evs) <= i <= |evs|
    ensures Run(evs[..i]).counter <= Run(evs).counter
  {
    if i == |evs| {
      assert evs[..i] == evs;
    } else {
      var n := |evs| - 1;
      CounterGrows(evs[..n], i);
      assert evs[..n][..i] == evs[..i];
      CounterStep(Run(evs[..n]), evs[n]);
    }
  }

  lemma CounterStep(st: Recorder, e: Event)
    requires !Resets(st, e)
    ensures st.counter <= Step(st, e).counter
  {
  }

  /** When every graph identifies its conversation, one recording holds one conversation: an
      installation that finds invocations already recorded is by the conversation that owns
      the recording, so a retry under a new id never appends to the failed attempt. */
  lemma {:induction false} RecordingIsOneConversation(evs: seq<Event>, i: nat)
    requires Identified(evs) && Run(evs).initialized
    requires EpochStart(evs) <= i < |evs|
    requires evs[i].Install? && Run(evs[..i]).counter > 0
    ensures evs[i].conversation == Run(evs).conversation
  {
    var n := |evs| - 1;
    assert Identified(evs[..n]) by {
      assert forall k :: 0 <= k < n ==> evs[..n][k] == evs[k];
    }
    IdentifiedRun(evs[..n]);
    if i < n {
      assert evs[..n][..i] == evs[..i] && evs[..n][i] == evs[i];
      RecordingIsOneConversation(evs[..n], i);
      CounterGrows(evs[..n], i);
    }
  }

  // ----- The mutable recorder -----

  class RecordingState {
    var initialized: bool
    /** The lines of the fixture file. */
    var log: seq<Line>
    var invocationCounter: nat
    var conversationId: Option<string>
    var generation: nat
    var runIdToInvocation: map<RunId, nat>

    constructor ()
      ensures View() == INITIAL
    {
      initialized, log, invocationCounter := false, [], 0;
      conversationId, generation, runIdToInvocation := None, 0, map[];
    }

    function View(): Recorder
      reads this
    {
      Recorder(initialized, log, invocationCounter, conversationId, generation, runIdToInvocation)
    }

    method AppendFixtureLine(line: Line)
      modifies this`log
      ensures log == old(log) + [line]
    {
      log := log + [line];
    }

    method InitializeRecording(fixtureName: string)
      modifies this
      ensures View() == Initialized(old(View()), fixtureName)
    {
      log := [];
      AppendFixtureLine(Meta(fixtureName));
      initialized := true;
      invocationCounter := 0;
      conversationId := None;
      generation := generation + 1;
      runIdToInvocation := map[];
    }

    /** Without a configured fixture name nothing is recorded. Afterwards every context that
        can carry handlers has exactly one live recorder, however many dead ones it kept. */
    method InstallRecorder(
      fixtureName: string, conversation: Option<string>, messages: seq<Msg>, contexts: seq<ClientOptions>)
      requires forall c :: c in contexts ==> OnePerGeneration(HandlersOf(c.callbacks))
      modifies this, contexts
      ensures fixtureName == "" ==> View() == old(View()) && forall c :: c in contexts ==> unchanged(c)
      ensures fixtureName != "" ==> View() == Step(old(View()), Install(fixtureName, conversation, messages))
      ensures fixtureName != "" ==> forall c :: c in contexts ==>
        && OnePerGeneration(HandlersOf(c.callbacks))
        && (!c.callbacks.Unsupported? ==> CountStamped(HandlersOf(c.callbacks), generation) == 1)
    {
      if fixtureName == "" {
        return;
      }
      if !initialized || StartsNewRecording(View(), conversation, messages) {
        InitializeRecording(fixtureName);
      }
      if conversation.Some? {
        conversationId := conversation;
      }
      AttachAll(contexts);
    }

    method AttachAll(contexts: seq<ClientOptions>)
      requires forall c :: c in contexts ==> OnePerGeneration(HandlersOf(c.callbacks))
      modifies contexts
      ensures forall c :: c in contexts ==>
        && OnePerGeneration(HandlersOf(c.callbacks))
        && (!c.callbacks.Unsupported? ==> CountStamped(HandlersOf(c.callbacks), generation) == 1)
    {
      for i := 0 to |contexts|
        invariant forall k :: 0 <= k < |contexts| ==> OnePerGeneration(HandlersOf(contexts[k].callbacks))
        invariant forall k :: 0 <= k < i ==> HasLiveRecorder(contexts[k].callbacks, generation)
      {
        AttachRecorder(this, contexts[i]);
      }
      forall c | c in contexts
        ensures OnePerGeneration(HandlersOf(c.callbacks)) && HasLiveRecorder(c.callbacks, generation)
      {
        var k :| 0 <= k < |contexts| && contexts[k] == c;
      }
    }
  }

  predicate HasLiveRecorder(callbacks: Callbacks, generation: nat) {
    !callbacks.Unsupported? ==> CountStamped(HandlersOf(callbacks), generation) == 1
  }

  /** A recorder handler carries the generation it was created in. */
  class RecorderHandler {
    const state: RecordingState
    const stamp: nat

    constructor (state: RecordingState)
      ensures this.state == state && stamp == state.generation
    {
      this.state := state;
      this.stamp := state.generation;
    }

    predicate Superseded()
      reads state
    {
      stamp != state.generation
    }

    method HandleChatModelStart(prompt: seq<Msg>, run: RunId)
      modifies state
      ensures state.View() == Step(old(state.View()), Start(stamp, run, prompt))
    {
      if Superseded() {
        return;
      }
      var index := state.invocationCounter;
      state.invocationCounter := index + 1;
      state.runIdToInvocation := state.runIdToInvocation[run := index];
      state.AppendFixtureLine(Invocation(index, LatestHumanText(prompt)));
    }

    method HandleLLMNewToken(token: Option<string>, run: RunId, chunk: Option<Chunk>)
      modifies state
      ensures state.View() == Step(old(state.View()), Token(stamp, run, chunk, token))
    {
      if Superseded() || run !in state.runIdToInvocation {
        return;
      }
      state.AppendFixtureLine(ChunkLine(state.runIdToInvocation[run], SerializeChunk(chunk, token)));
    }

    method HandleLLMEnd(output: Output, run: RunId)
      modifies state
      ensures state.View() == Step(old(state.View()), End(stamp, run, output))
    {
      if Superseded() || run !in state.runIdToInvocation {
        return;
      }
      var invocation := state.runIdToInvocation[run];
      state.runIdToInvocation := state.runIdToInvocation - {run};
      state.AppendFixtureLine(EndLine(invocation, OutputText(output)));
    }

    method HandleLLMError(message: string, run: RunId)
      modifies state
      ensures state.View() == Step(old(state.View()), Fail(stamp, run, message))
    {
      var failed := if run in state.runIdToInvocation then Some(state.runIdToInvocation[run]) else None;
      state.runIdToInvocation := state.runIdToInvocation - {run};
      if Superseded() {
        return;
      }
      state.AppendFixtureLine(ErrorLine(failed, message));
    }
  }

  // ----- Attaching the recorder to a model's callbacks -----

  datatype Handler = RecorderEntry(handler: RecorderHandler) | Other(name: string)

  /** The shapes `options.callbacks` takes: missing, an array, or a callback manager. */
  datatype Callbacks =
    | Absent
    | List(handlers: seq<Handler>)
    | Manager(handlers: seq<Handler>)
    | Unsupported

  function HandlersOf(callbacks: Callbacks): seq<Handler> {
    if callbacks.List? || callbacks.Manager? then callbacks.handlers else []
  }

  class ClientOptions {
    var callbacks: Callbacks
  }

  function CountStamped(handlers: seq<Handler>, g: nat): nat {
    if handlers == [] then 0
    else
      var last := handlers[|handlers| - 1];
      CountStamped(handlers[..|handlers| - 1], g) + (if last.RecorderEntry? && last.handler.stamp == g then 1 else 0)
  }

  /** No callback list would record one event twice. */
  ghost predicate OnePerGeneration(handlers: seq<Handler>) {
    forall g: nat :: CountStamped(handlers, g) <= 1
  }

  function WithoutRecorders(handlers: seq<Handler>): seq<Handler> {
    if handlers == [] then []
    else
      var last := handlers[|handlers| - 1];
      WithoutRecorders(handlers[..|handlers| - 1]) + (if last.RecorderEntry? then [] else [last])
  }

  lemma {:induction false} CountWithout(handlers: seq<Handler>, g: nat)
    ensures CountStamped(WithoutRecorders(handlers), g) == 0
    ensures WithoutRecorders(WithoutRecorders(handlers)) == WithoutRecorders(handlers)
  {
    if handlers != [] {
      var n := |handlers| - 1;
      CountWithout(handlers[..n], g);
      var kept := WithoutRecorders(handlers[..n]);
      if handlers[n].RecorderEntry? {
        assert WithoutRecorders(handlers) == kept;
      } else {
        assert WithoutRecorders(handlers) == kept + [handlers[n]];
        assert (kept + [handlers[n]])[..|kept|] == kept;
      }
    }
  }

  lemma CountSnoc(handlers: seq<Handler>, h: RecorderHandler, g: nat)
    ensures CountStamped(handlers + [RecorderEntry(h)], g)
         == CountStamped(handlers, g) + (if h.stamp == g then 1 else 0)
    ensures WithoutRecorders(handlers + [RecorderEntry(h)]) == WithoutRecorders(handlers)
  {
    assert (handlers + [RecorderEntry(h)])[..|handlers|] == handlers;
  }

  lemma FilteredListHasOne(handlers: seq<Handler>, h: RecorderHandler)
    ensures var r := WithoutRecorders(handlers) + [RecorderEntry(h)];
      && OnePerGeneration(r)
      && CountStamped(r, h.stamp) == 1
      && WithoutRecorders(r) == WithoutRecorders(handlers)
  {
    forall g: nat
      ensures CountStamped(WithoutRecorders(handlers) + [RecorderEntry(h)], g) == if h.stamp == g then 1 else 0
    {
      CountWithout(handlers, g);
      CountSnoc(WithoutRecorders(handlers), h, g);
    }
    CountWithout(handlers, h.stamp);
    CountSnoc(WithoutRecorders(handlers), h, h.stamp);
  }

  lemma GrownListHasOne(handlers: seq<Handler>, h: RecorderHandler)
    requires OnePerGeneration(handlers) && CountStamped(handlers, h.stamp) == 0
    ensures var r := handlers + [RecorderEntry(h)];
      && OnePerGeneration(r)
      && CountStamped(r, h.stamp) == 1
      && WithoutRecorders(r) == WithoutRecorders(handlers)
  {
    forall g: nat
      ensures CountStamped(handlers + [RecorderEntry(h)], g) <= 1
    {
      CountSnoc(handlers, h, g);
    }
    CountSnoc(handlers, h, h.stamp);
  }

  /** Attaches the recorder once for the current generation. The user's other handlers stay,
      in order; an array drops its superseded recorders when it gains a current one. */
  method AttachRecorder(state: RecordingState, options: ClientOptions)
    requires OnePerGeneration(HandlersOf(options.callbacks))
    modifies options
    ensures OnePerGeneration(HandlersOf(options.callbacks))
    ensures !options.callbacks.Unsupported? ==> CountStamped(HandlersOf(options.callbacks), state.generation) == 1
    ensures options.callbacks.Unsupported? <==> old(options.callbacks).Unsupported?
    ensures options.callbacks.Unsupported? ==> options.callbacks == old(options.callbacks)
    ensures
      WithoutRecorders(HandlersOf(options.callbacks)) == WithoutRecorders(old(HandlersOf(options.callbacks)))
    ensures old(options.callbacks).List? && old(CountStamped(HandlersOf(options.callbacks), state.generation)) == 0 ==>
      |HandlersOf(options.callbacks)| == |WithoutRecorders(HandlersOf(options.callbacks))| + 1
  {
    var existing := options.callbacks;
    if existing.Unsupported? {
      return;
    }
    if CountStamped(HandlersOf(existing), state.generation) > 0 {
      assert CountStamped(HandlersOf(existing), state.generation) == 1;
      return;
    }
    var h := new RecorderHandler(state);
    match existing
    case List(handlers) =>
      FilteredListHasOne(handlers, h);
      options.callbacks := List(WithoutRecorders(handlers) + [RecorderEntry(h)]);
    case Absent =>
      GrownListHasOne([], h);
      assert [] + [RecorderEntry(h)] == [RecorderEntry(h)];
      options.callbacks := List([RecorderEntry(h)]);
    case Manager(handlers) =>
      GrownListHasOne(handlers, h);
      options.callbacks := Manager(handlers + [RecorderEntry(h)]);
    case Unsupported =>
      assert false;
  }
}
