/**
 * The replay half of the model fixtures: a shared cursor and consumption ledger behind an
 * ownership protocol, driven by streams that interleave at every `await` and `yield`.
 *
 * `Advance` is one uninterrupted segment of a stream, `Classify` decides how a run relates to
 * a fixture, and a `World` holds every replay-state object ever created, so that a restart
 * (which swaps in a fresh object while older streams still hold theirs) can be told apart
 * from a reset in place.
 */
module Replay {
  import opened Common
  import opened Messages
  import opened Recording

  datatype Fixture = Fixture(name: string, invocations: seq<FixtureInvocation>)

  function Turns(f: Fixture): seq<string> {
    FixtureTurnTexts(f.invocations)
  }

  /** The text is the fixture's first recorded prompt. */
  predicate OpensWith(f: Fixture, text: string) {
    Turns(f) != [] && Turns(f)[0] == text
  }

  datatype Mismatch = Mismatch(invocation: nat, expected: string, received: string)

  datatype Ledger = Ledger(
    invocationsTotal: nat,
    chunksTotal: nat,
    invocationsConsumed: nat,
    chunksConsumed: nat,
    overruns: seq<string>,
    promptMismatches: seq<Mismatch>)

  /** The fields of a replay-state object. */
  datatype Progress = Progress(cursor: nat, conversation: Option<string>, ledger: Ledger)

  function ChunksTotal(invocations: seq<FixtureInvocation>): nat {
    if invocations == [] then 0
    else ChunksTotal(invocations[..|invocations| - 1]) + |invocations[|invocations| - 1].chunks|
  }

  function FreshProgress(f: Fixture): Progress {
    Progress(0, None, Ledger(|f.invocations|, ChunksTotal(f.invocations), 0, 0, [], []))
  }

  // ----- One stream -----

  /** Where a stream stands. `Sleeping` awaits the delay before chunk `next`; `Yielded` has
      handed chunk `next` to its consumer and has not been resumed yet. */
  datatype Phase =
    | Ready
    | Sleeping(invocation: nat, next: nat)
    | Yielded(invocation: nat, next: nat)
    | Finished(invocation: nat)
    | Overran
    | Mismatched

  predicate Active(phase: Phase) {
    phase.Sleeping? || phase.Yielded? || phase.Finished?
  }

  datatype StreamView = StreamView(phase: Phase, emitted: seq<Chunk>)

  datatype Advanced = Advanced(progress: Progress, view: StreamView, wroteLedger: bool)

  /** The chunk loop at position `next`: sleep before the next chunk, or finish. */
  function Continue(f: Fixture, p: Progress, emitted: seq<Chunk>, k: nat, next: nat): Advanced
    requires k < |f.invocations|
  {
    if next < |f.invocations[k].chunks| then Advanced(p, StreamView(Sleeping(k, next), emitted), false)
    else
      Advanced(
        p.(ledger := p.ledger.(invocationsConsumed := p.ledger.invocationsConsumed + 1)),
        StreamView(Finished(k), emitted),
        true)
  }

  /** A run with no human message (a resumed one) has no prompt to check. */
  predicate PromptFits(messages: seq<Msg>, inv: FixtureInvocation) {
    HumanTexts(messages) == [] || LatestHumanText(messages) == inv.userText
  }

  function Begin(f: Fixture, p: Progress, messages: seq<Msg>): Advanced {
    if p.cursor >= |f.invocations| then
      Advanced(
        p.(ledger := p.ledger.(overruns := p.ledger.overruns + [LatestHumanText(messages)])),
        StreamView(Overran, []),
        true)
    else if !PromptFits(messages, f.invocations[p.cursor]) then
      var m := Mismatch(p.cursor, f.invocations[p.cursor].userText, LatestHumanText(messages));
      Advanced(
        p.(ledger := p.ledger.(promptMismatches := p.ledger.promptMismatches + [m])),
        StreamView(Mismatched, []),
        true)
    else Continue(f, p.(cursor := p.cursor + 1), [], p.cursor, 0)
  }

  /** What a stream does from one suspension point to the next. */
  function Advance(f: Fixture, p: Progress, messages: seq<Msg>, s: StreamView): Advanced {
    match s.phase
    case Ready => Begin(f, p, messages)
    case Sleeping(k, n) =>
      if k < |f.invocations| && n < |f.invocations[k].chunks|
      then Advanced(p, StreamView(Yielded(k, n), s.emitted + [DeserializeChunk(f.invocations[k].chunks[n])]), false)
      else Advanced(p, s, false)
    case Yielded(k, n) =>
      if k < |f.invocations|
      then Continue(f, p.(ledger := p.ledger.(chunksConsumed := p.ledger.chunksConsumed + 1)), s.emitted, k, n + 1)
      else Advanced(p, s, false)
    case _ => Advanced(p, s, false)
  }

  /** Chunks `0..n` of invocation `k`, as the consumer sees them. */
  function Emission(f: Fixture, k: nat, n: nat): (r: seq<Chunk>)
    requires k < |f.invocations| && n <= |f.invocations[k].chunks|
    ensures |r| == n
  {
    seq(n, i requires 0 <= i < n => DeserializeChunk(f.invocations[k].chunks[i]))
  }

  /** What a stream has emitted fits where it stands: recorded chunks, in order, none twice. */
  predicate EmittedInOrder(f: Fixture, s: StreamView) {
    match s.phase
    case Sleeping(k, n) => k < |f.invocations| && n < |f.invocations[k].chunks| && s.emitted == Emission(f, k, n)
    case Yielded(k, n) => k < |f.invocations| && n < |f.invocations[k].chunks| && s.emitted == Emission(f, k, n + 1)
    case Finished(k) => k < |f.invocations| && s.emitted == Emission(f, k, |f.invocations[k].chunks|)
    case _ => s.emitted == []
  }

  /** How many chunks of a stream the ledger has counted. */
  function Accounted(f: Fixture, phase: Phase): nat {
    match phase
    case Sleeping(_, n) => n
    case Yielded(_, n) => n
    case Finished(k) => if k < |f.invocations| then |f.invocations[k].chunks| else 0
    case _ => 0
  }

  function Completed(phase: Phase): nat {
    if phase.Finished? then 1 else 0
  }

  /** One segment of a stream is faithful: the next invocation is taken only at the start, in
      recorded order and only when the prompt fits; a refused start leaves the cursor alone and
      is entered in the ledger; every counter moves by exactly the stream's own progress. */
  predicate Faithful(f: Fixture, p: Progress, messages: seq<Msg>, s: StreamView, r: Advanced) {
    && EmittedInOrder(f, r.view)
    && s.emitted <= r.view.emitted
    && r.progress.conversation == p.conversation
    && r.progress.ledger.invocationsTotal == p.ledger.invocationsTotal
    && r.progress.ledger.chunksTotal == p.ledger.chunksTotal
    && r.progress.ledger.chunksConsumed - p.ledger.chunksConsumed
         == Accounted(f, r.view.phase) - Accounted(f, s.phase)
    && r.progress.ledger.invocationsConsumed - p.ledger.invocationsConsumed
         == Completed(r.view.phase) - Completed(s.phase)
    && (r.progress.cursor != p.cursor ==>
          && s.phase.Ready?
          && p.cursor < |f.invocations|
          && r.progress.cursor == p.cursor + 1
          && Active(r.view.phase) && r.view.phase.invocation == p.cursor
          && PromptFits(messages, f.invocations[p.cursor]))
    && (r.progress.cursor == p.cursor && s.phase.Ready? ==>
          || (r.view.phase.Overran? && p.cursor >= |f.invocations|
              && |r.progress.ledger.overruns| == |p.ledger.overruns| + 1)
          || (r.view.phase.Mismatched? && p.cursor < |f.invocations|
              && !PromptFits(messages, f.invocations[p.cursor])
              && |r.progress.ledger.promptMismatches| == |p.ledger.promptMismatches| + 1))
    && (Active(s.phase) ==> Active(r.view.phase) && r.view.phase.invocation == s.phase.invocation)
    && (!Active(s.phase) && !s.phase.Ready? ==> r.view == s)
    && (r.progress != p && !s.phase.Ready? ==> s.phase.Yielded?)
  }

  lemma AdvanceIsFaithful(f: Fixture, p: Progress, messages: seq<Msg>, s: StreamView)
    requires EmittedInOrder(f, s)
    ensures Faithful(f, p, messages, s, Advance(f, p, messages, s))
  {
    match s.phase
    case Sleeping(k, n) =>
      assert Emission(f, k, n) + [DeserializeChunk(f.invocations[k].chunks[n])] == Emission(f, k, n + 1);
    case _ =>
  }

  // ----- Binding a conversation to a fixture -----

  datatype Call = Call(text: string, messages: seq<Msg>, conversation: Option<string>)

  datatype Binding = Own | Claim | Refuse

  /** The conversation's human turns open with exactly the fixture's turns and go on. */
  predicate ConversationDroveFixture(messages: seq<Msg>, f: Fixture) {
    |HumanTexts(messages)| > |Turns(f)| && Turns(f) <= HumanTexts(messages)
  }

  function Classify(f: Fixture, p: Progress, call: Call): Binding {
    if call.conversation.Some? && p.conversation.Some? then
      if p.conversation == call.conversation then Own
      else if OpensWith(f, call.text) then Claim
      else Refuse
    else if p.cursor != 0 && IsConversationStart(call.messages) then
      if OpensWith(f, call.text) then Claim else Refuse
    else if p.cursor < |f.invocations| && f.invocations[p.cursor].userText == call.text then Own
    else if p.cursor != 0 && OpensWith(f, call.text) then Claim
    else if p.cursor >= |f.invocations| && ConversationDroveFixture(call.messages, f) then Own
    else Refuse
  }

  /** An identified call on an unclaimed, untouched, non-empty fixture is accepted exactly when
      it opens with the fixture's first prompt. */
  lemma FirstBindNeedsFirstPrompt(f: Fixture, p: Progress, call: Call)
    requires f.invocations != [] && p.conversation.None? && p.cursor == 0
    ensures Classify(f, p, call) != Refuse <==> OpensWith(f, call.text)
  {
    TurnTextsCollapse(f.invocations);
  }

  /** An empty fixture has no first prompt, and is still accepted, exactly by a conversation
      that already has a human turn. */
  lemma EmptyFixtureIsAcceptedIff(f: Fixture, p: Progress, call: Call)
    requires f.invocations == [] && p.conversation.None? && p.cursor == 0
    ensures !OpensWith(f, call.text)
    ensures Classify(f, p, call) != Refuse <==> HumanTexts(call.messages) != []
  {
    TurnTextsCollapse(f.invocations);
  }

  /** The owner is never refused, wherever its cursor stands, and once the script is drained
      its next invocation fails loudly instead of falling through to another model. */
  lemma OverConsumptionFailsLoudly(f: Fixture, p: Progress, call: Call)
    requires call.conversation.Some? && p.conversation == call.conversation
    ensures Classify(f, p, call) == Own
    ensures p.cursor >= |f.invocations| ==>
      var r := Advance(f, p, call.messages, StreamView(Ready, []));
      r.view.phase == Overran && r.progress.cursor == p.cursor
  {
  }

  /** A conversation that does not own a claimed fixture can only start it over. */
  lemma StrangersNeverContinue(f: Fixture, p: Progress, call: Call)
    requires call.conversation.Some? && p.conversation.Some? && p.conversation != call.conversation
    ensures Classify(f, p, call) != Own
    ensures Classify(f, p, call) == Claim <==> OpensWith(f, call.text)
  {
  }

  // ----- All replay states, models and streams of a process -----

  /** A replay-state object. `takers[k]` is the stream that took invocation `k`: a history
      variable of the model, written when the cursor moves and never read by a step. */
  datatype StateObject = StateObject(fixture: Fixture, progress: Progress, takers: seq<nat>)

  /** A bound model holds on to its state object; `binder` is the identity its call carried. */
  datatype BoundModel = BoundModel(state: nat, binder: Option<string>)

  datatype Stream = Stream(model: nat, state: nat, messages: seq<Msg>, view: StreamView)

  /** `registered` is the process-wide map from fixture name to its current state object. */
  datatype World = World(
    objects: seq<StateObject>,
    registered: map<string, nat>,
    models: seq<BoundModel>,
    streams: seq<Stream>,
    ledgerFiles: map<string, Ledger>)

  const EMPTY := World([], map[], [], [], map[])

  datatype Action =
    | Bind(call: Call)
    | Invoke(bound: nat, messages: seq<Msg>)
    | Resume(stream: nat)

  function Restart(w: World, f: Fixture): World {
    w.(objects := w.objects + [StateObject(f, FreshProgress(f), [])],
       registered := w.registered[f.name := |w.objects|])
  }

  predicate HasState(w: World, f: Fixture) {
    f.name in w.registered && w.registered[f.name] < |w.objects|
  }

  function EnsureState(w: World, f: Fixture): (r: World)
    ensures HasState(r, f)
  {
    if HasState(w, f) then w else Restart(w, f)
  }

  function BindingOf(w: World, f: Fixture, call: Call): Binding {
    if HasState(w, f) then Classify(f, w.objects[w.registered[f.name]].progress, call)
    else Classify(f, FreshProgress(f), call)
  }

  function SetConversation(w: World, o: nat, conversation: Option<string>): World
    requires o < |w.objects|
  {
    if conversation.None? then w
    else
      var ob := w.objects[o];
      w.(objects := w.objects[o := ob.(progress := ob.progress.(conversation := conversation))])
  }

  /** One turn of the loop over the registry. */
  function TouchFixture(w: World, f: Fixture, call: Call): (World, Option<nat>) {
    var w1 := EnsureState(w, f);
    var binding := Classify(f, w1.objects[w1.registered[f.name]].progress, call);
    if binding == Refuse then (w1, None)
    else
      var w2 := if binding == Claim then Restart(w1, f) else w1;
      (SetConversation(w2, w2.registered[f.name], call.conversation), Some(w2.registered[f.name]))
  }

  function TouchAll(w: World, fixtures: seq<Fixture>, call: Call): (World, seq<nat>) {
    if fixtures == [] then (w, [])
    else
      var (w1, matches) := TouchAll(w, fixtures[..|fixtures| - 1], call);
      var (w2, m) := TouchFixture(w1, fixtures[|fixtures| - 1], call);
      (w2, if m.Some? then matches + [m.value] else matches)
  }

  /** The ledger file of a name gets the ledger of the object registered under it now. */
  function WriteLedger(w: World, name: string): World {
    if name in w.registered && w.registered[name] < |w.objects|
    then w.(ledgerFiles := w.ledgerFiles[name := w.objects[w.registered[name]].progress.ledger])
    else w
  }

  function BindStep(w: World, fixtures: seq<Fixture>, call: Call): World {
    var (w1, matches) := TouchAll(w, fixtures, call);
    if |matches| != 1 || matches[0] >= |w1.objects| then w1
    else
      WriteLedger(
        w1.(models := w1.models + [BoundModel(matches[0], call.conversation)]),
        w1.objects[matches[0]].fixture.name)
  }

  function InvokeStep(w: World, m: nat, messages: seq<Msg>): World {
    if m >= |w.models| then w
    else w.(streams := w.streams + [Stream(m, w.models[m].state, messages, StreamView(Ready, []))])
  }

  predicate CanResume(w: World, i: nat) {
    i < |w.streams| && w.streams[i].state < |w.objects|
  }

  function AdvanceOf(w: World, i: nat): Advanced
    requires CanResume(w, i)
  {
    var s, ob := w.streams[i], w.objects[w.streams[i].state];
    Advance(ob.fixture, ob.progress, s.messages, s.view)
  }

  /** The world after stream `i` advanced to `r`. */
  function Advancing(w: World, i: nat, r: Advanced): World
    requires CanResume(w, i)
  {
    var s := w.streams[i];
    var ob := w.objects[s.state];
    var takers := if r.progress.cursor != ob.progress.cursor then ob.takers + [i] else ob.takers;
    w.(objects := w.objects[s.state := StateObject(ob.fixture, r.progress, takers)],
       streams := w.streams[i := s.(view := r.view)])
  }

  function ResumeStep(w: World, i: nat): World {
    if !CanResume(w, i) then w
    else
      var r := AdvanceOf(w, i);
      var w1 := Advancing(w, i, r);
      if r.wroteLedger then WriteLedger(w1, w.objects[w.streams[i].state].fixture.name) else w1
  }

  function WorldStep(fixtures: seq<Fixture>, w: World, a: Action): World {
    match a
    case Bind(call) => BindStep(w, fixtures, call)
    case Invoke(m, messages) => InvokeStep(w, m, messages)
    case Resume(i) => ResumeStep(w, i)
  }

  function WorldRun(fixtures: seq<Fixture>, w: World, acts: seq<Action>): World {
    if acts == [] then w
    else WorldStep(fixtures, WorldRun(fixtures, w, acts[..|acts| - 1]), acts[|acts| - 1])
  }

  // ----- The invariant -----

  predicate Took(s: Stream, o: nat, k: nat) {
    s.state == o && Active(s.view.phase) && s.view.phase.invocation == k
  }

  function ChunksOf(f: Fixture, streams: seq<Stream>, i: nat): nat {
    if i < |streams| then Accounted(f, streams[i].view.phase) else 0
  }

  function CompletedBy(streams: seq<Stream>, i: nat): nat {
    if i < |streams| then Completed(streams[i].view.phase) else 0
  }

  function SumChunks(f: Fixture, streams: seq<Stream>, takers: seq<nat>): nat {
    if takers == [] then 0
    else SumChunks(f, streams, takers[..|takers| - 1]) + ChunksOf(f, streams, takers[|takers| - 1])
  }

  function SumCompleted(streams: seq<Stream>, takers: seq<nat>): nat {
    if takers == [] then 0
    else SumCompleted(streams, takers[..|takers| - 1]) + CompletedBy(streams, takers[|takers| - 1])
  }

  /** Every invocation before the cursor was taken by a stream of this object. */
  predicate TakersOk(w: World, o: nat)
    requires o < |w.objects|
  {
    var takers := w.objects[o].takers;
    forall k :: 0 <= k < |takers| ==> takers[k] < |w.streams| && Took(w.streams[takers[k]], o, k)
  }

  predicate ObjectOk(w: World, o: nat)
    requires o < |w.objects|
  {
    var ob := w.objects[o];
    var ledger := ob.progress.ledger;
    && ledger.invocationsTotal == |ob.fixture.invocations|
    && ledger.chunksTotal == ChunksTotal(ob.fixture.invocations)
    && ob.progress.cursor == |ob.takers| <= |ob.fixture.invocations|
    && TakersOk(w, o)
    && ledger.chunksConsumed == SumChunks(ob.fixture, w.streams, ob.takers)
    && ledger.invocationsConsumed == SumCompleted(w.streams, ob.takers)
  }

  predicate StreamOk(w: World, i: nat)
    requires i < |w.streams|
  {
    var s := w.streams[i];
    && s.model < |w.models| && w.models[s.model].state == s.state
    && s.state < |w.objects|
    && var ob := w.objects[s.state];
       && EmittedInOrder(ob.fixture, s.view)
       && (Active(s.view.phase) ==>
             var k := s.view.phase.invocation;
             && k < |ob.takers| && ob.takers[k] == i
             && k < |ob.fixture.invocations|
             && PromptFits(s.messages, ob.fixture.invocations[k]))
  }

  predicate Consistent(w: World) {
    && (forall o :: 0 <= o < |w.objects| ==> ObjectOk(w, o))
    && (forall i :: 0 <= i < |w.streams| ==> StreamOk(w, i))
    && (forall m :: 0 <= m < |w.models| ==> w.models[m].state < |w.objects|)
    && (forall n :: n in w.registered ==>
          w.registered[n] < |w.objects| && w.objects[w.registered[n]].fixture.name == n)
  }

  // ----- Sums over the takers -----

  lemma {:induction false} SumsSame(f: Fixture, s1: seq<Stream>, s2: seq<Stream>, takers: seq<nat>)
    requires forall k :: 0 <= k < |takers| ==>
      && ChunksOf(f, s1, takers[k]) == ChunksOf(f, s2, takers[k])
      && CompletedBy(s1, takers[k]) == CompletedBy(s2, takers[k])
    ensures SumChunks(f, s1, takers) == SumChunks(f, s2, takers)
    ensures SumCompleted(s1, takers) == SumCompleted(s2, takers)
  {
    if takers != [] {
      SumsSame(f, s1, s2, takers[..|takers| - 1]);
    }
  }

  /** Only the stream at position `at` of the takers changed. */
  lemma {:induction false} SumsMove(f: Fixture, s1: seq<Stream>, s2: seq<Stream>, takers: seq<nat>, at: nat)
    requires at < |takers|
    requires forall k :: 0 <= k < |takers| && k != at ==>
      && ChunksOf(f, s1, takers[k]) == ChunksOf(f, s2, takers[k])
      && CompletedBy(s1, takers[k]) == CompletedBy(s2, takers[k])
    ensures SumChunks(f, s2, takers) - SumChunks(f, s1, takers)
         == ChunksOf(f, s2, takers[at]) - ChunksOf(f, s1, takers[at])
    ensures SumCompleted(s2, takers) - SumCompleted(s1, takers)
         == CompletedBy(s2, takers[at]) - CompletedBy(s1, takers[at])
  {
    var n := |takers| - 1;
    if at == n {
      SumsSame(f, s1, s2, takers[..n]);
    } else {
      SumsMove(f, s1, s2, takers[..n], at);
    }
  }

  // ----- Every step keeps the invariant -----

  /** Two worlds agree on everything the invariant of an object or a stream looks at. */
  predicate SameButConversation(a: StateObject, b: StateObject) {
    && a.fixture == b.fixture
    && a.takers == b.takers
    && a.progress.cursor == b.progress.cursor
    && a.progress.ledger == b.progress.ledger
  }

  function FreshObject(f: Fixture): StateObject {
    StateObject(f, FreshProgress(f), [])
  }

  /** `w2` only adds state objects and models to `w1`, and at most names conversations. */
  predicate Extends(w1: World, w2: World) {
    && |w1.objects| <= |w2.objects|
    && (forall o :: 0 <= o < |w1.objects| ==> SameButConversation(w1.objects[o], w2.objects[o]))
    && (forall o :: |w1.objects| <= o < |w2.objects| ==>
          SameButConversation(FreshObject(w2.objects[o].fixture), w2.objects[o]))
    && w1.streams == w2.streams
    && w1.models <= w2.models
    && (forall m :: |w1.models| <= m < |w2.models| ==> w2.models[m].state < |w2.objects|)
    && (forall n :: n in w2.registered ==>
          w2.registered[n] < |w2.objects| && w2.objects[w2.registered[n]].fixture.name == n)
  }

  lemma ExtendsObjectOk(w1: World, w2: World, o: nat)
    requires Consistent(w1) && Extends(w1, w2) && o < |w2.objects|
    ensures ObjectOk(w2, o)
  {
    if o < |w1.objects| {
      assert SameButConversation(w1.objects[o], w2.objects[o]) && ObjectOk(w1, o);
    }
  }

  lemma ExtendsStreamOk(w1: World, w2: World, i: nat)
    requires Consistent(w1) && Extends(w1, w2) && i < |w2.streams|
    ensures StreamOk(w2, i)
  {
    assert StreamOk(w1, i);
    var o := w1.streams[i].state;
    assert SameButConversation(w1.objects[o], w2.objects[o]);
  }

  lemma ExtendsKeeps(w1: World, w2: World)
    requires Consistent(w1) && Extends(w1, w2)
    ensures Consistent(w2)
  {
    forall o | 0 <= o < |w2.objects| ensures ObjectOk(w2, o) {
      ExtendsObjectOk(w1, w2, o);
    }
    forall i | 0 <= i < |w2.streams| ensures StreamOk(w2, i) {
      ExtendsStreamOk(w1, w2, i);
    }
  }

  lemma ExtendsTransitive(w1: World, w2: World, w3: World)
    requires Extends(w1, w2) && Extends(w2, w3)
    ensures Extends(w1, w3)
  {
    forall o | |w1.objects| <= o < |w3.objects|
      ensures SameButConversation(FreshObject(w3.objects[o].fixture), w3.objects[o])
    {
      if o < |w2.objects| {
        assert SameButConversation(w2.objects[o], w3.objects[o]);
      }
    }
    forall o | 0 <= o < |w1.objects| ensures SameButConversation(w1.objects[o], w3.objects[o]) {
      assert SameButConversation(w2.objects[o], w3.objects[o]);
    }
  }

  lemma RestartExtends(w: World, f: Fixture)
    requires Consistent(w)
    ensures Extends(w, Restart(w, f))
  {
  }

  lemma SetConversationExtends(w: World, o: nat, conversation: Option<string>)
    requires Consistent(w) && o < |w.objects|
    ensures Extends(w, SetConversation(w, o, conversation))
  {
  }

  lemma TouchFixtureExtends(w: World, f: Fixture, call: Call)
    requires Consistent(w)
    ensures var r := TouchFixture(w, f, call);
      Extends(w, r.0) && Consistent(r.0) && (r.1.Some? ==> r.1.value < |r.0.objects|)
  {
    RestartExtends(w, f);
    var w1 := EnsureState(w, f);
    ExtendsKeeps(w, w1);
    if Classify(f, w1.objects[w1.registered[f.name]].progress, call) != Refuse {
      AcceptExtends(w1, f, call);
      ExtendsTransitive(w, w1, TouchFixture(w, f, call).0);
    }
  }

  lemma AcceptExtends(w: World, f: Fixture, call: Call)
    requires Consistent(w) && HasState(w, f)
    ensures var w2 := if Classify(f, w.objects[w.registered[f.name]].progress, call) == Claim then Restart(w, f) else w;
      && f.name in w2.registered && w2.registered[f.name] < |w2.objects|
      && var w3 := SetConversation(w2, w2.registered[f.name], call.conversation);
         Extends(w, w3) && Consistent(w3) && |w3.objects| == |w2.objects|
  {
    RestartExtends(w, f);
    var w2 := if Classify(f, w.objects[w.registered[f.name]].progress, call) == Claim then Restart(w, f) else w;
    ExtendsKeeps(w, w2);
    SetConversationExtends(w2, w2.registered[f.name], call.conversation);
    var w3 := SetConversation(w2, w2.registered[f.name], call.conversation);
    ExtendsTransitive(w, w2, w3);
    ExtendsKeeps(w2, w3);
  }

  lemma {:induction false} TouchAllExtends(w: World, fixtures: seq<Fixture>, call: Call)
    requires Consistent(w)
    ensures var r := TouchAll(w, fixtures, call);
      && Extends(w, r.0) && Consistent(r.0)
      && (forall k :: 0 <= k < |r.1| ==> r.1[k] < |r.0.objects|)
  {
    if fixtures != [] {
      TouchAllExtends(w, fixtures[..|fixtures| - 1], call);
      var w1 := TouchAll(w, fixtures[..|fixtures| - 1], call).0;
      TouchFixtureExtends(w1, fixtures[|fixtures| - 1], call);
      ExtendsTransitive(w, w1, TouchFixture(w1, fixtures[|fixtures| - 1], call).0);
    }
  }

  lemma BindKeeps(w: World, fixtures: seq<Fixture>, call: Call)
    requires Consistent(w)
    ensures Extends(w, BindStep(w, fixtures, call)) && Consistent(BindStep(w, fixtures, call))
  {
    TouchAllExtends(w, fixtures, call);
    ExtendsKeeps(w, BindStep(w, fixtures, call));
  }

  lemma InvokeKeeps(w: World, m: nat, messages: seq<Msg>)
    requires Consistent(w)
    ensures Consistent(InvokeStep(w, m, messages))
  {
    var w' := InvokeStep(w, m, messages);
    forall o | 0 <= o < |w'.objects| ensures ObjectOk(w', o) {
      assert ObjectOk(w, o);
      SumsSame(w.objects[o].fixture, w.streams, w'.streams, w.objects[o].takers);
    }
    forall i | 0 <= i < |w'.streams| ensures StreamOk(w', i) {
      if i < |w.streams| {
        assert StreamOk(w, i);
      }
    }
  }

  predicate FaithfulFor(w: World, i: nat, r: Advanced)
    requires CanResume(w, i)
  {
    var s, ob := w.streams[i], w.objects[w.streams[i].state];
    Faithful(ob.fixture, ob.progress, s.messages, s.view, r)
  }

  lemma OtherObjectOk(w: World, i: nat, r: Advanced, o: nat)
    requires Consistent(w) && CanResume(w, i) && o < |w.objects| && o != w.streams[i].state
    ensures ObjectOk(Advancing(w, i, r), o)
  {
    assert ObjectOk(w, o);
    var takers := w.objects[o].takers;
    forall k | 0 <= k < |takers| ensures takers[k] != i {
      assert Took(w.streams[takers[k]], o, k);
    }
    SumsSame(w.objects[o].fixture, w.streams, Advancing(w, i, r).streams, takers);
  }

  lemma OwnTakersOk(w: World, i: nat, r: Advanced)
    requires Consistent(w) && CanResume(w, i) && FaithfulFor(w, i, r)
    ensures TakersOk(Advancing(w, i, r), w.streams[i].state)
  {
    var o := w.streams[i].state;
    assert ObjectOk(w, o) && StreamOk(w, i);
  }

  lemma OwnSumsOk(w: World, i: nat, r: Advanced)
    requires Consistent(w) && CanResume(w, i) && FaithfulFor(w, i, r)
    ensures var o, w' := w.streams[i].state, Advancing(w, i, r);
      && r.progress.ledger.chunksConsumed == SumChunks(w.objects[o].fixture, w'.streams, w'.objects[o].takers)
      && r.progress.ledger.invocationsConsumed == SumCompleted(w'.streams, w'.objects[o].takers)
  {
    var s, o := w.streams[i], w.streams[i].state;
    var ob, streams := w.objects[o], Advancing(w, i, r).streams;
    assert ObjectOk(w, o) && StreamOk(w, i);
    if Active(s.view.phase) {
      forall k | 0 <= k < |ob.takers| && k != s.view.phase.invocation ensures ob.takers[k] != i {
        assert Took(w.streams[ob.takers[k]], o, k);
      }
      SumsMove(ob.fixture, w.streams, streams, ob.takers, s.view.phase.invocation);
    } else {
      forall k | 0 <= k < |ob.takers| ensures ob.takers[k] != i {
        assert Took(w.streams[ob.takers[k]], o, k);
      }
      SumsSame(ob.fixture, w.streams, streams, ob.takers);
      if r.progress.cursor != ob.progress.cursor {
        assert (ob.takers + [i])[..|ob.takers|] == ob.takers;
      }
    }
  }

  lemma OwnObjectOk(w: World, i: nat, r: Advanced)
    requires Consistent(w) && CanResume(w, i) && FaithfulFor(w, i, r)
    ensures ObjectOk(Advancing(w, i, r), w.streams[i].state)
  {
    assert ObjectOk(w, w.streams[i].state);
    OwnTakersOk(w, i, r);
    OwnSumsOk(w, i, r);
  }

  lemma OtherStreamOk(w: World, i: nat, r: Advanced, j: nat)
    requires Consistent(w) && CanResume(w, i) && j < |w.streams| && j != i
    ensures StreamOk(Advancing(w, i, r), j)
  {
    assert StreamOk(w, j);
  }

  lemma OwnStreamOk(w: World, i: nat, r: Advanced)
    requires Consistent(w) && CanResume(w, i) && FaithfulFor(w, i, r)
    ensures StreamOk(Advancing(w, i, r), i)
  {
    assert StreamOk(w, i) && ObjectOk(w, w.streams[i].state);
  }

  lemma AdvancingKeeps(w: World, i: nat, r: Advanced)
    requires Consistent(w) && CanResume(w, i) && FaithfulFor(w, i, r)
    ensures Consistent(Advancing(w, i, r))
  {
    var w' := Advancing(w, i, r);
    forall o | 0 <= o < |w'.objects| ensures ObjectOk(w', o) {
      if o == w.streams[i].state {
        OwnObjectOk(w, i, r);
      } else {
        OtherObjectOk(w, i, r, o);
      }
    }
    forall j | 0 <= j < |w'.streams| ensures StreamOk(w', j) {
      if j == i {
        OwnStreamOk(w, i, r);
      } else {
        OtherStreamOk(w, i, r, j);
      }
    }
  }

  lemma LedgerFilesDoNotMatter(w: World, files: map<string, Ledger>)
    requires Consistent(w)
    ensures Consistent(w.(ledgerFiles := files))
  {
    var w' := w.(ledgerFiles := files);
    forall o | 0 <= o < |w'.objects| ensures ObjectOk(w', o) {
      assert ObjectOk(w, o);
    }
    forall i | 0 <= i < |w'.streams| ensures StreamOk(w', i) {
      assert StreamOk(w, i);
    }
  }

  lemma ResumeKeeps(w: World, i: nat)
    requires Consistent(w)
    ensures Consistent(ResumeStep(w, i))
  {
    if CanResume(w, i) {
      assert StreamOk(w, i);
      var s, ob := w.streams[i], w.objects[w.streams[i].state];
      AdvanceIsFaithful(ob.fixture, ob.progress, s.messages, s.view);
      AdvancingKeeps(w, i, AdvanceOf(w, i));
      LedgerFilesDoNotMatter(Advancing(w, i, AdvanceOf(w, i)), ResumeStep(w, i).ledgerFiles);
    }
  }

  /** Every reachable world is consistent, whatever the calls, streams and their interleaving. */
  lemma {:induction false} RunKeeps(fixtures: seq<Fixture>, w: World, acts: seq<Action>)
    requires Consistent(w)
    ensures Consistent(WorldRun(fixtures, w, acts))
  {
    if acts != [] {
      var n := |acts| - 1;
      RunKeeps(fixtures, w, acts[..n]);
      var w1 := WorldRun(fixtures, w, acts[..n]);
      match acts[n]
      case Bind(call) => BindKeeps(w1, fixtures, call);
      case Invoke(m, messages) => InvokeKeeps(w1, m, messages);
      case Resume(i) => ResumeKeeps(w1, i);
    }
  }

  // ----- Faithfulness and conservation -----

  /** Some sequence of calls, invocations and stream segments leads from `w0` to `w`. */
  ghost predicate Leads(fixtures: seq<Fixture>, w0: World, w: World) {
    exists acts: seq<Action> :: w == WorldRun(fixtures, w0, acts)
  }

  ghost predicate Reachable(fixtures: seq<Fixture>, w: World) {
    Leads(fixtures, EMPTY, w)
  }

  lemma ReachableIsConsistent(fixtures: seq<Fixture>, w: World)
    requires Reachable(fixtures, w)
    ensures Consistent(w)
  {
    var acts: seq<Action> :| w == WorldRun(fixtures, EMPTY, acts);
    RunKeeps(fixtures, EMPTY, acts);
  }

  lemma ChunksTotalSnoc(invocations: seq<FixtureInvocation>, n: nat)
    requires n < |invocations|
    ensures ChunksTotal(invocations[..n + 1]) == ChunksTotal(invocations[..n]) + |invocations[n].chunks|
  {
    assert invocations[..n + 1][..n] == invocations[..n];
  }

  lemma {:induction false} ChunksTotalGrows(invocations: seq<FixtureInvocation>, n: nat)
    requires n <= |invocations|
    ensures ChunksTotal(invocations[..n]) <= ChunksTotal(invocations)
  {
    if n == |invocations| {
      assert invocations[..n] == invocations;
    } else {
      var front := invocations[..|invocations| - 1];
      assert front[..n] == invocations[..n];
      ChunksTotalGrows(front, n);
    }
  }

  /** The sums over the first `n` takers against what was recorded for the invocations they took. */
  lemma {:induction false} SumBounds(w: World, o: nat, n: nat)
    requires Consistent(w) && o < |w.objects| && n <= |w.objects[o].takers|
    ensures n <= |w.objects[o].fixture.invocations|
    ensures var f, takers := w.objects[o].fixture, w.objects[o].takers[..n];
      && SumChunks(f, w.streams, takers) <= ChunksTotal(f.invocations[..n])
      && SumCompleted(w.streams, takers) <= n
      && (SumCompleted(w.streams, takers) == n <==> AllCompleted(w.streams, takers))
      && (SumCompleted(w.streams, takers) == n ==>
            SumChunks(f, w.streams, takers) == ChunksTotal(f.invocations[..n]))
  {
    assert ObjectOk(w, o);
    if n > 0 {
      var f, takers := w.objects[o].fixture, w.objects[o].takers;
      SumBounds(w, o, n - 1);
      assert takers[..n][..n - 1] == takers[..n - 1];
      ChunksTotalSnoc(f.invocations, n - 1);
      TakerAccounts(w, o, n - 1);
      assert takers[..n][n - 1] == takers[n - 1];
      AllCompletedSnoc(w.streams, takers, n);
    }
  }

  predicate AllCompleted(streams: seq<Stream>, takers: seq<nat>) {
    forall k :: 0 <= k < |takers| ==> CompletedBy(streams, takers[k]) == 1
  }

  lemma AllCompletedSnoc(streams: seq<Stream>, takers: seq<nat>, n: nat)
    requires 0 < n <= |takers|
    ensures AllCompleted(streams, takers[..n]) <==>
      AllCompleted(streams, takers[..n - 1]) && CompletedBy(streams, takers[n - 1]) == 1
  {
    var all, front := takers[..n], takers[..n - 1];
    assert forall k :: 0 <= k < n - 1 ==> all[k] == front[k];
    assert all[n - 1] == takers[n - 1];
  }

  /** What the taker of invocation `k` has handed over of it. */
  lemma TakerAccounts(w: World, o: nat, k: nat)
    requires Consistent(w) && o < |w.objects| && k < |w.objects[o].takers|
    ensures k < |w.objects[o].fixture.invocations| && w.objects[o].takers[k] < |w.streams|
    ensures var f, i := w.objects[o].fixture, w.objects[o].takers[k];
      && ChunksOf(f, w.streams, i) <= |f.invocations[k].chunks|
      && CompletedBy(w.streams, i) <= 1
      && (CompletedBy(w.streams, i) == 1 ==> ChunksOf(f, w.streams, i) == |f.invocations[k].chunks|)
  {
    assert ObjectOk(w, o);
    assert Took(w.streams[w.objects[o].takers[k]], o, k);
    assert StreamOk(w, w.objects[o].takers[k]);
  }

  /** In every reachable world no two streams take the same invocation of one state object,
      the taken ones are exactly those before the cursor, each was taken by a run whose prompt
      fits or that carried none, and each stream has emitted its recorded chunks in order. */
  lemma StreamsAreFaithful(fixtures: seq<Fixture>, w: World, i: nat)
    requires Reachable(fixtures, w) && i < |w.streams| && Active(w.streams[i].view.phase)
    ensures var s, k := w.streams[i], w.streams[i].view.phase.invocation;
      && s.state < |w.objects|
      && var ob := w.objects[s.state];
         && k < ob.progress.cursor <= |ob.fixture.invocations|
         && PromptFits(s.messages, ob.fixture.invocations[k])
         && EmittedInOrder(ob.fixture, s.view)
         && (forall j :: 0 <= j < |w.streams| && Took(w.streams[j], s.state, k) ==> j == i)
  {
    ReachableIsConsistent(fixtures, w);
    assert StreamOk(w, i);
    assert ObjectOk(w, w.streams[i].state);
    forall j | 0 <= j < |w.streams| && Took(w.streams[j], w.streams[i].state, w.streams[i].view.phase.invocation)
      ensures j == i
    {
      assert StreamOk(w, j);
    }
  }

  lemma EveryInvocationBeforeTheCursorWasTaken(fixtures: seq<Fixture>, w: World, o: nat, k: nat)
    requires Reachable(fixtures, w) && o < |w.objects| && k < w.objects[o].progress.cursor
    ensures exists i :: 0 <= i < |w.streams| && Took(w.streams[i], o, k)
  {
    ReachableIsConsistent(fixtures, w);
    assert ObjectOk(w, o);
    assert Took(w.streams[w.objects[o].takers[k]], o, k);
  }

  /** The ledger of every state object is conserved: it never claims more than the cursor, the
      cursor never passes the script, and the chunk count is the sum over the taken invocations
      of what their streams have got through. */
  lemma LedgerIsConserved(fixtures: seq<Fixture>, w: World, o: nat)
    requires Reachable(fixtures, w) && o < |w.objects|
    ensures var ob := w.objects[o];
      var ledger := ob.progress.ledger;
      && ledger.invocationsConsumed <= ob.progress.cursor <= ledger.invocationsTotal == |ob.fixture.invocations|
      && ledger.chunksConsumed <= ledger.chunksTotal == ChunksTotal(ob.fixture.invocations)
      && ledger.chunksConsumed == SumChunks(ob.fixture, w.streams, ob.takers)
      && |ob.takers| == ob.progress.cursor
      && (forall k :: 0 <= k < |ob.takers| ==> ob.takers[k] < |w.streams| && Took(w.streams[ob.takers[k]], o, k))
  {
    ReachableIsConsistent(fixtures, w);
    assert ObjectOk(w, o);
    var ob := w.objects[o];
    SumBounds(w, o, |ob.takers|);
    assert ob.takers[..|ob.takers|] == ob.takers;
    ChunksTotalGrows(ob.fixture.invocations, |ob.takers|);
  }

  /** Some stream of this object has emitted the whole of invocation `k`. */
  predicate StreamedOut(w: World, o: nat, k: nat)
    requires o < |w.objects| && k < |w.objects[o].fixture.invocations|
  {
    var f := w.objects[o].fixture;
    exists i :: 0 <= i < |w.streams| && w.streams[i].state == o
      && w.streams[i].view == StreamView(Finished(k), Emission(f, k, |f.invocations[k].chunks|))
  }

  lemma CompletedIsStreamedOut(w: World, o: nat, k: nat)
    requires Consistent(w) && o < |w.objects| && k < |w.objects[o].fixture.invocations|
    ensures StreamedOut(w, o, k) <==>
      k < |w.objects[o].takers| && CompletedBy(w.streams, w.objects[o].takers[k]) == 1
  {
    assert ObjectOk(w, o);
    var takers := w.objects[o].takers;
    if StreamedOut(w, o, k) {
      var f := w.objects[o].fixture;
      var i :| 0 <= i < |w.streams| && w.streams[i].state == o
        && w.streams[i].view == StreamView(Finished(k), Emission(f, k, |f.invocations[k].chunks|));
      assert StreamOk(w, i);
    }
    if k < |takers| && CompletedBy(w.streams, takers[k]) == 1 {
      assert Took(w.streams[takers[k]], o, k) && StreamOk(w, takers[k]);
    }
  }

  /** The drained test of the specs is sound and complete: the ledger counts every invocation
      as consumed exactly when every recorded invocation was streamed out whole (by one stream
      each), and then every recorded chunk is counted too. */
  lemma DrainedLedgerMeansEverythingEmitted(fixtures: seq<Fixture>, w: World, o: nat)
    requires Reachable(fixtures, w) && o < |w.objects|
    ensures var ob := w.objects[o];
      var ledger := ob.progress.ledger;
      && (ledger.invocationsConsumed == ledger.invocationsTotal <==>
            forall k :: 0 <= k < |ob.fixture.invocations| ==> StreamedOut(w, o, k))
      && (ledger.invocationsConsumed == ledger.invocationsTotal ==> ledger.chunksConsumed == ledger.chunksTotal)
  {
    ReachableIsConsistent(fixtures, w);
    assert ObjectOk(w, o);
    var ob := w.objects[o];
    var n := |ob.fixture.invocations|;
    SumBounds(w, o, |ob.takers|);
    assert ob.takers[..|ob.takers|] == ob.takers;
    forall k | 0 <= k < n
      ensures StreamedOut(w, o, k) <==> k < |ob.takers| && CompletedBy(w.streams, ob.takers[k]) == 1
    {
      CompletedIsStreamedOut(w, o, k);
    }
    if ob.progress.ledger.invocationsConsumed == n {
      assert ob.fixture.invocations[..n] == ob.fixture.invocations;
    }
    if |ob.takers| < n {
      assert !StreamedOut(w, o, |ob.takers|);
    }
  }

  predicate Drained(w: World, o: nat)
    requires o < |w.objects|
  {
    w.objects[o].progress.ledger.invocationsConsumed == w.objects[o].progress.ledger.invocationsTotal
  }

  /** Once the ledger of an object is drained, every stream that starts on it overruns, in every
      run: it fails, takes nothing, and is entered in the ledger. */
  lemma ADrainedScriptOverruns(fixtures: seq<Fixture>, w: World, i: nat, o: nat)
    requires Reachable(fixtures, w) && i < |w.streams| && w.streams[i].view.phase.Ready?
    requires w.streams[i].state == o < |w.objects| && Drained(w, o)
    ensures var w' := ResumeStep(w, i);
      && i < |w'.streams| && w'.streams[i].view == StreamView(Overran, [])
      && o < |w'.objects| && w'.objects[o].progress.cursor == w.objects[o].progress.cursor && Drained(w', o)
      && w'.objects[o].progress.ledger.overruns
         == w.objects[o].progress.ledger.overruns + [LatestHumanText(w.streams[i].messages)]
  {
    LedgerIsConserved(fixtures, w, o);
    assert AdvanceOf(w, i) == Begin(w.objects[o].fixture, w.objects[o].progress, w.streams[i].messages);
  }

  lemma LeadsOn(fixtures: seq<Fixture>, w: World, a: Action)
    requires Reachable(fixtures, w)
    ensures Reachable(fixtures, WorldStep(fixtures, w, a))
  {
    var acts: seq<Action> :| w == WorldRun(fixtures, EMPTY, acts);
    assert (acts + [a])[..|acts|] == acts;
    assert WorldRun(fixtures, EMPTY, acts + [a]) == WorldStep(fixtures, w, a);
  }

  /** An extra turn is not answered by anything else: when a call binds its model to an object
      that is already drained, the model's invocation overruns. */
  lemma AnExtraTurnFailsLoudly(
    fixtures: seq<Fixture>, w: World, call: Call, w1: World, messages: seq<Msg>, w2: World, o: nat)
    requires Reachable(fixtures, w) && o < |w.objects| && Drained(w, o)
    requires w1 == BindStep(w, fixtures, call) && |w1.models| > |w.models| && w1.models[|w.models|].state == o
    requires w2 == InvokeStep(w1, |w.models|, messages)
    ensures var i, w3 := |w.streams|, ResumeStep(w2, |w.streams|);
      && i < |w3.streams| && w3.streams[i].view.phase == Overran
      && o < |w3.objects| && w3.objects[o].progress.cursor == w.objects[o].progress.cursor
      && w3.objects[o].progress.ledger.overruns
         == w.objects[o].progress.ledger.overruns + [LatestHumanText(messages)]
  {
    ReachableIsConsistent(fixtures, w);
    BindKeeps(w, fixtures, call);
    LeadsOn(fixtures, w, Bind(call));
    LeadsOn(fixtures, w1, Invoke(|w.models|, messages));
    assert SameButConversation(w.objects[o], w1.objects[o]);
    ADrainedScriptOverruns(fixtures, w2, |w.streams|, o);
  }

  // ----- Restart isolation -----

  lemma {:induction false} RunExtends(fixtures: seq<Fixture>, w: World, acts: seq<Action>)
    requires Consistent(w)
    ensures var w' := WorldRun(fixtures, w, acts);
      && |w.objects| <= |w'.objects|
      && |w.streams| <= |w'.streams|
      && w.models <= w'.models
      && (forall i :: 0 <= i < |w.streams| ==>
            w'.streams[i].state == w.streams[i].state && w'.streams[i].model == w.streams[i].model)
  {
    if acts != [] {
      var n := |acts| - 1;
      RunExtends(fixtures, w, acts[..n]);
      RunKeeps(fixtures, w, acts[..n]);
      var w1 := WorldRun(fixtures, w, acts[..n]);
      if acts[n].Bind? {
        BindKeeps(w1, fixtures, acts[n].call);
      }
    }
  }

  /** A stream left over from before a restart, or started later by a model bound before it,
      never changes a state object that a later call created: not its cursor, not its ledger. */
  lemma RestartIsolatesLeftovers(fixtures: seq<Fixture>, w0: World, w: World, i: nat, o: nat)
    requires Reachable(fixtures, w0) && Leads(fixtures, w0, w)
    requires |w0.objects| <= o < |w.objects|
    requires i < |w.streams| && (i < |w0.streams| || w.streams[i].model < |w0.models|)
    ensures o < |ResumeStep(w, i).objects| && ResumeStep(w, i).objects[o] == w.objects[o]
  {
    ReachableIsConsistent(fixtures, w0);
    var after: seq<Action> :| w == WorldRun(fixtures, w0, after);
    RunKeeps(fixtures, w0, after);
    RunExtends(fixtures, w0, after);
    assert StreamOk(w, i);
    if i < |w0.streams| {
      assert StreamOk(w0, i);
    }
    assert w.streams[i].state < |w0.objects|;
  }

  /** A claim does put a new object behind the fixture's name, with nothing consumed. */
  lemma ClaimStartsOver(w: World, f: Fixture, call: Call)
    requires Consistent(w) && HasState(w, f) && BindingOf(w, f, call) == Claim
    ensures var r := TouchFixture(w, f, call);
      && r.1 == Some(|w.objects|)
      && r.0.registered[f.name] == |w.objects| < |r.0.objects|
      && r.0.objects[..|w.objects|] == w.objects
      && r.0.objects[|w.objects|].progress.cursor == 0
      && r.0.objects[|w.objects|].progress.ledger == FreshProgress(f).ledger
  {
  }

  /** Whatever stream writes a ledger file, also a left-over one, the file then shows the
      ledger of the object registered under that name at that moment. */
  lemma LedgerFilesShowTheCurrentAttempt(w: World, i: nat, name: string)
    requires Consistent(w)
    requires name in ResumeStep(w, i).ledgerFiles
    ensures var w' := ResumeStep(w, i);
      || (name in w.ledgerFiles && w'.ledgerFiles[name] == w.ledgerFiles[name])
      || (name in w'.registered && w'.registered[name] < |w'.objects|
          && w'.ledgerFiles[name] == w'.objects[w'.registered[name]].progress.ledger)
  {
    if CanResume(w, i) {
      ResumeKeeps(w, i);
    }
  }

  // ----- Ownership -----

  function ConversationOf(w: World, o: nat): Option<string>
    requires o < |w.objects|
  {
    w.objects[o].progress.conversation
  }

  /** Between the two worlds a conversation is only ever written where there was none. */
  predicate NamesOnce(w1: World, w2: World, call: Call) {
    && |w1.objects| <= |w2.objects|
    && (forall o :: 0 <= o < |w1.objects| ==>
          || ConversationOf(w2, o) == ConversationOf(w1, o)
          || (ConversationOf(w1, o).None? && ConversationOf(w2, o) == call.conversation))
  }

  lemma TouchNamesOnce(w: World, f: Fixture, call: Call)
    requires Consistent(w)
    ensures NamesOnce(w, TouchFixture(w, f, call).0, call)
  {
  }

  lemma {:induction false} TouchAllNamesOnce(w: World, fixtures: seq<Fixture>, call: Call)
    requires Consistent(w)
    ensures NamesOnce(w, TouchAll(w, fixtures, call).0, call)
  {
    if fixtures != [] {
      TouchAllNamesOnce(w, fixtures[..|fixtures| - 1], call);
      TouchAllExtends(w, fixtures[..|fixtures| - 1], call);
      var w1 := TouchAll(w, fixtures[..|fixtures| - 1], call).0;
      TouchNamesOnce(w1, fixtures[|fixtures| - 1], call);
    }
  }

  lemma ResumeKeepsOwners(w: World, i: nat, o: nat)
    requires Consistent(w) && o < |w.objects|
    ensures o < |ResumeStep(w, i).objects| && ConversationOf(ResumeStep(w, i), o) == ConversationOf(w, o)
  {
    if CanResume(w, i) {
      assert StreamOk(w, i);
      var s, ob := w.streams[i], w.objects[w.streams[i].state];
      AdvanceIsFaithful(ob.fixture, ob.progress, s.messages, s.view);
    }
  }

  lemma StepKeepsOwner(fixtures: seq<Fixture>, w: World, a: Action, o: nat)
    requires Consistent(w) && o < |w.objects| && ConversationOf(w, o).Some?
    ensures o < |WorldStep(fixtures, w, a).objects|
    ensures ConversationOf(WorldStep(fixtures, w, a), o) == ConversationOf(w, o)
  {
    match a
    case Bind(call) => TouchAllNamesOnce(w, fixtures, call);
    case Invoke(_, _) =>
    case Resume(i) => ResumeKeepsOwners(w, i, o);
  }

  /** Once a state object belongs to a conversation it does so for its whole life, in every
      run, identified or not: another conversation can only get a new object. */
  lemma {:induction false} OwnershipIsForLife(fixtures: seq<Fixture>, w: World, acts: seq<Action>, o: nat)
    requires Consistent(w) && o < |w.objects| && ConversationOf(w, o).Some?
    ensures o < |WorldRun(fixtures, w, acts).objects|
    ensures ConversationOf(WorldRun(fixtures, w, acts), o) == ConversationOf(w, o)
  {
    if acts != [] {
      var n := |acts| - 1;
      OwnershipIsForLife(fixtures, w, acts[..n], o);
      RunKeeps(fixtures, w, acts[..n]);
      StepKeepsOwner(fixtures, WorldRun(fixtures, w, acts[..n]), acts[n], o);
    }
  }

  predicate DistinctNames(fixtures: seq<Fixture>) {
    forall i, j :: 0 <= i < j < |fixtures| ==> fixtures[i].name != fixtures[j].name
  }

  /** The registry as the loader builds it: one fixture a name, none of them empty. */
  predicate WellFormedRegistry(fixtures: seq<Fixture>) {
    && DistinctNames(fixtures)
    && (forall i :: 0 <= i < |fixtures| ==> fixtures[i].invocations != [])
  }

  /** Every state object replays a fixture of the registry. */
  predicate Known(w: World, fixtures: seq<Fixture>) {
    forall o :: 0 <= o < |w.objects| ==> w.objects[o].fixture in fixtures
  }

  lemma RegisteredFixture(w: World, fixtures: seq<Fixture>, f: Fixture)
    requires Consistent(w) && Known(w, fixtures) && DistinctNames(fixtures) && f in fixtures && HasState(w, f)
    ensures w.objects[w.registered[f.name]].fixture == f
  {
  }

  /** With identified calls only: an object without an owner was never consumed from, and a
      model's binder is the owner of its object. */
  predicate Owned(w: World) {
    && (forall o :: 0 <= o < |w.objects| && ConversationOf(w, o).None? ==> w.objects[o].progress.cursor == 0)
    && (forall m :: 0 <= m < |w.models| ==>
          && w.models[m].binder.Some?
          && w.models[m].state < |w.objects|
          && ConversationOf(w, w.models[m].state) == w.models[m].binder)
  }

  /** Object `o` of `w2` is unclaimed, or was owned by the same conversation before, or was
      claimed by this call, which then opened its fixture with the first prompt. */
  predicate ClaimedByFirstPrompt(w1: World, w2: World, call: Call, o: nat)
    requires o < |w2.objects|
  {
    || ConversationOf(w2, o).None?
    || (o < |w1.objects| && ConversationOf(w1, o) == ConversationOf(w2, o))
    || ((o < |w1.objects| ==> ConversationOf(w1, o).None?)
        && ConversationOf(w2, o) == call.conversation
        && OpensWith(w2.objects[o].fixture, call.text))
  }

  /** What one pass over (part of) the registry does for an identified call. */
  predicate BindsProperly(w1: World, w2: World, call: Call, fixtures: seq<Fixture>) {
    && |w1.objects| <= |w2.objects|
    && Known(w2, fixtures)
    && Owned(w2)
    && (forall o :: 0 <= o < |w2.objects| ==> ClaimedByFirstPrompt(w1, w2, call, o))
    && (forall o :: 0 <= o < |w1.objects| ==> w2.objects[o].fixture == w1.objects[o].fixture)
    && (forall o :: 0 <= o < |w1.objects| && ConversationOf(w1, o).Some? ==>
          ConversationOf(w2, o) == ConversationOf(w1, o))
  }

  lemma BindsProperlyTransitive(w1: World, w2: World, w3: World, call: Call, fixtures: seq<Fixture>)
    requires BindsProperly(w1, w2, call, fixtures) && BindsProperly(w2, w3, call, fixtures)
    ensures BindsProperly(w1, w3, call, fixtures)
  {
    forall o | 0 <= o < |w3.objects| ensures ClaimedByFirstPrompt(w1, w3, call, o) {
      assert ClaimedByFirstPrompt(w2, w3, call, o);
      if o < |w2.objects| {
        assert ClaimedByFirstPrompt(w1, w2, call, o);
      }
    }
  }

  lemma RestartBindsProperly(w: World, fixtures: seq<Fixture>, f: Fixture, call: Call)
    requires Consistent(w) && Known(w, fixtures) && Owned(w) && f in fixtures
    ensures BindsProperly(w, Restart(w, f), call, fixtures)
  {
  }

  lemma NamingBindsProperly(w: World, fixtures: seq<Fixture>, o: nat, call: Call)
    requires Consistent(w) && Known(w, fixtures) && Owned(w)
    requires o < |w.objects| && call.conversation.Some?
    requires ConversationOf(w, o).None? ==> OpensWith(w.objects[o].fixture, call.text)
    requires ConversationOf(w, o).Some? ==> ConversationOf(w, o) == call.conversation
    ensures BindsProperly(w, SetConversation(w, o, call.conversation), call, fixtures)
  {
  }

  lemma TouchBindsProperly(w: World, fixtures: seq<Fixture>, f: Fixture, call: Call)
    requires Consistent(w) && Known(w, fixtures) && Owned(w)
    requires WellFormedRegistry(fixtures) && f in fixtures && call.conversation.Some?
    ensures BindsProperly(w, TouchFixture(w, f, call).0, call, fixtures)
    ensures var r := TouchFixture(w, f, call);
      r.1.Some? ==> r.1.value < |r.0.objects| && ConversationOf(r.0, r.1.value) == call.conversation
  {
    EnsureBindsProperly(w, fixtures, f, call);
    var w1 := EnsureState(w, f);
    if BindingOf(w, f, call) != Refuse {
      DecideBindsProperly(w1, fixtures, f, call);
      BindsProperlyTransitive(w, w1, TouchFixture(w, f, call).0, call, fixtures);
    }
  }

  lemma EnsureBindsProperly(w: World, fixtures: seq<Fixture>, f: Fixture, call: Call)
    requires Consistent(w) && Known(w, fixtures) && Owned(w)
    requires WellFormedRegistry(fixtures) && f in fixtures
    ensures var w1 := EnsureState(w, f);
      Consistent(w1) && Known(w1, fixtures) && Owned(w1) && BindsProperly(w, w1, call, fixtures)
  {
    var w1 := EnsureState(w, f);
    RestartExtends(w, f);
    ExtendsKeeps(w, w1);
    RestartBindsProperly(w, fixtures, f, call);
    forall o | 0 <= o < |w1.objects| ensures ClaimedByFirstPrompt(w, w1, call, o) {
    }
  }

  /** The object a fixture's name stands for once the call is accepted. */
  lemma DecideBindsProperly(w: World, fixtures: seq<Fixture>, f: Fixture, call: Call)
    requires Consistent(w) && Known(w, fixtures) && Owned(w) && HasState(w, f)
    requires WellFormedRegistry(fixtures) && f in fixtures && call.conversation.Some?
    requires Classify(f, w.objects[w.registered[f.name]].progress, call) != Refuse
    ensures var w2 := if Classify(f, w.objects[w.registered[f.name]].progress, call) == Claim then Restart(w, f) else w;
      && f.name in w2.registered && w2.registered[f.name] < |w2.objects|
      && BindsProperly(w, SetConversation(w2, w2.registered[f.name], call.conversation), call, fixtures)
  {
    RegisteredFixture(w, fixtures, f);
    var o := w.registered[f.name];
    if w.objects[o].progress.conversation.None? {
      FirstBindNeedsFirstPrompt(f, w.objects[o].progress, call);
    }
    if Classify(f, w.objects[o].progress, call) == Claim {
      ClaimBindsProperly(w, fixtures, f, call);
    } else {
      NamingBindsProperly(w, fixtures, o, call);
    }
  }

  lemma ClaimBindsProperly(w: World, fixtures: seq<Fixture>, f: Fixture, call: Call)
    requires Consistent(w) && Known(w, fixtures) && Owned(w)
    requires WellFormedRegistry(fixtures) && f in fixtures && call.conversation.Some? && OpensWith(f, call.text)
    ensures var w' := Restart(w, f);
      && f.name in w'.registered && w'.registered[f.name] < |w'.objects|
      && BindsProperly(w, SetConversation(w', w'.registered[f.name], call.conversation), call, fixtures)
  {
    RestartExtends(w, f);
    var w' := Restart(w, f);
    ExtendsKeeps(w, w');
    RestartBindsProperly(w, fixtures, f, call);
    NamingBindsProperly(w', fixtures, w'.registered[f.name], call);
    BindsProperlyTransitive(w, w', SetConversation(w', w'.registered[f.name], call.conversation), call, fixtures);
  }

  predicate AllOwnedBy(w: World, objects: seq<nat>, conversation: Option<string>) {
    forall k :: 0 <= k < |objects| ==> objects[k] < |w.objects| && ConversationOf(w, objects[k]) == conversation
  }

  lemma StillOwnedBy(w1: World, w2: World, call: Call, fixtures: seq<Fixture>, objects: seq<nat>)
    requires BindsProperly(w1, w2, call, fixtures) && call.conversation.Some?
    requires AllOwnedBy(w1, objects, call.conversation)
    ensures AllOwnedBy(w2, objects, call.conversation)
  {
  }

  lemma {:induction false} TouchAllBindsProperly(w: World, fixtures: seq<Fixture>, n: nat, call: Call)
    requires Consistent(w) && Known(w, fixtures) && Owned(w) && n <= |fixtures|
    requires WellFormedRegistry(fixtures) && call.conversation.Some?
    ensures var r := TouchAll(w, fixtures[..n], call);
      BindsProperly(w, r.0, call, fixtures) && AllOwnedBy(r.0, r.1, call.conversation)
  {
    if n == 0 {
      assert fixtures[..0] == [];
      forall o | 0 <= o < |w.objects| ensures ClaimedByFirstPrompt(w, w, call, o) {
      }
    } else {
      TouchAllBindsProperly(w, fixtures, n - 1, call);
      TouchAllExtends(w, fixtures[..n - 1], call);
      assert fixtures[..n][..n - 1] == fixtures[..n - 1];
      var (w1, matches) := TouchAll(w, fixtures[..n - 1], call);
      TouchBindsProperly(w1, fixtures, fixtures[n - 1], call);
      var (w2, m) := TouchFixture(w1, fixtures[n - 1], call);
      AnotherBindsProperly(w, w1, w2, fixtures, call, matches, m);
      TouchAllSnoc(w, fixtures[..n], call);
    }
  }

  lemma TouchAllSnoc(w: World, fixtures: seq<Fixture>, call: Call)
    requires |fixtures| > 0
    ensures var (w1, matches) := TouchAll(w, fixtures[..|fixtures| - 1], call);
      var (w2, m) := TouchFixture(w1, fixtures[|fixtures| - 1], call);
      TouchAll(w, fixtures, call) == (w2, if m.Some? then matches + [m.value] else matches)
  {
  }

  lemma AnotherBindsProperly(
    w: World, w1: World, w2: World, fixtures: seq<Fixture>, call: Call, matches: seq<nat>, m: Option<nat>)
    requires BindsProperly(w, w1, call, fixtures) && BindsProperly(w1, w2, call, fixtures) && call.conversation.Some?
    requires AllOwnedBy(w1, matches, call.conversation)
    requires m.Some? ==> m.value < |w2.objects| && ConversationOf(w2, m.value) == call.conversation
    ensures BindsProperly(w, w2, call, fixtures)
    ensures AllOwnedBy(w2, if m.Some? then matches + [m.value] else matches, call.conversation)
  {
    BindsProperlyTransitive(w, w1, w2, call, fixtures);
    StillOwnedBy(w1, w2, call, fixtures, matches);
  }

  lemma AddingAModelBindsProperly(
    w: World, w1: World, w2: World, fixtures: seq<Fixture>, call: Call, m: nat)
    requires BindsProperly(w, w1, call, fixtures)
    requires m < |w1.objects| && call.conversation.Some? && ConversationOf(w1, m) == call.conversation
    requires w2.objects == w1.objects && w2.models == w1.models + [BoundModel(m, call.conversation)]
    ensures BindsProperly(w, w2, call, fixtures)
  {
    forall o | 0 <= o < |w2.objects| ensures ClaimedByFirstPrompt(w, w2, call, o) {
      assert ClaimedByFirstPrompt(w, w1, call, o);
    }
  }

  lemma BindIsOwned(w: World, fixtures: seq<Fixture>, call: Call)
    requires Consistent(w) && Known(w, fixtures) && Owned(w)
    requires WellFormedRegistry(fixtures) && call.conversation.Some?
    ensures BindsProperly(w, BindStep(w, fixtures, call), call, fixtures)
  {
    TouchAllBindsProperly(w, fixtures, |fixtures|, call);
    assert fixtures[..|fixtures|] == fixtures;
    var (w1, matches) := TouchAll(w, fixtures, call);
    if |matches| == 1 {
      AddingAModelBindsProperly(w, w1, BindStep(w, fixtures, call), fixtures, call, matches[0]);
    }
  }

  predicate IdentifiedCalls(acts: seq<Action>) {
    forall i :: 0 <= i < |acts| && acts[i].Bind? ==> acts[i].call.conversation.Some?
  }

  lemma {:induction false} IdentifiedRunIsOwned(fixtures: seq<Fixture>, acts: seq<Action>)
    requires WellFormedRegistry(fixtures) && IdentifiedCalls(acts)
    ensures Consistent(WorldRun(fixtures, EMPTY, acts))
    ensures Known(WorldRun(fixtures, EMPTY, acts), fixtures)
    ensures Owned(WorldRun(fixtures, EMPTY, acts))
  {
    RunKeeps(fixtures, EMPTY, acts);
    if acts != [] {
      var n := |acts| - 1;
      assert forall i :: 0 <= i < n ==> acts[..n][i] == acts[i];
      IdentifiedRunIsOwned(fixtures, acts[..n]);
      StepIsOwned(WorldRun(fixtures, EMPTY, acts[..n]), fixtures, acts[n]);
    }
  }

  lemma StepIsOwned(w: World, fixtures: seq<Fixture>, a: Action)
    requires WellFormedRegistry(fixtures) && (a.Bind? ==> a.call.conversation.Some?)
    requires Consistent(w) && Known(w, fixtures) && Owned(w)
    ensures Known(WorldStep(fixtures, w, a), fixtures) && Owned(WorldStep(fixtures, w, a))
  {
    match a
    case Bind(call) => BindIsOwned(w, fixtures, call);
    case Invoke(_, _) =>
    case Resume(i) => ResumeIsOwned(w, fixtures, i);
  }

  lemma ResumeIsOwned(w: World, fixtures: seq<Fixture>, i: nat)
    requires Consistent(w) && Known(w, fixtures) && Owned(w)
    ensures Known(ResumeStep(w, i), fixtures) && Owned(ResumeStep(w, i))
  {
    if CanResume(w, i) {
      assert StreamOk(w, i);
      var s, ob := w.streams[i], w.objects[w.streams[i].state];
      AdvanceIsFaithful(ob.fixture, ob.progress, s.messages, s.view);
    }
  }

  /** Some run of identified calls over the registry leads to `w`. */
  ghost predicate ReachableIdentified(fixtures: seq<Fixture>, w: World) {
    && WellFormedRegistry(fixtures)
    && exists acts: seq<Action> :: IdentifiedCalls(acts) && w == WorldRun(fixtures, EMPTY, acts)
  }

  /** In every run of identified calls over non-empty fixtures, a call that gives a state
      object its owner opened that object's fixture with the first recorded prompt. */
  lemma OwnerOpenedWithFirstPrompt(fixtures: seq<Fixture>, w: World, w': World, call: Call, o: nat)
    requires ReachableIdentified(fixtures, w) && call.conversation.Some? && w' == BindStep(w, fixtures, call)
    requires o < |w'.objects| && ConversationOf(w', o).Some? && (o < |w.objects| ==> ConversationOf(w, o).None?)
    ensures ConversationOf(w', o) == call.conversation && OpensWith(w'.objects[o].fixture, call.text)
  {
    var acts: seq<Action> :| IdentifiedCalls(acts) && w == WorldRun(fixtures, EMPTY, acts);
    IdentifiedRunIsOwned(fixtures, acts);
    BindIsOwned(w, fixtures, call);
    assert ClaimedByFirstPrompt(w, w', call, o);
  }

  /** In such runs every stream that ever drew from a state object was started by a model that
      the owning conversation bound. */
  lemma OnlyTheOwnerConsumes(fixtures: seq<Fixture>, w: World, i: nat)
    requires ReachableIdentified(fixtures, w) && i < |w.streams|
    ensures var s := w.streams[i];
      && s.model < |w.models| && s.state < |w.objects|
      && w.models[s.model].binder.Some?
      && w.models[s.model].binder == ConversationOf(w, s.state)
  {
    var acts: seq<Action> :| IdentifiedCalls(acts) && w == WorldRun(fixtures, EMPTY, acts);
    IdentifiedRunIsOwned(fixtures, acts);
    assert StreamOk(w, i);
  }

  // ----- A bind is unambiguous -----

  function CountAccepting(w: World, fixtures: seq<Fixture>, call: Call): nat {
    if fixtures == [] then 0
    else
      CountAccepting(w, fixtures[..|fixtures| - 1], call)
      + (if BindingOf(w, fixtures[|fixtures| - 1], call) == Refuse then 0 else 1)
  }

  /** Touching one fixture leaves the decision for another as it was. */
  lemma TouchLeavesOthers(w: World, f: Fixture, g: Fixture, call: Call)
    requires Consistent(w) && f.name != g.name
    ensures BindingOf(TouchFixture(w, f, call).0, g, call) == BindingOf(w, g, call)
  {
  }

  lemma {:induction false} TouchAllLeavesOthers(w: World, fixtures: seq<Fixture>, g: Fixture, call: Call)
    requires Consistent(w) && forall i :: 0 <= i < |fixtures| ==> fixtures[i].name != g.name
    ensures BindingOf(TouchAll(w, fixtures, call).0, g, call) == BindingOf(w, g, call)
  {
    if fixtures != [] {
      TouchAllLeavesOthers(w, fixtures[..|fixtures| - 1], g, call);
      TouchAllExtends(w, fixtures[..|fixtures| - 1], call);
      TouchLeavesOthers(TouchAll(w, fixtures[..|fixtures| - 1], call).0, fixtures[|fixtures| - 1], g, call);
    }
  }

  lemma {:induction false} MatchesAreTheAccepting(w: World, fixtures: seq<Fixture>, call: Call)
    requires Consistent(w) && DistinctNames(fixtures)
    ensures |TouchAll(w, fixtures, call).1| == CountAccepting(w, fixtures, call)
  {
    if fixtures != [] {
      var n := |fixtures| - 1;
      MatchesAreTheAccepting(w, fixtures[..n], call);
      TouchAllExtends(w, fixtures[..n], call);
      TouchAllLeavesOthers(w, fixtures[..n], fixtures[n], call);
    }
  }

  /** A call binds a model exactly when one fixture accepts it, judged as the registry stood
      before the call; with none or several it binds nothing. */
  lemma BoundIffExactlyOneAccepts(w: World, fixtures: seq<Fixture>, call: Call)
    requires Consistent(w) && DistinctNames(fixtures)
    ensures |BindStep(w, fixtures, call).models|
         == |w.models| + (if CountAccepting(w, fixtures, call) == 1 then 1 else 0)
  {
    MatchesAreTheAccepting(w, fixtures, call);
    TouchAllExtends(w, fixtures, call);
    TouchAllAddsNoModel(w, fixtures, call);
  }

  lemma {:induction false} TouchAllAddsNoModel(w: World, fixtures: seq<Fixture>, call: Call)
    ensures TouchAll(w, fixtures, call).0.models == w.models
  {
    if fixtures != [] {
      TouchAllAddsNoModel(w, fixtures[..|fixtures| - 1], call);
    }
  }

  // ----- Recording, then replaying -----

  /** The chunks that reached the recorder for `run` from position `i` until it closed. */
  function TokensFrom(evs: seq<Event>, i: nat, g: nat, run: RunId): seq<Option<Chunk>>
    decreases |evs| - i
  {
    if i >= |evs| || Closes(evs[i], g, run) then []
    else (if Streams(evs[i], g, run) then [evs[i].chunk] else []) + TokensFrom(evs, i + 1, g, run)
  }

  predicate AllProjected(tokens: seq<Option<Chunk>>) {
    forall k :: 0 <= k < |tokens| ==> tokens[k].Some? && FullyProjected(tokens[k].value)
  }

  /** The recorded chunks give the streamed ones back. */
  predicate Back(chunks: seq<RecordedChunk>, tokens: seq<Option<Chunk>>) {
    |chunks| == |tokens| && forall k :: 0 <= k < |tokens| ==> Some(DeserializeChunk(chunks[k])) == tokens[k]
  }

  lemma BackCons(chunk: RecordedChunk, chunks: seq<RecordedChunk>, token: Option<Chunk>, tokens: seq<Option<Chunk>>)
    requires Some(DeserializeChunk(chunk)) == token && Back(chunks, tokens)
    ensures Back([chunk] + chunks, [token] + tokens)
  {
  }

  lemma ProjectedCons(token: Option<Chunk>, tokens: seq<Option<Chunk>>)
    requires AllProjected([token] + tokens)
    ensures token.Some? && FullyProjected(token.value) && AllProjected(tokens)
  {
    var all := [token] + tokens;
    assert all[0] == token;
    forall k | 0 <= k < |tokens| ensures tokens[k].Some? && FullyProjected(tokens[k].value) {
      assert all[k + 1] == tokens[k];
    }
  }

  lemma {:induction false} TokensComeBack(evs: seq<Event>, i: nat, g: nat, run: RunId)
    requires AllProjected(TokensFrom(evs, i, g, run))
    ensures Back(ChunksFrom(evs, i, g, run), TokensFrom(evs, i, g, run))
    decreases |evs| - i
  {
    if i < |evs| && !Closes(evs[i], g, run) {
      var e, chunks, tokens := evs[i], ChunksFrom(evs, i + 1, g, run), TokensFrom(evs, i + 1, g, run);
      if Streams(e, g, run) {
        ProjectedCons(e.chunk, tokens);
        SerializeRoundTrip(e.chunk.value, e.token);
        TokensComeBack(evs, i + 1, g, run);
        BackCons(SerializeChunk(e.chunk, e.token), chunks, e.chunk, tokens);
      } else {
        assert [] + tokens == tokens && [] + chunks == chunks;
        TokensComeBack(evs, i + 1, g, run);
      }
    }
  }

  /** A replayed invocation against the callbacks it was recorded from. */
  predicate Reproduces(emitted: seq<Chunk>, evs: seq<Event>, p: nat, g: nat)
    requires p < |evs| && evs[p].Start?
  {
    var tokens := TokensFrom(evs, p + 1, g, evs[p].run);
    AllProjected(tokens) ==>
      && |emitted| == |tokens|
      && forall j :: 0 <= j < |tokens| ==> Some(emitted[j]) == tokens[j]
  }

  lemma EmissionReproduces(f: Fixture, evs: seq<Event>, g: nat, k: nat)
    requires k < |Opened(evs, g)| && f.invocations == Expected(evs, g)
    ensures Reproduces(Emission(f, k, |f.invocations[k].chunks|), evs, Opened(evs, g)[k], g)
  {
    var p := Opened(evs, g)[k];
    if AllProjected(TokensFrom(evs, p + 1, g, evs[p].run)) {
      TokensComeBack(evs, p + 1, g, evs[p].run);
    }
  }

  /** End to end: record any interleaving, parse the log, replay the fixture in any world. A
      stream that finishes invocation `k` ran under the prompt of the `k`-th recorded start and
      emitted exactly the chunks the provider streamed to that run, in order (when nothing was
      missing from them). */
  lemma ReplayReproducesTheRecording(
    evs: seq<Event>, st: Recorder, epoch: seq<Event>, f: Fixture, fixtures: seq<Fixture>, w: World, i: nat)
    requires Recorded(evs, st, epoch) && ParseLog(f.name, st.log).Parsed?
    requires f.invocations == ParseLog(f.name, st.log).invocations
    requires Reachable(fixtures, w) && i < |w.streams| && w.streams[i].view.phase.Finished?
    requires w.streams[i].state < |w.objects| && w.objects[w.streams[i].state].fixture == f
    ensures var s, k := w.streams[i], w.streams[i].view.phase.invocation;
      && k < |Opened(epoch, st.generation)|
      && (HumanTexts(s.messages) != [] ==>
            LatestHumanText(s.messages) == LatestHumanText(epoch[Opened(epoch, st.generation)[k]].prompt))
      && Reproduces(s.view.emitted, epoch, Opened(epoch, st.generation)[k], st.generation)
  {
    RecordParseRoundTrip(evs, f.name, st, epoch);
    StreamsAreFaithful(fixtures, w, i);
    EmissionReproduces(f, epoch, st.generation, w.streams[i].view.phase.invocation);
  }

  // ----- The mutable replay states -----

  class ReplayState {
    var cursor: nat
    var conversationId: Option<string>
    var ledger: Ledger

    constructor (f: Fixture)
      ensures View() == FreshProgress(f)
    {
      cursor, conversationId, ledger := 0, None, FreshProgress(f).ledger;
    }

    function View(): Progress
      reads this
    {
      Progress(cursor, conversationId, ledger)
    }
  }

  function Accepted(f: Fixture, p: Progress, call: Call, binding: Binding): Progress {
    var base := if binding == Claim then FreshProgress(f) else p;
    if call.conversation.None? then base else base.(conversation := call.conversation)
  }

  /** The state a call leaves behind a fixture that stood at `p` before it. */
  function Touched(f: Fixture, p: Progress, call: Call): Progress {
    if Classify(f, p, call) == Refuse then p else Accepted(f, p, call, Classify(f, p, call))
  }

  ghost function ViewsOf(objects: map<string, ReplayState>): map<string, Progress>
    reads objects.Values
  {
    map n | n in objects :: objects[n].View()
  }

  datatype BindOutcome =
    | NotBound
    | Ambiguous(matches: nat)
    | Bound(fixture: Fixture, state: ReplayState)

  class ReplayRegistry {
    const fixtures: seq<Fixture>
    var replayState: map<string, ReplayState>
    var ledgerFiles: map<string, Ledger>

    constructor (fixtures: seq<Fixture>)
      requires DistinctNames(fixtures)
      ensures Valid() && this.fixtures == fixtures && replayState == map[] && ledgerFiles == map[]
    {
      this.fixtures, replayState, ledgerFiles := fixtures, map[], map[];
    }

    /** No two names share a state object. */
    ghost predicate Valid()
      reads this
    {
      && DistinctNames(fixtures)
      && (forall m, n :: m in replayState && n in replayState && m != n ==> replayState[m] != replayState[n])
    }

    /** The contents of every registered object, by name. */
    ghost function Views(): map<string, Progress>
      reads this, replayState.Values
    {
      ViewsOf(replayState)
    }

    method GetReplayState(f: Fixture) returns (state: ReplayState)
      requires Valid()
      modifies this`replayState
      ensures Valid() && f.name in replayState && replayState[f.name] == state
      ensures f.name in old(replayState) ==> replayState == old(replayState)
      ensures f.name !in old(replayState) ==>
        fresh(state) && state.View() == FreshProgress(f) && replayState == old(replayState)[f.name := state]
      ensures Views() == old(Views())[f.name := ProgressIn(old(Views()), f)]
    {
      if f.name in replayState {
        state := replayState[f.name];
      } else {
        state := RestartReplayState(f);
      }
    }

    /** Swaps in a fresh object; whoever still holds the old one keeps it. */
    method RestartReplayState(f: Fixture) returns (state: ReplayState)
      requires Valid()
      modifies this`replayState
      ensures Valid() && fresh(state) && state.View() == FreshProgress(f)
      ensures replayState == old(replayState)[f.name := state]
      ensures Views() == old(Views())[f.name := FreshProgress(f)]
    {
      state := new ReplayState(f);
      replayState := replayState[f.name := state];
    }

    method WriteLedger(name: string)
      modifies this`ledgerFiles
      ensures ledgerFiles ==
        if name in replayState then old(ledgerFiles)[name := replayState[name].ledger] else old(ledgerFiles)
    {
      if name in replayState {
        ledgerFiles := ledgerFiles[name := replayState[name].ledger];
      }
    }

    method NameConversation(f: Fixture, conversation: Option<string>)
      requires Valid() && f.name in replayState
      modifies replayState[f.name]
      ensures Valid()
      ensures Views() == old(Views())[f.name := old(Views())[f.name].(conversation := conversation)]
    {
      replayState[f.name].conversationId := conversation;
    }

    method Accept(f: Fixture, call: Call, binding: Binding)
      requires Valid() && f.name in replayState && binding != Refuse
      modifies this`replayState, replayState[f.name]
      ensures Valid()
      ensures f.name in replayState && replayState == old(replayState)[f.name := replayState[f.name]]
      ensures Views() == old(Views())[f.name := Accepted(f, old(Views())[f.name], call, binding)]
      ensures binding == Own ==> replayState[f.name] == old(replayState)[f.name]
      ensures binding == Claim ==> fresh(replayState[f.name]) && unchanged(old(replayState)[f.name])
    {
      if binding == Claim {
        var _ := RestartReplayState(f);
      }
      if call.conversation.Some? {
        NameConversation(f, call.conversation);
      }
    }

    /** One turn of the loop over the registry. */
    method TouchFixtureState(f: Fixture, call: Call) returns (binding: Binding)
      requires Valid()
      modifies this`replayState, if f.name in replayState then {replayState[f.name]} else {}
      ensures Valid()
      ensures binding == Classify(f, ProgressIn(old(Views()), f), call)
      ensures f.name in replayState && replayState == old(replayState)[f.name := replayState[f.name]]
      ensures Views() == old(Views())[f.name := Touched(f, ProgressIn(old(Views()), f), call)]
      ensures f.name in old(replayState) && binding != Claim ==> replayState[f.name] == old(replayState)[f.name]
      ensures f.name in old(replayState) && binding == Claim ==>
        replayState[f.name] != old(replayState)[f.name] && unchanged(old(replayState)[f.name])
    {
      var state := GetReplayState(f);
      binding := Classify(f, state.View(), call);
      if binding != Refuse {
        Accept(f, call, binding);
      }
    }

    /** The loop over the registry at position `i`, against the state the call started from. */
    ghost predicate AtTurn(
      i: nat, views: map<string, Progress>, objects: map<string, ReplayState>, matches: seq<nat>, call: Call)
      reads this, replayState.Values, objects.Values
    {
      && Valid()
      && i <= |fixtures|
      && objects.Keys == views.Keys
      && Progressing(fixtures, i, views, objects, Views(), replayState, call)
      && OldObjectsKept(fixtures, i, views, ViewsOf(objects), call)
      && AreTheAccepting(matches, fixtures[..i], views, call)
    }

    method Turn(
      i: nat, ghost views: map<string, Progress>, ghost objects: map<string, ReplayState>,
      matches: seq<nat>, call: Call) returns (matches': seq<nat>)
      requires AtTurn(i, views, objects, matches, call) && i < |fixtures|
      requires forall m, n :: m in objects && n in objects && m != n ==> objects[m] != objects[n]
      modifies this`replayState, if fixtures[i].name in objects then {objects[fixtures[i].name]} else {}
      ensures AtTurn(i + 1, views, objects, matches', call)
    {
      ghost var now := Views();
      ghost var current := replayState;
      ghost var kept := ViewsOf(objects);
      assert Pending(fixtures[i], views, objects, now, current);
      var binding := TouchFixtureState(fixtures[i], call);
      assert Settled(fixtures[i], views, objects, Views(), replayState, call);
      assert fixtures[..i + 1] == fixtures[..i] + [fixtures[i]];
      TurnKeepsOldObjects(fixtures, i, views, kept, ViewsOf(objects), call);
      TurnProgresses(fixtures, i, views, objects, now, current, Views(), replayState, call);
      AcceptingSnoc(matches, fixtures[..i], fixtures[i], views, call);
      matches' := if binding != Refuse then matches + [i] else matches;
    }

    /** Every fixture ends where its own classification sends it, also when the call as a whole
        is refused as ambiguous. A claimed fixture gets another object and its old one, which
        earlier streams may hold, keeps its contents. */
    method TryBindReplay(call: Call) returns (r: BindOutcome)
      requires Valid()
      modifies this, replayState.Values
      ensures Valid()
      ensures Progressing(fixtures, |fixtures|, old(Views()), old(replayState), Views(), replayState, call)
      ensures OldObjectsKept(fixtures, |fixtures|, old(Views()), ViewsOf(old(replayState)), call)
      ensures r.NotBound? ==> forall i :: 0 <= i < |fixtures| ==> Refuses(fixtures[i], old(Views()), call)
      ensures r.Ambiguous? ==> exists i, j | 0 <= i < j < |fixtures| ::
        !Refuses(fixtures[i], old(Views()), call) && !Refuses(fixtures[j], old(Views()), call)
      ensures r.Bound? ==>
        && r.fixture in fixtures && r.fixture.name in replayState
        && r.state == replayState[r.fixture.name]
        && ledgerFiles == old(ledgerFiles)[r.fixture.name := r.state.ledger]
        && forall i :: 0 <= i < |fixtures| ==> (!Refuses(fixtures[i], old(Views()), call) <==> fixtures[i] == r.fixture)
      ensures !r.Bound? ==> ledgerFiles == old(ledgerFiles)
    {
      ghost var views := Views();
      ghost var objects := replayState;
      var matches: seq<nat> := [];
      for i := 0 to |fixtures|
        invariant AtTurn(i, views, objects, matches, call) && ledgerFiles == old(ledgerFiles)
      {
        matches := Turn(i, views, objects, matches, call);
      }
      assert fixtures[..|fixtures|] == fixtures;
      if |matches| == 0 {
        return NotBound;
      }
      if |matches| > 1 {
        assert matches[0] < matches[1];
        return Ambiguous(|matches|);
      }
      var f := fixtures[matches[0]];
      assert Settled(f, views, objects, Views(), replayState, call);
      WriteLedger(f.name);
      return Bound(f, replayState[f.name]);
    }
  }

  /** Among the fixtures before `n` every claimed one's old object, and every later fixture's
      object, still holds what it held; `kept` is what the old objects hold now. */
  ghost predicate OldObjectsKept(
    fixtures: seq<Fixture>, n: nat, views: map<string, Progress>, kept: map<string, Progress>, call: Call)
  {
    forall j :: 0 <= j < |fixtures| && fixtures[j].name in kept && fixtures[j].name in views
      && (n <= j || Classify(fixtures[j], views[fixtures[j].name], call) == Claim)
      ==> kept[fixtures[j].name] == views[fixtures[j].name]
  }

  lemma TurnKeepsOldObjects(
    fixtures: seq<Fixture>, i: nat, views: map<string, Progress>,
    kept: map<string, Progress>, kept': map<string, Progress>, call: Call)
    requires DistinctNames(fixtures) && i < |fixtures| && kept.Keys == kept'.Keys == views.Keys
    requires OldObjectsKept(fixtures, i, views, kept, call)
    requires forall n :: n in kept && n != fixtures[i].name ==> kept'[n] == kept[n]
    requires fixtures[i].name in kept && Classify(fixtures[i], views[fixtures[i].name], call) == Claim ==>
      kept'[fixtures[i].name] == kept[fixtures[i].name]
    ensures OldObjectsKept(fixtures, i + 1, views, kept', call)
  {
  }

  ghost function ProgressIn(views: map<string, Progress>, f: Fixture): Progress {
    if f.name in views then views[f.name] else FreshProgress(f)
  }

  ghost predicate Refuses(f: Fixture, views: map<string, Progress>, call: Call) {
    Classify(f, ProgressIn(views, f), call) == Refuse
  }

  /** The loop has not reached this fixture: its name stands for what it stood for. */
  ghost predicate Pending(
    f: Fixture, views: map<string, Progress>, objects: map<string, ReplayState>,
    views': map<string, Progress>, objects': map<string, ReplayState>)
  {
    && (f.name in objects <==> f.name in objects')
    && (f.name in views <==> f.name in views')
    && (f.name in objects && f.name in objects' ==> objects'[f.name] == objects[f.name])
    && (f.name in views && f.name in views' ==> views'[f.name] == views[f.name])
  }

  /** What a call did to one fixture: the contents its classification asks for, in the same
      object unless there was none or the fixture was claimed. */
  ghost predicate Settled(
    f: Fixture, views: map<string, Progress>, objects: map<string, ReplayState>,
    views': map<string, Progress>, objects': map<string, ReplayState>, call: Call)
  {
    && f.name in objects' && f.name in views'
    && views'[f.name] == Touched(f, ProgressIn(views, f), call)
    && (f.name in objects && Classify(f, ProgressIn(views, f), call) != Claim
        <==> f.name in objects && objects'[f.name] == objects[f.name])
  }

  ghost predicate Progressing(
    fixtures: seq<Fixture>, i: nat, views: map<string, Progress>, objects: map<string, ReplayState>,
    views': map<string, Progress>, objects': map<string, ReplayState>, call: Call)
  {
    && (forall j :: 0 <= j < i && j < |fixtures| ==> Settled(fixtures[j], views, objects, views', objects', call))
    && (forall j :: i <= j < |fixtures| ==> Pending(fixtures[j], views, objects, views', objects'))
  }

  lemma TurnProgresses(
    fixtures: seq<Fixture>, i: nat, views: map<string, Progress>, objects: map<string, ReplayState>,
    now: map<string, Progress>, current: map<string, ReplayState>,
    then': map<string, Progress>, next: map<string, ReplayState>, call: Call)
    requires DistinctNames(fixtures) && i < |fixtures|
    requires Progressing(fixtures, i, views, objects, now, current, call)
    requires fixtures[i].name in next && next == current[fixtures[i].name := next[fixtures[i].name]]
    requires then' == now[fixtures[i].name := Touched(fixtures[i], ProgressIn(now, fixtures[i]), call)]
    requires Settled(fixtures[i], views, objects, then', next, call)
    ensures Progressing(fixtures, i + 1, views, objects, then', next, call)
  {
    forall j | i + 1 <= j < |fixtures| ensures Pending(fixtures[j], views, objects, then', next) {
      assert Pending(fixtures[j], views, objects, now, current) && fixtures[j].name != fixtures[i].name;
    }
    forall j | 0 <= j < i ensures Settled(fixtures[j], views, objects, then', next, call) {
      assert Settled(fixtures[j], views, objects, now, current, call) && fixtures[j].name != fixtures[i].name;
    }
  }

  /** `matches` lists, in order, the positions of the fixtures that accept the call. */
  ghost predicate AreTheAccepting(
    matches: seq<nat>, fixtures: seq<Fixture>, views: map<string, Progress>, call: Call)
  {
    && (forall k :: 0 <= k < |matches| ==> matches[k] < |fixtures| && !Refuses(fixtures[matches[k]], views, call))
    && (forall j, k :: 0 <= j < k < |matches| ==> matches[j] < matches[k])
    && (forall j :: 0 <= j < |fixtures| && !Refuses(fixtures[j], views, call) ==> j in matches)
  }

  lemma AcceptingSnoc(matches: seq<nat>, fixtures: seq<Fixture>, f: Fixture, views: map<string, Progress>, call: Call)
    requires AreTheAccepting(matches, fixtures, views, call)
    ensures AreTheAccepting(
      if Refuses(f, views, call) then matches else matches + [|fixtures|], fixtures + [f], views, call)
  {
    var all := fixtures + [f];
    var matches' := if Refuses(f, views, call) then matches else matches + [|fixtures|];
    forall j | 0 <= j < |all| && !Refuses(all[j], views, call) ensures j in matches' {
      if j < |fixtures| {
        assert all[j] == fixtures[j] && j in matches;
      } else {
        assert matches'[|matches|] == j;
      }
    }
  }

  /** A model built for a bound fixture. Binding tools copies the model, not the cursor. */
  class ReplayChatModel {
    const fixture: Fixture
    const state: ReplayState
    const registry: ReplayRegistry
    var boundToolNames: seq<string>

    constructor (registry: ReplayRegistry, fixture: Fixture, state: ReplayState, tools: seq<string>)
      ensures this.registry == registry && this.fixture == fixture && this.state == state && boundToolNames == tools
    {
      this.registry, this.fixture, this.state, boundToolNames := registry, fixture, state, tools;
    }

    method BindTools(tools: seq<string>) returns (model: ReplayChatModel)
      ensures fresh(model) && model.boundToolNames == tools
      ensures model.state == state && model.fixture == fixture && model.registry == registry
    {
      model := new ReplayChatModel(registry, fixture, state, tools);
    }

    method StreamResponseChunks(messages: seq<Msg>) returns (stream: ReplayStream)
      ensures fresh(stream) && stream.View() == StreamView(Ready, [])
      ensures stream.state == state && stream.fixture == fixture && stream.messages == messages
    {
      stream := new ReplayStream(registry, fixture, state, messages);
    }
  }

  /** A running generator: `Resume` executes it up to its next suspension point. */
  class ReplayStream {
    const registry: ReplayRegistry
    const fixture: Fixture
    const state: ReplayState
    const messages: seq<Msg>
    var phase: Phase
    var emitted: seq<Chunk>

    constructor (registry: ReplayRegistry, fixture: Fixture, state: ReplayState, messages: seq<Msg>)
      ensures View() == StreamView(Ready, [])
      ensures this.registry == registry && this.fixture == fixture && this.state == state && this.messages == messages
    {
      this.registry, this.fixture, this.state, this.messages := registry, fixture, state, messages;
      phase, emitted := Ready, [];
    }

    function View(): StreamView
      reads this
    {
      StreamView(phase, emitted)
    }

    /** Changes this stream, the state object it holds and, through the registry, the ledger
        file of its fixture's current state object; never any other state object. */
    method Resume()
      requires EmittedInOrder(fixture, View())
      modifies this, state, registry`ledgerFiles
      ensures var r := Advance(fixture, old(state.View()), messages, old(View()));
        && state.View() == r.progress
        && View() == r.view
        && registry.ledgerFiles ==
             if r.wroteLedger && fixture.name in registry.replayState
             then old(registry.ledgerFiles)[fixture.name := registry.replayState[fixture.name].ledger]
             else old(registry.ledgerFiles)
      ensures Faithful(fixture, old(state.View()), messages, old(View()),
                       Advance(fixture, old(state.View()), messages, old(View())))
    {
      AdvanceIsFaithful(fixture, state.View(), messages, View());
      match phase
      case Ready =>
        if state.cursor >= |fixture.invocations| {
          state.ledger := state.ledger.(overruns := state.ledger.overruns + [LatestHumanText(messages)]);
          phase := Overran;
          registry.WriteLedger(fixture.name);
          return;
        }
        var invocation := fixture.invocations[state.cursor];
        if HumanTexts(messages) != [] && LatestHumanText(messages) != invocation.userText {
          var m := Mismatch(state.cursor, invocation.userText, LatestHumanText(messages));
          state.ledger := state.ledger.(promptMismatches := state.ledger.promptMismatches + [m]);
          phase := Mismatched;
          registry.WriteLedger(fixture.name);
          return;
        }
        var k := state.cursor;
        state.cursor := state.cursor + 1;
        NextChunk(k, 0);
      case Sleeping(k, n) =>
        emitted := emitted + [DeserializeChunk(fixture.invocations[k].chunks[n])];
        phase := Yielded(k, n);
      case Yielded(k, n) =>
        state.ledger := state.ledger.(chunksConsumed := state.ledger.chunksConsumed + 1);
        NextChunk(k, n + 1);
      case _ =>
    }

    /** The head of the chunk loop. */
    method NextChunk(k: nat, next: nat)
      requires k < |fixture.invocations|
      modifies this`phase, state`ledger, registry`ledgerFiles
      ensures var r := Continue(fixture, old(state.View()), emitted, k, next);
        && state.View() == r.progress
        && View() == r.view
        && registry.ledgerFiles ==
             if r.wroteLedger && fixture.name in registry.replayState
             then old(registry.ledgerFiles)[fixture.name := registry.replayState[fixture.name].ledger]
             else old(registry.ledgerFiles)
    {
      if next < |fixture.invocations[k].chunks| {
        phase := Sleeping(k, next);
      } else {
        state.ledger := state.ledger.(invocationsConsumed := state.ledger.invocationsConsumed + 1);
        phase := Finished(k);
        registry.WriteLedger(fixture.name);
      }
    }
  }
}
