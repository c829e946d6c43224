/** Tables with one rule: Ann's hero answers one kind of event of hers. The concrete runs of the engine are played on them. */
module OneRule {
  import opened Board
  import opened Abilities
  import opened Machine
  import opened Engine
  import opened EngineLegal
  import opened Requests

  const ANN: Id := "ann"
  const BOB: Id := "bob"
  const HERO: Id := "hero"
  const ORDER: seq<Id> := [ANN, BOB]

  const ROLL: WindowKind := Modifier(10, HERO)
  const OPENED: OpeningEvent := Plain(WindowOpened, ANN, None)

  const START: Input := Input.Start(ORDER)

  /** The first frame's roll comes to nothing. */
  const FAIL: Input := Settle(0, 0, Verdict.Rolled(0, map[]))

  function WindowOn(kind: WindowKind, who: Id): Window {
    Window(kind, who, true, [])
  }

  function Question(kind: WindowKind, who: Id): Asking {
    Asking(kind, who, OPENED, [])
  }

  /** Opens a window, and may wait for it. */
  function Asks(kind: WindowKind, who: Id, wait: bool): Script {
    Script(2, (i, ctx, asked, v: View) =>
      if i == 0 then Ask(v.table.cards, ctx, [], Question(kind, who), [])
      else Return(v.table.cards, ctx, wait))
  }

  function AnswersTo(kind: Kind, steps: seq<Script>): Rule {
    Rule(Trigger(kind, OwnerEvent, None), steps)
  }

  /** The rule answers the end of Ann's turns, or the closing of her windows. */
  predicate Simple(rule: Rule) {
    rule.trigger in {Trigger(TurnEnded, OwnerEvent, None), Trigger(WindowClosed, OwnerEvent, None)}
  }

  function TableOf(rule: Rule): Rules {
    Rules(ORDER, map[], [rule], [], (_, _, _, _) => false, [], false, map[], None)
  }

  function SourceOf(rule: Rule): Source {
    Source(rule.trigger, rule.steps, HERO, ANN, true)
  }

  predicate Heard(rule: Rule, e: Event) {
    e.kind == rule.trigger.on && e.player == ANN
  }

  const CARDS: Cards := Cards(
    map[ANN := EMPTY_SEAT.(heroes := [HERO], budget := 1), BOB := EMPTY_SEAT.(budget := 1)], [], [], [], [], [], [])

  /** Nothing on the board but Ann's hero, whatever points are left. */
  predicate Sparse(c: Cards) {
    && c.row == []
    && SeatOf(c, ANN) == EMPTY_SEAT.(heroes := [HERO], budget := 1, points := PointsOf(c, ANN))
    && SeatOf(c, BOB) == EMPTY_SEAT.(budget := 1, points := PointsOf(c, BOB))
  }

  lemma SourcesAre(rule: Rule, c: Cards)
    requires Sparse(c)
    ensures Sources(TableOf(rule), c) == [SourceOf(rule)]
  {
    var r, source := TableOf(rule), SourceOf(rule);
    assert ORDER[..1] == [ANN] && [ANN][..0] == [];
    assert [HERO][..0] == [];
    assert EquippedItem(r.players, c, HERO) == None;
    assert FromRules(r.heroRules, HERO, ANN, true) == [source];
    assert HeroSources(r, c, HERO, ANN) == [source];
    assert HeroesSources(r, c, [HERO], ANN) == [source];
    assert SeatSources(r, c, ANN) == [source];
    assert SeatSources(r, c, BOB) == [];
    assert SeatsSources(r, c, [ANN]) == [source];
  }

  lemma NothingExpires(rule: Rule, v: View, e: Event)
    requires Sparse(v.table.cards)
    ensures Sweep(TableOf(rule), v, ORDER, e) == Swept(v.table.cards, [])
  {
    assert ORDER[..1] == [ANN] && [ANN][..0] == [];
    assert Sweep(TableOf(rule), v, [], e) == Swept(v.table.cards, []);
    assert Sweep(TableOf(rule), v, [ANN], e) == Swept(v.table.cards, []);
  }

  lemma StartedAre(rule: Rule, v: View, e: Event)
    requires Simple(rule) && Sparse(v.table.cards)
    ensures Started(TableOf(rule), v, e) == if Heard(rule, e) then [StartOf(SourceOf(rule), e)] else []
  {
    var r, source := TableOf(rule), SourceOf(rule);
    SourcesAre(rule, v.table.cards);
    assert [source][..0] == [];
    assert StartsOf(r, v, [], e, true) == [] && StartsOf(r, v, [], e, false) == [];
  }

  // ---------------------------------------------------------------------------
  // Announcements nobody answers
  // ---------------------------------------------------------------------------

  /** Nobody is about to move: between entries the stack is empty or its top waits, and no clock runs. */
  predicate Calm(w: World) {
    && w.halt.Live? && !IsConcluded(w.core) && Sparse(w.core.view.table.cards)
    && w.core.clock.remaining.None? && w.core.clock.handle.None?
    && (w.core.mode.Resting? ==> !Ready(w.core.stack))
  }

  lemma ExpireUnheard(rule: Rule, w: World, e: Event)
    requires Sparse(w.core.view.table.cards)
    ensures Expire(TableOf(rule), w, e) == w.(log := Expire(TableOf(rule), w, e).log)
  {
    NothingExpires(rule, w.core.view, e);
    assert Expire(TableOf(rule), w, e) == Do(TableOf(rule), w, Edit(w.core.view.table.cards));
  }

  lemma NobodyWins(rule: Rule, w: World)
    ensures ConcludeIfDue(TableOf(rule), w) == w
  {
    assert Winner(TableOf(rule), w.core.view).None?;
  }

  /** No pipeline waits for this event. */
  predicate NobodyWaitsFor(c: Core, e: Event) {
    e.kind.FrameResolved? ==> forall i | 0 <= i < |c.stack| :: !WaitsOn(c.stack[i], e.frame)
  }

  lemma NothingStarts(rule: Rule, w: World, e: Event)
    requires Simple(rule) && Sparse(w.core.view.table.cards) && !Heard(rule, e) && NobodyWaitsFor(w.core, e)
    requires Reserved(e.kind) ==> w.core.mode.Resting?
    ensures var w' := StartMatching(TableOf(rule), WakeFor(TableOf(rule), w, e), e); w' == w.(log := w'.log)
  {
    hide Sparse, Started;
    if e.kind.FrameResolved? { assert WokenIn(w.core.stack, e.frame, e.slots) == w.core.stack; }
    StartedAre(rule, w.core.view, e);
  }

  lemma NothingDrains(rule: Rule, w: World)
    requires w.core.mode.Resting? && !Ready(w.core.stack)
    ensures Drain(TableOf(rule), w) == w.(log := Drain(TableOf(rule), w).log)
  {
    var w1 := Do(TableOf(rule), w, StartLoop);
    assert Loop(TableOf(rule), w1) == w1;
  }

  lemma ClockStands(rule: Rule, w: World, e: Event)
    requires Calm(w) && (e.kind.FrameResolved? ==> w.core.mode.Resting?)
    ensures HearClock(TableOf(rule), w, e) == w
  {
  }

  /** Between entries the event finds nothing to run; inside a step it would only add what it starts, here nothing. */
  lemma Unheard(rule: Rule, w: World, e: Event)
    requires Simple(rule) && Calm(w) && !Heard(rule, e) && NobodyWaitsFor(w.core, e)
    requires Reserved(e.kind) ==> w.core.mode.Resting?
    ensures Announce(TableOf(rule), w, e) == w.(log := Announce(TableOf(rule), w, e).log)
  {
    var r, w0 := TableOf(rule), Do(TableOf(rule), w, Hear(e));
    ClockStands(rule, w0, e);
    ExpireUnheard(rule, w0, e);
    var w1 := Expire(r, w0, e);
    NothingStarts(rule, w1, e);
    var w2 := StartMatching(r, WakeFor(r, w1, e), e);
    hide Expire, StartMatching, WakeFor, Drain, ConcludeIfDue, HearClock, Sparse, TableOf, Simple;
    if w.core.mode.Resting? {
      NothingDrains(rule, w2);
      NobodyWins(rule, Drain(r, w2));
      assert HearTask(r, w0, e) == Drain(r, w2);
    } else {
      NobodyWins(rule, w2);
      assert HearTask(r, w0, e) == w2;
    }
  }

  // ---------------------------------------------------------------------------
  // A window opens
  // ---------------------------------------------------------------------------

  /** The core with one more frame, one window open in it. */
  function Opened(c: Core, window: Window): Core {
    c.(view := c.view.(frames := c.view.frames + [Frame(c.nextFrame, c.view.table, [window], c.nextPipe)]),
       nextFrame := c.nextFrame + 1)
  }

  predicate FramesBelow(c: Core) {
    forall f | f in c.view.frames :: f.id < c.nextFrame
  }

  lemma WindowLands(frames: seq<Frame>, last: Frame, window: Window)
    requires last.windows == [] && forall f | f in frames :: f.id < last.id
    ensures WithWindow(frames + [last], last.id, window) == frames + [last.(windows := [window])]
  {
    var all := frames + [last];
    forall i | 0 <= i < |all|
      ensures WithWindow(all, last.id, window)[i] == (frames + [last.(windows := [window])])[i]
    {
      if i < |frames| { assert frames[i] in frames; }
    }
  }

  /** The frame, its opening announced, its window added. */
  function Asked(r: Rules, w: World, window: Window): World
    requires !Running(w.core.clock)
  {
    var w1 := Do(r, Do(r, w, Edit(w.core.view.table.cards)), Open);
    var w2 := w1.(log := Announce(r, w1, OPENED).log);
    assert w1.core.view.frames[|w.core.view.frames|].id == w.core.nextFrame;
    Do(r, w2, AddWindow(w.core.nextFrame, window))
  }

  lemma AskedIsOpened(r: Rules, w: World, window: Window)
    requires !Running(w.core.clock) && FramesBelow(w.core)
    ensures Asked(r, w, window) == w.(core := Opened(w.core, window), log := Asked(r, w, window).log)
  {
    WindowLands(w.core.view.frames, Frame(w.core.nextFrame, w.core.view.table, [], w.core.nextPipe), window);
    hide Announce, WithWindow;
  }

  lemma QuestionAsked(rule: Rule, w: World, kind: WindowKind, who: Id)
    requires Simple(rule) && Calm(w)
    ensures OpenAndAsk(TableOf(rule), w, w.core.view.table.cards, [], [Question(kind, who)])
      == Asked(TableOf(rule), w, WindowOn(kind, who))
  {
    var r := TableOf(rule);
    var w1 := Do(r, Do(r, w, Edit(w.core.view.table.cards)), Open);
    Unheard(rule, w1, OPENED);
    assert w1.core.view.frames[|w.core.view.frames|].id == w.core.nextFrame;
    var w2 := Announce(r, w1, OPENED);
    hide Announce, Sparse, Apply, TableOf, Simple;
    OneQuestion(r, w1, w2, w.core.nextFrame, kind, who);
    assert PlayAll(r, w1, []) == w1;
  }

  lemma OneQuestion(r: Rules, w: World, w': World, f: FrameId, kind: WindowKind, who: Id)
    requires w' == Announce(r, w, OPENED) && !Halted(w) && !Halted(w')
    requires HasFrame(w.core.view, f) && HasFrame(w'.core.view, f) && !Running(w'.core.clock)
    ensures AskAll(r, w, f, [Question(kind, who)]) == Do(r, w', AddWindow(f, WindowOn(kind, who)))
  {
    hide Announce, Apply, HasFrame;
    assert AnnounceAll(r, w', []) == w';
    assert [Question(kind, who)][1..] == [];
    var w1 := Do(r, w', AddWindow(f, WindowOn(kind, who)));
    assert AskAll(r, w1, f, []) == w1;
  }

  /** The script leaves its window open, and nothing else changed. */
  lemma AskOpens(rule: Rule, w: World, kind: WindowKind, who: Id, wait: bool, ctx: Ctx)
    requires Simple(rule) && Calm(w) && FramesBelow(w.core)
    ensures var o := Execute(TableOf(rule), w, Asks(kind, who, wait), 0, ctx, None);
      && o.world == w.(core := Opened(w.core, WindowOn(kind, who)), log := o.world.log)
      && o.ctx == ctx && o.park == if wait then Some(w.core.nextFrame) else None
  {
    var r := TableOf(rule);
    var cards, window, script := w.core.view.table.cards, WindowOn(kind, who), Asks(kind, who, wait);
    QuestionAsked(rule, w, kind, who);
    AskedIsOpened(r, w, window);
    var w1 := Asked(r, w, window);
    hide OpenAndAsk, Asked, Sparse, TableOf, Simple;
    assert [Question(kind, who)] + [] == [Question(kind, who)];
    var ask := script.act(0, ctx, None, w.core.view);
    assert ask == Ask(cards, ctx, [], Question(kind, who), []);
    assert Perform(r, w, ask) == w1;
    var asked := Some(w.core.nextFrame);
    assert script.act(1, ctx, asked, w1.core.view) == Return(cards, ctx, wait);
    assert Execute(r, w1, script, 1, ctx, asked) == Stepped(Do(r, w1, Edit(cards)), ctx, if wait then asked else None);
  }

  // ---------------------------------------------------------------------------
  // The rule starts
  // ---------------------------------------------------------------------------

  function PipeFor(rule: Rule, c: Core, e: Event): Pipe {
    Pipe(c.nextPipe, HERO, ANN, true, rule.steps, StartOf(SourceOf(rule), e).ctx, None)
  }

  /** The world in which the rule's pipeline is on the stack and the drain is about to run it. */
  function Pushed(rule: Rule, w: World, e: Event): World
    requires w.core.mode.Resting?
  {
    var r := TableOf(rule);
    Do(r, Do(r, Expire(r, Do(r, w, Hear(e)), e), Push(StartOf(SourceOf(rule), e))), StartLoop)
  }

  lemma PushedAlone(rule: Rule, w: World, e: Event)
    requires Simple(rule) && Calm(w) && w.core.mode.Resting? && w.core.stack == []
    ensures var w1 := Pushed(rule, w, e);
      && w1.core == w.core.(stack := [PipeFor(rule, w.core, e)], nextPipe := w.core.nextPipe + 1, mode := Looping)
      && Calm(w1) && w1.gas == w.gas
  {
    hide Expire, Sparse, TableOf, IsConcluded, Calm, Apply, Enabled;
    var r := TableOf(rule);
    ExpireHeard(rule, w, e);
    PushLoops(r, Expire(r, Do(r, w, Hear(e)), e), StartOf(SourceOf(rule), e));
    StillCalm(w, Pushed(rule, w, e));
  }

  lemma ExpireHeard(rule: Rule, w: World, e: Event)
    requires Calm(w)
    ensures Enabled(TableOf(rule), w.core, Hear(e))
    ensures var w' := Expire(TableOf(rule), Do(TableOf(rule), w, Hear(e)), e); w' == w.(log := w'.log)
  {
    ExpireUnheard(rule, Do(TableOf(rule), w, Hear(e)), e);
  }

  lemma PushLoops(r: Rules, w: World, s: Start)
    requires w.core.mode.Resting? && w.core.stack == []
    ensures Enabled(r, w.core, Push(s)) && Enabled(r, Do(r, w, Push(s)).core, StartLoop)
    ensures var w' := Do(r, Do(r, w, Push(s)), StartLoop);
      w' == w.(core := w'.core, log := w'.log) && w'.core == w.core.(stack := [Pipe(w.core.nextPipe, s.card, s.owner, s.system, s.steps, s.ctx, None)],
        nextPipe := w.core.nextPipe + 1, mode := Looping)
  {
  }

  lemma StillCalm(w: World, w': World)
    requires Calm(w) && w'.halt == w.halt && w'.core.view == w.core.view && w'.core.clock == w.core.clock
    requires !w'.core.mode.Resting?
    ensures Calm(w')
  {
    hide Sparse;
  }

  /** An event the rule answers: the rule is all it starts, and the drain runs it. */
  lemma HeardRuns(rule: Rule, w: World, e: Event)
    requires Simple(rule) && Calm(w) && w.core.mode.Resting? && Heard(rule, e)
    ensures Announce(TableOf(rule), w, e) == Do(TableOf(rule), Loop(TableOf(rule), Pushed(rule, w, e)), StopLoop)
  {
    var r, w0 := TableOf(rule), Do(TableOf(rule), w, Hear(e));
    ClockStands(rule, w0, e);
    ExpireUnheard(rule, w0, e);
    var w1 := Expire(r, w0, e);
    StartedAre(rule, w1.core.view, e);
    var start := StartOf(SourceOf(rule), e);
    var w2 := Do(r, w1, Push(start));
    assert [start][..0] == [];
    assert PushAll(r, w2, []) == w2;
    assert StartMatching(r, w1, e) == w2;
    NobodyWins(rule, Drain(r, w2));
    hide Expire, StartMatching, Loop, ConcludeIfDue, HearClock, Sparse, PushAll, TableOf, Simple;
    assert HearTask(r, w0, e) == Drain(r, w2);
  }

  // ---------------------------------------------------------------------------
  // Turns
  // ---------------------------------------------------------------------------

  /** At rest in a turn of `player`. */
  ghost predicate InTurn(w: World, player: Id, number: nat, queue: seq<Action>) {
    && Calm(w) && w.core.mode.Resting?
    && w.core.view.table.current == Some(player) && w.core.view.table.phase.Turns?
    && w.core.turn.phase.Acting? && w.core.turn.number == number && w.core.turn.queue == queue
    && w.core.turn.order == ORDER
  }

  /** The same frames, the same pipelines, the same counters. */
  ghost predicate SameWork(w: World, w': World) {
    && w'.core.view.frames == w.core.view.frames && w'.core.nextFrame == w.core.nextFrame
    && w'.core.stack == w.core.stack && w'.core.nextPipe == w.core.nextPipe && w'.gas == w.gas
  }

  ghost predicate MayBegin(w: World, player: Id) {
    && Calm(w) && w.core.mode.Resting? && w.core.view.table.phase.Turns? && w.core.turn.queue == []
    && w.core.turn.order == ORDER && player in ORDER && IsDue(w.core.turn, player)
  }

  lemma TurnedCalmly(rule: Rule, w: World, player: Id)
    requires MayBegin(w, player)
    ensures Enabled(TableOf(rule), w.core, StartTurn(player))
    ensures var w' := Turned(TableOf(rule), w, player);
      InTurn(w', player, w.core.turn.number + 1, []) && SameWork(w, w') && PointsOf(w'.core.view.table.cards, player) == 1
  {
  }

  lemma TurnBegins(rule: Rule, w: World, player: Id)
    requires Simple(rule) && MayBegin(w, player)
    ensures var w' := StartTurnFor(TableOf(rule), w, player);
      InTurn(w', player, w.core.turn.number + 1, []) && SameWork(w, w') && PointsOf(w'.core.view.table.cards, player) == 1
  {
    TurnedCalmly(rule, w, player);
    Unheard(rule, Turned(TableOf(rule), w, player), Plain(TurnStarted, player, None));
    hide Announce, Turned, Sparse, IsDue;
  }

  /** A table as it was dealt. */
  ghost predicate Fresh(w: World) {
    IsInitial(w.core) && w.halt.Live? && w.log == [] && w.core.view.table.cards == CARDS
  }

  lemma BegunCalmly(rule: Rule, w: World)
    requires Fresh(w)
    ensures Enabled(TableOf(rule), w.core, BeginGame(ORDER))
    ensures var w' := Do(TableOf(rule), w, BeginGame(ORDER)); MayBegin(w', ANN) && SameWork(w, w')
    ensures Do(TableOf(rule), w, BeginGame(ORDER)).core.turn.number == 0
  {
  }

  lemma AnnGoesFirst(rule: Rule, w: World)
    requires Simple(rule) && Fresh(w)
    ensures var w' := StartGame(TableOf(rule), w, ORDER);
      && InTurn(w', ANN, 1, []) && SameWork(w, w') && PointsOf(w'.core.view.table.cards, ANN) == 1
  {
    hide Announce, StartTurnFor, Apply, Enabled, Sparse, TableOf, IsDue, Simple, IsInitial;
    var r := TableOf(rule);
    BegunCalmly(rule, w);
    var w1 := Do(r, w, BeginGame(ORDER));
    StartIsUnheard(rule, w1);
    TurnBegins(rule, Announce(r, w1, Plain(GameStarted, "", None)), ANN);
  }

  lemma StartIsUnheard(rule: Rule, w: World)
    requires Simple(rule) && Calm(w) && w.core.mode.Resting?
    ensures var e := Plain(GameStarted, "", None);
      Announce(TableOf(rule), w, e) == w.(log := Announce(TableOf(rule), w, e).log)
  {
    Unheard(rule, w, Plain(GameStarted, "", None));
  }

  lemma EmptyOrNot<T>(s: seq<T>)
    ensures s == [] || exists x :: x in s
  {
    if s != [] { assert s[0] in s; }
  }

  lemma NothingSpent(c: Cards, f: Frame)
    requires Sparse(c)
    ensures SpentInto(ORDER, c, f) == []
  {
    var spent := SpentInto(ORDER, c, f);
    assert forall s | s in spent :: s.player in {ANN, BOB} && s.card in SeatOf(c, s.player).instances;
    EmptyOrNot(spent);
  }
}
