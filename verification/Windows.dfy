/** How the windows settle, on the objects of the engine. */
module Windows {
  import opened Board
  import opened Machine
  import opened Engine
  import opened Requests
  import opened Monsters
  import opened Objects

  /** Announces the frame's outcome and goes on with whatever the queue still holds. */
  method EmitResolved(g: Game, f: FrameId, slots: seq<Slot>, card: Option<Id>)
    requires g.Valid() && g.Now().core.mode.Resting?
    modifies g.Parts()
    ensures g.Valid() && g.Now() == AnnounceResolved(g.rules, old(g.Now()), f, slots, card)
  {
    hide Announce, DrainQueue;
    g.Emit(Resolved(f, slots, card));
  }

  /** A hero roll: short of its requirement the frame is restored, else released. */
  method SettleRoll(g: Game, f: FrameId, win: Window, roll: int, seed: Ctx)
    requires g.Valid() && g.Now().core.mode.Resting? && win.kind.Modifier?
    modifies g.Parts()
    ensures g.Valid() && g.Now() == SettleModifier(g.rules, old(g.Now()), f, win, roll, seed)
  {
    hide Announce, Requests.ReleaseFrame, Requests.RestoreFrame;
    if !g.halt.Live? { return; }
    if roll < win.kind.required {
      g.RestoreFrame(f);
      g.Emit(Plain(RollFailed, win.respondent, Some(win.kind.hero)));
      return;
    }
    g.ReleaseFrame(f);
    g.Emit(Plain(RollSuccess, win.respondent, Some(win.kind.hero)).(seed := seed));
  }

  /** An attack: the monster reads the roll, and only a slay releases the frame. */
  method SettleBattle(g: Game, f: FrameId, win: Window, roll: int)
    requires g.Valid() && g.Now().core.mode.Resting? && win.kind.Attack?
    modifies g.Parts()
    ensures g.Valid() && g.Now() == SettleAttack(g.rules, old(g.Now()), f, win, roll)
  {
    hide Announce, Requests.ReleaseFrame, Requests.RestoreFrame, Slain;
    if !g.halt.Live? { return; }
    var monster, player := win.kind.monster, win.respondent;
    var result := if monster in g.rules.monsters then TrySlay(g.rules.monsters[monster], roll) else Miss;
    match result {
      case Slay =>
        g.ReleaseFrame(f);
        if monster !in g.gs.cards.row { g.halt := NotInRow; return; }
        g.Edit(Slain(g.gs.cards, monster, player));
        g.Emit(Plain(MonsterSlain, player, Some(monster)));
      case FightBack =>
        g.RestoreFrame(f);
        g.Emit(Plain(MonsterFoughtBack, player, Some(monster)));
      case Miss =>
        g.RestoreFrame(f);
    }
  }

  /** A challenge: nobody's, defended, or lost; only a lost one restores. */
  method SettleContest(g: Game, f: FrameId, win: Window, held: bool, defended: bool)
    requires g.Valid() && g.Now().core.mode.Resting? && win.kind.Challenge?
    modifies g.Parts()
    ensures g.Valid() && g.Now() == SettleChallenge(g.rules, old(g.Now()), f, win, held, defended)
  {
    hide Announce, Requests.ReleaseFrame, Requests.RestoreFrame;
    if !g.halt.Live? { return; }
    if !held { g.ReleaseFrame(f); return; }
    g.Emit(Plain(ChallengeResolved, win.respondent, Some(win.kind.card)));
    if !g.halt.Live? { return; }
    if defended {
      g.ReleaseFrame(f);
      g.Edit(g.gs.cards.(challenged := g.gs.cards.challenged + [win.kind.card]));
    } else {
      g.RestoreFrame(f);
      g.Edit(g.gs.cards.(discard := g.gs.cards.discard + [win.kind.card]));
    }
  }

  /** Settle by the window's kind, then announce the frame. */
  method ResolveClosed(g: Game, f: FrameId, win: Window, v: Verdict)
    requires g.Valid() && g.Now().core.mode.Resting?
    modifies g.Parts()
    ensures g.Valid() && g.Now() == SettleClosed(g.rules, old(g.Now()), f, win, v)
  {
    hide AnnounceResolved, SettleModifier, SettleAttack, SettleChallenge;
    match (win.kind, v) {
      case (Modifier(_, _), Rolled(roll, seed)) =>
        SettleRoll(g, f, win, roll, seed);
        EmitResolved(g, f, [Slot(CTX_FINAL_ROLL, Number(roll))], None);
      case (Attack(_), Rolled(roll, _)) =>
        SettleBattle(g, f, win, roll);
        EmitResolved(g, f, [Slot(CTX_FINAL_ROLL, Number(roll))], None);
      case (Challenge(card), Contest(held, defended)) =>
        SettleContest(g, f, win, held, defended);
        EmitResolved(g, f, [], Some(card));
      case _ =>
    }
  }

  /** Close, announce the close, settle. */
  method ResolveOutcome(g: Game, f: FrameId, index: nat, win: Window, v: Verdict)
    requires g.Valid() && g.Now().core.mode.Resting? && IsUp(g.gs.ViewNow(), f, index)
    modifies g.Parts()
    ensures g.Valid() && g.Now() == SettleOutcome(g.rules, old(g.Now()), f, index, win, v)
  {
    hide Announce, SettleClosed, WithClosed;
    g.CloseWindow(f, index, []);
    g.Emit(Plain(WindowClosed, win.respondent, SubjectCard(win)));
    ResolveClosed(g, f, win, v);
  }

  /** A question: its frame settles with the last of its windows. */
  method ResolveChoice(g: Game, f: FrameId, index: nat, win: Window, slots: seq<Slot>, outcome: seq<StepEvent>)
    requires g.Valid() && g.Now().core.mode.Resting? && IsUp(g.gs.ViewNow(), f, index)
    modifies g.Parts()
    ensures g.Valid() && g.Now() == SettleChoice(g.rules, old(g.Now()), f, index, win, slots, outcome)
  {
    hide Announce, AnnounceAll, AnnounceResolved, Apply, IsAsking;
    g.CloseWindow(f, index, slots);
    var last := HasFrame(g.gs.ViewNow(), f) && !IsAsking(FrameOf(g.gs.frames, f));
    var answers := if last then AnswersOf(FrameOf(g.gs.frames, f).windows) else [];
    if last { g.ReleaseFrame(f); }
    g.Emit(Plain(WindowClosed, win.respondent, None));
    g.EmitAll(outcome);
    if last { EmitResolved(g, f, answers, None); }
  }

  /** Not while a question stands over a roll or a challenge. */
  method Resolve(g: Game, f: FrameId, index: nat, v: Verdict)
    requires g.Valid() && g.Now().core.mode.Resting?
    modifies g.Parts()
    ensures g.Valid() && g.Now() == SettleWindow(g.rules, old(g.Now()), f, index, v)
  {
    hide SettleChoice, SettleOutcome;
    if !g.halt.Live? || !HasFrame(g.gs.ViewNow(), f) { return; }
    var windows := FrameOf(g.gs.frames, f).windows;
    if index >= |windows| || !windows[index].open || !Answers(windows[index].kind, v) { return; }
    if windows[index].kind.Choice? {
      ResolveChoice(g, f, index, windows[index], v.slots, v.outcome);
    } else if !HasOpenFramesAfter(g.gs.ViewNow(), f) {
      ResolveOutcome(g, f, index, windows[index], v);
    }
  }

  /** A table is started once, before its first turn. */
  method Open(g: Game, order: seq<Id>)
    requires g.Valid() && g.Now().core.mode.Resting?
    modifies g.Parts()
    ensures g.Valid() && g.Now() == StartGame(g.rules, old(g.Now()), order)
  {
    hide Announce, StartTurnFor, HasOpenFrames;
    if !g.halt.Live? { return; }
    if g.turns.phase.Opening? && g.gs.phase.Setup? { g.engine.Start(g, order); }
  }

  /** One entry of the event loop, run to its end. */
  method Handle(g: Game, i: Input)
    requires g.Valid() && g.Now().core.mode.Resting?
    modifies g.Parts()
    ensures g.Valid() && g.Now() == Step(g.rules, old(g.Now()), i)
  {
    hide SettleWindow, Requests.Enqueue, Requests.Lapse, Engine.Execute, StartGame, HasOpenFrames;
    if !g.halt.Live? { return; }
    match i {
      case Start(order) =>
        Open(g, order);
      case Request(a) =>
        var _ := g.turns.Enqueue(g, a);
      case React(s) =>
        if HasOpenFrames(g.gs.ViewNow()) { var _, _ := g.Execute(s, map[]); }
      case Settle(f, index, v) =>
        Resolve(g, f, index, v);
      case TimerFires(t) =>
        if t in g.loop.timers && g.loop.timers[t].due <= g.loop.now { g.turns.Lapse(g, t); }
      case Wait(ms) =>
        g.loop.Advance(ms);
        g.log := g.log + [Advance(ms)];
    }
  }

  /** A whole table, from the deal on: what the objects do is a run of the functions. */
  method Play(rules: Rules, cards: Cards, now: int, gas: nat, inputs: seq<Input>) 
    returns (g: Game, ghost dealt: World)
    ensures fresh(g.Parts()) && g.Valid() && g.rules == rules
    ensures IsInitial(dealt.core) && dealt.log == [] && dealt.core.view.table.cards == cards && dealt.gas == gas
    ensures dealt.core.mode.Resting? && g.Now() == Run(rules, dealt, inputs)
  {
    hide Step;
    g := new Game(rules, cards, now, gas);
    dealt := g.Now();
    var i := 0;
    while i < |inputs|
      invariant i <= |inputs| && g.Valid() && fresh(g.Parts())
      invariant g.Now() == Run(rules, dealt, inputs[..i])
    {
      assert inputs[..i + 1][..i] == inputs[..i];
      Handle(g, inputs[i]);
      i := i + 1;
    }
    assert inputs[..i] == inputs;
  }
}
