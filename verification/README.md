# Verification of the game engine and the protocols around it

This project is a Dafny model of the card game's server engine, with proofs. It
covers the two schedulers (rule pipelines and the action queue), the frames they
suspend on, and six protocols around the engine: lobby start, flush publishing,
flush storing, command dedupe, background downloads and target keys.

`dafny verify dfyconfig.toml` checks all of it.

## How it is built

The engine appears three times, and the three are proved to agree.

- **Moves** (`Machine`). The whole state is one value, `Core`: cards, phase, open
  frames with their snapshots, the pipeline stack, the drain guard, the turn's
  clock with the event loop's live timers, the action queue. Twenty-four moves
  change it, each with a condition (`Enabled`) and an effect (`Apply`); one of
  them, `Hear`, changes nothing and puts an announcement on record. A log of
  moves is `Legal` when each was enabled when it was made. Most whole-run laws
  are statements about every legal log.
- **Functions** (`Engine`, `Requests`). What one event, one drain, one request,
  one settling window does, with the nesting of the source: the emitter calls
  its listeners synchronously, steps emit, emissions start pipelines, the drain
  guard stops re-entry. `EngineLegal.RunIsLegal` proves that every run of these
  functions makes only enabled moves.
- **Objects** (`Objects`, `Windows`, `Reading`). `GameState`, `TurnManager`, `TaskManager`,
  `GameEngine` and the emitter as classes with the source's fields, loops and
  in-place updates. Every method is proved to leave the whole table exactly as
  the corresponding function says; `Windows.Play` plays a whole list of entries
  on the objects and ends where `Requests.Run` ends. `Sharing` holds the
  pipelines and their step lists on the heap and replays any run's moves on them.

Rules are data. A step is a `Script`: act by act it emits an event, opens a frame
with its windows and plays cards into it, or ends, each act chosen by an
arbitrary function of the context, the frame it opened and the board it sees.
Card rules, hero rules, instance rules, win conditions, guards and expiry tests
are arbitrary functions too, so the theorems hold for every rule table. Dice,
wall clocks and the order in which timers fire are inputs. A player's pass, an
answer and a window's own timer all appear as one input, `Settle`, at any moment
the source would let the window settle.

The other modules follow one pattern: a state, a `Step` over everything that can
happen next, theorems over every sequence of happenings, and a class whose
methods are proved to make those steps.

## What is assumed

- Every player of the seat order is registered with a party; a missing seat
  reads as an empty one.
- Reactions arrive only while a window is open.
- A step emits neither the events of the turn and the game (`GameStarted`,
  `GameEnded`, `TurnStarted`, `TurnEnded`) nor `FrameResolved` nor `AbilityDone`,
  and `ReactionWindowOpened` only as it opens a window.
- A parked step returns the id of a frame it opened itself.
- `Traffic`: entity tags are strong, or the resource never changes (sections
  8.8.1, 13.1.5, 14.2 and 15.3.7 of RFC 9110), and a 206 is unencoded.
  `Traffic.WeakTagsMix` shows what happens without it.
- `Lobby`, `Publisher`: code between two awaits, or one entry of the event loop,
  runs without interruption; nothing else is assumed of the order.

## What the proofs found

Where the code does less than its documentation or an obvious reading says, the
model follows the code, and the property is proved exactly where it holds.

- The repository's own README (lines 130-140) says suspended pipelines live
  inside the snapshot. `GameState.clone` and `copyFrom` do not copy the stack
  (`server/src/game/pipelines/game-state.ts:554-604`); a restore only drops the
  pipelines paused on its own frame. Cancelling therefore holds if and only if
  the pipeline on top of the stack was started before the frame opened
  (`Cancellation.RestoreCancelsIffTopIsOutside`). A failing roll, attack or
  challenge meets that unless what it announces before its restore makes a rule
  open a frame of its own (`Cancellation.FailureCancels`); then a pipeline
  started inside the frame does go on (`LateQuestions.AnsweringTheCloseSurvives`).
- A restore also brings back the snapshot's current player. A roll opened by the
  end of one turn that fails during the next ends the earlier player's turn a
  second time, and the same seat then plays twice running
  (`Limits.BobPlaysTwiceRunning`). The seat after a turn is the right one if and
  only if the turn was kept: the last frame restored in it, if any, had been
  snapshotted with its player current (`Rotation.NextSeatIffKept`); with that,
  the rotation is exact (`Rotation.TurnsRotate`).
- For the same reason an action can be served outside its player's turn: one
  accepted while the roll was open is run after the restore, with the earlier
  player current (`Limits.BobIsServedInAnnsName`). It is served in its own turn if
  and only if the turn was kept both when it was accepted and as it is served
  (`Serving.ServedInItsOwnTurnIffKept`); that the board is idle, the guard holds
  and the price is there needs no condition (`Serving.ServedOnAnIdleBoard`).
- A game that ends while `GameStarted` is being announced still starts its first
  turn, and the turn's timer then runs on the concluded table, which the comment
  on `stopClock` says no timer outlives (`Endings.WonBeforeItStarts`). A turn
  starts after the end if and only if the game ended then
  (`Endings.TurnAfterTheEndIffEndedAtTheStart`); otherwise a concluded table has
  no timer and no time left (`Endings.NoTimerOutlivesTheTable`).
- The comment on `sweepExpired` says expiry is decided before anything is
  removed. That holds per seat: a later seat is decided on the board the earlier
  seats' removals left, and can be decided otherwise than on the board before
  (`Sweeping.LaterSeatDecidesLater`). It comes to the same for expiry tests that do
  not read the effects in play (`Sweeping.DecidedBeforeRemoval`), and the expiries
  the repository ships (`server/src/game/abilities/expiries.ts`) do not.
- A game can end inside the sweep that an event sets off
  (`server/src/game/pipelines/task-manager.ts:69-74`): the phase is read before the
  sweep and not after it, so the rules that event fits are still started, on the
  concluded table. `Starting.AnnouncementStarts` therefore speaks of the board as
  it stands after the sweep, whatever its phase.
- The database loses the winner exactly when the completing flush is overtaken
  by a newer one (`Stores.WinnerKeptIffNotOvertaken`); the in-memory store never
  does, but it keeps a record once for every delivery that carried it
  (`Stores.MemoryCountsRepeats`).
- Target keys of a party whose player has an empty id parse to nothing
  (`Targets.KeysRoundTrip` states exactly that).

## Model

| member | source | states |
|---|---|---|
| DepthFirst.DrainIsDepthFirst | server/src/game/pipelines/task-manager.ts:263-298 | the guarded drain loop makes, for every rule table and board, exactly the moves, in the same order and to the same end, of a recursive interpreter that keeps no stack of pipelines: after each step it runs everything that step's events started, a later event's rules above an earlier one's, to their ends, and only then the emitting pipeline's next step |
| DepthFirst.PipeAgrees | server/src/game/pipelines/task-manager.ts:263-298 | one pipeline, run by the interpreter above any stack, is what the loop does with that pipeline on top, parks, halts and the end of the game included |
| EngineLegal.RunIsLegal | server/src/game/pipelines/task-manager.ts:69-141 | every run of the engine from a dealt table makes only moves whose conditions hold; in particular no step begins inside another |
| Settlement.TheClockNeverLapsesOnABusyBoard | server/src/game/pipelines/turn-manager.ts:208-232 | over every sequence of requests, reactions, settlements and timers the "lapsed on a busy board" error is unreachable, and after every entry the board is at rest: a non-empty stack holds a pipeline waiting on an open frame, every frame has a window open, and the clock runs under none |
| Settlement.OutcomeRests | server/src/game/reactions/modifiable-roll-window.ts:318-350 | a roll, attack or challenge that settles on a board at rest leaves the board at rest |
| Settlement.ChoiceRests | server/src/game/reactions/choice-window.ts:160-225 | a question that settles, the last of its frame or not, leaves the board at rest |
| Idle.TimerMeansIdle | server/src/game/pipelines/turn-manager.ts:188-196 | on a board at rest a live turn timer means no open window and an empty stack |
| Idle.DrainQueueRests | server/src/game/pipelines/turn-manager.ts:238-263 | running the action queue, ending turns and starting the next, keeps the board at rest |
| Outcomes.RollIsSettled | server/src/game/reactions/modifier-window.ts:61-76 | over every run, with anything following: a roll window's close is announced, and if its frame then still stands a roll that meets the requirement releases it and is announced as made, with its seed; any other restores it and is announced as failed; nothing else settles before, and the frame is settled once |
| Outcomes.AttackIsSettled | server/src/game/reactions/attack-window.ts:65-87 | over every run: a roll at or past the slaying bound, as the monster reads its dice, releases the frame, moves the monster and announces it slain (a monster no longer in the row stops the engine); any other restores the frame, announced if and only if it is within the fight-back bound |
| Outcomes.ChallengeIsSettled | server/src/game/reactions/challenge-window.ts:214-309 | over every run: a card nobody contested, or defended, keeps its frame's board, and a defended one is marked challenged; a lost one restores the frame and goes to the discard pile; then the frame's last word names the card |
| Outcomes.ContestIsSaid | server/src/game/reactions/challenge-window.ts:214-309 | a contest is announced, after the close and before the frame is settled, exactly when there was one |
| Outcomes.ChoiceIsSettled | server/src/game/reactions/choice-window.ts:160-225 | over every run: answering a question never restores; while another of its frame is open it settles nothing, and with the last the frame is released at once, before the close is announced, for good |
| Outcomes.ReleaseKeepsTheBoard | server/src/game/pipelines/game-state.ts:181-264 | over every run, a release leaves the stack, every other frame and the whole board as they are but for the cards played into the frame, which go to the discard pile; the card a challenge is about is not one of them |
| Outcomes.SettlesOrNothing | server/src/game/reactions/modifiable-roll-window.ts:318-350 | an entry closes the window it names if and only if the window stands open, the verdict is of its kind and, for a roll, attack or challenge, no window of a later frame is open; otherwise it changes nothing |
| Outcomes.SettlesIffNothingStandsOver | server/src/game/reactions/modifiable-roll-window.ts:318-325 | over every run, an open window of a game no error stopped can be settled by a verdict of its kind, and for a roll, attack or challenge if and only if no window is open in a frame opened later |
| Cancellation.RestoreCancelsIffTopIsOutside | server/src/game/pipelines/game-state.ts:218-233 | over every run: a restore takes every pipeline started since its frame opened off the stack if and only if the pipeline on top of the stack, if there is one, was started before the frame opened |
| Cancellation.CancelsIffTopIsOlder | server/src/game/pipelines/game-state.ts:218-233 | the same for one restore, by pipeline numbers; what waited on the frame is gone in any case |
| Cancellation.CancelsWhenTopWaitsBelow | server/src/game/pipelines/game-state.ts:218-233 | so nothing started inside is left whenever the stack is empty, or its top waits on an open frame no younger than the restored one |
| Cancellation.ClosingLeavesOlderOnTop | server/src/game/reactions/modifiable-roll-window.ts:318-350 | on a board at rest, once a failing window is closed and its close announced without a new question, its frame still stands and the top of the stack is older than it |
| Cancellation.FailureCancelsIffTopIsOutside | server/src/game/reactions/modifier-window.ts:61-76 | over every run: when a short roll, a fight-back, a miss or a lost challenge settles, its restore leaves no pipeline started since its frame opened if and only if the one on top of the stack as it restores, if there is one, was started before the frame |
| Cancellation.FailureCancels | server/src/game/reactions/modifier-window.ts:61-76 | over every run: when a short roll, a fight-back, a miss or a lost challenge settles, the game goes on, and no rule has answered the announcements before its restore (the close, and of a challenge the contest) with a frame of its own, no pipeline started since the frame opened takes another step after the restore, in the settlement or in anything that follows |
| LateQuestions.AnsweringTheCloseSurvives | server/src/game/pipelines/game-state.ts:218-233 | the condition is needed: a concrete run, from a dealt table through four entries, in which a roll fails, a pipeline started inside its frame is still on the stack after the restore, and takes its next step once the question it asked is answered |
| Pipelines.GoneForGood | server/src/game/pipelines/task-manager.ts:285-298 | a pipeline that finished, was dropped by a rollback or was cleared by the end of the game never runs another step, over every continuation |
| Pipelines.NextToMoveIsYoungest | server/src/game/pipelines/task-manager.ts:285-298 | whichever pipeline takes a step or leaves, everything started after it has already left the stack |
| Rollback.RestoreUndoesWhatTheFrameSaw | server/src/game/pipelines/game-state.ts:218-233 | for any nesting of frames in between, a restore puts back the very board its frame opened over: players' standing, points, hands, decks, turn and phase, less the cards played into the frame, the one a challenge is about excepted, which are in the discard pile |
| Rollback.SpentIsSpent | server/src/game/pipelines/game-state.ts:181-264 | a card spent into a frame ends in the discard pile, in nobody's instance zone and, after a rollback, not back in its owner's hand, whichever way the frame goes |
| Rollback.PinnedSinceItOpened | server/src/game/pipelines/reaction-manager.ts:75-79 | over every run an open frame holds the very board it was opened over |
| Rollback.StaysPinned | server/src/game/pipelines/reaction-manager.ts:75-79 | while a frame is open nothing changes the snapshot it was opened with |
| Serving.FailureStillCosts | server/src/game/actions/roll-on-hero-action.ts:64-74 | whatever happens between the payment and the opening of a frame, and under the frame: the points after its rollback are those before the action, less its price, changed only by what was done to them before the frame opened; the slots used stay as they were then |
| Serving.ServedOnAnIdleBoard | server/src/game/pipelines/turn-manager.ts:238-263 | over every run an action leaves the queue only on an idle board and in the action phase; it runs if and only if its guard holds and its price is there at that instant, pays exactly its cost, or all its player has left for a pass, and nothing else on the board changes; a refused one changes nothing but the queue |
| Entries.AcceptedIffItMayAsk | server/src/game/pipelines/turn-manager.ts:108-135 | a request is accepted if and only if the game is on, it is its player's action phase, a reactable one finds no window open and no pipeline, the price is there and its guard holds; refused, it changes nothing |
| Entries.TimeUpEndsTheTurn | server/src/game/pipelines/turn-manager.ts:208-263 | over every run, the live timer of somebody's turn, fired when due, takes what points the player has left and ends the turn, and the end is announced |
| Entries.StartsOnce | server/src/game/game-engine.ts:39-50 | a game that has not begun takes its order and announces its start; after that a start changes nothing |
| Serving.ServedInItsOwnTurnIffKept | server/src/game/pipelines/turn-manager.ts:108-135 | over every run the n-th action served is the n-th accepted, in the same turn; it is served in its own player's turn if and only if, both when it was accepted and as it is served, no frame restored this turn had left another player current |
| Serving.AcceptedInItsOwnTurnIffKept | server/src/game/pipelines/turn-manager.ts:108-135 | a request is accepted from the player whose turn was started if and only if no frame restored this turn has left another player current |
| Limits.BobIsServedInAnnsName | server/src/game/pipelines/turn-manager.ts:238-263 | the condition is needed: a concrete run, from a dealt table through four entries, in which a pass accepted from one player in his turn is served, in that turn, with another player current |
| Waiting.NobodyWaitsOnAnIdleBoard | server/src/game/pipelines/turn-manager.ts:238-263 | over every run, once an entry is done an accepted action is still waiting only on a busy board, in a concluded game, or with nobody current |
| GoingOn.SomebodyIsToPlay | server/src/game/game-engine.ts:52-70 | over every run of a game started with players of its table, between entries it is somebody's turn from the first turn to the end of the game |
| TurnLaws.QueueServesInOrder | server/src/game/pipelines/turn-manager.ts:108-135 | over every run the accepted actions are the served ones followed by the waiting ones: each is served at most once, in acceptance order, in the turn it was accepted in, and nothing waits outside the action phase |
| TurnLaws.ClockConservesTime | server/src/game/pipelines/turn-manager.ts:176-196 | over every interleaving of openings and settlements, a timed turn in a game still played has its time; what it has left less the stretch now running is the configured time less all the time the clock has run this turn; at most one timer is live, and it is the current turn's |
| Ticking.ClockRunsIffNoWindowIsOpen | server/src/game/pipelines/turn-manager.ts:58-76 | over every run, between two entries of somebody's timed turn in a game still played, the turn's one timer is live, due at its deadline, if and only if no window is open |
| TurnLaws.DeadlineIsFixed | server/src/game/pipelines/turn-manager.ts:90-95 | the deadline shown is constant for as long as one timer runs |
| TurnLaws.FreshTurn | server/src/game/pipelines/turn-manager.ts:142-170 | over every run a turn starts with the player's budget and standing bonus as points, nothing used, nothing challenged, its full time not yet running, and the board otherwise as it was |
| TurnLaws.TurnEndsClean | server/src/game/pipelines/turn-manager.ts:198-206 | over every run a turn ends only with no points left, an empty queue and a board nobody is busy on; nothing is used any more, no timer runs, and the rest of the board is as it was |
| TurnLaws.BonusAddsUp | server/src/game/pipelines/turn-manager.ts:150-157 | the standing bonus is the sum of the values of the unscoped action-point effects and of nothing else |
| Rotation.TurnsRotate | server/src/game/game-engine.ts:102-107 | with a duplicate-free order and every turn kept to its end, the k-th turn started belongs to seat k modulo the number of seats |
| Rotation.NextSeatIffKept | server/src/game/game-engine.ts:102-107 | the seat that follows is the one after the turn's own player if and only if no frame restored this turn left another player current |
| Rotation.KeptIsCurrent | server/src/game/pipelines/game-state.ts:583-604 | the board names the turn's own player exactly when the last restore of the turn, if any, was of a snapshot naming that player |
| Limits.BobPlaysTwiceRunning | server/src/game/game-engine.ts:52-65 | a concrete run, from a dealt table through three entries, in which one seat has two turns running |
| Rotation.TheGameEndsOnce | server/src/game/game-engine.ts:72-88 | over every run the game is concluded at most once, and is concluded exactly when it has been once; no rollback undoes it |
| Winning.EndsForTheFirstWinner | server/src/game/game-engine.ts:72-100 | over every run the game is concluded only for a player who meets all win conditions where all are required, some one of them otherwise, the first in player order who does, with a non-empty list, and only while every frame has a window open and only questions are; that player is the winner |
| Winning.RunEndsForTheFirstWinner | server/src/game/game-engine.ts:72-100 | the same of the runs of the engine: each conclusion in its log is of a game not concluded before, on a board nothing can undo, for the first player who has won |
| Winning.NoWinGoesUnnoticed | server/src/game/game-engine.ts:52-100 | after any announcement that leaves the engine going and nothing that can still be undone, the game is concluded if any player meets the conditions so |
| Announcing.BeginningsAndEndsAreSaid | server/src/game/game-engine.ts:39-88 | over every run the start of the game, the start and end of every turn, the end of the game and every `AbilityDone` are announced by the very next thing that happens, with their player and card |
| Announcing.SaidOnlyThen | server/src/game/pipelines/task-manager.ts:311-321 | over every run those announcements are made at no other time |
| Announcing.NothingHappensAfterTheEnd | server/src/game/pipelines/task-manager.ts:47-100 | once the game is over an announcement ends no effect, wakes nobody and starts no rule |
| Endings.TurnAfterTheEndIffEndedAtTheStart | server/src/game/game-engine.ts:39-65 | over every run of a table whose first player is at it and that no error stops, a turn starts after the end of the game if and only if the game ended while `GameStarted` was being heard |
| Endings.FirstTurnStartsAnyway | server/src/game/game-engine.ts:39-50 | in that case the first turn starts on the concluded table, nobody acts on its announcement, and it has its full time, running unless a window is open |
| Endings.WonBeforeItStarts | server/src/game/game-engine.ts:39-50 | a concrete run: one entry from a dealt table, after which the game is over, its first turn has started after the end, and a timer is live |
| Endings.NoTimerOutlivesTheTable | server/src/game/pipelines/turn-manager.ts:171-179 | over every run, a concluded table has no live timer and no time left, unless it was concluded before its first turn |
| Rotation.NoTurnAfterTheEnd | server/src/game/game-engine.ts:52-65 | once a table is concluded and its first turn has started, no other starts, over every continuation |
| Pipelines.EveryPipelineRunsItsOwnSteps | server/src/game/pipelines/task-manager.ts:127-131 | for every pipeline ever started, across parks, wakes and re-entrant events: the steps it ran followed by the ones it still holds are its rule's declared steps; it runs for the owner it was started for, its context is what its last step handed on with what it was woken with, and one that left by itself ran all of them |
| Sharing.PipelineStack.Replay | server/src/game/pipelines/task-manager.ts:127-131 | with pipelines and step lists as objects changed in place: the moves of any legal log, so of any run of the engine, re-entrant pushes, parks, wakes and rollbacks included, lead to the engine's own stack, and every rule still declares the steps it declared |
| Sharing.PipelineStack.PushPipeline | server/src/game/pipelines/task-manager.ts:127-131 | a pushed pipeline holds the rule's steps in a list no other pipeline and no rule has |
| Sharing.PipelineStack.NextStep | server/src/game/pipelines/task-manager.ts:285-298 | taking a step shortens the top pipeline's list and changes no other pipeline's and no rule's |
| Sharing.PipelineStack.DropWaiters | server/src/game/pipelines/game-state.ts:218-226 | a rollback takes off exactly the pipelines that wait on its frame and leaves the others, with their lists, in their order |
| Pipelines.SleepsUntilItsFrameResolves | server/src/game/pipelines/task-manager.ts:330-344 | a parked pipeline runs nothing and does not change until its own frame resolves |
| Pipelines.WakesWithTheWrites | server/src/game/pipelines/task-manager.ts:79-95 | resolving its frame wakes it with every write of that frame in its context and nothing else changed |
| Reaching.FinalRollReachesTheWaiter | server/src/game/pipelines/task-manager.ts:76-95 | over every run of a game still played: once a hero roll or an attack settles, whoever waited on its frame takes its next step, whenever that is, with `finalRoll` set to that roll in its context and otherwise exactly as it went to sleep |
| Reaching.ContestReachesTheWaiter | server/src/game/pipelines/task-manager.ts:76-95 | over every run of a game still played: whoever waited on a contested card's frame takes its next step exactly as it went to sleep |
| Reaching.OutcomeSpeaks | server/src/game/reactions/modifiable-roll-window.ts:318-350 | over every run, the outcome of a roll, an attack or a contested card comes to its frame's last word with the final roll or the contested card in it, unless the engine stops on the way |
| Reaching.AnswersReachTheWaiter | server/src/game/pipelines/task-manager.ts:76-95 | over every run of a game still played: when the last of a frame's questions is answered, whoever waited on it takes its next step with the answers to all of them in its context, in the order the questions were opened, the last write of a key winning, every other entry as it was |
| Reaching.AnswerIsKept | server/src/game/reactions/choice-window.ts:160-225 | over every run, what an entry answers a question with is what its window holds for as long as its frame stands |
| Acting.AnswerIsSaid | server/src/game/reactions/choice-window.ts:160-225 | once its close is heard, what an answer comes to is announced event by event; the frame's release and last word come with its last question and not before |
| Pipelines.DoneIsTheLastPop | server/src/game/pipelines/task-manager.ts:311-321 | AbilityDone goes out exactly at the pops that take a card's printed pipelines from one to none; a system pipeline's pop changes no count |
| Pipelines.EveryBurstEndsOnce | server/src/game/pipelines/task-manager.ts:285-321 | over every run, each burst of a card's printed pipelines ends in exactly one AbilityDone, one rollback or the end of the game, or is still going |
| Starting.AnnouncementStarts | server/src/game/pipelines/task-manager.ts:97-141 | an announcement starts, on the board as it stands once effects have run out and waiters have woken, one pipeline for every live rule it concerns and no other: with the rule's card, steps and kind, for its card's owner or, under Attacker, the event's player, and with the source card, every seeded entry and, under TargetsOwner, the player who acted, in its context |
| Starting.StartsInOrder | server/src/game/pipelines/task-manager.ts:97-141 | the rules an event concerns are started each exactly once, the named card's own before every onlooker's, and in each group those listed first before those listed later |
| Starting.PoppedInPlace | server/src/game/pipelines/task-manager.ts:97-153 | what was on the stack stays, and above it lies one pipeline per rule concerned, not yet begun and under a fresh number, the k-th from the top being the k-th rule in that order |
| Starting.FirstListedOnTop | server/src/game/pipelines/task-manager.ts:148-153 | the pipelines land above what was on the stack, the first listed on top, each with a fresh number |
| Starting.ConcernsIsMatching | server/src/game/abilities/ability-lifecycle.ts:26-83 | an event concerns a rule if and only if it is of its kind and under its label, and: it names the rule's own card (SelfCard, Attacker); it names the hero that carries it, in the first party that hero stands in (CarrierCard); the owner acted (OwnerEvent); it is the owner's turn (OwnerTurn); always (Anyone); the card aimed at sits with the owner, at no earlier seat, and somebody else acted (TargetsOwner) |
| LiveRules.LiveRulesAre | server/src/game/pipelines/task-manager.ts:159-206 | a rule is live if and only if its card is its owner's leader, slain monster, hero, item carried by a hero of the party or played instance, or in the row and nobody's; every hero holds the heroes' rules and every played instance the instances' |
| LiveRules.ListedInBoardOrder | server/src/game/pipelines/task-manager.ts:159-206 | the list holds the rule of every place on the board exactly once, in order: seat by seat, in each leader, slain monsters, party and played instances, card by card, printed rules before every hero's or instance's and those before a carried item's, and the row last |
| Objects.TaskManager.OnEvent | server/src/game/pipelines/task-manager.ts:69-141 | hearing an event leaves the table as the specification says: effects expired and announced, waiters woken, matching rules pushed, the stack drained unless a drain is running |
| Objects.TaskManager.SweepExpired | server/src/game/abilities/ability-lifecycle.ts:132-157 | the sweep's two loops remove, seat by seat, exactly the effects the event ends, and announce each once all are gone |
| Sweeping.SweptExactly | server/src/game/abilities/ability-lifecycle.ts:109-157 | with expiry tests that do not read the effects in play, an effect stays if and only if no effect of its seat that the event ends bears its id: one of whose endings is by an event of that kind, untested or with its test passed |
| Acting.EndedEffectsAreSaid | server/src/game/abilities/ability-lifecycle.ts:132-157 | all ended effects leave the board in one move, and each is then announced to its owner, in the order they were found |
| Sweeping.DecidedBeforeRemoval | server/src/game/abilities/ability-lifecycle.ts:126-146 | with expiry tests that do not read the effects in play, what a sweep ends is what every seat's effects come to on the board before it, in seat order, and exactly those go |
| Sweeping.LaterSeatDecidesLater | server/src/game/abilities/ability-lifecycle.ts:126-146 | otherwise it need not be: a board on which both seats' effects end and only the first seat's is swept |
| Reading.Match | server/src/game/pipelines/task-manager.ts:97-141 | the sorting loop gives the named card's fitting rules, then the onlookers', each in source order |
| Reading.AbilitySources | server/src/game/pipelines/task-manager.ts:159-206 | the position loops give the live rules, seat by seat and then the monster row |
| Objects.TaskManager.WakeAll | server/src/game/pipelines/task-manager.ts:79-95 | the in-place loop wakes exactly the pipelines waiting on the frame |
| Objects.TaskManager.Add | server/src/game/pipelines/task-manager.ts:148-153 | the backwards loop pushes so that the first listed is on top |
| Objects.TaskManager.Drain | server/src/game/pipelines/task-manager.ts:263-275 | a drain inside a drain does nothing; any other runs the specified loop, guard up during it and down after |
| Objects.TaskManager.RunSteps | server/src/game/pipelines/task-manager.ts:263-298 | the loop leaves the table as the recursive specification says |
| Objects.TaskManager.RunStep | server/src/game/pipelines/task-manager.ts:330-344 | the step is taken off the pipeline, run, and the pipeline parked only on a frame that is still open |
| Acting.EveryActIsPlayed | server/src/game/pipelines/task-manager.ts:276-281 | whatever a step does is on record act by act: the board it leaves and the event it announces, or the frame it opens over that board, each card played there with its announcement, each window announced and then open and unanswered; each act is chosen on what the one before handed on, the frame opened last and the board as it stands |
| Acting.EveryStepIsPlayed | server/src/game/pipelines/task-manager.ts:276-344 | a turn of the drain acts out the top pipeline's next step with the context it holds, ends it with what the step handed on, and parks it exactly when the step waits for a frame that still stands |
| Acting.ServedActionIsPlayed | server/src/game/pipelines/turn-manager.ts:238-263 | an action taken off the queue to be run is acted out at once, on a fresh context, and the queue goes on from there |
| Objects.Game.Emit | server/src/game/events/game-event-emitter.ts:6-10 | every listener hears the event, in the order they were added, before the emission returns, with whatever they emit in turn: the clock, the pipelines, the end of the game, and then the next turn or the rest of the queue |
| Objects.GameEventEmitter.RemoveListener | server/src/game/events/game-event-emitter.ts:16-18 | exactly that listener goes, the others in their order |
| Objects.GameEngine.OnEvent | server/src/game/game-engine.ts:52-65 | the end of the game if it is due; else the next turn after a turn has ended, the rest of the queue after a frame has settled |
| Objects.Game.ReleaseFrame | server/src/game/pipelines/game-state.ts:181-192 | the frame is gone and what was spent into it put away; an unknown frame changes nothing |
| Objects.Game.RestoreFrame | server/src/game/pipelines/game-state.ts:218-233 | the frame is gone, its waiters dropped, the snapshot back, the spent cards out of the hands; an unknown frame changes nothing |
| Objects.Game.OpenFrame | server/src/game/pipelines/reaction-manager.ts:75-79 | an empty frame over a snapshot of the board as it stands |
| Objects.Game.AskAll | server/src/game/pipelines/reaction-manager.ts:82-90 | windows open one after another, each announced before it is on the board, and only while the frame stands |
| Objects.TurnManager.HoldTimer | server/src/game/pipelines/turn-manager.ts:181-186 | the live timer is cancelled and the stretch just run taken off what the turn has left |
| Objects.TurnManager.ResumeClock | server/src/game/pipelines/turn-manager.ts:188-196 | a timer for the rest of the turn is armed exactly when the turn has time left, none is armed, and the phase is the action phase |
| Objects.TurnManager.StartTurn | server/src/game/pipelines/turn-manager.ts:142-170 | the table is as specified after the reset, the standing bonus, the announcement and the clock's reading |
| Objects.TurnManager.EndTurn | server/src/game/pipelines/turn-manager.ts:198-206 | the table is as specified after the turn's end is announced and, unless that concluded the game, the next turn started |
| Objects.TurnManager.Drain | server/src/game/pipelines/turn-manager.ts:238-263 | the queue loop leaves the table as the recursive specification says, up to the turn's end |
| Objects.TurnManager.Enqueue | server/src/game/pipelines/turn-manager.ts:108-135 | the reply names the first reason to refuse, in the source's order, and an accepted action is queued and the queue run |
| Objects.TurnManager.Lapse | server/src/game/pipelines/turn-manager.ts:218-232 | a lapse of an old turn only forgets its timer; one of this turn forfeits the points and runs the queue |
| Objects.GameEngine.ConcludeIfDue | server/src/game/game-engine.ts:72-88 | the game concludes exactly when some player meets the conditions and no frame may still restore the board, clock first, then the board |
| Reading.CheckWinConditions | server/src/game/game-engine.ts:91-100 | the winner is the first player in order whose own party meets all, or any, of a non-empty list |
| Objects.GameEngine.Start | server/src/game/game-engine.ts:39-50 | GameStarted is announced, with everything it sets off, before the first turn starts |
| Windows.SettleRoll | server/src/game/reactions/modifier-window.ts:61-76 | a roll short of its requirement restores and then announces the failure; any other releases and announces the success with its seed |
| Windows.SettleBattle | server/src/game/reactions/attack-window.ts:65-87 | only a slay releases the frame, moves the monster and refills the row; a fight-back restores and is announced; a miss restores |
| Slaying.SlayingConservesMonsters | server/src/game/pipelines/game-state.ts:1135-1148 | row, deck and party together hold the same monsters before and after a slay |
| Slaying.SlayingMovesOne | server/src/game/pipelines/game-state.ts:1135-1148 | the slain monster leaves its place in the row for the end of its slayer's party, the deck's top goes to the row's end while the deck lasts, and nothing else on the board changes |
| Windows.SettleContest | server/src/game/reactions/challenge-window.ts:214-309 | an uncontested card releases; a defended one releases and may not be challenged again this turn; a lost one restores and is discarded |
| Windows.ResolveOutcome | server/src/game/reactions/modifiable-roll-window.ts:318-350 | the window closes, the close is announced, the frame settles, and only then does FrameResolved wake what waited |
| Windows.ResolveChoice | server/src/game/reactions/choice-window.ts:160-225 | a question never restores; its frame is released and resolved with the last of its questions, and carries the answers of all of them, in the order they were opened |
| Windows.Play | server/src/game/pipelines/turn-manager.ts:26-263 | a table played on the objects, from the deal through any list of entries, is the run the theorems are about |
| Monsters.CanBeAttackedBy | server/src/game/cards/monster-card.ts:47-73 | the greedy loops answer yes if and only if the requirements can be shared out: a distinct hero of that class for each named one, the leader for at most one of its class, any other distinct hero for each 'Any' |
| Monsters.HeroesCover | server/src/game/cards/monster-card.ts:56-64 | the pool loop says yes exactly when the named classes are contained in the heroes as multisets and enough heroes are left |
| Monsters.MayAttackIffCoverable | server/src/game/cards/monster-card.ts:27-46 | an assignment exists if and only if the multiset condition holds, with or without the leader's one entry |
| Monsters.MoreHeroesNeverHurt | server/src/game/cards/monster-card.ts:47-73 | the answer does not change under any reordering of heroes or requirements, and more heroes never make it no |
| Traffic.ResolvesToOneVersion | client/src/loading/traffic.ts:65-110 | over every sequence of requests, preemptions, answers, failures and cancellations, a stored part is the beginning of one version of the resource, of the length counted, and what a download resolves with is one version, whole |
| Traffic.OneAtATime | client/src/loading/traffic.ts:57-110 | over every run at most one fetch is out, whatever is out while visible work has the line has been aborted, and every download still owed its answer is queued once or in flight, never both |
| Traffic.PumpTakesTheMostUrgent | client/src/loading/traffic.ts:65-71 | what starts is the most urgent job, the earliest listed of its equals, and it asks for exactly what it lacks |
| Traffic.AsksForTheRest | client/src/loading/traffic.ts:65-77 | over every run a fetch asks for its job's bytes from the first still lacking on, on condition of the version begun wherever a strong tag names it |
| Traffic.NothingWaitsOnAFreeLine | client/src/loading/traffic.ts:57-71 | over every run no download waits while the line is free and no fetch is out |
| Traffic.PromisesSettleOnCue | client/src/loading/traffic.ts:40-110 | over every run, a download still owed is rejected if and only if it is cancelled or its fetch breaks uninterrupted, and resolved if and only if the last byte of its body is read, with that body; what is settled stays so |
| Traffic.RequestIsTakenUp | client/src/loading/traffic.ts:40-55 | over every run, a download asked for is owed from then on unless it was given up before, and no other one is touched |
| Traffic.InterruptedGoesFirst | client/src/loading/traffic.ts:103-106 | over every run, a fetch that breaks after it was interrupted puts its download first in the queue with all it had stored |
| Traffic.CancelledIsStopped | client/src/loading/traffic.ts:44-51 | over every run, a cancelled download leaves the queue rejected, its fetch is told to stop, and no other is touched |
| Traffic.WeakTagsMix | client/src/loading/traffic.ts:75-77 | under a weak tag a resumed download can resolve to parts of two versions: a concrete run |
| Traffic.BackgroundTraffic.PumpNext | client/src/loading/traffic.ts:65-77 | the method starts what the specification says, with the range and the tag of the part already stored |
| Traffic.BackgroundTraffic.OnResponse | client/src/loading/traffic.ts:78-92 | a whole body starts the job afresh, a range goes on where it stopped, a wrong range or status fails |
| Traffic.BackgroundTraffic.OnError | client/src/loading/traffic.ts:103-106 | an interrupted job goes back to the head of the queue unless it was cancelled; any other failure is its job's |
| Traffic.BackgroundTraffic.Cancel | client/src/loading/traffic.ts:44-51 | a cancelled job leaves the queue, its fetch is aborted and its promise rejected, once |
| Lobby.EveryCreatedGameIsSeated | server/src/lobby/lobby.service.ts:174-227 | however requests overlap at their awaits, a game the server created is assigned to its whole group, none of whom had a game, and no other assignment changes; the store never refuses |
| Lobby.OneGameAtATime | server/src/lobby/lobby.service.ts:217-236 | an account that has a game has that one, over any further requests however they overlap, until that game is reported over |
| Lobby.OneStartAtATime | server/src/lobby/lobby.service.ts:174-227 | the start lock is up exactly while one start is under way, never two, and the ready list names nobody twice |
| Lobby.FailedStartChangesNothing | server/src/lobby/lobby.service.ts:174-227 | a start that was refused, or whose game could not be created, has changed neither the ready list nor the assignments nor the settings at any of its steps, however other requests fell between them, and holds the lock no more |
| Lobby.FailureFreesTheLock | server/src/lobby/lobby.service.ts:174-227 | the very step at which a start is refused or its game fails to be created frees the lock, and only the step that stores a game seats anybody |
| Hosting.OnlyTheHostStarts | server/src/lobby/lobby.service.ts:156-184 | over every interleaving, a group about to be created, or created, came of a start by the account that was first on that very ready list when it was read, and has at least the minimum and at most the seats there were when they were read |
| Hosting.StartsIffHost | server/src/lobby/lobby.service.ts:156-162 | a start that has read the ready list goes on if and only if its account is first there; anybody else's ends refused, frees the lock and changes nothing stored |
| Hosting.GroupGoesOnIff | server/src/lobby/lobby.service.ts:163-192 | whatever happens in between, a group goes on to be created if and only if its size is within bounds and none of its accounts had a game when they were looked up; refused, it frees the lock |
| Hosting.SecondStartIsRefused | server/src/lobby/lobby.service.ts:174-177 | a start is refused as one too many if and only if another one is under way |
| Hosting.OnlyTheHostSets | server/src/lobby/lobby.service.ts:133-154 | any step that changes the settings is an update's, by the account that was first on the list it read, and sets what it asked |
| Hosting.SetsIffHost | server/src/lobby/lobby.service.ts:133-141 | an update takes effect if and only if its account is first on the list it read; otherwise it is refused and changes nothing |
| Hosting.UnseatsThoseBehind | server/src/lobby/lobby.service.ts:142-147 | fewer seats unseat exactly the players behind them on the list that was read |
| Hosting.ComesByAsking | server/src/lobby/lobby.service.ts:98-121 | a player comes onto the ready list only by its own request, at the end and into a free seat |
| Hosting.ReadyGoesOnIff | server/src/lobby/lobby.service.ts:98-104 | whatever happens in between, a player gets on to the list if and only if it had no game when it was looked up |
| Hosting.SeatedIfFree | server/src/lobby/lobby.service.ts:105-121 | a player takes a seat if and only if there was one when it looked and there still is; one who is ready already changes nothing |
| Hosting.LeavesForAReason | server/src/lobby/lobby.service.ts:123-154 | and leaves it only by its own request, with a seat the host took away, or with the group whose game was created |
| Hosting.GoesWhenDue | server/src/lobby/lobby.service.ts:123-184 | who asked to leave, or is in the group whose game was created, is off the list one step later |
| Hosting.FreedWhenOver | server/src/lobby/lobby.service.ts:228-236 | a game reported over frees exactly its own players |
| LobbyService.Service.Proceed | server/src/lobby/lobby.service.ts:99-236 | each request, from one await to the next, leaves the service and both stores as the specification says |
| LobbyService.InMemoryGameAssignmentStore.AssignGroup | server/src/lobby/stores/in-memory-game-assignment.store.ts:9-40 | the group is stored whole, or not at all when an account repeats or already has a game |
| LobbyService.InMemoryGameAssignmentStore.RemoveByGameId | server/src/lobby/stores/in-memory-game-assignment.store.ts:62-74 | deleting while iterating removes exactly the game's assignments and counts them |
| LobbyService.InMemoryLobbyStore.AddReadyPlayer | server/src/lobby/stores/in-memory-lobby.store.ts:27-44 | a player already there is not added again, a full table refuses, anybody else goes last |
| LobbyService.InMemoryLobbyStore.RemoveReadyPlayer | server/src/lobby/stores/in-memory-lobby.store.ts:46-54 | exactly that player is gone, the others in their order |
| LobbyService.InMemoryLobbyStore.RemoveReadyPlayers | server/src/lobby/stores/in-memory-lobby.store.ts:56-68 | the backwards splicing loop removes exactly the named players, keeps the others' order and counts the removed |
| Publisher.EveryEventIsFlushedOnce | server/src/game-server/snapshot-publisher.service.ts:155-172 | over every interleaving of events and ticks at most one flush is pending, versions rise by one per flush from one, and whenever none is pending the flushes' events and lines, in order, are all that was heard, once each |
| Publisher.EveryLineIsTold | server/src/game/views/game-log.ts:50-93 | over every interleaving the log holds every event that happened, in order, and one numbered line for each that has one |
| Publisher.FlushShowsTheMoment | server/src/game-server/snapshot-publisher.service.ts:100-135 | over every interleaving a tick flushes if and only if something was heard since the last flush; the flush carries the tick's own time and every seat's view of it, and the winner if and only if an end was among what was heard |
| Publisher.SeatsShareVersions | server/src/game-server/snapshot-publisher.service.ts:100-135 | every seat is sent every version once, in order, with the very view stored for it |
| Publisher.OneEndCompletesOneFlush | server/src/game-server/snapshot-publisher.service.ts:155-172 | an end heard once completes exactly one flush, the first after it |
| Publisher.TheDatabaseTellsTheStory | server/src/persistence/postgres-game.store.ts:48-82 | whatever order a table's flushes reach the database in, and however often, once all have, its event rows are the game log number for number and its board is the last one shown |
| Publisher.GameLog.Drain | server/src/game/views/game-log.ts:87-93 | hands out what was recorded since the last drain, and nothing twice |
| Publisher.Watcher.OnEvent | server/src/game-server/snapshot-publisher.service.ts:161-171 | an event is logged and schedules a flush only if none is pending |
| Publisher.Watcher.OnTick | server/src/game-server/snapshot-publisher.service.ts:100-135 | the flush numbers, sends and stores as specified |
| Stores.AllKeepTheNewest | server/src/game-server/stores/in-memory-game.store.ts:32-44 | memory, database and client all end on the newest flush delivered, whatever the order and the repeats |
| Stores.OneRowPerNumber | server/src/persistence/postgres-game.store.ts:52-67 | the tables hold one row per sequence number, with the record that carries it, and no row of another game changes |
| Stores.SameFlushesSameTables | server/src/persistence/postgres-game.store.ts:48-82 | two deliveries of the same flushes, in any orders and with any retries, end on the same board and the same rows |
| Stores.WinnerKeptIffNotOvertaken | server/src/persistence/postgres-game.store.ts:68-81 | memory always keeps the winner; the database keeps it, and the time of the end, if and only if nothing newer was delivered before the flush that names it, however often that flush is delivered again |
| Stores.MemoryCountsRepeats | server/src/game-server/stores/in-memory-game.store.ts:36-42 | whatever the order and the repeats, memory keeps a record as many times as flushes carrying it were delivered |
| Stores.InMemoryGameStore.FlushTo | server/src/game-server/stores/in-memory-game.store.ts:32-44 | an unknown game refuses; a known one appends the records and replaces the board only by a newer one |
| Stores.PostgresGameStore.FlushTo | server/src/persistence/postgres-game.store.ts:48-82 | the transaction inserts the absent rows and updates the game row only upwards |
| Ledger.AtMostOnce | server/src/game-server/game.gateway.ts:140-183 | a command that was executed, repeated while its seat has not left and has had fewer than 64 newer answers, gets the identical result and executes nothing |
| Ledger.ReachesTheTableIffForgotten | server/src/game-server/game.gateway.ts:140-168 | while the table lives, a command is executed if and only if its id is not among its seat's last 64 answers |
| Ledger.TheTableAnswers | server/src/game-server/game.gateway.ts:140-183 | over every run, a command not recalled is answered by its table, or with an error and no effect if the table is gone; its answer is remembered under its id, an accepted leave forgets its seat first, and no other seat's memory changes |
| Ledger.MemoryIsTheLastAnswers | server/src/game-server/command-ledger.ts:18-44 | over every run a seat's memory is exactly its last answers since it left, up to 64, in order and without repeats |
| Ledger.CommandLedger.Store | server/src/game-server/command-ledger.ts:30-43 | remembering appends, or replaces in place, and evicts the oldest past the bound |
| Ledger.GameGateway.HandleCommand | server/src/game-server/game.gateway.ts:140-183 | memory first, then a missing table, then execution; an accepted leave forgets the seat but for its own answer |
| Targets.KeysRoundTrip | client/src/board/viewTargets.ts:37-106 | with one party per player, the key given to an id, printed and parsed as a string, gives that id back, exactly unless it is the own key of a party whose player has no name |
| Targets.KeysAreDistinct | client/src/board/targeting.tsx:40-67 | so on a table of named players no two ids share a key |
| Targets.KeyInParses | client/src/board/viewTargets.ts:50-62 | hero, item, leader and slain-monster keys of a seat parse back through that seat's slot |
| Targets.EverySeatIsPlaced | client/src/board/seats.ts:13-44 | at a table of up to four every seat has a place on the screen and no two share one |
| Targets.SeatsGoRound | client/src/board/seats.ts:13-44 | the viewer sits below, and who comes k turns after the viewer sits k places further round the table; with two, the other sits across |
| Targets.SlotLeadsBack | client/src/board/seats.ts:41-44 | the slot found for a player holds that player |
| Traffic.NoneStartsWhileBusy | client/src/loading/traffic.ts:65-71 | over every run a fetch starts only with the line free and no other out, one per happening |
| Monsters.BetterRollNeverWorse | server/src/game/cards/monster-card.ts:75-89 | in the direction a monster's roll is read, a better roll never has a worse outcome, and the two directions mirror each other |
| Monsters.WhereTheBoundsFall | server/src/game/cards/monster-card.ts:75-89 | reading high, a roll slays from the higher bound on and is fought back up to the lower, if it does not slay; reading low, the other way round |

## Left out

- The drain may be kept busy for ever by a rule table; runs carry a bound on the number of steps (`gas`), and a run that exhausts it stops as `OutOfGas`. The theorems hold for every bound.
- A step is a script of any finite length rather than a closure: its local variables live in its choice function's arguments, so a step that keeps a private counter between emissions sees it only through the board and the context.
- Rule tables, pipelines, frames, jobs and requests are values named by numbers or by their place, not aliased objects. Pipelines and their step lists are also modelled on the heap, in `Sharing`, where copying is what protects the rules' own lists; `Objects.TaskManager` holds them as values, and the two meet in the log of moves.
- Windows keep what settling needs (kind, respondent, open or not). Bonuses, passes, timers, targets, option validity, the dice of a challenge and what a pick writes become the verdict handed to `Settle`; restarting windows' clocks is not modelled.
- What a concrete action's guard asks of the board (hand size, party membership, sealed effects) and what its effect does are parameters; prices, the reactable flag and their order in `enqueue` and `drain` are modelled.
- A listener that throws: a step returning a frame that is not open, a slay of a monster not in the row, a lapse on a busy board and a request outside the action phase stop the run; other exceptions are not modelled.
- A step that parks on a frame it did not open itself.
- After a drain the stack may hold unrun pipelines above a parked one until the next event; this is kept as it is and not claimed otherwise.
- Revealed cards, lapse notes and audiences of events: views, with no effect on scheduling.
- Idle listeners of the download queue: each is a request of its own, made at another happening.
- Number parsing accepts decimal digits only; the other spellings a script engine reads as numbers are never printed into a key.
- Server-sent events and snapshots of the lobby: reads after the last change of a request.
- Cards and their abilities, React components, wiring, sockets, SQL connections, authentication: data, user interface and plumbing.
