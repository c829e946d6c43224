/** Starting games from the lobby, with every request free to be overtaken at each of its awaits. */
module Lobby {
  import opened Board

  type GameId = string

  const MIN_PLAYER_COUNT := 2

  datatype Player = Player(account: Id, name: string)

  datatype Settings = Settings(playerCount: int, theme: string)

  // ---------------------------------------------------------------------------
  // The stores
  // ---------------------------------------------------------------------------

  predicate IsIn(players: seq<Player>, account: Id) {
    exists p | p in players :: p.account == account
  }

  function Accounts(players: seq<Player>): set<Id> {
    set p | p in players :: p.account
  }

  predicate Distinct(players: seq<Player>) {
    forall i, j | 0 <= i < j < |players| :: players[i].account != players[j].account
  }

  function RemoveAll(players: seq<Player>, accounts: set<Id>): seq<Player> {
    if players == [] then []
    else
      var rest, last := RemoveAll(players[..|players| - 1], accounts), players[|players| - 1];
      if last.account in accounts then rest else rest + [last]
  }

  lemma {:induction false} RemovedOnly(players: seq<Player>, accounts: set<Id>)
    ensures forall p :: p in RemoveAll(players, accounts) <==> p in players && p.account !in accounts
    ensures Distinct(players) ==> Distinct(RemoveAll(players, accounts))
  {
    if players != [] { RemovedOnly(players[..|players| - 1], accounts); }
  }

  /** One account, one game. */
  type Assignments = map<Id, GameId>

  function Assign(seated: Assignments, players: seq<Player>, game: GameId): Option<Assignments> {
    if Distinct(players) && forall p | p in players :: p.account !in seated
    then Some(seated + map a | a in Accounts(players) :: game)
    else None
  }

  function Complete(seated: Assignments, game: GameId): (out: Assignments)
    ensures out.Keys <= seated.Keys
  {
    map a | a in seated && seated[a] != game :: seated[a]
  }

  // ---------------------------------------------------------------------------
  // Requests, cut at their awaits
  // ---------------------------------------------------------------------------

  datatype Outcome =
    | Served | AlreadyInGame | LobbyFull | NotHost | StartInProgress | BadCount | Unavailable | StoreRefused | NotPublished

  /** Where a request stands, with what it has read so far. */
  datatype Request =
    | Ready(me: Player)
    | ReadyFree(me: Player, inGame: bool)
    | ReadyListed(me: Player, players: seq<Player>)
    | ReadyCounted(me: Player, players: seq<Player>, count: int)
    | Unready(account: Id)
    | Update(account: Id, settings: Settings)
    | UpdateListed(account: Id, settings: Settings, players: seq<Player>)
    | UpdateStored(settings: Settings, players: seq<Player>)
    | Start(account: Id)
    | StartListed(account: Id, players: seq<Player>)
    | StartCounted(account: Id, players: seq<Player>, count: int)
    | StartChecked(players: seq<Player>, anyInGame: bool)
    | StartSet(players: seq<Player>, settings: Settings)
    | Creating(players: seq<Player>, settings: Settings)
    | StartAssigned(players: seq<Player>, game: GameId)
    | Publishing(game: GameId)
    | Completed(game: GameId)
    | Done(outcome: Outcome)

  datatype State = State(
    ready: seq<Player>, settings: Settings, seated: Assignments, starting: bool, requests: seq<Request>)

  /** What the world outside answers at a resumption, where it has a say. */
  datatype Reply = Reply(created: Option<GameId>, published: bool)

  predicate IsNew(q: Request) {
    q.Ready? || q.Unready? || q.Update? || q.Start? || q.Completed?
  }

  predicate IsHost(players: seq<Player>, account: Id) {
    players != [] && players[0].account == account
  }

  /** Each request from where it was resumed to its next await. */
  function Resume(s: State, id: nat, reply: Reply): State
    requires id < |s.requests|
  {
    var q := s.requests[id];
    match q
    case Ready(me) => To(s, id, ReadyFree(me, me.account in s.seated))
    case ReadyFree(me, inGame) => To(s, id, if inGame then Done(AlreadyInGame) else ReadyListed(me, s.ready))
    case ReadyListed(me, players) =>
      To(s, id, if IsIn(players, me.account) then Done(Served) else ReadyCounted(me, players, s.settings.playerCount))
    case ReadyCounted(me, players, count) =>
      if |players| >= count then To(s, id, Done(LobbyFull))
      else if IsIn(s.ready, me.account) then To(s, id, Done(Served))
      else if |s.ready| >= s.settings.playerCount then To(s, id, Done(LobbyFull))
      else To(s.(ready := s.ready + [me]), id, Done(Served))
    case Unready(account) => To(s.(ready := RemoveAll(s.ready, {account})), id, Done(Served))
    case Update(account, settings) => To(s, id, UpdateListed(account, settings, s.ready))
    case UpdateListed(account, settings, players) =>
      if !IsHost(players, account) then To(s, id, Done(NotHost))
      else To(s.(settings := settings), id, UpdateStored(settings, players))
    case UpdateStored(settings, players) =>
      To(s.(ready := RemoveAll(s.ready, Accounts(From(players, settings.playerCount)))), id, Done(Served))
    case Start(account) =>
      if s.starting then To(s, id, Done(StartInProgress))
      else To(s.(starting := true), id, StartListed(account, s.ready))
    case StartListed(account, players) =>
      if !IsHost(players, account) then Freed(s, id, NotHost)
      else To(s, id, StartCounted(account, players, s.settings.playerCount))
    case StartCounted(account, players, count) =>
      if |players| < MIN_PLAYER_COUNT || |players| > count then Freed(s, id, BadCount)
      else To(s, id, StartChecked(players, exists p | p in players :: p.account in s.seated))
    case StartChecked(players, anyInGame) =>
      if anyInGame then Freed(s, id, AlreadyInGame) else To(s, id, StartSet(players, s.settings))
    case StartSet(players, settings) => To(s, id, Creating(players, settings))
    case Creating(players, settings) =>
      if reply.created.None? then Freed(s, id, Unavailable)
      else
        (match Assign(s.seated, players, reply.created.value)
         case None => Freed(s, id, StoreRefused)
         case Some(seated) => To(s.(seated := seated), id, StartAssigned(players, reply.created.value)))
    case StartAssigned(players, game) =>
      To(s.(ready := RemoveAll(s.ready, Accounts(players))), id, Publishing(game))
    case Publishing(_) => Freed(s, id, if reply.published then Served else NotPublished)
    case Completed(game) => To(s.(seated := Complete(s.seated, game)), id, Done(Served))
    case Done(_) => s
  }

  function To(s: State, id: nat, q: Request): State
    requires id < |s.requests|
  {
    s.(requests := s.requests[id := q])
  }

  /** Every way out of a start passes through its `finally`. */
  function Freed(s: State, id: nat, outcome: Outcome): State
    requires id < |s.requests|
  {
    To(s, id, Done(outcome)).(starting := false)
  }

  /** `slice`: a count beyond the list takes nothing, a negative one counts from its end. */
  function From(players: seq<Player>, count: int): seq<Player> {
    if count >= |players| then []
    else if count >= 0 then players[count..]
    else if -count >= |players| then players
    else players[|players| + count..]
  }

  datatype Happening = Arrive(request: Request) | Proceed(id: nat, reply: Reply)

  function Step(s: State, e: Happening): State {
    match e
    case Arrive(q) => if IsNew(q) then s.(requests := s.requests + [q]) else s
    case Proceed(id, reply) => if id < |s.requests| then Resume(s, id, reply) else s
  }

  function Run(settings: Settings, events: seq<Happening>): State {
    if events == [] then State([], settings, map[], false, [])
    else Step(Run(settings, events[..|events| - 1]), events[|events| - 1])
  }

  // ---------------------------------------------------------------------------
  // One start at a time
  // ---------------------------------------------------------------------------

  /** The requests that hold the start lock. */
  predicate HoldsLock(q: Request) {
    || q.StartListed? || q.StartCounted? || q.StartChecked? || q.StartSet? || q.Creating?
    || q.StartAssigned? || q.Publishing?
  }

  /** Starts whose group has been found free and is not yet seated. */
  predicate Chosen(q: Request) {
    (q.StartChecked? && !q.anyInGame) || q.StartSet? || q.Creating?
  }

  predicate HasGroup(q: Request) {
    q.StartListed? || q.StartCounted? || q.StartChecked? || q.StartSet? || q.Creating?
  }

  ghost predicate Free(s: State, players: seq<Player>) {
    forall p | p in players :: p.account !in s.seated
  }

  ghost predicate Sound(s: State) {
    && Distinct(s.ready)
    && (forall i | 0 <= i < |s.requests| :: HoldsLock(s.requests[i]) ==> s.starting)
    && (s.starting ==> exists i | 0 <= i < |s.requests| :: HoldsLock(s.requests[i]))
    && (forall i, j | 0 <= i < |s.requests| && 0 <= j < |s.requests| && i != j ::
        !(HoldsLock(s.requests[i]) && HoldsLock(s.requests[j])))
    && (forall i | 0 <= i < |s.requests| && HasGroup(s.requests[i]) :: Distinct(s.requests[i].players))
    && (forall i | 0 <= i < |s.requests| && Chosen(s.requests[i]) :: Free(s, s.requests[i].players))
    && (forall i | 0 <= i < |s.requests| :: s.requests[i] != Done(StoreRefused))
  }

  /** What one request may do to the state without disturbing what holds of the others. */
  ghost predicate Moves(s: State, s': State, id: nat, q': Request)
    requires id < |s.requests|
  {
    var q := s.requests[id];
    && s'.requests == s.requests[id := q']
    && Distinct(s'.ready)
    && (HoldsLock(q') && !HoldsLock(q) ==> !s.starting)
    && s'.starting == (HoldsLock(q') || (s.starting && !HoldsLock(q)))
    && (HasGroup(q') ==> Distinct(q'.players))
    && (Chosen(q') ==> Free(s', q'.players))
    && (HoldsLock(q) || s'.seated.Keys <= s.seated.Keys)
    && q' != Done(StoreRefused)
  }

  lemma MovesSound(s: State, s': State, id: nat, q': Request)
    requires Sound(s) && id < |s.requests| && Moves(s, s', id, q')
    ensures Sound(s')
  {
    hide Distinct;
    if HoldsLock(q') { assert HoldsLock(s'.requests[id]); }
    else if s.starting && !HoldsLock(s.requests[id]) {
      var i :| 0 <= i < |s.requests| && HoldsLock(s.requests[i]);
      assert s'.requests[i] == s.requests[i];
    }
    forall i | 0 <= i < |s'.requests| && Chosen(s'.requests[i])
      ensures Free(s', s'.requests[i].players)
    {
      if i != id { assert HoldsLock(s.requests[i]) && Free(s, s.requests[i].players); }
    }
  }

  lemma AssignIsFree(s: State, id: nat, reply: Reply)
    requires Sound(s) && id < |s.requests| && s.requests[id].Creating? && reply.created.Some?
    ensures Assign(s.seated, s.requests[id].players, reply.created.value).Some?
  {
    assert HasGroup(s.requests[id]) && Chosen(s.requests[id]);
  }

  lemma StartMoves(s: State, id: nat, reply: Reply)
    requires Sound(s) && id < |s.requests| && (HoldsLock(s.requests[id]) || s.requests[id].Start?)
    ensures Moves(s, Resume(s, id, reply), id, Resume(s, id, reply).requests[id])
  {
    hide Assign, RemoveAll, Distinct;
    match s.requests[id]
    case Creating(players, _) => if reply.created.Some? { AssignIsFree(s, id, reply); }
    case StartAssigned(players, _) => RemovedOnly(s.ready, Accounts(players));
    case _ =>
  }

  lemma OtherMoves(s: State, id: nat, reply: Reply)
    requires Sound(s) && id < |s.requests| && !HoldsLock(s.requests[id]) && !s.requests[id].Start?
    requires !s.requests[id].Done?
    ensures Moves(s, Resume(s, id, reply), id, Resume(s, id, reply).requests[id])
  {
    hide Complete, From, RemoveAll;
    match s.requests[id]
    case Unready(account) => RemovedOnly(s.ready, {account});
    case UpdateStored(settings, players) => RemovedOnly(s.ready, Accounts(From(players, settings.playerCount)));
    case _ =>
  }

  lemma ResumeSound(s: State, id: nat, reply: Reply)
    requires Sound(s) && id < |s.requests|
    ensures Sound(Resume(s, id, reply))
  {
    if s.requests[id].Done? { return; }
    if HoldsLock(s.requests[id]) || s.requests[id].Start? { StartMoves(s, id, reply); } else { OtherMoves(s, id, reply); }
    hide Resume, Moves, Sound;
    MovesSound(s, Resume(s, id, reply), id, Resume(s, id, reply).requests[id]);
  }

  lemma StepSound(s: State, e: Happening)
    requires Sound(s)
    ensures Sound(Step(s, e))
  {
    if e.Proceed? && e.id < |s.requests| {
      ResumeSound(s, e.id, e.reply);
    } else if e.Arrive? && IsNew(e.request) {
      var s' := Step(s, e);
      if s.starting {
        var i :| 0 <= i < |s.requests| && HoldsLock(s.requests[i]);
        assert s'.requests[i] == s.requests[i];
      }
      hide Distinct;
    }
  }

  lemma {:induction false} RunSound(settings: Settings, events: seq<Happening>)
    ensures Sound(Run(settings, events))
  {
    if events != [] {
      RunSound(settings, events[..|events| - 1]);
      StepSound(Run(settings, events[..|events| - 1]), events[|events| - 1]);
    }
  }

  // ---------------------------------------------------------------------------
  // What every interleaving keeps
  // ---------------------------------------------------------------------------

  /**
   * However the requests overlap: a group whose game is created is assigned,
   * whole, to it and to nothing else; one start runs at a time, and the lock is
   * up exactly while it does.
   */
  lemma EveryCreatedGameIsSeated(settings: Settings, events: seq<Happening>, id: nat, reply: Reply)
    requires var s := Run(settings, events); id < |s.requests| && s.requests[id].Creating? && reply.created.Some?
    ensures var s := Run(settings, events);
      var players, s' := s.requests[id].players, Step(s, Proceed(id, reply));
      && s'.requests[id] == StartAssigned(players, reply.created.value)
      && (forall p | p in players ::
            p.account !in s.seated && p.account in s'.seated && s'.seated[p.account] == reply.created.value)
      && (forall a | a in s.seated :: a in s'.seated && s'.seated[a] == s.seated[a])
  {
    RunSound(settings, events);
    AssignIsFree(Run(settings, events), id, reply);
  }

  lemma OneStartAtATime(settings: Settings, events: seq<Happening>)
    ensures var s := Run(settings, events);
      && (s.starting <==> exists i | 0 <= i < |s.requests| :: HoldsLock(s.requests[i]))
      && (forall i, j | 0 <= i < |s.requests| && 0 <= j < |s.requests| && i != j ::
          !(HoldsLock(s.requests[i]) && HoldsLock(s.requests[j])))
      && Distinct(s.ready)
  {
    RunSound(settings, events);
  }

  lemma SeatedOneStep(settings: Settings, events: seq<Happening>, e: Happening, account: Id)
    requires account in Run(settings, events).seated
    ensures var s, s' := Run(settings, events), Step(Run(settings, events), e);
      if account in s'.seated then s'.seated[account] == s.seated[account]
      else e.Proceed? && e.id < |s.requests| && s.requests[e.id] == Completed(s.seated[account])
  {
    RunSound(settings, events);
    var s := Run(settings, events);
    if e.Proceed? && e.id < |s.requests| && s.requests[e.id].Creating? && e.reply.created.Some? {
      AssignIsFree(s, e.id, e.reply);
    }
  }

  /** Somewhere in `more`, after `events`, the game was reported over. */
  ghost predicate CompletesIn(settings: Settings, events: seq<Happening>, more: seq<Happening>, game: GameId) {
    exists k | 0 <= k < |more| ::
      var s := Run(settings, events + more[..k]);
      more[k].Proceed? && more[k].id < |s.requests| && s.requests[more[k].id] == Completed(game)
  }

  lemma StillCompletes(settings: Settings, events: seq<Happening>, more: seq<Happening>, game: GameId)
    requires more != [] && CompletesIn(settings, events, more[..|more| - 1], game)
    ensures CompletesIn(settings, events, more, game)
  {
    hide Run;
    var pre := more[..|more| - 1];
    var k :| 0 <= k < |pre| && (var s := Run(settings, events + pre[..k]);
      pre[k].Proceed? && pre[k].id < |s.requests| && s.requests[pre[k].id] == Completed(game));
    assert pre[..k] == more[..k] && pre[k] == more[k];
  }

  /** An account that has a game keeps that one, whatever else is going on, until the game itself is over. */
  lemma {:induction false} OneGameAtATime(settings: Settings, events: seq<Happening>, more: seq<Happening>, account: Id)
    requires account in Run(settings, events).seated
    ensures var game, seated := Run(settings, events).seated[account], Run(settings, events + more).seated;
      (account in seated && seated[account] == game) || CompletesIn(settings, events, more, game)
  {
    hide Step, CompletesIn;
    var game := Run(settings, events).seated[account];
    if more == [] {
      assert events + more == events;
    } else {
      var pre, e := more[..|more| - 1], more[|more| - 1];
      OneGameAtATime(settings, events, pre, account);
      var all := events + more;
      assert all[..|all| - 1] == events + pre;
      if CompletesIn(settings, events, pre, game) {
        StillCompletes(settings, events, more, game);
      } else {
        SeatedOneStep(settings, events + pre, e, account);
        if !(account in Run(settings, all).seated && Run(settings, all).seated[account] == game) {
          CompletesNow(settings, events, more, game);
        }
      }
    }
  }

  lemma CompletesNow(settings: Settings, events: seq<Happening>, more: seq<Happening>, game: GameId)
    requires more != []
    requires var s, e := Run(settings, events + more[..|more| - 1]), more[|more| - 1];
      e.Proceed? && e.id < |s.requests| && s.requests[e.id] == Completed(game)
    ensures CompletesIn(settings, events, more, game)
  {
    hide Run;
  }

  // ---------------------------------------------------------------------------
  // A start that fails
  // ---------------------------------------------------------------------------

  /** The request came in as somebody's start. */
  ghost predicate CameAsStart(settings: Settings, events: seq<Happening>, id: nat) {
    exists k | 0 <= k < |events| ::
      events[k].Arrive? && events[k].request.Start? && |Run(settings, events[..k]).requests| == id
  }

  predicate SameStores(s: State, s': State) {
    s'.ready == s.ready && s'.settings == s.settings && s'.seated == s.seated
  }

  /** None of this request's own steps, wherever they fell among the others', changed anything stored. */
  ghost predicate Untouching(settings: Settings, events: seq<Happening>, id: nat) {
    forall k | 0 <= k < |events| && events[k].Proceed? && events[k].id == id ::
      SameStores(Run(settings, events[..k]), Run(settings, events[..k + 1]))
  }

  /** A start still looking, or turned away. */
  predicate NotYetSeated(q: Request) {
    q.Start? || HasGroup(q) || (q.Done? && q.outcome != Served && q.outcome != NotPublished)
  }

  predicate OfAStart(q: Request) {
    q.Start? || HoldsLock(q) || q.Done?
  }

  lemma StartStep(s: State, id: nat, reply: Reply)
    requires Sound(s) && id < |s.requests| && OfAStart(s.requests[id])
    ensures var s' := Resume(s, id, reply);
      && OfAStart(s'.requests[id])
      && (NotYetSeated(s'.requests[id]) ==> NotYetSeated(s.requests[id]) && SameStores(s, s'))
  {
    hide Assign, RemoveAll, Distinct;
    match s.requests[id]
    case Creating(_, _) => if reply.created.Some? { AssignIsFree(s, id, reply); }
    case _ =>
  }

  lemma OtherStep(s: State, e: Happening, id: nat)
    requires id < |s.requests| && !(e.Proceed? && e.id == id)
    ensures id < |Step(s, e).requests| && Step(s, e).requests[id] == s.requests[id]
  {
    hide Assign, RemoveAll, Complete, From, IsHost, IsIn, Accounts;
  }

  lemma UntouchedOneMore(settings: Settings, events: seq<Happening>, id: nat)
    requires events != []
    requires var pre := events[..|events| - 1];
      && id < |Run(settings, pre).requests| && OfAStart(Run(settings, pre).requests[id])
      && (NotYetSeated(Run(settings, pre).requests[id]) ==> Untouching(settings, pre, id))
    ensures id < |Run(settings, events).requests| && OfAStart(Run(settings, events).requests[id])
    ensures NotYetSeated(Run(settings, events).requests[id]) ==> Untouching(settings, events, id)
  {
    hide Step, NotYetSeated, OfAStart, Sound, Untouching;
    var pre, e := events[..|events| - 1], events[|events| - 1];
    RunSound(settings, pre);
    if e.Proceed? && e.id == id {
      StepIsResume(Run(settings, pre), e);
      StartStep(Run(settings, pre), id, e.reply);
    } else {
      OtherStep(Run(settings, pre), e, id);
    }
    if NotYetSeated(Run(settings, events).requests[id]) { UntouchedOnward(settings, events, id); }
  }

  lemma {:induction false} StartUntouched(settings: Settings, events: seq<Happening>, id: nat)
    requires CameAsStart(settings, events, id)
    ensures id < |Run(settings, events).requests| && OfAStart(Run(settings, events).requests[id])
    ensures NotYetSeated(Run(settings, events).requests[id]) ==> Untouching(settings, events, id)
  {
    hide Run, NotYetSeated, OfAStart, Untouching;
    var n := |events| - 1;
    var k :| 0 <= k < |events| && events[k].Arrive? && events[k].request.Start? && |Run(settings, events[..k]).requests| == id;
    if k == n {
      JustArrived(settings, events, id);
    } else {
      assert events[..n][k] == events[k] && events[..n][..k] == events[..k];
      StartUntouched(settings, events[..n], id);
      UntouchedOneMore(settings, events, id);
    }
  }

  lemma StepIsResume(s: State, e: Happening)
    requires e.Proceed? && e.id < |s.requests|
    ensures Step(s, e) == Resume(s, e.id, e.reply)
  {
  }

  lemma UntouchedOnward(settings: Settings, events: seq<Happening>, id: nat)
    requires events != [] && Untouching(settings, events[..|events| - 1], id)
    requires var e := events[|events| - 1];
      e.Proceed? && e.id == id ==> SameStores(Run(settings, events[..|events| - 1]), Run(settings, events))
    ensures Untouching(settings, events, id)
  {
    hide Run;
    var pre := events[..|events| - 1];
    forall k | 0 <= k < |events| && events[k].Proceed? && events[k].id == id
      ensures SameStores(Run(settings, events[..k]), Run(settings, events[..k + 1]))
    {
      if k < |pre| {
        assert pre[k] == events[k] && pre[..k] == events[..k] && pre[..k + 1] == events[..k + 1];
      } else {
        assert events[..k + 1] == events;
      }
    }
  }

  /** Nobody could resume it before it was there. */
  lemma JustArrived(settings: Settings, events: seq<Happening>, id: nat)
    requires events != [] && events[|events| - 1].Arrive? && events[|events| - 1].request.Start?
    requires |Run(settings, events[..|events| - 1]).requests| == id
    ensures id < |Run(settings, events).requests| && OfAStart(Run(settings, events).requests[id])
    ensures Untouching(settings, events, id)
  {
    forall k | 0 <= k < |events| && events[k].Proceed? && events[k].id == id
      ensures SameStores(Run(settings, events[..k]), Run(settings, events[..k + 1]))
    {
      assert events[..k + 1][..k] == events[..k];
      FewerBefore(settings, events[..|events| - 1], k);
      assert events[..|events| - 1][..k] == events[..k];
    }
  }

  lemma StepGrows(s: State, e: Happening)
    ensures |s.requests| <= |Step(s, e).requests|
  {
    hide Assign, RemoveAll, Complete, From, IsHost, IsIn, Accounts;
  }

  lemma {:induction false} FewerBefore(settings: Settings, events: seq<Happening>, k: nat)
    requires k <= |events|
    ensures |Run(settings, events[..k]).requests| <= |Run(settings, events).requests|
  {
    hide Step;
    if k < |events| {
      FewerBefore(settings, events[..|events| - 1], k);
      assert events[..|events| - 1][..k] == events[..k];
      StepGrows(Run(settings, events[..|events| - 1]), events[|events| - 1]);
    } else {
      assert events[..k] == events;
    }
  }

  /**
   * A start that was refused, or whose game could not be created, has changed
   * nothing that is stored, at any of its steps and however the other requests
   * fell between them; and with it the start lock is free or somebody else's.
   */
  lemma FailedStartChangesNothing(settings: Settings, events: seq<Happening>, id: nat)
    requires CameAsStart(settings, events, id) && id < |Run(settings, events).requests|
    requires var q := Run(settings, events).requests[id]; q.Done? && q.outcome != Served && q.outcome != NotPublished
    ensures Untouching(settings, events, id)
    ensures var s := Run(settings, events);
      s.starting ==> exists i | 0 <= i < |s.requests| :: i != id && HoldsLock(s.requests[i])
  {
    StartUntouched(settings, events, id);
    OneStartAtATime(settings, events);
  }

  /** Its last step frees the lock, and of all its steps only a stored game seats anybody. */
  lemma FailureFreesTheLock(settings: Settings, events: seq<Happening>, id: nat, reply: Reply)
    requires var s := Run(settings, events);
      id < |s.requests| && (s.requests[id].Start? || HasGroup(s.requests[id]))
    ensures var s, s' := Run(settings, events), Step(Run(settings, events), Proceed(id, reply));
      && s'.ready == s.ready && s'.settings == s.settings
      && (s'.seated != s.seated ==> s'.requests[id].StartAssigned?)
      && (s'.requests[id].Done? && s.requests[id].Start? ==> s' == s.(requests := s'.requests) && s.starting)
      && (s'.requests[id].Done? && !s.requests[id].Start? ==> !s'.starting)
      && (s.requests[id].Creating? && reply.created.None? ==>
          s' == s.(requests := s.requests[id := Done(Unavailable)], starting := false))
  {
    RunSound(settings, events);
    if Run(settings, events).requests[id].Creating? && reply.created.Some? {
      AssignIsFree(Run(settings, events), id, reply);
    }
  }
}
