/** The lobby in its own form: the two stores with their loops, and the service that awaits them. */
module LobbyService {
  import opened Board
  import opened Lobby

  lemma {:induction false} RemoveAllSplits(a: seq<Player>, b: seq<Player>, accounts: set<Id>)
    ensures RemoveAll(a + b, accounts) == RemoveAll(a, accounts) + RemoveAll(b, accounts)
  {
    if b == [] {
      assert a + b == a;
    } else {
      var rest := b[..|b| - 1];
      RemoveAllSplits(a, rest, accounts);
      assert (a + b)[..|a + b| - 1] == a + rest;
    }
  }

  lemma {:induction false} NothingToRemove(a: seq<Player>, accounts: set<Id>)
    requires forall p | p in a :: p.account !in accounts
    ensures RemoveAll(a, accounts) == a
  {
    if a != [] { NothingToRemove(a[..|a| - 1], accounts); }
  }

  lemma OneToRemove(players: seq<Player>, index: nat)
    requires index < |players| && Distinct(players)
    ensures RemoveAll(players, {players[index].account}) == players[..index] + players[index + 1..]
  {
    hide RemoveAll;
    var before, one, after := players[..index], [players[index]], players[index + 1..];
    var account := players[index].account;
    assert players == before + (one + after);
    RemoveAllSplits(before, one + after, {account});
    RemoveAllSplits(one, after, {account});
    NothingToRemove(before, {account});
    RemovedAlone(players[index]);
    NothingToRemove(after, {account});
    assert [] + after == after;
  }

  lemma RemovedAlone(p: Player)
    ensures RemoveAll([p], {p.account}) == []
  {
    assert [p][..0] == [];
    assert RemoveAll([], {p.account}) == [];
  }

  class InMemoryLobbyStore {
    var readyPlayers: seq<Player>
    var settings: Settings

    constructor (settings: Settings)
      ensures readyPlayers == [] && this.settings == settings
    {
      readyPlayers := [];
      this.settings := settings;
    }

    /** Becoming ready twice changes nothing; a full table refuses. */
    method AddReadyPlayer(player: Player) returns (full: bool)
      modifies this
      ensures settings == old(settings)
      ensures full <==> !IsIn(old(readyPlayers), player.account) && old(|readyPlayers|) >= settings.playerCount
      ensures readyPlayers ==
        if full || IsIn(old(readyPlayers), player.account) then old(readyPlayers) else old(readyPlayers) + [player]
    {
      full := false;
      if IsIn(readyPlayers, player.account) { return; }
      if |readyPlayers| >= settings.playerCount { return true; }
      readyPlayers := readyPlayers + [player];
    }

    method RemoveReadyPlayer(account: Id) returns (removed: bool)
      requires Distinct(readyPlayers)
      modifies this
      ensures settings == old(settings) && readyPlayers == RemoveAll(old(readyPlayers), {account})
      ensures removed <==> IsIn(old(readyPlayers), account)
    {
      var index := 0;
      while index < |readyPlayers|
        invariant index <= |readyPlayers| && readyPlayers == old(readyPlayers) && settings == old(settings)
        invariant forall i | 0 <= i < index :: readyPlayers[i].account != account
      {
        if readyPlayers[index].account == account {
          OneToRemove(readyPlayers, index);
          readyPlayers := readyPlayers[..index] + readyPlayers[index + 1..];
          return true;
        }
        index := index + 1;
      }
      NothingToRemove(readyPlayers, {account});
      return false;
    }

    /** From the end, so the places still to be looked at stay where they are. */
    method RemoveReadyPlayers(accounts: set<Id>) returns (removed: nat)
      modifies this
      ensures settings == old(settings) && readyPlayers == RemoveAll(old(readyPlayers), accounts)
      ensures removed == old(|readyPlayers|) - |readyPlayers|
    {
      hide RemoveAll;
      ghost var before := readyPlayers;
      removed := 0;
      var index := |readyPlayers|;
      assert RemoveAll(before[index..], accounts) == [] by { NothingToRemove(before[index..], accounts); }
      while index > 0
        invariant 0 <= index <= |readyPlayers| && index <= |before| && settings == old(settings)
        invariant readyPlayers == before[..index] + RemoveAll(before[index..], accounts)
        invariant removed == |before| - |readyPlayers|
      {
        index := index - 1;
        OneMore(before, index, accounts);
        assert readyPlayers[index] == before[index];
        if readyPlayers[index].account in accounts {
          readyPlayers := readyPlayers[..index] + readyPlayers[index + 1..];
          removed := removed + 1;
        }
      }
      assert before[0..] == before && before[..0] == [];
    }
  }

  lemma OneMore(players: seq<Player>, index: nat, accounts: set<Id>)
    requires index < |players|
    ensures RemoveAll(players[index..], accounts)
      == (if players[index].account in accounts then [] else [players[index]]) + RemoveAll(players[index + 1..], accounts)
  {
    assert players[index..] == [players[index]] + players[index + 1..];
    RemoveAllSplits([players[index]], players[index + 1..], accounts);
    assert RemoveAll([], accounts) == [] && [players[index]][..0] == [];
  }

  ghost function Seated(before: map<Id, GameId>, accounts: set<Id>, game: GameId): map<Id, GameId> {
    before + map a | a in accounts :: game
  }

  lemma NobodyYet(before: map<Id, GameId>, game: GameId)
    ensures Seated(before, Accounts([]), game) == before
  {
    assert Accounts([]) == {};
  }

  lemma OneMoreSeated(before: map<Id, GameId>, players: seq<Player>, i: nat, game: GameId)
    requires i < |players|
    ensures Seated(before, Accounts(players[..i + 1]), game)
      == Seated(before, Accounts(players[..i]), game)[players[i].account := game]
  {
    assert players[..i + 1] == players[..i] + [players[i]];
    assert Accounts(players[..i + 1]) == Accounts(players[..i]) + {players[i].account};
  }

  class InMemoryGameAssignmentStore {
    var byAccount: map<Id, GameId>

    constructor ()
      ensures byAccount == map[]
    {
      byAccount := map[];
    }

    /** The whole group is checked before any of it is stored. */
    method AssignGroup(players: seq<Player>, game: GameId) returns (ok: bool)
      modifies this
      ensures ok == Assign(old(byAccount), players, game).Some?
      ensures byAccount == if ok then Assign(old(byAccount), players, game).value else old(byAccount)
    {
      ok := MayAssign(players);
      if ok { StoreGroup(players, game); }
    }

    method MayAssign(players: seq<Player>) returns (ok: bool)
      ensures ok <==> Distinct(players) && forall p | p in players :: p.account !in byAccount
    {
      var incoming: set<Id> := {};
      var i := 0;
      while i < |players|
        invariant i <= |players|
        invariant forall a :: a in incoming <==> exists j | 0 <= j < i :: players[j].account == a
        invariant forall j, k | 0 <= j < k < i :: players[j].account != players[k].account
        invariant forall j | 0 <= j < i :: players[j].account !in byAccount
      {
        if players[i].account in incoming || players[i].account in byAccount { return false; }
        incoming := incoming + {players[i].account};
        i := i + 1;
      }
      ok := true;
    }

    method StoreGroup(players: seq<Player>, game: GameId)
      modifies this
      ensures byAccount == old(byAccount) + map a | a in Accounts(players) :: game
    {
      hide Accounts;
      assert players[..0] == [];
      NobodyYet(byAccount, game);
      var i := 0;
      while i < |players|
        invariant i <= |players|
        invariant byAccount == Seated(old(byAccount), Accounts(players[..i]), game)
      {
        OneMoreSeated(old(byAccount), players, i, game);
        byAccount := byAccount[players[i].account := game];
        i := i + 1;
      }
      assert players[..i] == players;
    }

    /** Entry by entry, each deleted as it is found. */
    method RemoveByGameId(game: GameId) returns (removed: nat)
      modifies this
      ensures byAccount == Complete(old(byAccount), game)
      ensures removed == old(|byAccount|) - |byAccount|
    {
      removed := 0;
      var left := byAccount.Keys;
      while left != {}
        invariant left <= byAccount.Keys
        invariant forall a :: a in byAccount <==> a in old(byAccount) && (a in left || old(byAccount)[a] != game)
        invariant forall a | a in byAccount :: byAccount[a] == old(byAccount)[a]
        invariant removed == old(|byAccount|) - |byAccount|
        decreases |left|
      {
        var account: Id :| account in left;
        left := left - {account};
        if byAccount[account] == game {
          ghost var before := byAccount;
          byAccount := byAccount - {account};
          assert before == byAccount[account := game];
          removed := removed + 1;
        }
      }
    }
  }

  /** The service, its requests resumed one stretch at a time. */
  class Service {
    const lobby: InMemoryLobbyStore
    const assignments: InMemoryGameAssignmentStore
    var gameStartInProgress: bool
    var requests: seq<Request>

    constructor (settings: Settings)
      ensures fresh(lobby) && fresh(assignments) && Now() == Run(settings, []) && Sound(Now())
    {
      lobby := new InMemoryLobbyStore(settings);
      assignments := new InMemoryGameAssignmentStore();
      gameStartInProgress, requests := false, [];
    }

    function Now(): State
      reads this, lobby, assignments
    {
      State(lobby.readyPlayers, lobby.settings, assignments.byAccount, gameStartInProgress, requests)
    }

    method Arrive(q: Request) returns (id: nat)
      requires IsNew(q) && Sound(Now())
      modifies this
      ensures id == old(|requests|) && Now() == Step(old(Now()), Happening.Arrive(q)) && Sound(Now())
    {
      StepSound(Now(), Happening.Arrive(q));
      id := |requests|;
      requests := requests + [q];
    }

    method Goes(id: nat, q: Request)
      requires id < |requests|
      modifies this`requests
      ensures Now() == To(old(Now()), id, q)
    {
      requests := requests[id := q];
    }

    /** The `finally` of a start. */
    method Free(id: nat, outcome: Outcome)
      requires id < |requests|
      modifies this
      ensures Now() == Freed(old(Now()), id, outcome)
    {
      requests := requests[id := Done(outcome)];
      gameStartInProgress := false;
    }

    method Proceed(id: nat, reply: Reply)
      requires id < |requests| && Sound(Now())
      modifies this, lobby, assignments
      ensures Now() == Step(old(Now()), Happening.Proceed(id, reply)) && Sound(Now())
    {
      StepSound(Now(), Happening.Proceed(id, reply));
      assert Distinct(lobby.readyPlayers);
      hide Sound, RemoveAll, Complete;
      var q := requests[id];
      if q.Ready? || q.ReadyFree? || q.ReadyListed? || q.ReadyCounted? {
        ProceedReady(id);
      } else if HoldsLock(q) || q.Start? {
        ProceedStart(id, reply);
      } else {
        match q {
          case Unready(account) =>
            var _ := lobby.RemoveReadyPlayer(account);
            Goes(id, Done(Served));
          case Update(account, settings) => Goes(id, UpdateListed(account, settings, lobby.readyPlayers));
          case UpdateListed(account, settings, players) =>
            if |players| == 0 || players[0].account != account { Goes(id, Done(NotHost)); return; }
            lobby.settings := settings;
            Goes(id, UpdateStored(settings, players));
          case UpdateStored(settings, players) =>
            var _ := lobby.RemoveReadyPlayers(Accounts(From(players, settings.playerCount)));
            Goes(id, Done(Served));
          case Completed(game) =>
            var _ := assignments.RemoveByGameId(game);
            Goes(id, Done(Served));
          case _ =>
        }
      }
    }

    method ProceedReady(id: nat)
      requires id < |requests|
      requires var q := requests[id]; q.Ready? || q.ReadyFree? || q.ReadyListed? || q.ReadyCounted?
      modifies this, lobby
      ensures forall reply :: Now() == Resume(old(Now()), id, reply)
    {
      match requests[id] {
        case Ready(me) => Goes(id, ReadyFree(me, me.account in assignments.byAccount));
        case ReadyFree(me, inGame) => Goes(id, if inGame then Done(AlreadyInGame) else ReadyListed(me, lobby.readyPlayers));
        case ReadyListed(me, players) =>
          if IsIn(players, me.account) { Goes(id, Done(Served)); }
          else { Goes(id, ReadyCounted(me, players, lobby.settings.playerCount)); }
        case ReadyCounted(me, players, count) =>
          if |players| >= count { Goes(id, Done(LobbyFull)); return; }
          var full := lobby.AddReadyPlayer(me);
          Goes(id, Done(if full then LobbyFull else Served));
      }
    }

    method ProceedStart(id: nat, reply: Reply)
      requires id < |requests| && (HoldsLock(requests[id]) || requests[id].Start?)
      modifies this, lobby, assignments
      ensures Now() == Resume(old(Now()), id, reply)
    {
      hide Assign, RemoveAll;
      match requests[id] {
        case Start(account) =>
          if gameStartInProgress { Goes(id, Done(StartInProgress)); return; }
          gameStartInProgress := true;
          Goes(id, StartListed(account, lobby.readyPlayers));
        case StartListed(account, players) =>
          if |players| == 0 || players[0].account != account { Free(id, NotHost); return; }
          Goes(id, StartCounted(account, players, lobby.settings.playerCount));
        case StartCounted(_, players, count) =>
          if |players| < MIN_PLAYER_COUNT || |players| > count { Free(id, BadCount); return; }
          Goes(id, StartChecked(players, exists p | p in players :: p.account in assignments.byAccount));
        case StartChecked(players, anyInGame) =>
          if anyInGame { Free(id, AlreadyInGame); return; }
          Goes(id, StartSet(players, lobby.settings));
        case StartSet(players, settings) => Goes(id, Creating(players, settings));
        case Creating(players, _) =>
          if reply.created.None? { Free(id, Unavailable); return; }
          var ok := assignments.AssignGroup(players, reply.created.value);
          if ok { Goes(id, StartAssigned(players, reply.created.value)); } else { Free(id, StoreRefused); }
        case StartAssigned(players, game) =>
          var _ := lobby.RemoveReadyPlayers(Accounts(players));
          Goes(id, Publishing(game));
        case Publishing(_) => Free(id, if reply.published then Served else NotPublished);
      }
    }
  }
}
