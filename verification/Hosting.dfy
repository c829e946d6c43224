/**
 * Who may do what in the lobby, over every interleaving: only the first player
 * on the ready list starts a game or changes the settings, and the list changes
 * only at the asking of those it names.
 */
module Hosting {
  import opened Board
  import opened Lobby

  // ---------------------------------------------------------------------------
  // Where a request came from
  // ---------------------------------------------------------------------------

  /** The requests as they came in, in the order of their numbers. */
  function Arrivals(events: seq<Happening>): seq<Request> {
    if events == [] then []
    else
      var rest, last := Arrivals(events[..|events| - 1]), events[|events| - 1];
      if last.Arrive? && IsNew(last.request) then rest + [last.request] else rest
  }

  /** This was the ready list at some moment. */
  ghost predicate WasReady(settings: Settings, events: seq<Happening>, players: seq<Player>) {
    exists k | 0 <= k <= |events| :: Run(settings, events[..k]).ready == players
  }

  /** This was the configured number of seats at some moment. */
  ghost predicate CountWas(settings: Settings, events: seq<Happening>, count: int) {
    exists k | 0 <= k <= |events| :: Run(settings, events[..k]).settings.playerCount == count
  }

  /** The list was the ready list when it was read, and the account was first on it. */
  ghost predicate Hosted(settings: Settings, events: seq<Happening>, players: seq<Player>, account: Id) {
    WasReady(settings, events, players) && players != [] && players[0].account == account
  }

  /** The group has at least the minimum, and no more than the seats there were. */
  ghost predicate Fits(settings: Settings, events: seq<Happening>, players: seq<Player>) {
    MIN_PLAYER_COUNT <= |players| && exists count :: CountWas(settings, events, count) && |players| <= count
  }

  /** What a request holds, against what it came in as. */
  ghost predicate Vouched(settings: Settings, events: seq<Happening>, came: Request, q: Request) {
    match q
    case StartListed(account, players) => came == Start(account) && WasReady(settings, events, players)
    case StartCounted(account, players, count) =>
      came == Start(account) && Hosted(settings, events, players, account) && CountWas(settings, events, count)
    case StartChecked(players, _) => came.Start? && Hosted(settings, events, players, came.account) && Fits(settings, events, players)
    case StartSet(players, _) => came.Start? && Hosted(settings, events, players, came.account) && Fits(settings, events, players)
    case Creating(players, _) => came.Start? && Hosted(settings, events, players, came.account) && Fits(settings, events, players)
    case StartAssigned(players, _) => came.Start? && Hosted(settings, events, players, came.account) && Fits(settings, events, players)
    case UpdateListed(account, wanted, players) => came == Update(account, wanted) && WasReady(settings, events, players)
    case UpdateStored(wanted, players) =>
      came.Update? && came.settings == wanted && Hosted(settings, events, players, came.account)
    case ReadyFree(me, _) => came == Ready(me)
    case ReadyListed(me, _) => came == Ready(me)
    case ReadyCounted(me, _, _) => came == Ready(me)
    case Publishing(_) => came.Start?
    case Done(_) => true
    case _ => came == q
  }

  lemma EarlierToo(settings: Settings, events: seq<Happening>, came: Request, q: Request)
    requires events != [] && Vouched(settings, events[..|events| - 1], came, q)
    ensures Vouched(settings, events, came, q)
  {
    hide Run;
    var pre := events[..|events| - 1];
    assert forall k | 0 <= k <= |pre| :: pre[..k] == events[..k];
    forall players | WasReady(settings, pre, players) ensures WasReady(settings, events, players) {
      var k :| 0 <= k <= |pre| && Run(settings, pre[..k]).ready == players;
      assert Run(settings, events[..k]).ready == players;
    }
    forall count | CountWas(settings, pre, count) ensures CountWas(settings, events, count) {
      var k :| 0 <= k <= |pre| && Run(settings, pre[..k]).settings.playerCount == count;
      assert Run(settings, events[..k]).settings.playerCount == count;
    }
  }

  lemma ReadNow(settings: Settings, events: seq<Happening>)
    ensures WasReady(settings, events, Run(settings, events).ready)
    ensures CountWas(settings, events, Run(settings, events).settings.playerCount)
  {
    hide Run;
    assert events[..|events|] == events;
  }

  lemma ResumeVouched(settings: Settings, events: seq<Happening>, came: Request, id: nat, reply: Reply)
    requires var s := Run(settings, events); id < |s.requests| && Vouched(settings, events, came, s.requests[id])
    ensures var s' := Resume(Run(settings, events), id, reply);
      |s'.requests| == |Run(settings, events).requests| && Vouched(settings, events, came, s'.requests[id])
  {
    var q := Run(settings, events).requests[id];
    if HoldsLock(q) { StartVouched(settings, events, came, id, reply); } else { OtherVouched(settings, events, came, id, reply); }
  }

  lemma StartVouched(settings: Settings, events: seq<Happening>, came: Request, id: nat, reply: Reply)
    requires var s := Run(settings, events);
      id < |s.requests| && HoldsLock(s.requests[id]) && Vouched(settings, events, came, s.requests[id])
    ensures var s' := Resume(Run(settings, events), id, reply);
      |s'.requests| == |Run(settings, events).requests| && Vouched(settings, events, came, s'.requests[id])
  {
    hide Run, WasReady, CountWas, Assign, RemoveAll;
    ReadNow(settings, events);
    if Run(settings, events).requests[id].StartCounted? { hide Hosted; }
  }

  lemma OtherVouched(settings: Settings, events: seq<Happening>, came: Request, id: nat, reply: Reply)
    requires var s := Run(settings, events);
      id < |s.requests| && !HoldsLock(s.requests[id]) && Vouched(settings, events, came, s.requests[id])
    ensures var s' := Resume(Run(settings, events), id, reply);
      |s'.requests| == |Run(settings, events).requests| && Vouched(settings, events, came, s'.requests[id])
  {
    hide Run, WasReady, CountWas, RemoveAll, Complete, From, IsIn, Fits;
    ReadNow(settings, events);
  }

  lemma {:induction false} EveryRequestIsVouched(settings: Settings, events: seq<Happening>)
    ensures |Arrivals(events)| == |Run(settings, events).requests|
    ensures forall i | 0 <= i < |Arrivals(events)| ::
      Vouched(settings, events, Arrivals(events)[i], Run(settings, events).requests[i])
  {
    if events != [] {
      var pre, e := events[..|events| - 1], events[|events| - 1];
      EveryRequestIsVouched(settings, pre);
      hide Vouched;
      forall i | 0 <= i < |Arrivals(pre)|
        ensures Vouched(settings, events, Arrivals(pre)[i], Run(settings, pre).requests[i])
      {
        EarlierToo(settings, events, Arrivals(pre)[i], Run(settings, pre).requests[i]);
      }
      if e.Proceed? && e.id < |Arrivals(pre)| {
        ProceedVouched(settings, events);
      } else if e.Arrive? && IsNew(e.request) {
        JustCame(settings, events, e.request);
      }
    }
  }

  lemma JustCame(settings: Settings, events: seq<Happening>, q: Request)
    requires IsNew(q)
    ensures Vouched(settings, events, q, q)
  {
  }

  lemma ProceedVouched(settings: Settings, events: seq<Happening>)
    requires events != [] && events[|events| - 1].Proceed?
    requires var pre := events[..|events| - 1];
      && |Arrivals(pre)| == |Run(settings, pre).requests| && events[|events| - 1].id < |Arrivals(pre)|
      && forall i | 0 <= i < |Arrivals(pre)| :: Vouched(settings, pre, Arrivals(pre)[i], Run(settings, pre).requests[i])
    ensures |Arrivals(events)| == |Run(settings, events).requests|
    ensures forall i | 0 <= i < |Arrivals(events)| ::
      Vouched(settings, events, Arrivals(events)[i], Run(settings, events).requests[i])
  {
    hide Vouched, Resume;
    var pre, e := events[..|events| - 1], events[|events| - 1];
    var s, s' := Run(settings, pre), Run(settings, events);
    ResumeVouched(settings, pre, Arrivals(pre)[e.id], e.id, e.reply);
    forall i | 0 <= i < |Arrivals(pre)| ensures Vouched(settings, events, Arrivals(pre)[i], s'.requests[i]) {
      if i != e.id { OtherStep(s, e, i); }
      EarlierToo(settings, events, Arrivals(pre)[i], s'.requests[i]);
    }
  }

  // ---------------------------------------------------------------------------
  // Only the host
  // ---------------------------------------------------------------------------

  /**
   * Only the host starts a game, however the requests overlap: one that holds a
   * group to be created came in as a start by the account that was first on that
   * very list when it was read, and the group is no smaller than the minimum and
   * no larger than the seats there were when they were read.
   */
  lemma OnlyTheHostStarts(settings: Settings, events: seq<Happening>, id: nat)
    requires id < |Run(settings, events).requests|
    requires var q := Run(settings, events).requests[id]; q.StartChecked? || q.StartSet? || q.Creating? || q.StartAssigned?
    ensures id < |Arrivals(events)| && Arrivals(events)[id].Start?
    ensures var players := Run(settings, events).requests[id].players;
      && (exists k | 0 <= k <= |events| :: Run(settings, events[..k]).ready == players)
      && MIN_PLAYER_COUNT <= |players| && players[0].account == Arrivals(events)[id].account
      && exists k | 0 <= k <= |events| :: |players| <= Run(settings, events[..k]).settings.playerCount
  {
    hide Run;
    EveryRequestIsVouched(settings, events);
    var players := Run(settings, events).requests[id].players;
    var count :| CountWas(settings, events, count) && |players| <= count;
    var k :| 0 <= k <= |events| && Run(settings, events[..k]).settings.playerCount == count;
    assert |players| <= Run(settings, events[..k]).settings.playerCount;
  }

  /**
   * Exactly the host gets past the check: a start that has read the list goes on
   * if its account is the first there; anybody else's ends refused, the lock is
   * free and nothing stored has changed.
   */
  lemma StartsIffHost(settings: Settings, events: seq<Happening>, id: nat, reply: Reply)
    requires id < |Run(settings, events).requests| && Run(settings, events).requests[id].StartListed?
    ensures id < |Arrivals(events)| && Arrivals(events)[id].Start?
    ensures var s, s' := Run(settings, events), Run(settings, events + [Proceed(id, reply)]);
      var players := s.requests[id].players;
      var host := players != [] && players[0].account == Arrivals(events)[id].account;
      && (exists k | 0 <= k <= |events| :: Run(settings, events[..k]).ready == players)
      && (host <==> !s'.requests[id].Done?) && (host ==> s'.starting)
      && (!host ==> s'.requests[id] == Done(NotHost) && !s'.starting)
      && SameStores(s, s')
  {
    EveryRequestIsVouched(settings, events);
    RunSound(settings, events);
    assert (events + [Proceed(id, reply)])[..|events|] == events;
    assert HoldsLock(Run(settings, events).requests[id]);
  }

  /**
   * Only the host changes the settings: any step that does is an update's, asked
   * for by the account that was first on the list it read, and sets what it asked.
   */
  lemma OnlyTheHostSets(settings: Settings, events: seq<Happening>, e: Happening)
    requires Run(settings, events + [e]).settings != Run(settings, events).settings
    ensures e.Proceed? && e.id < |Arrivals(events)|
    ensures Arrivals(events)[e.id].Update? && Run(settings, events + [e]).settings == Arrivals(events)[e.id].settings
    ensures exists k | 0 <= k <= |events| ::
      var ready := Run(settings, events[..k]).ready; ready != [] && ready[0].account == Arrivals(events)[e.id].account
  {
    EveryRequestIsVouched(settings, events);
    assert (events + [e])[..|events|] == events;
    var s := Run(settings, events);
    hide Run, Assign, RemoveAll, Complete, From, IsIn;
    if e.Proceed? && e.id < |s.requests| {
      var q := s.requests[e.id];
      assert q.UpdateListed? && IsHost(q.players, q.account);
      var k :| 0 <= k <= |events| && Run(settings, events[..k]).ready == q.players;
      assert Run(settings, events[..k]).ready[0].account == q.account;
    }
  }

  /** And the host's update takes effect; anybody else's is refused and changes nothing. */
  lemma SetsIffHost(settings: Settings, events: seq<Happening>, id: nat, reply: Reply)
    requires id < |Run(settings, events).requests| && Run(settings, events).requests[id].UpdateListed?
    ensures id < |Arrivals(events)| && Arrivals(events)[id].Update?
    ensures var s, s' := Run(settings, events), Run(settings, events + [Proceed(id, reply)]);
      var players, came := s.requests[id].players, Arrivals(events)[id];
      && (exists k | 0 <= k <= |events| :: Run(settings, events[..k]).ready == players)
      && if players != [] && players[0].account == came.account
         then s' == s.(requests := s'.requests, settings := came.settings) && !s'.requests[id].Done?
         else s' == s.(requests := s.requests[id := Done(NotHost)])
  {
    EveryRequestIsVouched(settings, events);
    assert (events + [Proceed(id, reply)])[..|events|] == events;
  }

  /** A fewer seats unseat exactly the players that sat behind them when the list was read. */
  lemma UnseatsThoseBehind(settings: Settings, events: seq<Happening>, id: nat, reply: Reply, p: Player)
    requires id < |Run(settings, events).requests| && Run(settings, events).requests[id].UpdateStored?
    ensures id < |Arrivals(events)| && Arrivals(events)[id].Update?
    ensures var s, s' := Run(settings, events), Run(settings, events + [Proceed(id, reply)]);
      var players, count := s.requests[id].players, Arrivals(events)[id].settings.playerCount;
      && Hosted(settings, events, players, Arrivals(events)[id].account)
      && s'.settings == s.settings && s'.seated == s.seated
      && (0 <= count ==>
          (p in s'.ready <==> p in s.ready && forall i | count <= i < |players| :: players[i].account != p.account))
  {
    EveryRequestIsVouched(settings, events);
    var s := Run(settings, events);
    var q := s.requests[id];
    assert (events + [Proceed(id, reply)])[..|events|] == events;
    hide Run, RemoveAll, Resume, From;
    StoredStep(s, id, reply, p);
    if 0 <= q.settings.playerCount { BehindAre(q.players, q.settings.playerCount, p.account); }
  }

  lemma StoredStep(s: State, id: nat, reply: Reply, p: Player)
    requires id < |s.requests| && s.requests[id].UpdateStored?
    ensures var s', q := Resume(s, id, reply), s.requests[id];
      && s'.settings == s.settings && s'.seated == s.seated
      && (p in s'.ready <==> p in s.ready && p.account !in Accounts(From(q.players, q.settings.playerCount)))
  {
    var q := s.requests[id];
    RemovedOnly(s.ready, Accounts(From(q.players, q.settings.playerCount)));
    hide RemoveAll, From, Accounts;
  }

  lemma BehindAre(players: seq<Player>, count: int, account: Id)
    requires 0 <= count
    ensures account in Accounts(From(players, count)) <==> exists i | count <= i < |players| :: players[i].account == account
  {
    var behind := From(players, count);
    if i :| count <= i < |players| && players[i].account == account {
      assert behind[i - count] == players[i];
    }
    if account in Accounts(behind) {
      var k :| 0 <= k < |behind| && behind[k].account == account;
      assert players[count + k].account == account;
    }
  }

  // ---------------------------------------------------------------------------
  // Refusals
  // ---------------------------------------------------------------------------

  /** A second start is turned away exactly while another one is on its way. */
  lemma SecondStartIsRefused(settings: Settings, events: seq<Happening>, id: nat, reply: Reply)
    requires id < |Run(settings, events).requests| && Run(settings, events).requests[id].Start?
    ensures id < |Arrivals(events)| && Arrivals(events)[id].Start?
    ensures var s, s' := Run(settings, events), Run(settings, events + [Proceed(id, reply)]);
      if exists i | 0 <= i < |s.requests| :: i != id && HoldsLock(s.requests[i])
      then s' == s.(requests := s.requests[id := Done(StartInProgress)])
      else s' == s.(requests := s'.requests, starting := true) && s'.requests[id] == StartListed(Arrivals(events)[id].account, s.ready)
  {
    EveryRequestIsVouched(settings, events);
    OneStartAtATime(settings, events);
    assert (events + [Proceed(id, reply)])[..|events|] == events;
  }

  /** A group is turned away exactly when it is too small, too large, or has a player who is in a game as it is looked up. */
  lemma GroupGoesOnIff(settings: Settings, events: seq<Happening>, id: nat, first: Reply, more: seq<Happening>, reply: Reply)
    requires id < |Run(settings, events).requests| && Run(settings, events).requests[id].StartCounted?
    requires forall k | 0 <= k < |more| :: !(more[k].Proceed? && more[k].id == id)
    ensures var s, read := Run(settings, events), events + [Proceed(id, first)];
      var players, count := s.requests[id].players, s.requests[id].count;
      if |players| < MIN_PLAYER_COUNT || count < |players| then Run(settings, read) == Freed(s, id, BadCount)
      else
        var s1, s2 := Run(settings, read + more), Run(settings, read + more + [Proceed(id, reply)]);
        && id < |s1.requests|
        && if exists p | p in players :: p.account in s.seated then s2 == Freed(s1, id, AlreadyInGame)
           else s2 == s1.(requests := s1.requests[id := StartSet(players, s1.settings)])
  {
    var s, read := Run(settings, events), events + [Proceed(id, first)];
    assert read[..|events|] == events;
    var all := read + more + [Proceed(id, reply)];
    assert all[..|all| - 1] == read + more;
    KeepsItsPlace(settings, read, more, id);
  }

  lemma {:induction false} KeepsItsPlace(settings: Settings, events: seq<Happening>, more: seq<Happening>, id: nat)
    requires id < |Run(settings, events).requests| && forall k | 0 <= k < |more| :: !(more[k].Proceed? && more[k].id == id)
    ensures id < |Run(settings, events + more).requests|
    ensures Run(settings, events + more).requests[id] == Run(settings, events).requests[id]
  {
    hide Step;
    if more == [] {
      assert events + more == events;
    } else {
      var pre := more[..|more| - 1];
      KeepsItsPlace(settings, events, pre, id);
      assert (events + more)[..|events + more| - 1] == events + pre;
      OtherStep(Run(settings, events + pre), more[|more| - 1], id);
    }
  }

  // ---------------------------------------------------------------------------
  // Who comes and goes
  // ---------------------------------------------------------------------------

  /** A player comes onto the list only by asking, at its end, and into a free seat. */
  lemma ComesByAsking(settings: Settings, events: seq<Happening>, e: Happening, p: Player)
    requires p in Run(settings, events + [e]).ready && p !in Run(settings, events).ready
    ensures e.Proceed? && e.id < |Arrivals(events)| && Arrivals(events)[e.id] == Ready(p)
    ensures Run(settings, events + [e]).ready == Run(settings, events).ready + [p]
    ensures |Run(settings, events).ready| < Run(settings, events).settings.playerCount
  {
    EveryRequestIsVouched(settings, events);
    assert (events + [e])[..|events|] == events;
    hide Run, Resume;
    if e.Proceed? && e.id < |Arrivals(events)| { NewcomersAsked(Run(settings, events), e.id, e.reply, p); }
  }

  lemma NewcomersAsked(s: State, id: nat, reply: Reply, p: Player)
    requires id < |s.requests|
    ensures p in Resume(s, id, reply).ready && p !in s.ready ==>
      && s.requests[id].ReadyCounted? && s.requests[id].me == p
      && Resume(s, id, reply).ready == s.ready + [p] && |s.ready| < s.settings.playerCount
  {
    hide Assign, RemoveAll, Complete, From, IsIn, Accounts;
    match s.requests[id]
    case Unready(account) => RemovedOnly(s.ready, {account});
    case UpdateStored(wanted, players) => RemovedOnly(s.ready, Accounts(From(players, wanted.playerCount)));
    case StartAssigned(players, _) => RemovedOnly(s.ready, Accounts(players));
    case _ =>
  }

  /**
   * And leaves it only by its own asking, by the host's taking its seat away, or
   * with the group whose game was created.
   */
  lemma LeavesForAReason(settings: Settings, events: seq<Happening>, e: Happening, p: Player)
    requires p in Run(settings, events).ready && p !in Run(settings, events + [e]).ready
    ensures e.Proceed? && e.id < |Arrivals(events)|
    ensures var came, q := Arrivals(events)[e.id], Run(settings, events).requests[e.id];
      || came == Unready(p.account)
      || (q.UpdateStored? && came.Update? && exists x | x in From(q.players, came.settings.playerCount) :: x.account == p.account)
      || (q.StartAssigned? && came.Start? && exists x | x in q.players :: x.account == p.account)
  {
    EveryRequestIsVouched(settings, events);
    assert (events + [e])[..|events|] == events;
    var s := Run(settings, events);
    hide Run, Assign, RemoveAll, Complete, From, IsIn;
    if e.Proceed? && e.id < |s.requests| {
      match s.requests[e.id]
      case Unready(account) => RemovedOnly(s.ready, {account});
      case UpdateStored(wanted, players) => RemovedOnly(s.ready, Accounts(From(players, wanted.playerCount)));
      case StartAssigned(players, _) => RemovedOnly(s.ready, Accounts(players));
      case _ =>
    }
  }

  /** Whoever asks to leave, or is in a group whose game was created, is off the list one step later. */
  lemma GoesWhenDue(settings: Settings, events: seq<Happening>, id: nat, reply: Reply, p: Player)
    requires id < |Run(settings, events).requests|
    requires var q := Run(settings, events).requests[id];
      q == Unready(p.account) || (q.StartAssigned? && exists x | x in q.players :: x.account == p.account)
    ensures p !in Run(settings, events + [Proceed(id, reply)]).ready
  {
    var s := Run(settings, events);
    assert (events + [Proceed(id, reply)])[..|events|] == events;
    match s.requests[id]
    case Unready(account) => RemovedOnly(s.ready, {account});
    case StartAssigned(players, _) => RemovedOnly(s.ready, Accounts(players));
    case _ =>
  }

  /** A game that is over frees exactly its own players. */
  lemma FreedWhenOver(settings: Settings, events: seq<Happening>, id: nat, reply: Reply, account: Id)
    requires id < |Run(settings, events).requests| && Run(settings, events).requests[id].Completed?
    ensures id < |Arrivals(events)| && Arrivals(events)[id].Completed?
    ensures var s, s' := Run(settings, events), Run(settings, events + [Proceed(id, reply)]);
      && s'.ready == s.ready && s'.settings == s.settings && s'.starting == s.starting
      && (account in s'.seated <==> account in s.seated && s.seated[account] != Arrivals(events)[id].game)
  {
    EveryRequestIsVouched(settings, events);
    assert (events + [Proceed(id, reply)])[..|events|] == events;
  }

  /** A player in a game as it is looked up may not get ready; any other one goes on to the list as it is then. */
  lemma ReadyGoesOnIff(settings: Settings, events: seq<Happening>, id: nat, first: Reply, more: seq<Happening>, reply: Reply)
    requires id < |Run(settings, events).requests| && Run(settings, events).requests[id].Ready?
    requires forall k | 0 <= k < |more| :: !(more[k].Proceed? && more[k].id == id)
    ensures var s, me := Run(settings, events), Run(settings, events).requests[id].me;
      var s1 := Run(settings, events + [Proceed(id, first)] + more);
      var s2 := Run(settings, events + [Proceed(id, first)] + more + [Proceed(id, reply)]);
      && id < |s1.requests|
      && s2 == s1.(requests := s1.requests[id := if me.account in s.seated then Done(AlreadyInGame) else ReadyListed(me, s1.ready)])
  {
    var read := events + [Proceed(id, first)];
    assert read[..|events|] == events;
    var all := read + more + [Proceed(id, reply)];
    assert all[..|all| - 1] == read + more;
    KeepsItsPlace(settings, read, more, id);
  }

  /** It takes a seat if there was one when it looked and there still is; if it is ready already, nothing changes. */
  lemma SeatedIfFree(settings: Settings, events: seq<Happening>, id: nat, reply: Reply)
    requires id < |Run(settings, events).requests| && Run(settings, events).requests[id].ReadyCounted?
    ensures id < |Arrivals(events)| && Arrivals(events)[id].Ready?
    ensures var s, s' := Run(settings, events), Run(settings, events + [Proceed(id, reply)]);
      var q, me := s.requests[id], Arrivals(events)[id].me;
      var ready := exists p | p in s.ready :: p.account == me.account;
      if |q.players| >= q.count || (!ready && |s.ready| >= s.settings.playerCount)
      then s' == s.(requests := s.requests[id := Done(LobbyFull)])
      else s' == s.(requests := s.requests[id := Done(Served)], ready := if ready then s.ready else s.ready + [me])
  {
    EveryRequestIsVouched(settings, events);
    assert (events + [Proceed(id, reply)])[..|events|] == events;
  }
}
