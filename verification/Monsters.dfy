/** Whether a party may attack a monster, and what a roll does to it. */
module Monsters {
  import opened Board

  // ---------------------------------------------------------------------------
  // The roll
  // ---------------------------------------------------------------------------

  datatype RollResult = Slay | FightBack | Miss

  function TrySlay(m: MonsterRoll, roll: int): RollResult {
    if m.mode.HighToWin? then
      if roll >= m.higher then Slay else if roll <= m.lower then FightBack else Miss
    else
      if roll <= m.higher then Slay else if roll >= m.lower then FightBack else Miss
  }

  function Rank(result: RollResult): nat {
    match result
    case Slay => 2
    case Miss => 1
    case FightBack => 0
  }

  /** `b` is at least as good a roll as `a` against this monster. */
  predicate AtLeast(m: MonsterRoll, b: int, a: int) {
    if m.mode.HighToWin? then a <= b else b <= a
  }

  /** A better roll never does worse, whatever the two bounds; reading the dice the other way round mirrors it. */
  lemma BetterRollNeverWorse(m: MonsterRoll, a: int, b: int)
    requires AtLeast(m, b, a)
    ensures Rank(TrySlay(m, a)) <= Rank(TrySlay(m, b))
    ensures TrySlay(m, a) == TrySlay(
      MonsterRoll(if m.mode.HighToWin? then LowToWin else HighToWin, -m.higher, -m.lower), -a)
  {
  }

  /** The least roll that slays, and the greatest that is fought back, of those that do not slay; dice read high or low. */
  lemma WhereTheBoundsFall(m: MonsterRoll, roll: int)
    ensures TrySlay(m, roll).Slay? <==> (match m.mode case HighToWin => m.higher <= roll case LowToWin => roll <= m.higher)
    ensures TrySlay(m, roll).FightBack? <==>
      (match m.mode case HighToWin => roll <= m.lower && roll < m.higher case LowToWin => m.lower <= roll && m.higher < roll)
  {
  }

  // ---------------------------------------------------------------------------
  // The party
  // ---------------------------------------------------------------------------

  type HeroClass = string

  /** One requirement: a hero of that class, or with no class a hero of any. */
  type Entry = Option<HeroClass>

  const LEADER := -1

  /**
   * Who fills each requirement: a place among the heroes, or the leader. The
   * leader fills a requirement that names its class, and nobody fills two.
   */
  ghost predicate IsAssignment(required: seq<Entry>, heroes: seq<HeroClass>, leader: Option<HeroClass>, filled: seq<int>) {
    && |filled| == |required|
    && (forall i | 0 <= i < |filled| :: Fills(required[i], heroes, leader, filled[i]))
    && (forall i, j | 0 <= i < j < |filled| :: filled[i] != filled[j])
  }

  predicate Fills(entry: Entry, heroes: seq<HeroClass>, leader: Option<HeroClass>, place: int) {
    if place == LEADER then entry.Some? && entry == leader
    else 0 <= place < |heroes| && (entry.Some? ==> heroes[place] == entry.value)
  }

  ghost predicate MayAttack(required: seq<Entry>, heroes: seq<HeroClass>, leader: Option<HeroClass>) {
    exists filled :: IsAssignment(required, heroes, leader, filled)
  }

  function Named(required: seq<Entry>): (named: seq<HeroClass>)
    ensures |named| <= |required|
  {
    if required == [] then []
    else
      var rest, last := Named(required[..|required| - 1]), required[|required| - 1];
      if last.Some? then rest + [last.value] else rest
  }

  lemma FirstAreContained(s: seq<HeroClass>, i: nat)
    requires i < |s|
    ensures multiset(s)[s[i]] > multiset(s[..i])[s[i]]
  {
    assert s == s[..i] + [s[i]] + s[i + 1..];
  }

  lemma TakenOut<T>(s: seq<T>, at: nat)
    requires at < |s|
    ensures multiset(s) == multiset(s[..at] + s[at + 1..]) + multiset{s[at]}
  {
    assert s == s[..at] + [s[at]] + s[at + 1..];
  }

  predicate Covers(heroes: seq<HeroClass>, named: seq<HeroClass>, anyone: nat) {
    multiset(named) <= multiset(heroes) && |named| + anyone <= |heroes|
  }

  /** The named entries, each taking its hero out of the pool; whoever is left must do for the rest. */
  method HeroesCover(named: seq<HeroClass>, heroes: seq<HeroClass>, anyone: nat) returns (covered: bool)
    ensures covered <==> Covers(heroes, named, anyone)
  {
    var pool := heroes;
    var i := 0;
    while i < |named|
      invariant i <= |named| && multiset(named[..i]) + multiset(pool) == multiset(heroes)
      invariant |pool| + i == |heroes|
    {
      var at := PlaceOf(pool, named[i]);
      if at == -1 {
        FirstAreContained(named, i);
        assert named[i] !in multiset(pool);
        return false;
      }
      TakenOut(pool, at);
      pool := pool[..at] + pool[at + 1..];
      assert named[..i + 1] == named[..i] + [named[i]];
      i := i + 1;
    }
    assert named[..i] == named;
    covered := |pool| >= anyone;
  }

  function PlaceOf(s: seq<HeroClass>, x: HeroClass): (at: int)
    ensures -1 <= at < |s|
    ensures at == -1 <==> x !in s
    ensures at >= 0 ==> s[at] == x
  {
    if s == [] then -1
    else if s[0] == x then 0
    else var rest := PlaceOf(s[1..], x); if rest == -1 then -1 else rest + 1
  }

  /** The greedy answer is the right one: it says yes exactly when the requirements can be shared out. */
  method CanBeAttackedBy(required: seq<Entry>, heroes: seq<HeroClass>, leader: Option<HeroClass>) returns (may: bool)
    ensures may <==> MayAttack(required, heroes, leader)
  {
    var named := [];
    var i := 0;
    while i < |required|
      invariant i <= |required| && named == Named(required[..i])
    {
      assert required[..i + 1][..i] == required[..i];
      if required[i].Some? { named := named + [required[i].value]; }
      i := i + 1;
    }
    assert required[..i] == required;
    var anyone := |required| - |named|;
    MayAttackIffCoverable(required, heroes, leader);
    may := HeroesCover(named, heroes, anyone);
    if may { return true; }
    if leader.None? { return false; }
    var at := PlaceOf(named, leader.value);
    assert at == -1 <==> leader.value !in multiset(named);
    if at == -1 { return false; }
    TakenOut(named, at);
    may := HeroesCover(named[..at] + named[at + 1..], heroes, anyone);
  }

  /** What the requirements come to once places are forgotten: the heroes cover them, or all but the leader's one. */
  predicate Coverable(required: seq<Entry>, heroes: seq<HeroClass>, leader: Option<HeroClass>) {
    var named := multiset(Named(required));
    || (named <= multiset(heroes) && |required| <= |heroes|)
    || (leader.Some? && leader.value in named
        && named - multiset{leader.value} <= multiset(heroes) && |required| - 1 <= |heroes|)
  }

  // ---------------------------------------------------------------------------
  // Counting by places
  // ---------------------------------------------------------------------------

  function Places<T(==)>(s: seq<T>, among: set<int>, x: T): (out: set<int>)
    ensures out <= among
  {
    set i | i in among && 0 <= i < |s| && s[i] == x
  }

  function Range(n: nat): (out: set<int>)
    ensures |out| == n
    ensures forall i :: i in out <==> 0 <= i < n
  {
    if n == 0 then {} else Range(n - 1) + {n - 1}
  }

  lemma {:induction false} PlacesCount<T>(s: seq<T>, x: T)
    ensures |Places(s, Range(|s|), x)| == multiset(s)[x]
  {
    if s == [] {
      assert Places(s, Range(0), x) == {};
    } else {
      var rest, last := s[..|s| - 1], |s| - 1;
      PlacesCount(rest, x);
      assert s == rest + [s[last]];
      var before, all := Places(rest, Range(last), x), Places(s, Range(|s|), x);
      hide Range;
      forall i ensures i in all <==> i in before || (i == last && s[last] == x) {
        if 0 <= i < last { assert rest[i] == s[i]; }
      }
      assert last !in before;
      if s[last] == x { assert all == before + {last}; } else { assert all == before; }
    }
  }

  lemma {:induction false} NamedCount(required: seq<Entry>, x: HeroClass)
    ensures multiset(required)[Some(x)] == multiset(Named(required))[x]
  {
    if required != [] {
      var rest, last := required[..|required| - 1], required[|required| - 1];
      NamedCount(rest, x);
      assert required == rest + [last];
    }
  }

  lemma Pick<T>(s: set<T>) returns (x: T)
    requires s != {}
    ensures x in s
  {
    x :| x in s;
  }

  /** Filling distinct places never uses more places than there are. */
  lemma {:induction false} NoMoreThanPlaces(from: set<int>, to: set<int>, filled: seq<int>)
    requires forall i | i in from :: 0 <= i < |filled| && filled[i] in to
    requires forall i, j | i in from && j in from && i != j :: filled[i] != filled[j]
    ensures |from| <= |to|
  {
    if from != {} {
      var i := Pick(from);
      NoMoreThanPlaces(from - {i}, to - {filled[i]}, filled);
    }
  }

  // ---------------------------------------------------------------------------
  // An assignment needs enough heroes
  // ---------------------------------------------------------------------------

  lemma AssignedByHeroes(required: seq<Entry>, heroes: seq<HeroClass>, leader: Option<HeroClass>, filled: seq<int>)
    requires IsAssignment(required, heroes, leader, filled) && LEADER !in filled
    ensures multiset(Named(required)) <= multiset(heroes) && |required| <= |heroes|
  {
    NoMoreThanPlaces(Range(|required|), Range(|heroes|), filled);
    forall x: HeroClass ensures multiset(Named(required))[x] <= multiset(heroes)[x] {
      PlacesCount(required, Some(x));
      NamedCount(required, x);
      PlacesCount(heroes, x);
      NoMoreThanPlaces(Places(required, Range(|required|), Some(x)), Places(heroes, Range(|heroes|), x), filled);
    }
  }

  function AllBut<T>(s: seq<T>, at: nat): seq<T>
    requires at < |s|
  {
    s[..at] + s[at + 1..]
  }

  lemma NamedWithout(required: seq<Entry>, at: nat)
    requires at < |required|
    ensures multiset(Named(required)) == multiset(Named(AllBut(required, at)))
      + if required[at].Some? then multiset{required[at].value} else multiset{}
  {
    forall x: HeroClass
      ensures multiset(Named(required))[x] == multiset(Named(AllBut(required, at)))[x]
        + if required[at] == Some(x) then 1 else 0
    {
      NamedCount(required, x);
      NamedCount(AllBut(required, at), x);
      TakenOut(required, at);
    }
  }

  lemma AssignedIsCoverable(required: seq<Entry>, heroes: seq<HeroClass>, leader: Option<HeroClass>, filled: seq<int>)
    requires IsAssignment(required, heroes, leader, filled)
    ensures Coverable(required, heroes, leader)
  {
    if LEADER in filled {
      var at :| 0 <= at < |filled| && filled[at] == LEADER;
      AssignedByHeroes(AllBut(required, at), heroes, leader, AllBut(filled, at));
      NamedWithout(required, at);
    } else {
      AssignedByHeroes(required, heroes, leader, filled);
    }
  }

  // ---------------------------------------------------------------------------
  // Enough heroes can be assigned
  // ---------------------------------------------------------------------------

  lemma {:induction false} NobodyNamed(required: seq<Entry>)
    requires forall k | 0 <= k < |required| :: required[k].None?
    ensures Named(required) == []
  {
    if required != [] { NobodyNamed(required[..|required| - 1]); }
  }

  lemma Inserted(
    required: seq<Entry>, heroes: seq<HeroClass>, leader: Option<HeroClass>, at: nat, rest: seq<int>, place: int)
    requires at < |required| && IsAssignment(AllBut(required, at), heroes, leader, rest)
    requires Fills(required[at], heroes, leader, place) && place !in rest
    ensures IsAssignment(required, heroes, leader, rest[..at] + [place] + rest[at..])
  {
    var filled := rest[..at] + [place] + rest[at..];
    forall i | 0 <= i < |filled| ensures Fills(required[i], heroes, leader, filled[i]) {
      if i != at {
        var k := if i < at then i else i - 1;
        assert required[i] == AllBut(required, at)[k] && filled[i] == rest[k];
      }
    }
    forall i, j | 0 <= i < j < |filled| ensures filled[i] != filled[j] {
      if i != at && j != at {
        assert filled[i] == rest[if i < at then i else i - 1] && filled[j] == rest[if j < at then j else j - 1];
      } else {
        assert filled[if i == at then j else i] in rest;
      }
    }
  }

  /** Every class named has that many free heroes, and there are enough free heroes for everything. */
  ghost predicate Enough(required: seq<Entry>, heroes: seq<HeroClass>, free: set<int>) {
    && (forall x :: multiset(Named(required))[x] <= |Places(heroes, free, x)|)
    && |required| <= |free|
  }

  /** Requirements that name a class first, in any order; the rest take whoever is free. */
  lemma {:induction false} ShareOut(required: seq<Entry>, heroes: seq<HeroClass>, leader: Option<HeroClass>, free: set<int>)
    returns (filled: seq<int>)
    requires forall j | j in free :: 0 <= j < |heroes|
    requires Enough(required, heroes, free)
    ensures IsAssignment(required, heroes, leader, filled) && forall i | 0 <= i < |filled| :: filled[i] in free
    decreases |required|
  {
    if required == [] {
      filled := [];
    } else {
      var at, j := Candidate(required, heroes, free);
      var rest := ShareOut(AllBut(required, at), heroes, leader, free - {j});
      filled := rest[..at] + [j] + rest[at..];
      hide Enough;
      Inserted(required, heroes, leader, at, rest, j);
    }
  }

  lemma Candidate(required: seq<Entry>, heroes: seq<HeroClass>, free: set<int>) returns (at: nat, j: int)
    requires required != [] && Enough(required, heroes, free) && forall j | j in free :: 0 <= j < |heroes|
    ensures at < |required| && j in free && (required[at].Some? ==> heroes[j] == required[at].value)
    ensures Enough(AllBut(required, at), heroes, free - {j})
  {
    if k :| 0 <= k < |required| && required[k].Some? {
      at := k;
      var x := required[at].value;
      NamedWithout(required, at);
      assert multiset(Named(required))[x] >= 1;
      j := Pick(Places(heroes, free, x));
    } else {
      NobodyNamed(required);
      at := 0;
      j := Pick(free);
    }
    forall x ensures multiset(Named(AllBut(required, at)))[x] <= |Places(heroes, free - {j}, x)| {
      OneTaken(required, heroes, free, at, j, x);
    }
  }

  lemma OneTaken(required: seq<Entry>, heroes: seq<HeroClass>, free: set<int>, at: nat, j: int, x: HeroClass)
    requires at < |required| && j in free && 0 <= j < |heroes|
    requires required[at].Some? ==> heroes[j] == required[at].value
    requires required[at].None? ==> Named(required) == []
    requires Enough(required, heroes, free)
    ensures multiset(Named(AllBut(required, at)))[x] <= |Places(heroes, free - {j}, x)|
  {
    NamedWithout(required, at);
    assert Places(heroes, free - {j}, x) == Places(heroes, free, x) - {j};
  }

  lemma AllHeroesFree(heroes: seq<HeroClass>, named: multiset<HeroClass>)
    requires named <= multiset(heroes)
    ensures forall x :: named[x] <= |Places(heroes, Range(|heroes|), x)|
  {
    forall x ensures named[x] <= |Places(heroes, Range(|heroes|), x)| {
      PlacesCount(heroes, x);
    }
  }

  lemma CoverableIsAssigned(required: seq<Entry>, heroes: seq<HeroClass>, leader: Option<HeroClass>)
    requires Coverable(required, heroes, leader)
    ensures MayAttack(required, heroes, leader)
  {
    var named := multiset(Named(required));
    if named <= multiset(heroes) && |required| <= |heroes| {
      AllHeroesFree(heroes, named);
      var filled := ShareOut(required, heroes, leader, Range(|heroes|));
      assert IsAssignment(required, heroes, leader, filled);
    } else {
      NamedCount(required, leader.value);
      var at :| 0 <= at < |required| && required[at] == leader;
      NamedWithout(required, at);
      var rest := AllBut(required, at);
      AllHeroesFree(heroes, multiset(Named(rest)));
      var filled' := ShareOut(rest, heroes, leader, Range(|heroes|));
      var filled := filled'[..at] + [LEADER] + filled'[at..];
      Inserted(required, heroes, leader, at, filled', LEADER);
    }
  }

  lemma MayAttackIffCoverable(required: seq<Entry>, heroes: seq<HeroClass>, leader: Option<HeroClass>)
    ensures MayAttack(required, heroes, leader) <==> Coverable(required, heroes, leader)
  {
    if MayAttack(required, heroes, leader) {
      var filled :| IsAssignment(required, heroes, leader, filled);
      AssignedIsCoverable(required, heroes, leader, filled);
    }
    if Coverable(required, heroes, leader) {
      CoverableIsAssigned(required, heroes, leader);
    }
  }

  // ---------------------------------------------------------------------------
  // What follows
  // ---------------------------------------------------------------------------

  /** Neither the order of the heroes nor that of the requirements matters, and more heroes never hurt. */
  lemma MoreHeroesNeverHurt(
    required: seq<Entry>, required': seq<Entry>, heroes: seq<HeroClass>, heroes': seq<HeroClass>, leader: Option<HeroClass>)
    requires multiset(required) == multiset(required') && multiset(heroes) <= multiset(heroes')
    requires MayAttack(required, heroes, leader)
    ensures MayAttack(required', heroes', leader)
  {
    MayAttackIffCoverable(required, heroes, leader);
    MayAttackIffCoverable(required', heroes', leader);
    assert |required| == |multiset(required)| == |required'|;
    assert |heroes| == |multiset(heroes)| && |heroes'| == |multiset(heroes')|;
    assert |multiset(heroes')| == |multiset(heroes)| + |multiset(heroes') - multiset(heroes)|;
    forall x: HeroClass ensures multiset(Named(required))[x] == multiset(Named(required'))[x] {
      NamedCount(required, x);
      NamedCount(required', x);
    }
    assert multiset(Named(required)) == multiset(Named(required'));
  }
}
