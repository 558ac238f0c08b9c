/** The per-game part of the game odds service: each game's participation
    records are grouped by team label, the four win/loss counters are summed per
    team, and the overall and champion odds are derived, blue team first. */
module GameOdds {
  import opened Odds

  /** The labels the display compares, in display order (team 200, team 100). */
  const Blue: string := "BLUE"
  const Purple: string := "PURPLE"

  /** One summoner's participation in one game, with the win/loss counts the
      summoner had when the game was recorded. */
  datatype GameSummoner = GameSummoner(
    gameId: int,
    summonerId: int,
    totalSessionsWon: nat,
    totalSessionsLost: nat,
    totalChampionSessionsWon: nat,
    totalChampionSessionsLost: nat,
    teamId: int,
    championId: int,
    championImageUrl: string)

  /** A stored game and its participation records. */
  datatype Game = Game(gameId: int, gameMode: string, gameQueueId: int, summoners: seq<GameSummoner>)

  /** The four counters kept per team. */
  datatype Totals = Totals(wins: nat, losses: nat, championWins: nat, championLosses: nat)

  /** A counter set nobody has added to yet (the default of a missing team). */
  const NoTotals := Totals(0, 0, 0, 0)

  /** The stored profile of a summoner, as far as the display shows it. */
  datatype Profile = Profile(name: string, level: int)

  /** One row of a team as the display shows it. */
  datatype TeamMember = TeamMember(
    name: string,
    championImageUrl: string,
    winRate: nat,
    championWinRate: nat,
    level: int)

  /** What the service hands to the display for one game. */
  datatype GameEntry = GameEntry(
    teams: map<string, seq<TeamMember>>,
    odds: string,
    championOdds: string,
    mode: string,
    queue: int)

  // ---------------------------------------------------------------------------
  // Reference definitions
  // ---------------------------------------------------------------------------

  /** The labels of the teams that have at least one participant. */
  function Labels(ps: seq<GameSummoner>, teamName: int -> string): set<string>
  {
    set i | 0 <= i < |ps| :: teamName(ps[i].teamId)
  }

  /** The participants on the team labelled `team`, in their original order. */
  function Roster(ps: seq<GameSummoner>, teamName: int -> string, team: string): seq<GameSummoner>
  {
    if ps == [] then []
    else (if teamName(ps[0].teamId) == team then [ps[0]] else []) + Roster(ps[1..], teamName, team)
  }

  /** The display row of one participant: its overall and champion win rates. */
  function Card(p: GameSummoner, profile: int -> Profile): (m: TeamMember)
    ensures m.winRate <= 100 && m.championWinRate <= 100
    ensures p.totalSessionsWon == 0 && p.totalSessionsLost == 0 ==> m.winRate == DefaultPercentage
    ensures p.totalChampionSessionsWon == 0 && p.totalChampionSessionsLost == 0 ==> m.championWinRate == DefaultPercentage
  {
    TeamMember(profile(p.summonerId).name, p.championImageUrl,
               Percentage(p.totalSessionsWon, p.totalSessionsLost),
               Percentage(p.totalChampionSessionsWon, p.totalChampionSessionsLost),
               profile(p.summonerId).level)
  }

  /** The display rows of a list of participants, in the same order. */
  function Cards(ps: seq<GameSummoner>, profile: int -> Profile): seq<TeamMember>
  {
    seq(|ps|, k requires 0 <= k < |ps| => Card(ps[k], profile))
  }

  /** Two sets of counters added field by field. */
  function Add(a: Totals, b: Totals): Totals
  {
    Totals(a.wins + b.wins, a.losses + b.losses, a.championWins + b.championWins, a.championLosses + b.championLosses)
  }

  /** The counters `t` with one more participant's counters added. */
  function Plus(t: Totals, p: GameSummoner): Totals
  {
    Add(t, Own(p))
  }

  /** The four counters summed over a list of participants. */
  function Sum(ps: seq<GameSummoner>): Totals
  {
    if ps == [] then NoTotals else Plus(Sum(ps[1..]), ps[0])
  }

  /** The counters of a single participant. */
  function Own(p: GameSummoner): Totals
  {
    Totals(p.totalSessionsWon, p.totalSessionsLost, p.totalChampionSessionsWon, p.totalChampionSessionsLost)
  }

  /** The totals of the team labelled `team`: the sum over its roster. */
  function TeamTotals(ps: seq<GameSummoner>, teamName: int -> string, team: string): Totals
  {
    Sum(Roster(ps, teamName, team))
  }

  /** The display rows of every team present, each in participant order. */
  function TeamRows(ps: seq<GameSummoner>, teamName: int -> string, profile: int -> Profile): map<string, seq<TeamMember>>
  {
    map t | t in Labels(ps, teamName) :: Cards(Roster(ps, teamName, t), profile)
  }

  /** The odds text: the default 1 : 1 with fewer than two team labels,
      otherwise blue's record compared with purple's, in that order. */
  function OddsText(labelCount: nat, blueWins: nat, blueLosses: nat, purpleWins: nat, purpleLosses: nat): string
  {
    if labelCount < 2 then DefaultOdds else CalculateGameOdds(blueWins, blueLosses, purpleWins, purpleLosses)
  }

  /** The entry of one game: the rows of the teams present, and the overall and
      champion odds of the blue totals against the purple totals. */
  function GameEntryOf(game: Game, teamName: int -> string, profile: int -> Profile): GameEntry
  {
    var ps := game.summoners;
    var count := |Labels(ps, teamName)|;
    var blue := TeamTotals(ps, teamName, Blue);
    var purple := TeamTotals(ps, teamName, Purple);
    GameEntry(
      TeamRows(ps, teamName, profile),
      OddsText(count, blue.wins, blue.losses, purple.wins, purple.losses),
      OddsText(count, blue.championWins, blue.championLosses, purple.championWins, purple.championLosses),
      game.gameMode,
      game.gameQueueId)
  }

  // ---------------------------------------------------------------------------
  // Lemmas about the reference definitions
  // ---------------------------------------------------------------------------

  /** Appending a participant extends exactly its own team's roster. */
  lemma {:induction false} RosterAppend(ps: seq<GameSummoner>, p: GameSummoner, teamName: int -> string, team: string)
    ensures Roster(ps + [p], teamName, team)
         == Roster(ps, teamName, team) + (if teamName(p.teamId) == team then [p] else [])
  {
    if ps != [] {
      assert (ps + [p])[1..] == ps[1..] + [p];
      RosterAppend(ps[1..], p, teamName, team);
    }
  }

  /** Summing one more participant adds its counters. */
  lemma {:induction false} SumAppend(ps: seq<GameSummoner>, p: GameSummoner)
    ensures Sum(ps + [p]) == Plus(Sum(ps), p)
  {
    if ps != [] {
      assert (ps + [p])[1..] == ps[1..] + [p];
      SumAppend(ps[1..], p);
    }
  }

  lemma LabelsAppend(ps: seq<GameSummoner>, p: GameSummoner, teamName: int -> string)
    ensures Labels(ps + [p], teamName) == Labels(ps, teamName) + {teamName(p.teamId)}
  {
    var qs := ps + [p];
    forall l | l in Labels(qs, teamName) ensures l in Labels(ps, teamName) + {teamName(p.teamId)} {
      var i :| 0 <= i < |qs| && teamName(qs[i].teamId) == l;
      if i < |ps| {
        assert ps[i] == qs[i];
      }
    }
    forall l | l in Labels(ps, teamName) ensures l in Labels(qs, teamName) {
      var i :| 0 <= i < |ps| && teamName(ps[i].teamId) == l;
      assert qs[i] == ps[i];
    }
    assert qs[|ps|] == p;
  }

  /** A roster holds exactly the participants carrying that label. */
  lemma {:induction false} RosterMembers(ps: seq<GameSummoner>, teamName: int -> string, team: string, p: GameSummoner)
    ensures p in Roster(ps, teamName, team) <==> p in ps && teamName(p.teamId) == team
  {
    if ps != [] {
      RosterMembers(ps[1..], teamName, team, p);
      assert ps == [ps[0]] + ps[1..];
    }
  }

  /** The team labels present are exactly those with a non-empty roster. */
  lemma LabelHasRoster(ps: seq<GameSummoner>, teamName: int -> string, team: string)
    ensures team in Labels(ps, teamName) <==> Roster(ps, teamName, team) != []
  {
    if team in Labels(ps, teamName) {
      var i :| 0 <= i < |ps| && teamName(ps[i].teamId) == team;
      RosterMembers(ps, teamName, team, ps[i]);
    }
    if Roster(ps, teamName, team) != [] {
      var p := Roster(ps, teamName, team)[0];
      RosterMembers(ps, teamName, team, p);
      var i :| 0 <= i < |ps| && ps[i] == p;
    }
  }

  /** A team with no participant contributes zeros, as a missing counter does. */
  lemma AbsentTeamHasNoTotals(ps: seq<GameSummoner>, teamName: int -> string, team: string)
    requires team !in Labels(ps, teamName)
    ensures TeamTotals(ps, teamName, team) == NoTotals
  {
    LabelHasRoster(ps, teamName, team);
  }

  lemma EntryOdds(game: Game, teamName: int -> string, profile: int -> Profile, blue: Totals, purple: Totals)
    requires |Labels(game.summoners, teamName)| >= 2
    requires blue == TeamTotals(game.summoners, teamName, Blue)
    requires purple == TeamTotals(game.summoners, teamName, Purple)
    ensures GameEntryOf(game, teamName, profile).odds
         == CalculateGameOdds(blue.wins, blue.losses, purple.wins, purple.losses)
    ensures GameEntryOf(game, teamName, profile).championOdds
         == CalculateGameOdds(blue.championWins, blue.championLosses, purple.championWins, purple.championLosses)
  {
  }

  /** Every participant is listed, under its own team's label. */
  lemma EntryListsEveryParticipant(game: Game, teamName: int -> string, profile: int -> Profile, p: GameSummoner)
    requires p in game.summoners
    ensures var e := GameEntryOf(game, teamName, profile);
            var team := teamName(p.teamId);
            team in e.teams && Card(p, profile) in e.teams[team]
  {
    var ps := game.summoners;
    var team := teamName(p.teamId);
    RosterMembers(ps, teamName, team, p);
    var rs := Roster(ps, teamName, team);
    var k :| 0 <= k < |rs| && rs[k] == p;
    assert Cards(rs, profile)[k] == Card(p, profile);
    LabelHasRoster(ps, teamName, team);
  }

  /** A label is listed exactly when some participant carries it, and its list
      is then non-empty. */
  lemma EntryTeamsArePresentLabels(game: Game, teamName: int -> string, profile: int -> Profile, team: string)
    ensures var e := GameEntryOf(game, teamName, profile);
            team in e.teams <==> exists p :: p in game.summoners && teamName(p.teamId) == team
    ensures var e := GameEntryOf(game, teamName, profile);
            team in e.teams ==> e.teams[team] != []
  {
    var ps := game.summoners;
    LabelHasRoster(ps, teamName, team);
    if exists p :: p in ps && teamName(p.teamId) == team {
      var p :| p in ps && teamName(p.teamId) == team;
      RosterMembers(ps, teamName, team, p);
    }
    if team in Labels(ps, teamName) {
      var i :| 0 <= i < |ps| && teamName(ps[i].teamId) == team;
      assert ps[i] in ps;
    }
  }

  /** A game whose participants all sit on one team (or that has none) gets the
      default odds for both the overall and the champion comparison. */
  lemma OneTeamGetsDefaultOdds(game: Game, teamName: int -> string, profile: int -> Profile, team: string)
    requires forall p :: p in game.summoners ==> teamName(p.teamId) == team
    ensures GameEntryOf(game, teamName, profile).odds == DefaultOdds
    ensures GameEntryOf(game, teamName, profile).championOdds == DefaultOdds
  {
    var ps := game.summoners;
    assert Labels(ps, teamName) <= {team} by {
      forall t | t in Labels(ps, teamName) ensures t == team {
        var i :| 0 <= i < |ps| && teamName(ps[i].teamId) == t;
        assert ps[i] in ps;
      }
    }
    if team in Labels(ps, teamName) {
      assert Labels(ps, teamName) == {team};
    } else {
      assert Labels(ps, teamName) == {};
    }
  }

  /** Participants without any recorded sessions add nothing to a team. */
  lemma {:induction false} SumOfBlankRecords(ps: seq<GameSummoner>)
    requires forall p :: p in ps ==> Own(p) == NoTotals
    ensures Sum(ps) == NoTotals
  {
    if ps != [] {
      assert NoTotals == Totals(0, 0, 0, 0);
      assert ps[0] in ps;
      assert forall p :: p in ps[1..] ==> p in ps;
      SumOfBlankRecords(ps[1..]);
    }
  }

  /** A game in which nobody has any recorded session gets even odds, overall
      and on champions, however its participants are split into teams. */
  lemma NoStatsGivesEvenOdds(game: Game, teamName: int -> string, profile: int -> Profile)
    requires forall i :: 0 <= i < |game.summoners| ==> Own(game.summoners[i]) == NoTotals
    ensures GameEntryOf(game, teamName, profile).odds == "1 : 1"
    ensures GameEntryOf(game, teamName, profile).championOdds == "1 : 1"
  {
    var ps := game.summoners;
    DefaultOddsIsEven();
    if |Labels(ps, teamName)| >= 2 {
      forall team: string ensures TeamTotals(ps, teamName, team) == NoTotals {
        var rs := Roster(ps, teamName, team);
        forall q | q in rs ensures Own(q) == NoTotals {
          RosterMembers(ps, teamName, team, q);
          var i :| 0 <= i < |ps| && ps[i] == q;
        }
        SumOfBlankRecords(rs);
      }
      EntryOdds(game, teamName, profile, NoTotals, NoTotals);
      EqualPercentagesAreEven(0, 0, 0, 0);
    }
  }

  /** With two or more team labels, both odds are the blue and purple chances
      divided by their greatest common divisor, blue first: a ratio whose two
      terms share no factor. */
  lemma TwoTeamOddsInLowestTerms(game: Game, teamName: int -> string, profile: int -> Profile)
    requires |Labels(game.summoners, teamName)| >= 2
    ensures var blue := TeamTotals(game.summoners, teamName, Blue);
            var purple := TeamTotals(game.summoners, teamName, Purple);
            var bc := Chance(blue.wins, blue.losses, purple.wins, purple.losses);
            var pc := Chance(purple.wins, purple.losses, blue.wins, blue.losses);
            var r := ReducedOdds(blue.wins, blue.losses, purple.wins, purple.losses);
            && GameEntryOf(game, teamName, profile).odds == Show(r)
            && Gcd(r.blue, r.purple) == 1
            && r.blue * Gcd(bc, pc) == bc
            && r.purple * Gcd(bc, pc) == pc
    ensures var blue := TeamTotals(game.summoners, teamName, Blue);
            var purple := TeamTotals(game.summoners, teamName, Purple);
            var bc := Chance(blue.championWins, blue.championLosses, purple.championWins, purple.championLosses);
            var pc := Chance(purple.championWins, purple.championLosses, blue.championWins, blue.championLosses);
            var r := ReducedOdds(blue.championWins, blue.championLosses, purple.championWins, purple.championLosses);
            && GameEntryOf(game, teamName, profile).championOdds == Show(r)
            && Gcd(r.blue, r.purple) == 1
            && r.blue * Gcd(bc, pc) == bc
            && r.purple * Gcd(bc, pc) == pc
  {
    var blue := TeamTotals(game.summoners, teamName, Blue);
    var purple := TeamTotals(game.summoners, teamName, Purple);
    EntryOdds(game, teamName, profile, blue, purple);
    OddsTextShowsRatio(blue.wins, blue.losses, purple.wins, purple.losses);
    OddsTextShowsRatio(blue.championWins, blue.championLosses, purple.championWins, purple.championLosses);
    ReducedOddsInLowestTerms(blue.wins, blue.losses, purple.wins, purple.losses);
    ReducedOddsInLowestTerms(blue.championWins, blue.championLosses, purple.championWins, purple.championLosses);
  }

  // ---------------------------------------------------------------------------
  // The odds do not depend on the order of the participants
  // ---------------------------------------------------------------------------

  lemma AddRearrange(a: Totals, b: Totals, c: Totals)
    ensures Add(Add(a, b), c) == Add(b, Add(a, c))
  {
  }

  lemma {:induction false} RosterConcat(a: seq<GameSummoner>, b: seq<GameSummoner>, teamName: int -> string, team: string)
    ensures Roster(a + b, teamName, team) == Roster(a, teamName, team) + Roster(b, teamName, team)
  {
    if a == [] {
      assert a + b == b;
    } else {
      var head := if teamName(a[0].teamId) == team then [a[0]] else [];
      assert (a + b)[0] == a[0];
      assert (a + b)[1..] == a[1..] + b;
      calc {
        Roster(a + b, teamName, team);
        head + Roster(a[1..] + b, teamName, team);
        { RosterConcat(a[1..], b, teamName, team); }
        head + (Roster(a[1..], teamName, team) + Roster(b, teamName, team));
        (head + Roster(a[1..], teamName, team)) + Roster(b, teamName, team);
        Roster(a, teamName, team) + Roster(b, teamName, team);
      }
    }
  }

  lemma {:induction false} SumConcat(a: seq<GameSummoner>, b: seq<GameSummoner>)
    ensures Sum(a + b) == Add(Sum(a), Sum(b))
  {
    if a == [] {
      assert a + b == b;
    } else {
      assert (a + b)[0] == a[0];
      assert (a + b)[1..] == a[1..] + b;
      SumConcat(a[1..], b);
    }
  }

  lemma TeamTotalsSplit(pre: seq<GameSummoner>, mid: seq<GameSummoner>, post: seq<GameSummoner>,
                        teamName: int -> string, team: string)
    ensures TeamTotals(pre + mid + post, teamName, team)
         == Add(TeamTotals(mid, teamName, team), TeamTotals(pre + post, teamName, team))
  {
    RosterConcat(pre + mid, post, teamName, team);
    RosterConcat(pre, mid, teamName, team);
    RosterConcat(pre, post, teamName, team);
    var x, y, z := Roster(pre, teamName, team), Roster(mid, teamName, team), Roster(post, teamName, team);
    SumConcat(x + y, z);
    SumConcat(x, y);
    SumConcat(x, z);
    calc {
      TeamTotals(pre + mid + post, teamName, team);
      Sum(x + y + z);
      Add(Add(Sum(x), Sum(y)), Sum(z));
      { AddRearrange(Sum(x), Sum(y), Sum(z)); }
      Add(Sum(y), Add(Sum(x), Sum(z)));
      Add(Sum(y), Sum(x + z));
      Add(TeamTotals(mid, teamName, team), TeamTotals(pre + post, teamName, team));
    }
  }

  /** Taking out the participant at position `j` takes out its contribution. */
  lemma TeamTotalsWithout(qs: seq<GameSummoner>, j: nat, teamName: int -> string, team: string)
    requires j < |qs|
    ensures TeamTotals(qs, teamName, team)
         == Add(TeamTotals([qs[j]], teamName, team), TeamTotals(qs[..j] + qs[j + 1..], teamName, team))
  {
    assert qs == qs[..j] + [qs[j]] + qs[j + 1..];
    TeamTotalsSplit(qs[..j], [qs[j]], qs[j + 1..], teamName, team);
  }

  lemma MultisetWithout(ps: seq<GameSummoner>, qs: seq<GameSummoner>, j: nat)
    requires multiset(ps) == multiset(qs)
    requires ps != [] && j < |qs| && qs[j] == ps[0]
    ensures multiset(ps[1..]) == multiset(qs[..j] + qs[j + 1..])
  {
    var rest := qs[..j] + qs[j + 1..];
    assert qs == qs[..j] + [qs[j]] + qs[j + 1..];
    assert ps == [ps[0]] + ps[1..];
    calc {
      multiset(ps[1..]) + multiset{ps[0]};
      multiset(ps);
      multiset(qs);
      multiset(qs[..j]) + multiset{qs[j]} + multiset(qs[j + 1..]);
      multiset(rest) + multiset{ps[0]};
    }
    forall e ensures multiset(ps[1..])[e] == multiset(rest)[e] {
      assert (multiset(ps[1..]) + multiset{ps[0]})[e] == (multiset(rest) + multiset{ps[0]})[e];
    }
  }

  lemma TeamTotalsFirst(ps: seq<GameSummoner>, teamName: int -> string, team: string)
    requires ps != []
    ensures TeamTotals(ps, teamName, team) == Add(TeamTotals([ps[0]], teamName, team), TeamTotals(ps[1..], teamName, team))
  {
    assert ps == [] + [ps[0]] + ps[1..];
    assert [] + ps[1..] == ps[1..];
    TeamTotalsSplit([], [ps[0]], ps[1..], teamName, team);
  }

  /** Moving the first participant to position `j` keeps the team's totals,
      given that the remaining participants already agree. */
  lemma TeamTotalsMoveFirst(ps: seq<GameSummoner>, qs: seq<GameSummoner>, j: nat, teamName: int -> string, team: string)
    requires ps != [] && j < |qs| && qs[j] == ps[0]
    requires TeamTotals(ps[1..], teamName, team) == TeamTotals(qs[..j] + qs[j + 1..], teamName, team)
    ensures TeamTotals(ps, teamName, team) == TeamTotals(qs, teamName, team)
  {
    var first := TeamTotals([ps[0]], teamName, team);
    TeamTotalsWithout(qs, j, teamName, team);
    TeamTotalsFirst(ps, teamName, team);
    assert [qs[j]] == [ps[0]];
    assert TeamTotals(qs, teamName, team) == Add(first, TeamTotals(ps[1..], teamName, team));
  }

  /** A team's totals depend only on which participants the game holds, not on
      the order the participation records come in. */
  lemma {:induction false} TeamTotalsIgnoreOrder(ps: seq<GameSummoner>, qs: seq<GameSummoner>, teamName: int -> string, team: string)
    requires multiset(ps) == multiset(qs)
    ensures TeamTotals(ps, teamName, team) == TeamTotals(qs, teamName, team)
    decreases |ps|
  {
    if ps == [] {
      assert |qs| == |multiset(qs)| == 0;
    } else {
      assert ps[0] in multiset(qs);
      var j :| 0 <= j < |qs| && qs[j] == ps[0];
      MultisetWithout(ps, qs, j);
      TeamTotalsIgnoreOrder(ps[1..], qs[..j] + qs[j + 1..], teamName, team);
      TeamTotalsMoveFirst(ps, qs, j, teamName, team);
    }
  }

  lemma LabelsIgnoreOrder(ps: seq<GameSummoner>, qs: seq<GameSummoner>, teamName: int -> string)
    requires multiset(ps) == multiset(qs)
    ensures Labels(ps, teamName) == Labels(qs, teamName)
  {
    forall t | t in Labels(ps, teamName) ensures t in Labels(qs, teamName) {
      var i :| 0 <= i < |ps| && teamName(ps[i].teamId) == t;
      assert ps[i] in multiset(qs);
      var j :| 0 <= j < |qs| && qs[j] == ps[i];
    }
    forall t | t in Labels(qs, teamName) ensures t in Labels(ps, teamName) {
      var j :| 0 <= j < |qs| && teamName(qs[j].teamId) == t;
      assert qs[j] in multiset(ps);
      var i :| 0 <= i < |ps| && ps[i] == qs[j];
    }
  }

  /** Two games holding the same participation records, in any order, get the
      same overall and champion odds. */
  lemma OddsIgnoreParticipantOrder(g1: Game, g2: Game, teamName: int -> string, profile: int -> Profile)
    requires multiset(g1.summoners) == multiset(g2.summoners)
    ensures GameEntryOf(g1, teamName, profile).odds == GameEntryOf(g2, teamName, profile).odds
    ensures GameEntryOf(g1, teamName, profile).championOdds == GameEntryOf(g2, teamName, profile).championOdds
  {
    LabelsIgnoreOrder(g1.summoners, g2.summoners, teamName);
    TeamTotalsIgnoreOrder(g1.summoners, g2.summoners, teamName, Blue);
    TeamTotalsIgnoreOrder(g1.summoners, g2.summoners, teamName, Purple);
  }

  // ---------------------------------------------------------------------------
  // One summoner against one
  // ---------------------------------------------------------------------------

  lemma OneAgainstOneRoster(b: GameSummoner, p: GameSummoner, teamName: int -> string, team: string)
    requires teamName(b.teamId) == Blue && teamName(p.teamId) == Purple
    ensures Roster([b, p], teamName, team)
         == (if team == Blue then [b] else []) + (if team == Purple then [p] else [])
  {
    assert [b, p] == [] + [b] + [p];
    RosterAppend([], b, teamName, team);
    RosterAppend([b], p, teamName, team);
  }

  lemma SumOfOne(p: GameSummoner)
    ensures Sum([p]) == Plus(NoTotals, p)
  {
    SumAppend([], p);
  }

  lemma OneAgainstOneTotals(b: GameSummoner, p: GameSummoner, teamName: int -> string)
    requires teamName(b.teamId) == Blue && teamName(p.teamId) == Purple
    ensures TeamTotals([b, p], teamName, Blue) == Own(b)
    ensures TeamTotals([b, p], teamName, Purple) == Own(p)
  {
    assert Blue != Purple by { assert Blue[0] != Purple[0]; }
    OneAgainstOneRoster(b, p, teamName, Blue);
    OneAgainstOneRoster(b, p, teamName, Purple);
    assert [b] + [] == [b] && [] + [p] == [p];
    SumOfOne(b);
    SumOfOne(p);
  }

  lemma OneAgainstOneLabels(b: GameSummoner, p: GameSummoner, teamName: int -> string)
    requires teamName(b.teamId) == Blue && teamName(p.teamId) == Purple
    ensures Labels([b, p], teamName) == {Blue, Purple}
    ensures |Labels([b, p], teamName)| == 2
  {
    assert Blue != Purple by { assert Blue[0] != Purple[0]; }
    LabelsAppend([b], p, teamName);
    LabelsAppend([], b, teamName);
    assert [] + [b] == [b];
    assert [b] + [p] == [b, p];
    assert Labels([], teamName) == {};
    assert Labels([b, p], teamName) == {Blue, Purple};
  }

  /** A blue summoner against a purple one: the odds compare the two summoners'
      own records, blue first. */
  lemma OneAgainstOneOdds(game: Game, b: GameSummoner, p: GameSummoner, teamName: int -> string, profile: int -> Profile)
    requires game.summoners == [b, p]
    requires teamName(b.teamId) == Blue && teamName(p.teamId) == Purple
    ensures GameEntryOf(game, teamName, profile).odds
         == CalculateGameOdds(b.totalSessionsWon, b.totalSessionsLost, p.totalSessionsWon, p.totalSessionsLost)
    ensures GameEntryOf(game, teamName, profile).championOdds
         == CalculateGameOdds(b.totalChampionSessionsWon, b.totalChampionSessionsLost,
                              p.totalChampionSessionsWon, p.totalChampionSessionsLost)
  {
    OneAgainstOneTotals(b, p, teamName);
    OneAgainstOneLabels(b, p, teamName);
    EntryOdds(game, teamName, profile, Own(b), Own(p));
  }

  /** A 30-10 blue summoner against a 10-30 purple one, neither with a record on
      their champion: 3 : 1 overall, even odds on champions. */
  lemma ThreeToOneGame(game: Game, teamName: int -> string, profile: int -> Profile)
    requires |game.summoners| == 2
    requires teamName(game.summoners[0].teamId) == Blue && teamName(game.summoners[1].teamId) == Purple
    requires var b := game.summoners[0];
             b.totalSessionsWon == 30 && b.totalSessionsLost == 10
             && b.totalChampionSessionsWon == 0 && b.totalChampionSessionsLost == 0
    requires var p := game.summoners[1];
             p.totalSessionsWon == 10 && p.totalSessionsLost == 30
             && p.totalChampionSessionsWon == 0 && p.totalChampionSessionsLost == 0
    ensures GameEntryOf(game, teamName, profile).odds == "3 : 1"
    ensures GameEntryOf(game, teamName, profile).championOdds == "1 : 1"
  {
    assert game.summoners == [game.summoners[0], game.summoners[1]];
    OneAgainstOneOdds(game, game.summoners[0], game.summoners[1], teamName, profile);
    ThreeToOne();
    EqualPercentagesAreEven(0, 0, 0, 0);
    DefaultOddsIsEven();
  }

  // ---------------------------------------------------------------------------
  // The service loops
  // ---------------------------------------------------------------------------

  /** `teams` holds, for each team present in `ps`, its display rows. */
  ghost predicate RowsAccumulated(teams: map<string, seq<TeamMember>>,
                                  ps: seq<GameSummoner>, teamName: int -> string, profile: int -> Profile)
  {
    && teams.Keys == Labels(ps, teamName)
    && (forall t :: t in teams ==> teams[t] == Cards(Roster(ps, teamName, t), profile))
  }

  /** `totals` holds, for each team present in `ps`, its summed counters. */
  ghost predicate TotalsAccumulated(totals: map<string, Totals>, ps: seq<GameSummoner>, teamName: int -> string)
  {
    && totals.Keys == Labels(ps, teamName)
    && (forall t :: t in totals ==> totals[t] == TeamTotals(ps, teamName, t))
  }

  /** The counters of a team, or zeros for a team not seen (a default dictionary). */
  function Lookup(totals: map<string, Totals>, team: string): Totals
  {
    if team in totals then totals[team] else NoTotals
  }

  lemma LookupIsTeamTotals(totals: map<string, Totals>, ps: seq<GameSummoner>, teamName: int -> string, team: string)
    requires TotalsAccumulated(totals, ps, teamName)
    ensures Lookup(totals, team) == TeamTotals(ps, teamName, team)
  {
    if team !in totals {
      AbsentTeamHasNoTotals(ps, teamName, team);
    }
  }

  /** Appending one participant's row to its team keeps the rows equal to the
      reference definition over the longer list. */
  lemma RowsAccumulateOne(teams: map<string, seq<TeamMember>>,
                          ps: seq<GameSummoner>, p: GameSummoner, teamName: int -> string, profile: int -> Profile)
    requires RowsAccumulated(teams, ps, teamName, profile)
    ensures var team := teamName(p.teamId);
            var rows := if team in teams then teams[team] else [];
            RowsAccumulated(teams[team := rows + [Card(p, profile)]], ps + [p], teamName, profile)
  {
    var team := teamName(p.teamId);
    var rows := if team in teams then teams[team] else [];
    var updated := teams[team := rows + [Card(p, profile)]];
    LabelsAppend(ps, p, teamName);
    forall t | t in updated
      ensures updated[t] == Cards(Roster(ps + [p], teamName, t), profile)
    {
      RosterAppend(ps, p, teamName, t);
      if t == team {
        if team !in teams {
          LabelHasRoster(ps, teamName, team);
        }
        assert Cards(Roster(ps, teamName, team) + [p], profile) == rows + [Card(p, profile)];
      }
    }
  }

  /** Adding one participant's counters to its team keeps the counters equal to
      the reference definition over the longer list. */
  lemma TotalsAccumulateOne(totals: map<string, Totals>, ps: seq<GameSummoner>, p: GameSummoner, teamName: int -> string)
    requires TotalsAccumulated(totals, ps, teamName)
    ensures var team := teamName(p.teamId);
            TotalsAccumulated(totals[team := Plus(Lookup(totals, team), p)], ps + [p], teamName)
  {
    var team := teamName(p.teamId);
    var updated := totals[team := Plus(Lookup(totals, team), p)];
    LabelsAppend(ps, p, teamName);
    forall t | t in updated
      ensures updated[t] == TeamTotals(ps + [p], teamName, t)
    {
      RosterAppend(ps, p, teamName, t);
      if t == team {
        LookupIsTeamTotals(totals, ps, teamName, team);
        SumAppend(Roster(ps, teamName, team), p);
        assert Roster(ps + [p], teamName, t) == Roster(ps, teamName, t) + [p];
      } else {
        assert Roster(ps + [p], teamName, t) == Roster(ps, teamName, t);
      }
    }
  }

  /** Once every participant is accumulated, the rows and the odds derived from
      the maps are those of the reference entry. */
  lemma AccumulatedEntry(teams: map<string, seq<TeamMember>>, totals: map<string, Totals>,
                         game: Game, teamName: int -> string, profile: int -> Profile)
    requires RowsAccumulated(teams, game.summoners, teamName, profile)
    requires TotalsAccumulated(totals, game.summoners, teamName)
    ensures var blue := Lookup(totals, Blue);
            var purple := Lookup(totals, Purple);
            GameEntryOf(game, teamName, profile)
            == GameEntry(
                 teams,
                 OddsText(|totals|, blue.wins, blue.losses, purple.wins, purple.losses),
                 OddsText(|totals|, blue.championWins, blue.championLosses, purple.championWins, purple.championLosses),
                 game.gameMode,
                 game.gameQueueId)
  {
    LookupIsTeamTotals(totals, game.summoners, teamName, Blue);
    LookupIsTeamTotals(totals, game.summoners, teamName, Purple);
    assert |totals| == |totals.Keys|;
  }

  /** Builds one game's entry: accumulates each participant into its team's
      rows and counters, then applies the default or computes both odds. */
  method OddsForGame(game: Game, teamName: int -> string, profile: int -> Profile) returns (entry: GameEntry)
    ensures entry == GameEntryOf(game, teamName, profile)
  {
    var ps := game.summoners;
    var teams: map<string, seq<TeamMember>> := map[];
    var teamWinsAndLosses: map<string, Totals> := map[];
    for i := 0 to |ps|
      invariant RowsAccumulated(teams, ps[..i], teamName, profile)
      invariant TotalsAccumulated(teamWinsAndLosses, ps[..i], teamName)
    {
      var p := ps[i];
      var team := teamName(p.teamId);
      RowsAccumulateOne(teams, ps[..i], p, teamName, profile);
      TotalsAccumulateOne(teamWinsAndLosses, ps[..i], p, teamName);
      assert ps[..i + 1] == ps[..i] + [p];
      teamWinsAndLosses := teamWinsAndLosses[team := Plus(Lookup(teamWinsAndLosses, team), p)];
      var rows := if team in teams then teams[team] else [];
      teams := teams[team := rows + [Card(p, profile)]];
    }
    assert ps[..|ps|] == ps;
    AccumulatedEntry(teams, teamWinsAndLosses, game, teamName, profile);
    var blue := Lookup(teamWinsAndLosses, Blue);
    var purple := Lookup(teamWinsAndLosses, Purple);
    var odds, championOdds;
    if |teamWinsAndLosses| < 2 {
      odds := DefaultOdds;
      championOdds := DefaultOdds;
    } else {
      odds := CalculateGameOdds(blue.wins, blue.losses, purple.wins, purple.losses);
      championOdds := CalculateGameOdds(blue.championWins, blue.championLosses, purple.championWins, purple.championLosses);
    }
    entry := GameEntry(teams, odds, championOdds, game.gameMode, game.gameQueueId);
  }

  /** Builds the entries of all games, in the order the games are given. */
  method GamesWithOdds(games: seq<Game>, teamName: int -> string, profile: int -> Profile) returns (gameList: seq<GameEntry>)
    ensures |gameList| == |games|
    ensures forall k :: 0 <= k < |games| ==> gameList[k] == GameEntryOf(games[k], teamName, profile)
  {
    gameList := [];
    for i := 0 to |games|
      invariant |gameList| == i
      invariant forall k :: 0 <= k < i ==> gameList[k] == GameEntryOf(games[k], teamName, profile)
    {
      var entry := OddsForGame(games[i], teamName, profile);
      gameList := gameList + [entry];
    }
  }
}
