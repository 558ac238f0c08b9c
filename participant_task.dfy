/** The participant task of the data daemon: it looks a game participant up by
    name, stores the summoner (new, refreshed from the stored copy, or not at
    all) and, when the ranked statistics are newer than the stored ones, copies
    the aggregate totals onto the summoner and hands every other champion block
    to the per-champion task. */
module ParticipantTask {

  datatype Option<T> = None | Some(value: T)

  /** The outcome of a call to the game's web service: the flag and payload pair
      the clients return. */
  datatype Fetch<T> = Failed(detail: string) | Fetched(value: T)

  /** The fields of a summoner-by-name response that the task reads. */
  datatype SummonerPayload = SummonerPayload(
    id: int,
    name: string,
    profileIconId: int,
    revisionDate: int,
    summonerLevel: int)

  /** One entry of a ranked-stats response; id 0 is the aggregate of all champions. */
  datatype ChampionBlock = ChampionBlock(id: int, totalSessionsWon: nat, totalSessionsLost: nat)

  datatype RankedStats = RankedStats(modifyDate: int, champions: seq<ChampionBlock>)

  /** The state of a stored summoner. */
  datatype SummonerRecord = SummonerRecord(
    summonerId: int,
    name: string,
    profileIconUrl: string,
    lastModified: int,
    lastStatsModified: int,
    level: int,
    totalSessionsWon: nat,
    totalSessionsLost: nat,
    teamId: int,
    championId: int,
    championImageUrl: string)

  /** A per-champion task started for a summoner with one champion block. */
  datatype ChampionRun = ChampionRun(summonerId: int, block: ChampionBlock)

  /** What saving does with the summoner just fetched. */
  datatype SaveAction = Insert | Refresh | Skip

  /** The combined effect of one run on the fetched summoner: its final state,
      whether it was appended to the game, whether it was added to the session,
      and the per-champion tasks started. */
  datatype Outcome = Outcome(record: SummonerRecord, appended: bool, inserted: bool, runs: seq<ChampionRun>)

  // ---------------------------------------------------------------------------
  // Specification functions
  // ---------------------------------------------------------------------------

  /** The summoner built from a summoner-by-name payload: stats-modified time
      and totals start at zero, to be set by the aggregate block. */
  function FreshRecord(payload: SummonerPayload, teamId: int, championId: int, championImageUrl: string,
                       iconUrl: int -> string): (r: SummonerRecord)
    ensures r.lastStatsModified == 0 && r.totalSessionsWon == 0 && r.totalSessionsLost == 0
    ensures r.summonerId == payload.id && r.lastModified == payload.revisionDate
  {
    SummonerRecord(payload.id, payload.name, iconUrl(payload.profileIconId), payload.revisionDate, 0,
                   payload.summonerLevel, 0, 0, teamId, championId, championImageUrl)
  }

  /** A new summoner is inserted; a stored one is refreshed only when the fetched
      profile is strictly newer. */
  function SaveActionOf(current: Option<SummonerRecord>, fetched: SummonerRecord): SaveAction
  {
    if current.None? then Insert
    else if fetched.lastModified > current.value.lastModified then Refresh
    else Skip
  }

  /** The fetched summoner after saving: a refresh carries the stored totals over. */
  function AfterSave(current: Option<SummonerRecord>, fetched: SummonerRecord): SummonerRecord
  {
    if SaveActionOf(current, fetched) == Refresh
    then fetched.(totalSessionsWon := current.value.totalSessionsWon,
                totalSessionsLost := current.value.totalSessionsLost)
    else fetched
  }

  /** Ranked stats are applied for a new summoner, or when they are strictly
      newer than the stored summoner's. */
  predicate StatsDue(current: Option<SummonerRecord>, modifyDate: int)
  {
    current.None? || modifyDate > current.value.lastStatsModified
  }

  /** The summoner after the champion blocks in order: each aggregate block
      overwrites the totals, every other block leaves the summoner alone. */
  function ApplyBlocks(r: SummonerRecord, blocks: seq<ChampionBlock>): SummonerRecord
    decreases |blocks|
  {
    if blocks == [] then r
    else
      var before := ApplyBlocks(r, blocks[..|blocks| - 1]);
      var b := blocks[|blocks| - 1];
      if b.id == 0 then before.(totalSessionsWon := b.totalSessionsWon, totalSessionsLost := b.totalSessionsLost)
      else before
  }

  /** The per-champion tasks the blocks start, in order: one per non-aggregate block. */
  function Runs(summonerId: int, blocks: seq<ChampionBlock>): seq<ChampionRun>
    decreases |blocks|
  {
    if blocks == [] then []
    else
      var b := blocks[|blocks| - 1];
      Runs(summonerId, blocks[..|blocks| - 1]) + (if b.id == 0 then [] else [ChampionRun(summonerId, b)])
  }

  /** The summoner after a stats update: stamped with the payload's modify date,
      then the blocks applied. */
  function UpdatedStats(r: SummonerRecord, stats: RankedStats): SummonerRecord
  {
    ApplyBlocks(r.(lastStatsModified := stats.modifyDate), stats.champions)
  }

  /** The effect of one run, once the summoner fetch has succeeded. */
  function Reconcile(current: Option<SummonerRecord>, fetched: SummonerRecord, ranked: Fetch<RankedStats>): Outcome
  {
    var action := SaveActionOf(current, fetched);
    var saved := AfterSave(current, fetched);
    if ranked.Fetched? && StatsDue(current, ranked.value.modifyDate)
    then Outcome(UpdatedStats(saved, ranked.value), action != Skip, action == Insert,
                 Runs(fetched.summonerId, ranked.value.champions))
    else Outcome(saved, action != Skip, action == Insert, [])
  }

  // ---------------------------------------------------------------------------
  // Lemmas about the champion blocks
  // ---------------------------------------------------------------------------

  /** Without an aggregate block the totals are left as they were. */
  lemma {:induction false} NoAggregateKeepsTotals(r: SummonerRecord, blocks: seq<ChampionBlock>)
    requires forall i :: 0 <= i < |blocks| ==> blocks[i].id != 0
    ensures ApplyBlocks(r, blocks) == r
    decreases |blocks|
  {
    if blocks != [] {
      NoAggregateKeepsTotals(r, blocks[..|blocks| - 1]);
    }
  }

  /** The last aggregate block decides the totals. */
  lemma {:induction false} LastAggregateWins(r: SummonerRecord, blocks: seq<ChampionBlock>, k: nat)
    requires k < |blocks| && blocks[k].id == 0
    requires forall j :: k < j < |blocks| ==> blocks[j].id != 0
    ensures ApplyBlocks(r, blocks).totalSessionsWon == blocks[k].totalSessionsWon
    ensures ApplyBlocks(r, blocks).totalSessionsLost == blocks[k].totalSessionsLost
    decreases |blocks|
  {
    if k < |blocks| - 1 {
      LastAggregateWins(r, blocks[..|blocks| - 1], k);
    }
  }

  /** Applying blocks touches nothing but the two totals. */
  lemma {:induction false} OnlyTotalsChange(r: SummonerRecord, blocks: seq<ChampionBlock>)
    ensures ApplyBlocks(r, blocks).(totalSessionsWon := r.totalSessionsWon, totalSessionsLost := r.totalSessionsLost) == r
    decreases |blocks|
  {
    if blocks != [] {
      OnlyTotalsChange(r, blocks[..|blocks| - 1]);
    }
  }

  /** Two summoners that differ at most in their totals end up equal once an
      aggregate block has been applied. */
  lemma {:induction false} AggregateOverwrites(r: SummonerRecord, s: SummonerRecord, blocks: seq<ChampionBlock>, k: nat)
    requires r.(totalSessionsWon := s.totalSessionsWon, totalSessionsLost := s.totalSessionsLost) == s
    requires k < |blocks| && blocks[k].id == 0
    ensures ApplyBlocks(r, blocks) == ApplyBlocks(s, blocks)
    decreases |blocks|
  {
    if k < |blocks| - 1 {
      AggregateOverwrites(r, s, blocks[..|blocks| - 1], k);
    } else {
      OnlyTotalsChange(r, blocks[..|blocks| - 1]);
      OnlyTotalsChange(s, blocks[..|blocks| - 1]);
    }
  }

  /** Applying the same blocks twice is the same as applying them once. */
  lemma ApplyBlocksIdempotent(r: SummonerRecord, blocks: seq<ChampionBlock>)
    ensures ApplyBlocks(ApplyBlocks(r, blocks), blocks) == ApplyBlocks(r, blocks)
  {
    if k :| 0 <= k < |blocks| && blocks[k].id == 0 {
      OnlyTotalsChange(r, blocks);
      AggregateOverwrites(ApplyBlocks(r, blocks), r, blocks, k);
    } else {
      NoAggregateKeepsTotals(r, blocks);
      NoAggregateKeepsTotals(ApplyBlocks(r, blocks), blocks);
    }
  }

  /** Exactly the non-aggregate blocks reach the per-champion task. */
  lemma {:induction false} RunsAreNonAggregateBlocks(summonerId: int, blocks: seq<ChampionBlock>, b: ChampionBlock)
    ensures ChampionRun(summonerId, b) in Runs(summonerId, blocks) <==> b in blocks && b.id != 0
    decreases |blocks|
  {
    if blocks != [] {
      var front := blocks[..|blocks| - 1];
      RunsAreNonAggregateBlocks(summonerId, front, b);
      assert blocks == front + [blocks[|blocks| - 1]];
    }
  }

  /** Every per-champion task is started for the summoner being updated. */
  lemma {:induction false} RunsAreForTheSummoner(summonerId: int, blocks: seq<ChampionBlock>)
    ensures forall i :: 0 <= i < |Runs(summonerId, blocks)| ==> Runs(summonerId, blocks)[i].summonerId == summonerId
    ensures |Runs(summonerId, blocks)| <= |blocks|
    decreases |blocks|
  {
    if blocks != [] {
      RunsAreForTheSummoner(summonerId, blocks[..|blocks| - 1]);
    }
  }

  // ---------------------------------------------------------------------------
  // Lemmas about one run
  // ---------------------------------------------------------------------------

  /** A summoner not stored yet is appended to the game and added to the session
      once, and its stats are always applied when they could be fetched. */
  lemma NewSummonerIsInserted(fetched: SummonerRecord, ranked: Fetch<RankedStats>)
    ensures var o := Reconcile(None, fetched, ranked);
            && o.appended && o.inserted
            && (ranked.Fetched? ==>
                  o.record == UpdatedStats(fetched, ranked.value) && o.record.lastStatsModified == ranked.value.modifyDate)
            && (ranked.Failed? ==> o.record == fetched && o.runs == [])
  {
    if ranked.Fetched? {
      OnlyTotalsChange(fetched.(lastStatsModified := ranked.value.modifyDate), ranked.value.champions);
    }
  }

  /** A stored summoner with an older profile is refreshed: the fetched summoner
      is appended to the game, not added to the session again, and (when no
      stats update follows) keeps the stored totals. */
  lemma NewerProfileCarriesTotals(current: SummonerRecord, fetched: SummonerRecord, ranked: Fetch<RankedStats>)
    requires fetched.lastModified > current.lastModified
    ensures var o := Reconcile(Some(current), fetched, ranked);
            && o.appended && !o.inserted
            && (!(ranked.Fetched? && StatsDue(Some(current), ranked.value.modifyDate)) ==>
                  o.record.totalSessionsWon == current.totalSessionsWon
                  && o.record.totalSessionsLost == current.totalSessionsLost
                  && o.record.lastModified == fetched.lastModified)
  {
  }

  /** A stored summoner whose profile is not newer is neither appended to the
      game nor added to the session; a stats update that is still due lands on
      the fetched summoner only, and still starts the per-champion tasks. */
  lemma StaleProfileIsNotSaved(current: SummonerRecord, fetched: SummonerRecord, ranked: Fetch<RankedStats>)
    requires fetched.lastModified <= current.lastModified
    ensures var o := Reconcile(Some(current), fetched, ranked);
            !o.appended && !o.inserted
    ensures ranked.Fetched? && ranked.value.modifyDate > current.lastStatsModified ==>
            var o := Reconcile(Some(current), fetched, ranked);
            o.record == UpdatedStats(fetched, ranked.value) && o.runs == Runs(fetched.summonerId, ranked.value.champions)
  {
  }

  /** When the stats are not newer (or could not be fetched) no stats change and
      no per-champion task starts. */
  lemma StaleStatsChangeNothing(current: SummonerRecord, fetched: SummonerRecord, ranked: Fetch<RankedStats>)
    requires ranked.Failed? || ranked.value.modifyDate <= current.lastStatsModified
    ensures var o := Reconcile(Some(current), fetched, ranked);
            && o.runs == []
            && o.record == AfterSave(Some(current), fetched)
            && o.record.lastStatsModified == fetched.lastStatsModified
  {
  }

  /** A refresh whose stats are not due appends the fetched summoner with its
      stats date still 0, below the stored one; compared with that appended
      object, the same stats payload is due again. */
  lemma RefreshLeavesStatsDateZero(current: SummonerRecord, payload: SummonerPayload, teamId: int,
                                   championId: int, championImageUrl: string, iconUrl: int -> string,
                                   stats: RankedStats)
    requires payload.revisionDate > current.lastModified
    requires 0 < stats.modifyDate <= current.lastStatsModified
    ensures var fetched := FreshRecord(payload, teamId, championId, championImageUrl, iconUrl);
            var o := Reconcile(Some(current), fetched, Fetched(stats));
            && o.appended && o.runs == []
            && o.record.lastStatsModified == 0 < current.lastStatsModified
            && StatsDue(Some(o.record), stats.modifyDate)
  {
    var fetched := FreshRecord(payload, teamId, championId, championImageUrl, iconUrl);
    StaleStatsChangeNothing(current, fetched, Fetched(stats));
  }

  /** When a stats update happens the summoner is stamped with the payload's
      modify date, and nothing but that date and the totals differ from the
      saved summoner. */
  lemma StatsUpdateStampsModifyDate(current: Option<SummonerRecord>, fetched: SummonerRecord, stats: RankedStats)
    requires StatsDue(current, stats.modifyDate)
    ensures var o := Reconcile(current, fetched, Fetched(stats));
            var saved := AfterSave(current, fetched);
            && o.record.lastStatsModified == stats.modifyDate
            && o.record.(lastStatsModified := saved.lastStatsModified,
                         totalSessionsWon := saved.totalSessionsWon,
                         totalSessionsLost := saved.totalSessionsLost) == saved
            && o.runs == Runs(fetched.summonerId, stats.champions)
  {
    OnlyTotalsChange(AfterSave(current, fetched).(lastStatsModified := stats.modifyDate), stats.champions);
  }

  /** Replaying a stats payload against the summoner it produced is a no-op for
      the stats: the modify date is no longer newer, so no update and no
      per-champion task follows. */
  lemma ReplayIsStale(current: Option<SummonerRecord>, fetched: SummonerRecord, again: SummonerRecord, stats: RankedStats)
    requires StatsDue(current, stats.modifyDate)
    ensures var first := Reconcile(current, fetched, Fetched(stats));
            var second := Reconcile(Some(first.record), again, Fetched(stats));
            && !StatsDue(Some(first.record), stats.modifyDate)
            && second.runs == []
            && second.record.lastStatsModified == again.lastStatsModified
  {
    StatsUpdateStampsModifyDate(current, fetched, stats);
  }

  // ---------------------------------------------------------------------------
  // The objects the task works on
  // ---------------------------------------------------------------------------

  /** A summoner object; the task updates its fields in place after it may
      already have been appended to a game. */
  class Summoner {
    var summonerId: int
    var name: string
    var profileIconUrl: string
    var lastModified: int
    var lastStatsModified: int
    var level: int
    var totalSessionsWon: nat
    var totalSessionsLost: nat
    var teamId: int
    var championId: int
    var championImageUrl: string

    function Record(): SummonerRecord
      reads this
    {
      SummonerRecord(summonerId, name, profileIconUrl, lastModified, lastStatsModified, level,
                     totalSessionsWon, totalSessionsLost, teamId, championId, championImageUrl)
    }

    constructor (r: SummonerRecord)
      ensures Record() == r
    {
      summonerId := r.summonerId;
      name := r.name;
      profileIconUrl := r.profileIconUrl;
      lastModified := r.lastModified;
      lastStatsModified := r.lastStatsModified;
      level := r.level;
      totalSessionsWon := r.totalSessionsWon;
      totalSessionsLost := r.totalSessionsLost;
      teamId := r.teamId;
      championId := r.championId;
      championImageUrl := r.championImageUrl;
    }
  }

  /** The state of an optional summoner object. */
  function RecordOf(s: Summoner?): Option<SummonerRecord>
    reads s
  {
    if s == null then None else Some(s.Record())
  }

  /** The game the participant belongs to: its list of summoners. */
  class Game {
    var summoners: seq<Summoner>

    constructor ()
      ensures summoners == []
    {
      summoners := [];
    }
  }

  /** The database session: the summoners added to it. */
  class Session {
    var added: seq<Summoner>

    constructor ()
      ensures added == []
    {
      added := [];
    }
  }

  // ---------------------------------------------------------------------------
  // The task
  // ---------------------------------------------------------------------------

  class ProcessParticipantTask {
    const participantName: string
    const teamId: int
    const championId: int
    const game: Game
    const session: Session
    /** The per-champion tasks this task has started, in order. */
    var championRuns: seq<ChampionRun>

    constructor (participantName: string, teamId: int, championId: int, game: Game, session: Session)
      ensures this.participantName == participantName && this.teamId == teamId && this.championId == championId
      ensures this.game == game && this.session == session && championRuns == []
    {
      this.participantName := participantName;
      this.teamId := teamId;
      this.championId := championId;
      this.game := game;
      this.session := session;
      championRuns := [];
    }

    /** Fetches the participant, saves or refreshes it, then processes its ranked
        stats. The stored summoner (or null), both web-service replies, the
        champion image link and the profile-icon link builder are inputs. */
    method Run(current: Summoner?, summonerFetch: Fetch<SummonerPayload>, championImageUrl: string,
               iconUrl: int -> string, rankedFetch: Fetch<RankedStats>) returns (summoner: Summoner?)
      modifies this, game, session
      ensures summonerFetch.Failed? ==>
                summoner == null && game.summoners == old(game.summoners)
                && session.added == old(session.added) && championRuns == old(championRuns)
      ensures summonerFetch.Fetched? ==>
                var fetched := FreshRecord(summonerFetch.value, teamId, championId, championImageUrl, iconUrl);
                var o := Reconcile(old(RecordOf(current)), fetched, rankedFetch);
                && summoner != null && fresh(summoner)
                && summoner.Record() == o.record
                && game.summoners == old(game.summoners) + (if o.appended then [summoner] else [])
                && session.added == old(session.added) + (if o.inserted then [summoner] else [])
                && championRuns == old(championRuns) + o.runs
      ensures RecordOf(current) == old(RecordOf(current))
    {
      match summonerFetch {
        case Failed(_) =>
          summoner := null;
        case Fetched(payload) =>
          var fetched := FreshRecord(payload, teamId, championId, championImageUrl, iconUrl);
          summoner := new Summoner(fetched);
          SaveOrUpdate(current, summoner);
          ProcessRankedStats(current, summoner, rankedFetch);
      }
    }

    /** Applies fetched ranked stats when they are due. */
    method ProcessRankedStats(current: Summoner?, summoner: Summoner, rankedFetch: Fetch<RankedStats>)
      modifies this, summoner
      ensures rankedFetch.Fetched? && StatsDue(old(RecordOf(current)), rankedFetch.value.modifyDate) ==>
                summoner.Record() == UpdatedStats(old(summoner.Record()), rankedFetch.value)
                && championRuns == old(championRuns) + Runs(old(summoner.summonerId), rankedFetch.value.champions)
      ensures !(rankedFetch.Fetched? && StatsDue(old(RecordOf(current)), rankedFetch.value.modifyDate)) ==>
                summoner.Record() == old(summoner.Record()) && championRuns == old(championRuns)
    {
      if rankedFetch.Fetched? {
        var stats := rankedFetch.value;
        if current == null || stats.modifyDate > current.lastStatsModified {
          UpdateRankedStats(summoner, stats.modifyDate, stats);
        }
      }
    }

    /** Stamps the summoner, then walks the champion blocks: the aggregate block
        sets the totals, every other block starts a per-champion task. */
    method UpdateRankedStats(summoner: Summoner, lastStatsModified: int, stats: RankedStats)
      modifies this, summoner
      ensures summoner.Record() == ApplyBlocks(old(summoner.Record()).(lastStatsModified := lastStatsModified), stats.champions)
      ensures championRuns == old(championRuns) + Runs(old(summoner.summonerId), stats.champions)
    {
      summoner.lastStatsModified := lastStatsModified;
      ghost var start := summoner.Record();
      var champions := stats.champions;
      for i := 0 to |champions|
        invariant summoner.Record() == ApplyBlocks(start, champions[..i])
        invariant championRuns == old(championRuns) + Runs(summoner.summonerId, champions[..i])
        invariant summoner.summonerId == old(summoner.summonerId)
      {
        var championJSON := champions[i];
        assert champions[..i + 1][..i] == champions[..i];
        if championJSON.id == 0 {
          summoner.totalSessionsWon := championJSON.totalSessionsWon;
          summoner.totalSessionsLost := championJSON.totalSessionsLost;
        } else {
          championRuns := championRuns + [ChampionRun(summoner.summonerId, championJSON)];
        }
      }
      assert champions[..|champions|] == champions;
      Update(summoner);
    }

    /** Appends a new summoner to the game and adds it to the session. */
    method Save(summoner: Summoner)
      modifies game, session
      ensures game.summoners == old(game.summoners) + [summoner]
      ensures session.added == old(session.added) + [summoner]
    {
      game.summoners := game.summoners + [summoner];
      session.added := session.added + [summoner];
    }

    /** Persisting an update is switched off: this does nothing. */
    method Update(summoner: Summoner)
      ensures unchanged(this, summoner, game, session)
    {
    }

    /** Carries the stored totals over to the fetched summoner and appends it to
        the game. */
    method UpdateFromExistingSummoner(current: Summoner, summoner: Summoner)
      modifies game, summoner
      ensures summoner.Record() == old(summoner.Record()).(totalSessionsWon := old(current.totalSessionsWon),
                                                           totalSessionsLost := old(current.totalSessionsLost))
      ensures game.summoners == old(game.summoners) + [summoner]
    {
      summoner.totalSessionsWon := current.totalSessionsWon;
      summoner.totalSessionsLost := current.totalSessionsLost;
      game.summoners := game.summoners + [summoner];
      Update(summoner);
    }

    /** Saves a new summoner, refreshes a stored one whose profile changed, and
        otherwise does nothing. */
    method SaveOrUpdate(current: Summoner?, summoner: Summoner)
      modifies game, session, summoner
      ensures var action := SaveActionOf(old(RecordOf(current)), old(summoner.Record()));
              && summoner.Record() == AfterSave(old(RecordOf(current)), old(summoner.Record()))
              && game.summoners == old(game.summoners) + (if action == Skip then [] else [summoner])
              && session.added == old(session.added) + (if action == Insert then [summoner] else [])
    {
      if current == null {
        Save(summoner);
      } else if summoner.lastModified > current.lastModified {
        UpdateFromExistingSummoner(current, summoner);
      }
    }
  }
}
