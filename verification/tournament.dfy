/**
 * The configuration record of one tournament (src/Tournament.ts): the private
 * fields set by the constructor, the `options` getter that reads them back and
 * the `options` setter that merges a sparse settings object into them with
 * JavaScript's `||`.
 *
 * The record is a value: the setter is a pure function from the old record and
 * the settings to the new record.
 */
module TournamentConfig {
  import opened Wrappers
  import opened Js

  datatype Format = Elimination | Swiss | RoundRobin

  datatype State = Setup | Active | InPlayoffs | Inactive

  datatype PlayoffFormat = SingleElimination | DoubleElimination | NoPlayoffs

  datatype CutType = ByRank | ByPoints

  /** The cut to playoffs: the string 'none' or a `{type, value}` object. */
  datatype Cut = NoCut | CutAt(kind: CutType, value: real)

  datatype PlayoffConfig = PlayoffConfig(format: PlayoffFormat, cut: Cut)

  datatype Tiebreak =
    | MedianBuchholz
    | Solkoff
    | SonnebornBerger
    | Cumulative
    | Versus
    | GameWinPercentage
    | OpponentGameWinPercentage
    | OpponentMatchWinPercentage
    | OpponentOpponentMatchWinPercentage

  datatype ScoringConfig = ScoringConfig(
    bestOf: real,
    win: real,
    draw: real,
    loss: real,
    bye: real,
    tiebreaks: seq<Tiebreak>)

  datatype Sorting = Ascending | Descending | Unsorted

  datatype RoundCounter = RoundCounter(total: real, current: real)

  /** src/Player.js is not part of this model; a player is an opaque handle. */
  type PlayerRef = nat

  /** src/Match.js is not part of this model; a match is an opaque handle. */
  type MatchRef = nat

  /** All fields of a tournament object, public `id` and the private `#` fields. */
  datatype Tournament = Tournament(
    id: string,
    name: string,
    format: Format,
    players: seq<PlayerRef>,
    matches: seq<MatchRef>,
    state: State,
    consolation: bool,
    playoffs: PlayoffConfig,
    scoring: ScoringConfig,
    sorting: Sorting,
    rounds: RoundCounter)

  /** What the `options` getter returns: everything except the players and matches. */
  datatype OptionsView = OptionsView(
    id: string,
    name: string,
    format: Format,
    state: State,
    consolation: bool,
    playoffs: PlayoffConfig,
    scoring: ScoringConfig,
    sorting: Sorting,
    rounds: RoundCounter)

  // ---------------------------------------------------------------------------
  // Settings accepted by the setter; `None` is an absent property.

  datatype PlayoffsPatch = PlayoffsPatch(format: Option<PlayoffFormat>, cut: Option<Cut>)

  datatype ScoringPatch = ScoringPatch(
    bestOf: Option<real>,
    win: Option<real>,
    draw: Option<real>,
    loss: Option<real>,
    bye: Option<real>,
    tiebreaks: Option<seq<Tiebreak>>)

  datatype RoundsPatch = RoundsPatch(total: Option<real>)

  datatype Settings = Settings(
    name: Option<string>,
    format: Option<Format>,
    consolation: Option<bool>,
    playoffs: Option<PlayoffsPatch>,
    scoring: Option<ScoringPatch>,
    sorting: Option<Sorting>,
    rounds: Option<RoundsPatch>)

  /**
   * The effect of one assignment to `options`: the record afterwards and whether
   * a TypeError escaped. The setter writes every other field before it reads
   * `settings.rounds.total`, so a throw still leaves those writes in place.
   */
  datatype SetOutcome = SetOutcome(after: Tournament, threw: bool)

  // ---------------------------------------------------------------------------
  // Constructor

  /** The tiebreak list the constructor picks for a format. */
  function DefaultTiebreaks(format: Format): (tb: seq<Tiebreak>)
    ensures |tb| == 0 <==> format == Elimination
    ensures format == Swiss ==> tb == [Solkoff, Cumulative]
    ensures format == RoundRobin ==> tb == [SonnebornBerger, Versus]
  {
    match format
    case Swiss => [Solkoff, Cumulative]
    case RoundRobin => [SonnebornBerger, Versus]
    case Elimination => []
  }

  /** `new Tournament(id, name, format)`. */
  function New(id: string, name: string, format: Format): (t: Tournament)
    ensures t.id == id && t.name == name && t.format == format
    ensures t.state == Setup && |t.players| == 0 && |t.matches| == 0
    ensures !t.consolation
    ensures t.playoffs == PlayoffConfig(NoPlayoffs, NoCut)
    ensures t.scoring.bestOf == 1.0 && t.scoring.win == 1.0 && t.scoring.draw == 0.5
    ensures t.scoring.loss == 0.0 && t.scoring.bye == 1.0
    ensures t.scoring.tiebreaks == DefaultTiebreaks(format)
    ensures t.sorting == Unsorted
    ensures t.rounds.total == 0.0 && t.rounds.current == 0.0
  {
    Tournament(
      id, name, format, [], [], Setup, false,
      PlayoffConfig(NoPlayoffs, NoCut),
      ScoringConfig(1.0, 1.0, 0.5, 0.0, 1.0, DefaultTiebreaks(format)),
      Unsorted,
      RoundCounter(0.0, 0.0))
  }

  // ---------------------------------------------------------------------------
  // Getter

  /** `get options()`. */
  function Options(t: Tournament): (o: OptionsView)
    ensures o.id == t.id && o.name == t.name && o.format == t.format && o.state == t.state
    ensures o.consolation == t.consolation && o.playoffs == t.playoffs
    ensures o.scoring == t.scoring && o.sorting == t.sorting && o.rounds == t.rounds
  {
    OptionsView(t.id, t.name, t.format, t.state, t.consolation, t.playoffs, t.scoring, t.sorting, t.rounds)
  }

  // ---------------------------------------------------------------------------
  // Setter

  function MergePlayoffs(p: PlayoffConfig, patch: PlayoffsPatch): (r: PlayoffConfig)
  {
    PlayoffConfig(
      Or(patch.format, TruthyObject, p.format),
      Or(patch.cut, TruthyObject, p.cut))
  }

  function MergeScoring(c: ScoringConfig, patch: ScoringPatch): (r: ScoringConfig)
  {
    ScoringConfig(
      Or(patch.bestOf, TruthyNumber, c.bestOf),
      Or(patch.win, TruthyNumber, c.win),
      Or(patch.draw, TruthyNumber, c.draw),
      Or(patch.loss, TruthyNumber, c.loss),
      Or(patch.bye, TruthyNumber, c.bye),
      Or(patch.tiebreaks, TruthyObject, c.tiebreaks))
  }

  /** The writes the setter makes before it reads `settings.rounds`. */
  function MergeFields(t: Tournament, s: Settings): (r: Tournament)
  {
    t.(
      name := Or(s.name, TruthyString, t.name),
      format := Or(s.format, TruthyObject, t.format),
      consolation := Or(s.consolation, TruthyBoolean, t.consolation),
      playoffs := if s.playoffs.Some? then MergePlayoffs(t.playoffs, s.playoffs.value) else t.playoffs,
      scoring := if s.scoring.Some? then MergeScoring(t.scoring, s.scoring.value) else t.scoring,
      sorting := Or(s.sorting, TruthyObject, t.sorting))
  }

  /** `set options(settings)`. */
  function SetOptions(t: Tournament, s: Settings): (r: SetOutcome)
    // the only throw is the read of `.total` on an absent `rounds`
    ensures r.threw <==> s.rounds.None?
    // fields the setter never writes
    ensures r.after.id == t.id && r.after.state == t.state
    ensures r.after.players == t.players && r.after.matches == t.matches
    ensures r.after.rounds.current == t.rounds.current
    // a throw happens after every write except the round total
    ensures r.threw ==> r.after.rounds == t.rounds
    // absent groups are never looked into
    ensures s.playoffs.None? ==> r.after.playoffs == t.playoffs
    ensures s.scoring.None? ==> r.after.scoring == t.scoring
  {
    var merged := MergeFields(t, s);
    if s.rounds.None? then
      SetOutcome(merged, true)
    else
      var total := Or(s.rounds.value.total, TruthyNumber, merged.rounds.total);
      SetOutcome(merged.(rounds := merged.rounds.(total := total)), false)
  }
}
