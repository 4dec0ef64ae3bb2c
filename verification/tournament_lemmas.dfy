/**
 * Properties of the tournament configuration record: what the setter changes
 * and what it keeps, the settings values it silently ignores, how successive
 * assignments compose, and what the getter reveals.
 */
module TournamentConfigLemmas {
  import opened Wrappers
  import opened Js
  import opened TournamentConfig

  // ---------------------------------------------------------------------------
  // Field by field

  /**
   * A field merged by `supplied || old`: it holds the supplied value when that
   * is present and truthy, and the old value otherwise.
   */
  ghost predicate MergedField<T>(before: T, supplied: Option<T>, truthy: T -> bool, now: T) {
    if supplied.Some? && truthy(supplied.value) then now == supplied.value else now == before
  }

  /** Each settable field takes the supplied value if it is truthy and otherwise keeps its old value. */
  lemma SetterFieldwise(t: Tournament, s: Settings)
    ensures var a := SetOptions(t, s).after;
      && MergedField(t.name, s.name, TruthyString, a.name)
      && MergedField(t.format, s.format, TruthyObject, a.format)
      && MergedField(t.consolation, s.consolation, TruthyBoolean, a.consolation)
      && MergedField(t.sorting, s.sorting, TruthyObject, a.sorting)
    ensures var a := SetOptions(t, s).after;
      s.playoffs.Some? ==>
        && MergedField(t.playoffs.format, s.playoffs.value.format, TruthyObject, a.playoffs.format)
        && MergedField(t.playoffs.cut, s.playoffs.value.cut, TruthyObject, a.playoffs.cut)
    ensures var a := SetOptions(t, s).after;
      s.scoring.Some? ==>
        && MergedField(t.scoring.bestOf, s.scoring.value.bestOf, TruthyNumber, a.scoring.bestOf)
        && MergedField(t.scoring.win, s.scoring.value.win, TruthyNumber, a.scoring.win)
        && MergedField(t.scoring.draw, s.scoring.value.draw, TruthyNumber, a.scoring.draw)
        && MergedField(t.scoring.loss, s.scoring.value.loss, TruthyNumber, a.scoring.loss)
        && MergedField(t.scoring.bye, s.scoring.value.bye, TruthyNumber, a.scoring.bye)
        && MergedField(t.scoring.tiebreaks, s.scoring.value.tiebreaks, TruthyObject, a.scoring.tiebreaks)
    ensures var a := SetOptions(t, s).after;
      s.rounds.Some? ==> MergedField(t.rounds.total, s.rounds.value.total, TruthyNumber, a.rounds.total)
  {
  }

  /**
   * The setter never turns a truthy field falsy, and every field it changes
   * receives a truthy value.
   */
  lemma SetterNeverFalsifies(t: Tournament, s: Settings)
    ensures var a := SetOptions(t, s).after;
      && (TruthyString(t.name) ==> TruthyString(a.name))
      && (t.consolation ==> a.consolation)
      && (TruthyNumber(t.scoring.bestOf) ==> TruthyNumber(a.scoring.bestOf))
      && (TruthyNumber(t.scoring.win) ==> TruthyNumber(a.scoring.win))
      && (TruthyNumber(t.scoring.draw) ==> TruthyNumber(a.scoring.draw))
      && (TruthyNumber(t.scoring.loss) ==> TruthyNumber(a.scoring.loss))
      && (TruthyNumber(t.scoring.bye) ==> TruthyNumber(a.scoring.bye))
      && (TruthyNumber(t.rounds.total) ==> TruthyNumber(a.rounds.total))
    ensures var a := SetOptions(t, s).after;
      && (a.name != t.name ==> TruthyString(a.name))
      && (a.consolation != t.consolation ==> a.consolation)
      && (a.scoring.bestOf != t.scoring.bestOf ==> TruthyNumber(a.scoring.bestOf))
      && (a.scoring.win != t.scoring.win ==> TruthyNumber(a.scoring.win))
      && (a.scoring.draw != t.scoring.draw ==> TruthyNumber(a.scoring.draw))
      && (a.scoring.loss != t.scoring.loss ==> TruthyNumber(a.scoring.loss))
      && (a.scoring.bye != t.scoring.bye ==> TruthyNumber(a.scoring.bye))
      && (a.rounds.total != t.rounds.total ==> TruthyNumber(a.rounds.total))
  {
  }

  /** `consolation: false` cannot undo `consolation: true`. */
  lemma ConsolationNeverCleared(t: Tournament, s: Settings)
    requires t.consolation
    ensures SetOptions(t, s).after.consolation
  {
  }

  /** A settings object with nothing but an empty `rounds` group leaves the record unchanged. */
  lemma EmptySettingsKeepRecord(t: Tournament)
    ensures SetOptions(t, Settings(None, None, None, None, None, None, Some(RoundsPatch(None))))
            == SetOutcome(t, false)
  {
  }

  /**
   * Leaving `rounds` out throws, but only after every other write has been
   * made: the record is then the one an empty `rounds` group would have given.
   */
  lemma ThrowKeepsEarlierWrites(t: Tournament, s: Settings)
    requires s.rounds.None?
    ensures SetOptions(t, s).threw
    ensures SetOptions(t, s).after == SetOptions(t, s.(rounds := Some(RoundsPatch(None)))).after
  {
  }

  // ---------------------------------------------------------------------------
  // Only truthy settings values matter

  function NormalizePlayoffs(p: Option<PlayoffsPatch>): (r: Option<PlayoffsPatch>)
  {
    if p.Some? && (p.value.format.Some? || p.value.cut.Some?) then p else None
  }

  function NormalizeScoring(p: Option<ScoringPatch>): (r: Option<ScoringPatch>)
  {
    if p.None? then None
    else
      var q := ScoringPatch(
        Keep(p.value.bestOf, TruthyNumber),
        Keep(p.value.win, TruthyNumber),
        Keep(p.value.draw, TruthyNumber),
        Keep(p.value.loss, TruthyNumber),
        Keep(p.value.bye, TruthyNumber),
        p.value.tiebreaks);
      if q == ScoringPatch(None, None, None, None, None, None) then None else Some(q)
  }

  /** Settings in which every supplied value is truthy and no group is supplied empty. */
  ghost predicate OnlyTruthy(s: Settings) {
    && (s.name.Some? ==> TruthyString(s.name.value))
    && (s.consolation.Some? ==> s.consolation.value)
    && (s.playoffs.Some? ==> s.playoffs.value != PlayoffsPatch(None, None))
    && (s.scoring.Some? ==>
          var p := s.scoring.value;
          && p != ScoringPatch(None, None, None, None, None, None)
          && (p.bestOf.Some? ==> TruthyNumber(p.bestOf.value))
          && (p.win.Some? ==> TruthyNumber(p.win.value))
          && (p.draw.Some? ==> TruthyNumber(p.draw.value))
          && (p.loss.Some? ==> TruthyNumber(p.loss.value))
          && (p.bye.Some? ==> TruthyNumber(p.bye.value)))
    && (s.rounds.Some? && s.rounds.value.total.Some? ==> TruthyNumber(s.rounds.value.total.value))
  }

  /**
   * The settings with every falsy value (0, false, the empty string) and every
   * empty group dropped; `rounds` stays present when it was present.
   */
  function Normalize(s: Settings): (r: Settings)
    ensures OnlyTruthy(r)
    ensures r.rounds.Some? <==> s.rounds.Some?
    ensures OnlyTruthy(s) ==> r == s
  {
    Settings(
      Keep(s.name, TruthyString),
      s.format,
      Keep(s.consolation, TruthyBoolean),
      NormalizePlayoffs(s.playoffs),
      NormalizeScoring(s.scoring),
      s.sorting,
      if s.rounds.Some? then Some(RoundsPatch(Keep(s.rounds.value.total, TruthyNumber))) else None)
  }

  /** The setter sees only the truthy part of the settings: 0, false and "" act as if absent. */
  lemma FalsyValuesIgnored(t: Tournament, s: Settings)
    ensures SetOptions(t, Normalize(s)) == SetOptions(t, s)
  {
  }

  /** Setting the win, draw, loss or bye points to 0 has the same effect as not setting them. */
  lemma ZeroPointsIgnored(t: Tournament, s: Settings, p: ScoringPatch)
    ensures var zeroed := s.(scoring := Some(p.(win := Some(0.0), draw := Some(0.0), loss := Some(0.0), bye := Some(0.0))));
            var unset := s.(scoring := Some(p.(win := None, draw := None, loss := None, bye := None)));
            SetOptions(t, zeroed) == SetOptions(t, unset)
  {
  }

  // A tournament on which two settings objects with different truthy parts act differently.

  function OtherFormat(f: Format): Format {
    if f == Elimination then Swiss else Elimination
  }

  function OtherSorting(x: Sorting): Sorting {
    if x == Unsorted then Ascending else Unsorted
  }

  function OtherPlayoffFormat(f: PlayoffFormat): PlayoffFormat {
    if f == NoPlayoffs then SingleElimination else NoPlayoffs
  }

  function OtherCut(c: Cut): Cut {
    if c == NoCut then CutAt(ByRank, 0.0) else NoCut
  }

  function OtherTiebreaks(tb: seq<Tiebreak>): seq<Tiebreak> {
    if tb == [] then [Solkoff] else []
  }

  /** A value different from whichever of the two reads is present (the first if both are). */
  function Avoid<T>(a: Option<T>, b: Option<T>, other: T -> T, default: T): T {
    if a.Some? then other(a.value) else if b.Some? then other(b.value) else default
  }

  function PlayoffsOf(s: Settings): PlayoffsPatch {
    if s.playoffs.Some? then s.playoffs.value else PlayoffsPatch(None, None)
  }

  function ScoringOf(s: Settings): ScoringPatch {
    if s.scoring.Some? then s.scoring.value else ScoringPatch(None, None, None, None, None, None)
  }

  /** All falsy fields, and each enumerated field different from what the settings supply. */
  function Witness(s1: Settings, s2: Settings): (t: Tournament)
  {
    var p1 := PlayoffsOf(s1);
    var p2 := PlayoffsOf(s2);
    var c1 := ScoringOf(s1);
    var c2 := ScoringOf(s2);
    Tournament(
      "", "", Avoid(s1.format, s2.format, OtherFormat, Elimination), [], [], Setup, false,
      PlayoffConfig(
        Avoid(p1.format, p2.format, OtherPlayoffFormat, NoPlayoffs),
        Avoid(p1.cut, p2.cut, OtherCut, NoCut)),
      ScoringConfig(0.0, 0.0, 0.0, 0.0, 0.0, Avoid(c1.tiebreaks, c2.tiebreaks, OtherTiebreaks, [])),
      Avoid(s1.sorting, s2.sorting, OtherSorting, Unsorted),
      RoundCounter(0.0, 0.0))
  }

  /** On a record whose fields are all falsy, a truthy read and its merge determine each other. */
  lemma FalsyBaseReveals<T>(a1: Option<T>, a2: Option<T>, truthy: T -> bool, base: T)
    requires !truthy(base)
    requires Or(a1, truthy, base) == Or(a2, truthy, base)
    ensures Keep(a1, truthy) == Keep(a2, truthy)
  {
  }

  /** A base value that differs from both reads makes a merge reveal which read was present. */
  lemma AvoidingBaseReveals<T>(a1: Option<T>, a2: Option<T>, other: T -> T, default: T)
    requires forall x :: other(x) != x
    requires Or(a1, TruthyObject, Avoid(a1, a2, other, default)) == Or(a2, TruthyObject, Avoid(a1, a2, other, default))
    ensures a1 == a2
  {
  }

  /**
   * Two settings objects have the same truthy part exactly when they act alike
   * on the tournament built from them: the truthy part is exactly what the
   * setter depends on.
   */
  lemma TruthyPartDecidesOutcome(s1: Settings, s2: Settings)
    ensures Normalize(s1) == Normalize(s2) <==> SetOptions(Witness(s1, s2), s1) == SetOptions(Witness(s1, s2), s2)
  {
    FalsyValuesIgnored(Witness(s1, s2), s1);
    FalsyValuesIgnored(Witness(s1, s2), s2);
    var t := Witness(s1, s2);
    if SetOptions(t, s1) == SetOptions(t, s2) {
      var a1 := MergeFields(t, s1);
      var a2 := MergeFields(t, s2);
      assert a1 == a2 && (s1.rounds.Some? <==> s2.rounds.Some?);
      FalsyBaseReveals(s1.name, s2.name, TruthyString, t.name);
      FalsyBaseReveals(s1.consolation, s2.consolation, TruthyBoolean, t.consolation);
      AvoidingBaseReveals(s1.format, s2.format, OtherFormat, Elimination);
      AvoidingBaseReveals(s1.sorting, s2.sorting, OtherSorting, Unsorted);
      var p1, p2 := PlayoffsOf(s1), PlayoffsOf(s2);
      assert a1.playoffs == MergePlayoffs(t.playoffs, p1);
      assert a2.playoffs == MergePlayoffs(t.playoffs, p2);
      AvoidingBaseReveals(p1.format, p2.format, OtherPlayoffFormat, NoPlayoffs);
      AvoidingBaseReveals(p1.cut, p2.cut, OtherCut, NoCut);
      assert NormalizePlayoffs(s1.playoffs) == NormalizePlayoffs(s2.playoffs);
      var c1, c2 := ScoringOf(s1), ScoringOf(s2);
      assert a1.scoring == MergeScoring(t.scoring, c1);
      assert a2.scoring == MergeScoring(t.scoring, c2);
      FalsyBaseReveals(c1.bestOf, c2.bestOf, TruthyNumber, 0.0);
      FalsyBaseReveals(c1.win, c2.win, TruthyNumber, 0.0);
      FalsyBaseReveals(c1.draw, c2.draw, TruthyNumber, 0.0);
      FalsyBaseReveals(c1.loss, c2.loss, TruthyNumber, 0.0);
      FalsyBaseReveals(c1.bye, c2.bye, TruthyNumber, 0.0);
      AvoidingBaseReveals(c1.tiebreaks, c2.tiebreaks, OtherTiebreaks, []);
      assert NormalizeScoring(s1.scoring) == NormalizeScoring(s2.scoring);
      if s1.rounds.Some? {
        FalsyBaseReveals(s1.rounds.value.total, s2.rounds.value.total, TruthyNumber, 0.0);
      }
    }
  }

  // ---------------------------------------------------------------------------
  // Composition and idempotence

  function ThenPlayoffs(first: Option<PlayoffsPatch>, second: Option<PlayoffsPatch>): Option<PlayoffsPatch>
  {
    match (first, second)
    case (None, _) => second
    case (_, None) => first
    case (Some(p), Some(q)) =>
      Some(PlayoffsPatch(Later(p.format, q.format, TruthyObject), Later(p.cut, q.cut, TruthyObject)))
  }

  function ThenScoring(first: Option<ScoringPatch>, second: Option<ScoringPatch>): Option<ScoringPatch>
  {
    match (first, second)
    case (None, _) => second
    case (_, None) => first
    case (Some(p), Some(q)) =>
      Some(ScoringPatch(
        Later(p.bestOf, q.bestOf, TruthyNumber),
        Later(p.win, q.win, TruthyNumber),
        Later(p.draw, q.draw, TruthyNumber),
        Later(p.loss, q.loss, TruthyNumber),
        Later(p.bye, q.bye, TruthyNumber),
        Later(p.tiebreaks, q.tiebreaks, TruthyObject)))
  }

  /**
   * One settings object with the effect of assigning `first` and then `second`.
   * `rounds` is present exactly when `second` has it, since only the second
   * assignment's throw is visible at the end.
   */
  function Then(first: Settings, second: Settings): (r: Settings)
    ensures r.rounds.Some? <==> second.rounds.Some?
  {
    Settings(
      Later(first.name, second.name, TruthyString),
      Later(first.format, second.format, TruthyObject),
      Later(first.consolation, second.consolation, TruthyBoolean),
      ThenPlayoffs(first.playoffs, second.playoffs),
      ThenScoring(first.scoring, second.scoring),
      Later(first.sorting, second.sorting, TruthyObject),
      if second.rounds.None? then None
      else
        var earlier := if first.rounds.Some? then first.rounds.value.total else None;
        Some(RoundsPatch(Later(earlier, second.rounds.value.total, TruthyNumber))))
  }

  /**
   * Assigning `first` and then `second` is the same as assigning
   * `Then(first, second)` once, provided the second assignment does not throw
   * (a throwing second assignment keeps the round total the first one wrote,
   * which no single throwing assignment can do).
   */
  lemma SetterComposes(t: Tournament, first: Settings, second: Settings)
    requires second.rounds.Some?
    ensures SetOptions(SetOptions(t, first).after, second) == SetOptions(t, Then(first, second))
  {
  }

  /** A settings object composed with itself is itself. */
  lemma ThenSelf(s: Settings)
    ensures Then(s, s) == s
  {
  }

  /** Assigning the same settings twice gives the same outcome as assigning them once. */
  lemma SetterIdempotent(t: Tournament, s: Settings)
    ensures SetOptions(SetOptions(t, s).after, s) == SetOptions(t, s)
  {
    if s.rounds.Some? {
      // two assignments of s are one assignment of Then(s, s), which is s
      SetterComposes(t, s, s);
      ThenSelf(s);
    } else {
      // both assignments throw; each leaves the record an empty `rounds` group would
      var s' := s.(rounds := Some(RoundsPatch(None)));
      ThrowKeepsEarlierWrites(t, s);
      ThrowKeepsEarlierWrites(SetOptions(t, s).after, s);
      SetterComposes(t, s', s');
      ThenSelf(s');
    }
  }

  // ---------------------------------------------------------------------------
  // Defaults that can never be cleared

  /** The record after a series of assignments to `options`, each applied to the previous one's record. */
  function ApplyAll(t: Tournament, ss: seq<Settings>): Tournament
    decreases |ss|
  {
    if |ss| == 0 then t else ApplyAll(SetOptions(t, ss[0]).after, ss[1..])
  }

  ghost predicate NonZeroPoints(t: Tournament) {
    && TruthyNumber(t.scoring.bestOf)
    && TruthyNumber(t.scoring.win)
    && TruthyNumber(t.scoring.draw)
    && TruthyNumber(t.scoring.bye)
  }

  /**
   * Each number the setter merges with `||` on its own: once it is non-zero, no
   * series of assignments makes it 0 again, whatever the other numbers are.
   */
  lemma {:induction false} ApplyAllKeepsNonZeroPoints(t: Tournament, ss: seq<Settings>)
    ensures var a := ApplyAll(t, ss);
      && (TruthyNumber(t.scoring.bestOf) ==> TruthyNumber(a.scoring.bestOf))
      && (TruthyNumber(t.scoring.win) ==> TruthyNumber(a.scoring.win))
      && (TruthyNumber(t.scoring.draw) ==> TruthyNumber(a.scoring.draw))
      && (TruthyNumber(t.scoring.loss) ==> TruthyNumber(a.scoring.loss))
      && (TruthyNumber(t.scoring.bye) ==> TruthyNumber(a.scoring.bye))
      && (TruthyNumber(t.rounds.total) ==> TruthyNumber(a.rounds.total))
    ensures NonZeroPoints(t) ==> NonZeroPoints(ApplyAll(t, ss))
    decreases |ss|
  {
    if |ss| > 0 {
      SetterNeverFalsifies(t, ss[0]);
      ApplyAllKeepsNonZeroPoints(SetOptions(t, ss[0]).after, ss[1..]);
    }
  }

  /**
   * Whatever is later assigned to `options`, a new tournament's best-of count
   * and win, draw and bye points are never 0, and its `id`, `state`, players,
   * matches and current round stay those the constructor set.
   */
  lemma {:induction false} NewTournamentDefaultsPersist(id: string, name: string, format: Format, ss: seq<Settings>)
    ensures var t := ApplyAll(New(id, name, format), ss);
      && NonZeroPoints(t)
      && t.id == id && t.state == Setup && t.players == [] && t.matches == [] && t.rounds.current == 0.0
  {
    ApplyAllKeepsNonZeroPoints(New(id, name, format), ss);
    ApplyAllFrame(New(id, name, format), ss);
  }

  lemma {:induction false} ApplyAllFrame(t: Tournament, ss: seq<Settings>)
    ensures var a := ApplyAll(t, ss);
      a.id == t.id && a.state == t.state && a.players == t.players && a.matches == t.matches
      && a.rounds.current == t.rounds.current
    decreases |ss|
  {
    if |ss| > 0 {
      ApplyAllFrame(SetOptions(t, ss[0]).after, ss[1..]);
    }
  }

  // ---------------------------------------------------------------------------
  // The getter

  /**
   * The getter hides nothing but the players and matches: two records with the
   * same players, matches and options are the same record.
   */
  lemma OptionsDetermineTournament(t1: Tournament, t2: Tournament)
    requires t1.players == t2.players && t1.matches == t2.matches
    ensures Options(t1) == Options(t2) <==> t1 == t2
  {
  }

  /** What the setter does to the visible options depends on nothing but the visible options. */
  lemma SetterSeesOnlyOptions(t1: Tournament, t2: Tournament, s: Settings)
    requires Options(t1) == Options(t2)
    ensures Options(SetOptions(t1, s).after) == Options(SetOptions(t2, s).after)
    ensures SetOptions(t1, s).threw == SetOptions(t2, s).threw
  {
  }
}
