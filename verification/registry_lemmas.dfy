/**
 * Properties of the event manager that relate several calls: deletion undoes
 * creation, a registered id cannot be registered again, the format dispatch can
 * be read back, and every reachable manager keeps its ids distinct.
 */
module RegistryLemmas {
  import opened Wrappers
  import opened Registry

  /** The format a variant and `double` flag were dispatched from, when no `double` was supplied. */
  function FormatOf(v: Variant, double: Option<bool>): Format {
    match v
    case SwissStructure => Swiss
    case EliminationStructure => if double == Some(true) then DoubleElimination else SingleElimination
    case RoundRobinStructure => if double == Some(true) then DoubleRoundRobin else RoundRobin
  }

  /**
   * Without a supplied `double`, the dispatch loses nothing: the double formats
   * carry `double: true`, the single ones carry no flag, and the format can be
   * read back from the variant and the flag.
   */
  lemma DispatchRoundTrip(format: Format)
    ensures FormatOf(VariantOf(format), DoubleFlag(format, None)) == format
    ensures DoubleFlag(format, None).Some? <==> format in {DoubleElimination, DoubleRoundRobin}
  {
  }

  /** Deleting the tournament just created gives back the manager as it was, and the created tournament, aborted. */
  lemma DeleteUndoesNew(m: Manager, opt: NewOptions, draws: seq<string>)
    requires opt.id.Some? || exists k :: 0 <= k < |draws| && !Has(m, draws[k])
    requires NewTournament(m, opt, draws).Success?
    ensures var step := NewTournament(m, opt, draws).value;
      DeleteTournament(step.manager, step.tournament.id) == Success(Step(m, Abort(step.tournament)))
  {
    var step := NewTournament(m, opt, draws).value;
    var ts := step.manager.tournaments;
    var e := step.tournament;
    var n := |m.tournaments|;
    assert ts[n] == e;
    // the only entry with the new id is the last one
    assert forall j :: 0 <= j < n ==> ts[j].id != e.id by {
      forall j | 0 <= j < n
        ensures ts[j].id != e.id
      {
        assert ts[j] == m.tournaments[j];
      }
    }
    var r := DeleteTournament(step.manager, e.id);
    var i :| RemovesFirst(step.manager, e.id, i, r.value);
    assert i == n;
    assert ts[..n] + ts[n + 1..] == m.tournaments;
    assert r.value == Step(m, Abort(e));
  }

  /** Once created, a tournament's id is registered, and supplying it again is rejected. */
  lemma CreatedIdIsTaken(m: Manager, opt: NewOptions, draws: seq<string>, again: NewOptions, draws': seq<string>)
    requires opt.id.Some? || exists k :: 0 <= k < |draws| && !Has(m, draws[k])
    requires NewTournament(m, opt, draws).Success?
    requires again.id == Some(NewTournament(m, opt, draws).value.tournament.id)
    ensures Has(NewTournament(m, opt, draws).value.manager, again.id.value)
    ensures NewTournament(NewTournament(m, opt, draws).value.manager, again, draws').Failure?
  {
    var step := NewTournament(m, opt, draws).value;
    assert step.manager.tournaments[|m.tournaments|] == step.tournament;
  }

  /** In a manager whose ids are distinct, a deleted id is gone: deleting it again is rejected. */
  lemma DeleteTwiceFails(m: Manager, id: string)
    requires Valid(m)
    requires DeleteTournament(m, id).Success?
    ensures DeleteTournament(DeleteTournament(m, id).value.manager, id) == Failure(NotFound(id))
  {
  }

  // ---------------------------------------------------------------------------
  // Every reachable manager keeps its ids distinct

  /** A call on the manager; a `NewCall` carries the values `cryptoRandomString` would return. */
  datatype Call = NewCall(opt: NewOptions, draws: seq<string>) | DeleteCall(id: string)

  /**
   * The manager after a series of calls, each on the previous one's result. A
   * call that throws leaves the manager as it was. `None` when some creation's
   * retry loop would never end, because none of its draws is fresh.
   */
  function Run(m: Manager, calls: seq<Call>): Option<Manager>
    decreases |calls|
  {
    if |calls| == 0 then Some(m)
    else
      match calls[0]
      case NewCall(opt, draws) =>
        if !(opt.id.Some? || exists k :: 0 <= k < |draws| && !Has(m, draws[k])) then None
        else
          var r := NewTournament(m, opt, draws);
          Run(if r.Success? then r.value.manager else m, calls[1..])
      case DeleteCall(id) =>
        var r := DeleteTournament(m, id);
        Run(if r.Success? then r.value.manager else m, calls[1..])
  }

  lemma {:induction false} RunPreservesValid(m: Manager, calls: seq<Call>)
    requires Valid(m)
    requires Run(m, calls).Some?
    ensures Valid(Run(m, calls).value)
    decreases |calls|
  {
    if |calls| > 0 {
      match calls[0]
      case NewCall(opt, draws) =>
        var r := NewTournament(m, opt, draws);
        RunPreservesValid(if r.Success? then r.value.manager else m, calls[1..]);
      case DeleteCall(id) =>
        var r := DeleteTournament(m, id);
        RunPreservesValid(if r.Success? then r.value.manager else m, calls[1..]);
    }
  }

  /** Starting from `new Manager()`, no series of calls ever registers two tournaments with one id. */
  lemma ReachableManagersHaveDistinctIds(calls: seq<Call>)
    requires Run(Init(), calls).Some?
    ensures var m := Run(Init(), calls).value;
      forall i, j :: 0 <= i < j < |m.tournaments| ==> m.tournaments[i].id != m.tournaments[j].id
  {
    RunPreservesValid(Init(), calls);
  }
}
