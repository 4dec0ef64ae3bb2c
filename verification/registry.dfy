/**
 * The event manager (src/Manager.ts): a list of tournaments keyed by id, with
 * creation (duplicate rejection, random id retry, defaults, format dispatch)
 * and deletion (lookup, abort unless finished, removal).
 *
 * The constructors of the Elimination, Swiss and RoundRobin structures are not
 * part of this model: an entry records which variant was constructed, and the
 * id, name, format and `double` taken from the options it was given.
 */
module Registry {
  import opened Wrappers

  /** The format strings `newTournament` accepts. */
  datatype Format = SingleElimination | DoubleElimination | Swiss | RoundRobin | DoubleRoundRobin

  /** The structure class a format is dispatched to. */
  datatype Variant = EliminationStructure | SwissStructure | RoundRobinStructure

  /**
   * The status of a managed tournament as far as the manager inspects it:
   * 'finished', 'aborted', or any other value.
   */
  datatype Status = Finished | Aborted | Unfinished

  /** One managed tournament. */
  datatype Entry = Entry(
    id: string,
    name: string,
    format: Format,
    variant: Variant,
    double: Option<bool>,
    status: Status)

  /**
   * The id, name, format and `double` properties of the options object given to
   * `newTournament`, each `None` when the object does not have it.
   */
  datatype NewOptions = NewOptions(
    id: Option<string>,
    name: Option<string>,
    format: Option<Format>,
    double: Option<bool>)

  datatype Manager = Manager(tournaments: seq<Entry>)

  datatype Error = DuplicateId(id: string) | NotFound(id: string)

  /** A successful call: the manager afterwards and the tournament the call returns. */
  datatype Step = Step(manager: Manager, tournament: Entry)

  const DefaultName: string := "New Tournament"

  const DefaultFormat: Format := SingleElimination

  /** Some managed tournament has the id. */
  predicate Has(m: Manager, id: string) {
    exists i :: 0 <= i < |m.tournaments| && m.tournaments[i].id == id
  }

  /** The manager's invariant: no two tournaments share an id. */
  ghost predicate Valid(m: Manager) {
    forall i, j :: 0 <= i < j < |m.tournaments| ==> m.tournaments[i].id != m.tournaments[j].id
  }

  /** `new Manager()`. */
  function Init(): (m: Manager)
    ensures |m.tournaments| == 0
    ensures Valid(m)
    ensures forall id :: !Has(m, id)
  {
    Manager([])
  }

  // ---------------------------------------------------------------------------
  // Creation

  /**
   * The position of the id the retry loop settles on. `draws` are the values
   * `cryptoRandomString` returns, in order, from the position `i` on; the loop
   * stops at the first one not yet registered.
   */
  function FirstFreshFrom(m: Manager, draws: seq<string>, i: nat): (k: nat)
    requires exists k :: i <= k < |draws| && !Has(m, draws[k])
    ensures i <= k < |draws| && !Has(m, draws[k])
    ensures forall j :: i <= j < k ==> Has(m, draws[j])
    decreases |draws| - i
  {
    if !Has(m, draws[i]) then i
    else
      assert exists k :: i + 1 <= k < |draws| && !Has(m, draws[k]);
      FirstFreshFrom(m, draws, i + 1)
  }

  /** The structure class the `switch` on the format constructs. */
  function VariantOf(format: Format): (v: Variant)
    ensures v == SwissStructure <==> format == Swiss
    ensures v == EliminationStructure <==> format in {SingleElimination, DoubleElimination}
    ensures v == RoundRobinStructure <==> format in {RoundRobin, DoubleRoundRobin}
  {
    match format
    case SingleElimination => EliminationStructure
    case DoubleElimination => EliminationStructure
    case Swiss => SwissStructure
    case RoundRobin => RoundRobinStructure
    case DoubleRoundRobin => RoundRobinStructure
  }

  /**
   * The `double` flag the constructed structure receives. The two double
   * formats add `double: true` underneath the options, so a `double` the
   * options already carry wins. Other formats pass on whatever `double` the
   * options carry.
   */
  function DoubleFlag(format: Format, supplied: Option<bool>): (d: Option<bool>)
    ensures format in {DoubleElimination, DoubleRoundRobin} ==> d == Some(supplied.GetOr(true))
    ensures format !in {DoubleElimination, DoubleRoundRobin} ==> d == supplied
  {
    if format == DoubleElimination || format == DoubleRoundRobin then
      Some(if supplied.Some? then supplied.value else true)
    else
      supplied
  }

  /**
   * `newTournament(opt)`. `draws` stands for the successive results of
   * `cryptoRandomString`: the first is the default id, the rest are the retries.
   * Unless an id is supplied, some draw must be fresh, or the retry loop would
   * never end.
   */
  function NewTournament(m: Manager, opt: NewOptions, draws: seq<string>): (r: Result<Step, Error>)
    requires opt.id.Some? || exists k :: 0 <= k < |draws| && !Has(m, draws[k])
    // a supplied id that is already registered is rejected
    ensures r.Failure? <==> opt.id.Some? && Has(m, opt.id.value)
    ensures r.Failure? ==> r.error == DuplicateId(opt.id.value)
    // the new tournament is appended at the end, the others are untouched
    ensures r.Success? ==> r.value.manager.tournaments == m.tournaments + [r.value.tournament]
    // its id is fresh: the supplied one, or else the first unregistered draw
    ensures r.Success? ==> !Has(m, r.value.tournament.id)
    ensures r.Success? && opt.id.Some? ==> r.value.tournament.id == opt.id.value
    ensures r.Success? && opt.id.None? ==>
      exists k :: 0 <= k < |draws| && r.value.tournament.id == draws[k]
               && forall j :: 0 <= j < k ==> Has(m, draws[j])
    // the invariant is preserved
    ensures r.Success? && Valid(m) ==> Valid(r.value.manager)
    // defaults, overridden by what is supplied
    ensures r.Success? ==> r.value.tournament.name == opt.name.GetOr(DefaultName)
    ensures r.Success? ==> r.value.tournament.format == opt.format.GetOr(DefaultFormat)
    ensures r.Success? ==> r.value.tournament.status == Unfinished
    // format dispatch
    ensures r.Success? ==> r.value.tournament.variant == VariantOf(r.value.tournament.format)
    ensures r.Success? ==> r.value.tournament.double == DoubleFlag(r.value.tournament.format, opt.double)
  {
    if opt.id.Some? && Has(m, opt.id.value) then
      Failure(DuplicateId(opt.id.value))
    else
      var id := if opt.id.Some? then opt.id.value else draws[FirstFreshFrom(m, draws, 0)];
      var format := opt.format.GetOr(DefaultFormat);
      var e := Entry(id, opt.name.GetOr(DefaultName), format, VariantOf(format), DoubleFlag(format, opt.double), Unfinished);
      var m' := Manager(m.tournaments + [e]);
      assert forall i :: 0 <= i < |m.tournaments| ==> m'.tournaments[i] == m.tournaments[i];
      Success(Step(m', e))
  }

  // ---------------------------------------------------------------------------
  // Deletion

  /**
   * The first position at or after `from` whose entry has the id, or `None`
   * when there is none (where the lookup in `deleteTournament` gives -1).
   */
  function FindIndexFrom(ts: seq<Entry>, id: string, from: nat): (r: Option<nat>)
    requires from <= |ts|
    ensures r.Some? ==> from <= r.value < |ts| && ts[r.value].id == id
    ensures r.Some? ==> forall j :: from <= j < r.value ==> ts[j].id != id
    ensures r.None? ==> forall j :: from <= j < |ts| ==> ts[j].id != id
    decreases |ts| - from
  {
    if from == |ts| then None
    else if ts[from].id == id then Some(from)
    else FindIndexFrom(ts, id, from + 1)
  }

  /** The entry marked aborted, unless it had already finished; nothing else about it changes. */
  function Abort(e: Entry): (r: Entry)
    ensures r.status == Finished <==> e.status == Finished
    ensures r.status != Finished ==> r.status == Aborted
    ensures r.(status := e.status) == e
  {
    if e.status != Finished then e.(status := Aborted) else e
  }

  /**
   * `s` is what deleting `id` from `m` should give: the first entry with the id
   * removed, the others in their order, and that entry returned, aborted unless
   * it was finished.
   */
  ghost predicate RemovesFirst(m: Manager, id: string, i: nat, s: Step) {
    && i < |m.tournaments|
    && m.tournaments[i].id == id
    && (forall j :: 0 <= j < i ==> m.tournaments[j].id != id)
    && s.manager.tournaments == m.tournaments[..i] + m.tournaments[i + 1..]
    && s.tournament == Abort(m.tournaments[i])
  }

  /** `deleteTournament(id)`. */
  function DeleteTournament(m: Manager, id: string): (r: Result<Step, Error>)
    // an unknown id is rejected
    ensures r.Failure? <==> !Has(m, id)
    ensures r.Failure? ==> r.error == NotFound(id)
    // the first entry with the id is removed, the rest keep their order
    ensures r.Success? ==> exists i :: RemovesFirst(m, id, i, r.value)
    ensures r.Success? ==> |r.value.manager.tournaments| == |m.tournaments| - 1
    // the invariant is preserved, and with it the id is gone
    ensures r.Success? && Valid(m) ==> Valid(r.value.manager) && !Has(r.value.manager, id)
  {
    var ts := m.tournaments;
    var index := FindIndexFrom(ts, id, 0);
    if index.None? then
      Failure(NotFound(id))
    else
      var i := index.value;
      var m' := Manager(ts[..i] + ts[i + 1..]);
      RemovePreservesValid(m, i);
      var r := Success(Step(m', Abort(ts[i])));
      assert RemovesFirst(m, id, i, r.value);
      r
  }

  /** Removing one entry keeps the others' ids distinct and removes its id with it. */
  lemma RemovePreservesValid(m: Manager, i: nat)
    requires i < |m.tournaments|
    ensures var m' := Manager(m.tournaments[..i] + m.tournaments[i + 1..]);
      Valid(m) ==> Valid(m') && !Has(m', m.tournaments[i].id)
  {
    var ts := m.tournaments;
    var rest := ts[..i] + ts[i + 1..];
    // position k of the rest is position k or k + 1 of the original
    assert forall k :: 0 <= k < |rest| ==> rest[k] == ts[if k < i then k else k + 1];
  }
}
