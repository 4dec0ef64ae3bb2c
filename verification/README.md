# tournament-organizer: configuration record and event manager

A Dafny model of two pieces of deterministic logic in the TypeScript library
tournament-organizer:

- **The tournament configuration record** (`src/Tournament.ts`). The
  constructor fills in defaults that depend on the format. The `options` getter
  reads the private fields back. The `options` setter merges a sparse settings
  object into the record with JavaScript's `settings.x || this.#x`, so a field
  changes only when the supplied value is truthy. The record is an immutable
  datatype (`TournamentConfig.Tournament`). The setter is the pure function
  `TournamentConfig.SetOptions`. Absent properties are `None`. Truthiness is
  spelled out in module `Js`:
  - 0 is the only falsy number.
  - The empty string is the only falsy string.
  - `false` is the only falsy boolean.
  - Objects, arrays and the enumeration strings are always truthy.
- **The event manager** (`src/Manager.ts`). It keeps a list of tournaments keyed
  by id.
  - `newTournament` rejects a supplied id that is already registered. Otherwise
    it re-draws random ids until one is fresh, fills in the default name and
    format, and dispatches the format to a structure variant with a `double`
    flag. It appends the tournament and returns it.
  - `deleteTournament` finds the first entry with the id. It marks the entry
    `aborted` unless it is `finished`, removes it, and returns it.

  The manager is a `seq` of entries (module `Registry`). Its invariant is that
  ids are pairwise distinct. Both operations preserve it, and so does every
  series of calls from an empty manager.

Files:

- `wrappers.dfy`: the `Option` and `Result` datatypes.
- `js.dfy`: truthiness and the `||` merge.
- `tournament.dfy` and `tournament_lemmas.dfy`: `src/Tournament.ts`.
- `registry.dfy` and `registry_lemmas.dfy`: `src/Manager.ts`.

Behaviour of the code that the model reproduces as written:

- The setter treats 0, `false` and `""` as "not supplied":
  - setting the win, draw, loss or bye points, the best-of count or the round
    total to 0 has no effect;
  - `consolation: false` never clears `consolation: true`;
  - an empty name never replaces a name.
- An empty `tiebreaks` array is truthy, so it does replace the tiebreak list.
- The setter reads `settings.rounds.total` last. When `rounds` is absent, it
  throws a TypeError after all the other fields have already been written.
  `SetOutcome` records both the record afterwards and the throw.
- `Object.assign(defaults, opt)` lets every supplied property win. A `double`
  property supplied together with a single format is therefore passed on
  unchanged. For the two double formats, a supplied `double` overrides the
  `double: true` the dispatch adds.
- The truthy merge is kept as written, not redesigned into a validated patch
  that would accept 0 and `false`; its consequences are proved instead.

## Model

| member | source | states |
|---|---|---|
| `Js.Or` | src/Tournament.ts:185-201 | JavaScript's `or` on a property read: the read value when present and truthy, otherwise the old value |
| `TournamentConfig.DefaultTiebreaks` | src/Tournament.ts:90 | swiss gets solkoff then cumulative, round-robin gets sonneborn berger then versus, and the list is empty exactly for elimination |
| `TournamentConfig.New` | src/Tournament.ts:72-97 | a new tournament is in `setup` with no players or matches, rounds 0/0, no consolation and playoffs none/none; scoring is best-of 1, win 1, draw 0.5, loss 0, bye 1, with the format's default tiebreaks; sorting is none |
| `TournamentConfig.Options` | src/Tournament.ts:137-147 | the getter reports each private field's current value |
| `TournamentConfig.SetOptions` | src/Tournament.ts:185-201 | throws exactly when `rounds` is absent; never changes id, state, players, matches or the current round; a throw leaves the round counter as it was; an absent `playoffs` or `scoring` group leaves all of that group's sub-fields unchanged |
| `TournamentConfigLemmas.SetterFieldwise` | src/Tournament.ts:185-201 | each settable field, sub-fields included, takes the supplied value if it is truthy and otherwise keeps its old value |
| `TournamentConfigLemmas.SetterNeverFalsifies` | src/Tournament.ts:185-201 | no assignment turns a truthy field falsy, and every field that changes receives a truthy value |
| `TournamentConfigLemmas.ConsolationNeverCleared` | src/Tournament.ts:187 | once `consolation` is true, no assignment makes it false |
| `TournamentConfigLemmas.EmptySettingsKeepRecord` | src/Tournament.ts:185-201 | settings holding only an empty `rounds` group change nothing and do not throw |
| `TournamentConfigLemmas.ThrowKeepsEarlierWrites` | src/Tournament.ts:185-201 | with `rounds` absent the setter throws, yet it has made every write an empty `rounds` group would have allowed |
| `TournamentConfigLemmas.Normalize` | src/Tournament.ts:185-201 | the truthy part of a settings object contains only truthy values, keeps `rounds` present exactly when it was present, and leaves a settings object that is already truthy unchanged |
| `TournamentConfigLemmas.FalsyValuesIgnored` | src/Tournament.ts:185-201 | the setter's outcome depends only on the truthy part of the settings: 0, false and "" act as if absent |
| `TournamentConfigLemmas.ZeroPointsIgnored` | src/Tournament.ts:194-197 | setting win, draw, loss and bye to 0 has the same outcome as not setting them |
| `TournamentConfigLemmas.TruthyPartDecidesOutcome` | src/Tournament.ts:185-201 | two settings objects have equal truthy parts if and only if they have the same outcome on a tournament built from them, so the truthy part is exactly what the setter depends on |
| `TournamentConfigLemmas.SetterComposes` | src/Tournament.ts:185-201 | when the second assignment does not throw, two successive assignments equal one assignment of their composition, and later truthy values win |
| `TournamentConfigLemmas.ThenSelf` | src/Tournament.ts:185-201 | a settings object composed with itself is itself |
| `TournamentConfigLemmas.SetterIdempotent` | src/Tournament.ts:185-201 | assigning the same settings twice gives the same record and throw as assigning them once |
| `TournamentConfigLemmas.ApplyAllKeepsNonZeroPoints` | src/Tournament.ts:193-201 | across any series of assignments, each of the best-of, win, draw, loss and bye values and the round total, once non-zero, stays non-zero on its own, whatever the others are; so when best-of, win, draw and bye are all non-zero they all stay so |
| `TournamentConfigLemmas.ApplyAllFrame` | src/Tournament.ts:185-201 | no series of assignments changes id, state, players, matches or the current round |
| `TournamentConfigLemmas.NewTournamentDefaultsPersist` | src/Tournament.ts:84-96 | after construction and any series of assignments, the best-of, win, draw and bye values are never 0, and id, `setup` state, empty players and matches, and current round 0 are as constructed |
| `TournamentConfigLemmas.OptionsDetermineTournament` | src/Tournament.ts:137-147 | the getter hides only players and matches: with those equal, two records are equal exactly when their options are |
| `TournamentConfigLemmas.SetterSeesOnlyOptions` | src/Tournament.ts:185-201 | the setter's effect on the visible options, and whether it throws, depend only on the visible options |
| `Registry.Init` | src/Manager.ts:9-11 | a new manager holds no tournaments, so no id is registered and the invariant holds |
| `Registry.FirstFreshFrom` | src/Manager.ts:38-41 | the retry loop stops at the first draw that is not registered, and every earlier draw is registered |
| `Registry.VariantOf` | src/Manager.ts:45-67 | swiss goes to the Swiss structure, both elimination formats to Elimination, and both round-robin formats to RoundRobin |
| `Registry.DoubleFlag` | src/Manager.ts:36-64 | the double formats carry `double`, which is true unless the options already had a `double`; the other formats pass on the options' `double` unchanged |
| `Registry.NewTournament` | src/Manager.ts:18-73 | fails exactly when a supplied id is already registered; on success the list grows by the returned tournament, appended at the end. The new id is the supplied one, or else the first fresh draw, so it is unregistered and distinct ids stay distinct. Name and format default to 'New Tournament' and 'single elimination' |
| `Registry.FindIndexFrom` | src/Manager.ts:92 | finds the first position holding the id, or reports that no position does |
| `Registry.Abort` | src/Manager.ts:99 | the status becomes `aborted` unless it is `finished`, and nothing else changes |
| `Registry.DeleteTournament` | src/Manager.ts:89-104 | fails exactly when the id is unknown. Otherwise it removes the first entry with the id, keeps the others in order, shrinks the list by one and returns the removed entry aborted unless finished; distinct ids stay distinct and the id is then gone |
| `Registry.RemovePreservesValid` | src/Manager.ts:102 | removing one entry from a list with distinct ids keeps them distinct and removes that entry's id |
| `RegistryLemmas.DispatchRoundTrip` | src/Manager.ts:45-67 | without a supplied `double`, only the double formats carry the flag, and the format can be read back from the variant and the flag |
| `RegistryLemmas.DeleteUndoesNew` | src/Manager.ts:70-103 | deleting the tournament just created restores the previous list and returns that tournament, aborted |
| `RegistryLemmas.CreatedIdIsTaken` | src/Manager.ts:21-23 | after creation the id is registered, and creating again with that id is rejected |
| `RegistryLemmas.DeleteTwiceFails` | src/Manager.ts:92-95 | when ids are distinct, a second deletion of the same id fails with not-found |
| `RegistryLemmas.RunPreservesValid` | src/Manager.ts:21-102 | any series of create and delete calls keeps the ids pairwise distinct |
| `RegistryLemmas.ReachableManagersHaveDistinctIds` | src/Manager.ts:9-102 | starting from a new manager, no series of calls ever registers two tournaments with the same id |

## Left out

- Random id generation (`cryptoRandomString`, src/Manager.ts:30,40): the
  successive results are the parameter `draws`. The loop terminates only if
  some draw is fresh, so `NewTournament` requires a supplied id or a fresh draw.
- The Elimination, Swiss and RoundRobin constructors, `Structure` and
  `BasicTournamentProperties` are not part of this model. An entry records the
  variant chosen, the id, name, format and `double` taken from the options, and
  a status. A new entry's status is `Unfinished` because their constructors are
  not available.
- Any other own property of `opt` is not modelled. `Object.assign` copies every
  such property into the options (src/Manager.ts:36) and passes it on to the
  structure constructors (src/Manager.ts:47-65).
- `loadTournament` (src/Manager.ts:80-82) has an empty body and is not modelled.
- `Player` and `Match` (src/Player.js, src/Match.js) are not part of this model.
  Players and matches are opaque handles that the setter never touches.
- Pairing, standings, tiebreak computation and lifecycle transitions are not in
  the two source files and are not modelled.
- Object aliasing and sharing. A value model cannot express a later mutation
  through a shared object, so none of the following is modelled:
  - The getter returns the live `#playoffs`, `#scoring` and `#rounds` objects
    (src/Tournament.ts:143-146).
  - The setter keeps the caller's own `tiebreaks` array and `cut` object
    (src/Tournament.ts:190,198).
  - The manager stores and returns the same tournament object
    (src/Manager.ts:70-72), and `deleteTournament` changes `status` on an object
    the caller may still hold (src/Manager.ts:99).
- RegistryLemmas.RunPreservesValid and RegistryLemmas.ReachableManagersHaveDistinctIds
  hold only for series of manager calls. Because of the sharing above, a caller
  who writes `id` on a tournament it was returned can still make two entries
  share an id in the real program.
- Numbers are `real` and NaN is not modelled, so 0 is the only falsy number.
- Values outside the declared TypeScript types are not modelled:
  - a format string outside the union (the `switch` would push `undefined`);
  - a `playoffs` or `scoring` property present but `undefined`;
  - an own property set to `undefined`, which `Object.assign` would copy.
- `newTournament()` with no argument throws at `opt.hasOwnProperty`
  (src/Manager.ts:21). The model always takes an options value, which may be
  empty.
- Throws and failures: a failed registry call returns `Failure` without a
  manager, so the caller's manager is unchanged. In `RegistryLemmas.Run`, a call
  that throws leaves the manager as it was.
- TournamentConfigLemmas.SetterComposes: stated only when the second assignment
  does not throw. A throwing second assignment keeps the round total that the
  first one wrote, and no single throwing assignment can reproduce that.
