# Income vs. expense ledger — Dafny model

This project models the ledger state machine of the `App` component of a
single-page income/expense tracker. The ledger holds two ordered entry lists,
one for income and one for expense. Each entry has an id, a description and an
amount. The model covers:

- the derived totals: income total, expense total and net;
- adding an entry after validating the two input fields of its category;
- removing entries by id;
- clearing both lists behind a confirmation;
- loading both lists from browser storage when the component mounts;
- the save effects that write each list back to storage.

Everything is pure. The component state is an immutable `AppState` value: a
`Book` with the two lists, plus a `Draft` holding the text of each category's
description and amount fields. Each handler is a function from state to state.
The source writes every income/expense handler twice; the model writes it once
and takes a `Category` parameter.

Values the component gets from the browser are parameters of the model:

- `Date.now()` is the `now: int` argument of `AddItem`;
- the answer to `window.confirm` is the `confirmed: bool` argument of `ClearAllData`;
- `parseFloat` is a function `string -> Option<real>`, where `None` stands for `NaN`;
- `JSON.parse` is a function `string -> Option<seq<Entry>>`, where `None` means it threw;
- `JSON.stringify` is a function `seq<Entry> -> string`;
- `localStorage` is a `map<string, string>`, read and written under the keys
  `"incomeItems"` and `"expenseItems"`.

Modules:

- `Wrappers`: `Option`.
- `Text`: JavaScript's `trim`, using ECMAScript's whitespace and line-terminator code points.
- `Entries`: the `Entry` record, the total as the application's left fold, a reference
  sum, and removal by id.
- `Ledger`: the state, the add/remove/clear transitions and the net total.
- `Storage`: mount-time load, the save effects and the clear handler's key removal.
- `Scenarios`: concrete sessions.

Three behaviours of the code worth stating:

- Removal drops every entry carrying the id, not just one. Ids come from the
  clock and nothing keeps them unique, so the model never assumes uniqueness.
- The clear handler removes both storage keys. The save effects then write
  `JSON.stringify([])` under both keys again once the emptied lists render.
  So the keys end up present and holding an empty list, not absent
  (`Storage.ClearThenSave`).
- Loading falls back to the empty list only when the stored value is absent or
  empty, or when `JSON.parse` throws. Data that parses is taken as it is,
  without any schema check.

## Model

| member | source | states |
|---|---|---|
| Text.Trim | src/App.jsx:55-58 | `trim` yields the slice of the input that starts right after its leading whitespace and is followed by whitespace only; the result neither starts nor ends with whitespace |
| Text.TrimEmptyIffBlank | src/App.jsx:55 | a description trims to "" exactly when it is all whitespace, so the guard rejects blank descriptions and nothing else |
| Text.TrimIdempotent | src/App.jsx:58 | a stored description is already trimmed: trimming it again changes nothing |
| Entries.FoldAmounts | src/App.jsx:49-50 | the `reduce` fold started at any accumulator adds exactly the reference sum of the amounts to it |
| Entries.Total | src/App.jsx:49-50 | a total computed by `reduce` from 0 equals the reference sum of the amounts; the empty list totals 0 |
| Entries.SumAppend | src/App.jsx:49-50 | the sum of a concatenation of two lists is the sum of their sums |
| Entries.TotalAppendOne | src/App.jsx:49-50 | appending one entry raises the total by exactly that entry's amount |
| Entries.Without | src/App.jsx:82-89 | `filter(item => item.id !== id)` keeps an entry if and only if it was in the list and has a different id, and never lengthens the list |
| Entries.Matching | src/App.jsx:82-89 | the entries removal drops are exactly those carrying the id |
| Entries.WithoutAppend | src/App.jsx:82-89 | removal preserves relative order: filtering a concatenation is the concatenation of the filtered parts |
| Entries.WithoutIsSubsequence | src/App.jsx:82-89 | removal only leaves entries out: the kept entries occur in the original list in the same relative order |
| Entries.WithoutMatchingPartition | src/App.jsx:82-89 | kept and dropped entries together are a permutation of the original list, repeats counted |
| Entries.SumPartition | src/App.jsx:49-50 | the sum of a list is the sum of the kept entries plus the sum of the removed ones |
| Entries.WithoutIdentityIffAbsent | src/App.jsx:82-89 | removal leaves the list unchanged if and only if no entry carries the id; otherwise the list gets strictly shorter |
| Entries.WithoutFreshAppend | src/App.jsx:82-89 | appending an entry with an id no earlier entry carries and then removing that id gives back the original list |
| Entries.WithoutIdempotent | src/App.jsx:82-89 | removing an id twice equals removing it once |
| Entries.WithoutCommutes | src/App.jsx:82-89 | removals by two ids can be applied in either order |
| Ledger.Book.Total | src/App.jsx:49-50 | `totalIncome` and `totalExpense` are the reference sums of the current income and expense lists |
| Ledger.Book.Net | src/App.jsx:49-51 | the net is the income total minus the expense total, recomputed from the lists, and equals the difference of the reference sums |
| Ledger.Initial | src/App.jsx:9-14 | the component starts with both lists and all four input fields empty, so both totals and the net are 0 |
| Ledger.Accepts | src/App.jsx:55 | the add guard holds exactly when the description is not all whitespace, the amount field is non-empty, and the amount parses to a number greater than 0 |
| Ledger.NewEntry | src/App.jsx:56-60 | an accepted draft yields an entry whose description is non-empty and already trimmed and whose amount is positive |
| Ledger.AddItem | src/App.jsx:54-79 | an accepted add appends exactly one entry at the end of the category's list: id `now`, trimmed description, parsed amount. Earlier entries, the other list and the other fields are unchanged, and this category's fields become empty. A rejected add changes nothing, fields included |
| Ledger.AddRejects | src/App.jsx:55 | each guard failure alone makes the add a no-op: a blank description, an empty amount field, an unparsable (NaN) amount, or an amount not greater than 0 |
| Ledger.AddChangesIffAccepted | src/App.jsx:54-79 | an add changes the state if and only if the guard accepts the draft |
| Ledger.AddRaisesTotal | src/App.jsx:54-79 | after an accepted add, the category total rises by exactly the new amount and the other total stays; the net rises by it for income and falls by it for expense |
| Ledger.AcceptedAddAppends | src/App.jsx:54-79 | an accepted add leaves the category's list as the old list followed by the new entry |
| Ledger.RemoveUndoesAdd | src/App.jsx:54-89 | when no existing entry carries the new id, removing that id undoes an add |
| Ledger.RemoveItem | src/App.jsx:82-89 | after removal the category's list holds exactly the old entries with a different id: kept plus removed entries are a permutation of the old list, repeats counted, and the kept ones appear in their original relative order. The other list and all fields are unchanged, and the state is unchanged exactly when no entry carried the id |
| Ledger.RemoveIdempotent | src/App.jsx:82-89 | applying the same removal twice equals applying it once |
| Ledger.RemoveLowersTotal | src/App.jsx:82-89 | after a removal the category total is the old total minus the sum of the removed entries' amounts; the other total is unchanged |
| Ledger.ClearAllData | src/App.jsx:92-99 | a confirmed clear empties both lists and keeps the input fields; a declined clear changes nothing |
| Ledger.ClearZeroesTotals | src/App.jsx:92-99 | after a confirmed clear both totals and the net are 0, and clearing again changes nothing |
| Storage.GetItem | src/App.jsx:18-19 | reading a key yields a value exactly when the key is stored, and the value is the stored text |
| Storage.LoadItems | src/App.jsx:21-34 | an absent or empty stored value, or a parse failure, keeps the initial list; a successful parse replaces it with the decoded list |
| Storage.LoadReplaces | src/App.jsx:21-23 | the load calls a category's setter exactly when its stored value is present, non-empty and parses; then the list becomes the decoded value, otherwise the load keeps the list it started from |
| Storage.Mount | src/App.jsx:17-36 | after mount the fields are empty; a category whose stored value is absent, empty or unparsable has an empty list; a category whose value parses has the decoded list |
| Storage.MountIndependent | src/App.jsx:17-36 | each category's loaded list depends only on the value under its own key |
| Storage.MountUnparsable | src/App.jsx:21-26 | a stored value that does not parse loads as the empty list |
| Storage.Persist | src/App.jsx:39-46 | the save effects leave each list's serialisation under its key and every other key untouched |
| Storage.MountEffects | src/App.jsx:17-46 | once mounting settles, a key whose value was absent, empty or unparsable holds `stringify([])`, a key whose value parsed holds the serialised decoded list, and other keys are untouched |
| Storage.MountSettles | src/App.jsx:17-46 | storage after mount and its effects is exactly what the save effects write for the loaded lists |
| Storage.MountOverwritesUnparsable | src/App.jsx:21-46 | an unparsable stored value is replaced by `stringify([])` once mounting settles |
| Storage.MountAfterPersist | src/App.jsx:17-46 | round trip: when parse inverts stringify and stringify never yields "", mounting from persisted storage restores both lists in order |
| Storage.ClearStore | src/App.jsx:96-97 | a confirmed clear removes both ledger keys and leaves every other key exactly as it was, adding none; a declined one leaves storage alone |
| Storage.ClearThenSave | src/App.jsx:92-99 | after a confirmed clear and the save effects that follow it, both keys hold the serialised empty list, and the next mount loads two empty lists |
| Scenarios.SalaryBonusRent | src/App.jsx:49-79 | for any non-empty, already trimmed descriptions, income 1000 then income 200 totals 1200, and an expense of 500 then leaves a net of 700 |
| Scenarios.SessionDescriptionsTrimmed | src/App.jsx:58 | "Salary", "Bonus" and "Rent" are their own trims, so the session above applies to them |
| Scenarios.BlankDescriptionRejected | src/App.jsx:55 | a whitespace-only description is rejected and the fields keep their text |
| Scenarios.CorruptIncomeStorage | src/App.jsx:21-35 | unparsable income storage loads as an empty income list while the expense list still loads |

## Left out

- Rendering, CSS classes, `toFixed(2)` formatting and the Enter-key handler
  (src/App.jsx:101-283) are presentation. The fields' change handlers appear only
  as `AppState.WithDraft`, which the scenarios use to type into the fields.
- React's scheduling of state updates and effects is not modelled in general.
  Every transition is applied at once, and `Persist` stands for the save
  effects that run after a render. The one ordering the model spells out is
  the mount (`Storage.MountEffects`): the save effects first write
  `JSON.stringify([])` under both keys, and only a category whose stored value
  parsed is written again.
- `localStorage`, `JSON.parse` and `JSON.stringify` are parameters. Their real
  behaviour and encoding are not modelled. `MountAfterPersist` assumes the round
  trip of the two codecs instead of proving it.
- Ledger.AddItem: amounts are exact `real` numbers, not IEEE doubles. Rounding,
  `parseFloat`'s acceptance of a numeric prefix such as "12abc", and `Infinity`
  (which the source's guard accepts) are not modelled. `parseFloat`'s result is
  an opaque parameter.
- Storage.LoadItems: JSON that parses to something other than a list of
  entries is outside the model's type `seq<Entry>`. The source stores such a
  value unchecked, and later code may fail on it (for example, the `reduce`
  at src/App.jsx:49 throws on `null` or on an object).
- `console.error` logging of a failed load is not modelled.
- Id generation from the clock is not modelled: the id is an input, and ids
  are not assumed unique.
- Text.Trim: the whitespace set is the fixed list of code points in
  `Text.IsWhitespace`. It does not track later changes to the Unicode
  space-separator category.
