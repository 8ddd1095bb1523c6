/** The ledger's use of the browser's key-value storage: the mount-time load,
    the save effects that write each list whenever it changes, and the key
    removal done by the clear handler. Storage is a map from key to text;
    `JSON.parse` and `JSON.stringify` are parameters. */
module Storage {
  import opened Wrappers
  import opened Entries
  import opened Ledger

  const IncomeKey: string := "incomeItems"
  const ExpenseKey: string := "expenseItems"

  type Store = map<string, string>

  /** The storage key of a category's list. */
  function Key(c: Category): string {
    match c
    case Income => IncomeKey
    case Expense => ExpenseKey
  }

  /** `localStorage.getItem(key)`: `None` when the key is absent. */
  function GetItem(store: Store, key: string): (r: Option<string>)
    ensures r.Some? <==> key in store
    ensures r.Some? ==> r.value == store[key]
  {
    if key in store then Some(store[key]) else None
  }

  /** True when the mount effect calls the category's setter with a decoded
      list (the branch `if (saved) { setItems(JSON.parse(saved)) }` when the
      parse does not throw): the stored value is present, non-empty and
      parses. Otherwise the load leaves whatever list it started from. */
  function LoadReplaces(saved: Option<string>, parse: string -> Option<seq<Entry>>): (b: bool)
    ensures b <==> saved.Some? && saved.value != "" && parse(saved.value).Some?
    ensures b ==> forall initial :: LoadItems(saved, parse, initial) == parse(saved.value).value
    ensures !b ==> forall initial :: LoadItems(saved, parse, initial) == initial
  {
    saved.Some? && saved.value != "" && parse(saved.value).Some?
  }

  /** The load of one category at mount. `saved` is what storage holds,
      `parse` is `JSON.parse` (`None` when it throws) and `initial` is the
      list the state starts with. An absent or empty stored value and a
      failed parse keep `initial`; a successful parse replaces it with
      whatever was decoded, unchecked. */
  function LoadItems(saved: Option<string>, parse: string -> Option<seq<Entry>>, initial: seq<Entry>): (r: seq<Entry>)
    ensures saved.None? || saved.value == "" ==> r == initial
    ensures saved.Some? && saved.value != "" && parse(saved.value).None? ==> r == initial
    ensures saved.Some? && saved.value != "" && parse(saved.value).Some? ==> r == parse(saved.value).value
  {
    match saved
    case None => initial
    case Some(text) =>
      if text == "" then initial
      else match parse(text)
        case None => initial
        case Some(items) => items
  }

  /** The state after the mount effect: each list loaded from its own key
      on top of the initial empty state; the input fields stay empty. */
  function Mount(store: Store, parse: string -> Option<seq<Entry>>): (r: AppState)
    ensures r.incomeDraft == EmptyDraft && r.expenseDraft == EmptyDraft
    ensures forall c: Category :: !LoadReplaces(GetItem(store, Key(c)), parse) ==> r.Items(c) == []
    ensures forall c: Category :: LoadReplaces(GetItem(store, Key(c)), parse)
              ==> r.Items(c) == parse(store[Key(c)]).value
  {
    var income := LoadItems(GetItem(store, IncomeKey), parse, Initial().Items(Income));
    var expense := LoadItems(GetItem(store, ExpenseKey), parse, Initial().Items(Expense));
    AppState(Book(income, expense), Initial().incomeDraft, Initial().expenseDraft)
  }

  /** Each category is loaded independently: what one list becomes depends
      only on the value stored under its own key. */
  lemma MountIndependent(a: Store, b: Store, parse: string -> Option<seq<Entry>>, c: Category)
    requires GetItem(a, Key(c)) == GetItem(b, Key(c))
    ensures Mount(a, parse).Items(c) == Mount(b, parse).Items(c)
  {
  }

  /** The save effects: storage holds `stringify` of each current list under
      its key; every other key is left alone. */
  function Persist(store: Store, book: Book, stringify: seq<Entry> -> string): (r: Store)
    ensures forall c: Category :: GetItem(r, Key(c)) == Some(stringify(book.Items(c)))
    ensures forall k :: k != IncomeKey && k != ExpenseKey ==> GetItem(r, k) == GetItem(store, k)
  {
    store[IncomeKey := stringify(book.income)][ExpenseKey := stringify(book.expense)]
  }

  /** Storage once mounting has settled. The load effect reads both keys
      first. The save effects of the same commit then see the initial empty
      lists and write `stringify([])` under both keys. Only a category whose
      setter the load effect called renders again with a new list, and its
      save effect then writes that list. A category whose value was absent,
      empty or unparsable keeps the `stringify([])` just written. */
  function MountEffects(store: Store, parse: string -> Option<seq<Entry>>, stringify: seq<Entry> -> string): (r: Store)
    ensures forall c: Category :: !LoadReplaces(GetItem(store, Key(c)), parse)
              ==> GetItem(r, Key(c)) == Some(stringify([]))
    ensures forall c: Category :: LoadReplaces(GetItem(store, Key(c)), parse)
              ==> GetItem(r, Key(c)) == Some(stringify(parse(store[Key(c)]).value))
    ensures forall k :: k != IncomeKey && k != ExpenseKey ==> GetItem(r, k) == GetItem(store, k)
  {
    var loaded := Mount(store, parse);
    var first := Persist(store, Initial().book, stringify);
    var afterIncome :=
      if LoadReplaces(GetItem(store, IncomeKey), parse)
      then first[IncomeKey := stringify(loaded.Items(Income))] else first;
    if LoadReplaces(GetItem(store, ExpenseKey), parse)
    then afterIncome[ExpenseKey := stringify(loaded.Items(Expense))] else afterIncome
  }

  /** After mounting settles, storage holds exactly the serialisation of the
      lists the component ended up with, as if the save effects had run once
      on the loaded state. */
  lemma MountSettles(store: Store, parse: string -> Option<seq<Entry>>, stringify: seq<Entry> -> string)
    ensures MountEffects(store, parse, stringify) == Persist(store, Mount(store, parse).book, stringify)
  {
  }

  /** A stored value that does not parse does not survive the mount: the
      save effects replace it with `stringify([])`. */
  lemma MountOverwritesUnparsable(store: Store, parse: string -> Option<seq<Entry>>,
                                  stringify: seq<Entry> -> string, c: Category)
    requires Key(c) in store && parse(store[Key(c)]).None?
    ensures GetItem(MountEffects(store, parse, stringify), Key(c)) == Some(stringify([]))
  {
  }

  /** Round trip: if `parse` decodes what `stringify` writes for each list,
      and `stringify` never writes "", then mounting from the persisted
      storage gives back the same lists, in the same order. */
  lemma MountAfterPersist(store: Store, book: Book, stringify: seq<Entry> -> string, parse: string -> Option<seq<Entry>>)
    requires stringify(book.income) != "" && parse(stringify(book.income)) == Some(book.income)
    requires stringify(book.expense) != "" && parse(stringify(book.expense)) == Some(book.expense)
    ensures Mount(Persist(store, book, stringify), parse).book == book
  {
    var p := Persist(store, book, stringify);
    assert GetItem(p, Key(Income)) == Some(stringify(book.income));
    assert GetItem(p, Key(Expense)) == Some(stringify(book.expense));
  }

  /** A value that does not parse loads as the empty list, however the other
      key fares. */
  lemma MountUnparsable(store: Store, parse: string -> Option<seq<Entry>>, c: Category)
    requires Key(c) in store && parse(store[Key(c)]).None?
    ensures Mount(store, parse).Items(c) == []
  {
  }

  /** The storage half of `clearAllData`: a confirmed clear removes both keys,
      a declined one leaves storage alone. */
  function ClearStore(store: Store, confirmed: bool): (r: Store)
    ensures confirmed ==> IncomeKey !in r && ExpenseKey !in r
    ensures confirmed ==> forall k :: k != IncomeKey && k != ExpenseKey ==> GetItem(r, k) == GetItem(store, k)
    ensures !confirmed ==> r == store
  {
    if confirmed then store - {IncomeKey, ExpenseKey} else store
  }

  /** The removed keys do not stay removed: once the emptied lists render,
      the save effects write `stringify([])` under both keys again. The
      next mount then loads two empty lists when `parse` decodes that text. */
  lemma ClearThenSave(s: AppState, store: Store, stringify: seq<Entry> -> string, parse: string -> Option<seq<Entry>>)
    requires parse(stringify([])) == Some([])
    ensures var r := ClearAllData(s, true);
            var saved := Persist(ClearStore(store, true), r.book, stringify);
            && GetItem(saved, IncomeKey) == Some(stringify([]))
            && GetItem(saved, ExpenseKey) == Some(stringify([]))
            && Mount(saved, parse).book == Book([], [])
  {
    var r := ClearAllData(s, true);
    var saved := Persist(ClearStore(store, true), r.book, stringify);
    assert GetItem(saved, Key(Income)) == Some(stringify([]));
    assert GetItem(saved, Key(Expense)) == Some(stringify([]));
  }
}
