/** The state machine of the `App` component: two ordered entry lists, the
    text typed into each category's two input fields, the derived totals,
    and the add, remove and clear transitions. */
module Ledger {
  import opened Wrappers
  import opened Text
  import opened Entries

  datatype Category = Income | Expense {
    function Other(): (r: Category)
      ensures r != this
    {
      match this
      case Income => Expense
      case Expense => Income
    }
  }

  /** The two persisted lists. Each is kept in insertion order. */
  datatype Book = Book(income: seq<Entry>, expense: seq<Entry>) {

    function Items(c: Category): seq<Entry> {
      match c
      case Income => income
      case Expense => expense
    }

    /** This book with the list of category `c` replaced by `items`. */
    function WithItems(c: Category, items: seq<Entry>): (r: Book)
      ensures r.Items(c) == items
      ensures r.Items(c.Other()) == Items(c.Other())
    {
      match c
      case Income => Book(items, expense)
      case Expense => Book(income, items)
    }

    /** `totalIncome` or `totalExpense`, recomputed from the list itself:
        the reference sum of that category's amounts. */
    function Total(c: Category): (r: real)
      ensures r == Sum(Items(c))
    {
      Entries.Total(Items(c))
    }

    /** `netTotal`: the income total minus the expense total, computed from
        the current lists; it agrees with the difference of the reference
        sums. */
    function Net(): (r: real)
      ensures r == Sum(income) - Sum(expense)
    {
      Total(Income) - Total(Expense)
    }
  }

  /** The text of a category's description and amount input fields. */
  datatype Draft = Draft(description: string, amount: string)

  const EmptyDraft := Draft("", "")

  /** The component's whole state: the book and both categories' drafts. */
  datatype AppState = AppState(book: Book, incomeDraft: Draft, expenseDraft: Draft) {

    function Items(c: Category): seq<Entry> {
      book.Items(c)
    }

    function DraftOf(c: Category): Draft {
      match c
      case Income => incomeDraft
      case Expense => expenseDraft
    }

    /** This state with category `c`'s input fields holding `d`; this is what
        the fields' change handlers do as the user types. */
    function WithDraft(c: Category, d: Draft): (r: AppState)
      ensures r.book == book
      ensures r.DraftOf(c) == d && r.DraftOf(c.Other()) == DraftOf(c.Other())
    {
      match c
      case Income => AppState(book, d, expenseDraft)
      case Expense => AppState(book, incomeDraft, d)
    }
  }

  /** The state before anything is loaded: both lists empty, all four input
      fields empty. */
  function Initial(): (s: AppState)
    ensures s.Items(Income) == [] && s.Items(Expense) == []
    ensures s.incomeDraft == EmptyDraft && s.expenseDraft == EmptyDraft
    ensures s.book.Total(Income) == 0.0 && s.book.Total(Expense) == 0.0 && s.book.Net() == 0.0
  {
    AppState(Book([], []), EmptyDraft, EmptyDraft)
  }

  // ---------------------------------------------------------------------
  // Add

  /** The guard of the add handlers: the trimmed description is non-empty,
      the amount text is non-empty, and `parseFloat` of it is a number
      greater than zero (`None` stands for NaN, which fails `> 0`). */
  function Accepts(d: Draft, parsed: Option<real>): (ok: bool)
    ensures ok <==> !IsBlank(d.description) && d.amount != "" && parsed.Some? && parsed.value > 0.0
  {
    TrimEmptyIffBlank(d.description);
    Trim(d.description) != "" && d.amount != "" && parsed.Some? && parsed.value > 0.0
  }

  /** The entry an accepted add creates. Its description is non-empty and
      already trimmed, so trimming it again changes nothing; its amount is
      positive. */
  function NewEntry(now: int, d: Draft, parsed: Option<real>): (e: Entry)
    requires Accepts(d, parsed)
    ensures e.description != "" && Trim(e.description) == e.description
    ensures e.amount > 0.0
  {
    TrimIdempotent(d.description);
    Entry(now, Trim(d.description), parsed.value)
  }

  /** `addIncomeItem` / `addExpenseItem`. `now` is the `Date.now()` value used
      as the id and `parseFloat` the number parser applied to the amount
      field. An accepted draft appends one entry at the end of the category's
      list and empties that category's fields; a rejected one changes
      nothing, fields included. */
  function AddItem(s: AppState, c: Category, now: int, parseFloat: string -> Option<real>): (r: AppState)
    ensures var d := s.DraftOf(c);
            var parsed := parseFloat(d.amount);
            var n := |s.Items(c)|;
            if Accepts(d, parsed) then
              && |r.Items(c)| == n + 1
              && r.Items(c)[..n] == s.Items(c)
              && r.Items(c)[n].id == now
              && r.Items(c)[n].description == Trim(d.description)
              && r.Items(c)[n].amount == parsed.value
              && r.Items(c.Other()) == s.Items(c.Other())
              && r.DraftOf(c) == EmptyDraft
              && r.DraftOf(c.Other()) == s.DraftOf(c.Other())
            else r == s
  {
    var d := s.DraftOf(c);
    var parsed := parseFloat(d.amount);
    if Accepts(d, parsed) then
      var items := s.Items(c) + [NewEntry(now, d, parsed)];
      AppState(s.book.WithItems(c, items), s.incomeDraft, s.expenseDraft).WithDraft(c, EmptyDraft)
    else
      s
  }

  /** Each of the guard's three failures on its own makes the add a no-op:
      a blank description, an empty amount field, and an amount that does
      not parse to a number greater than zero. */
  lemma AddRejects(s: AppState, c: Category, now: int, parseFloat: string -> Option<real>)
    ensures IsBlank(s.DraftOf(c).description) ==> AddItem(s, c, now, parseFloat) == s
    ensures s.DraftOf(c).amount == "" ==> AddItem(s, c, now, parseFloat) == s
    ensures parseFloat(s.DraftOf(c).amount).None? ==> AddItem(s, c, now, parseFloat) == s
    ensures parseFloat(s.DraftOf(c).amount).Some? && parseFloat(s.DraftOf(c).amount).value <= 0.0
            ==> AddItem(s, c, now, parseFloat) == s
  {
    TrimEmptyIffBlank(s.DraftOf(c).description);
  }

  /** An add changes the state if and only if its draft is accepted. */
  lemma AddChangesIffAccepted(s: AppState, c: Category, now: int, parseFloat: string -> Option<real>)
    ensures AddItem(s, c, now, parseFloat) != s
            <==> Accepts(s.DraftOf(c), parseFloat(s.DraftOf(c).amount))
  {
    var r := AddItem(s, c, now, parseFloat);
    if Accepts(s.DraftOf(c), parseFloat(s.DraftOf(c).amount)) {
      assert |r.Items(c)| != |s.Items(c)|;
    }
  }

  /** An accepted add raises the category's total by exactly the new amount
      and leaves the other category's total alone; the net moves up by the
      amount for income and down by it for expense. */
  lemma AddRaisesTotal(s: AppState, c: Category, now: int, parseFloat: string -> Option<real>)
    requires Accepts(s.DraftOf(c), parseFloat(s.DraftOf(c).amount))
    ensures var r := AddItem(s, c, now, parseFloat);
            var a := parseFloat(s.DraftOf(c).amount).value;
            && r.book.Total(c) == s.book.Total(c) + a
            && r.book.Total(c.Other()) == s.book.Total(c.Other())
            && r.book.Net() == (if c == Income then s.book.Net() + a else s.book.Net() - a)
  {
    var r := AddItem(s, c, now, parseFloat);
    var n := |s.Items(c)|;
    assert r.Items(c) == s.Items(c) + [r.Items(c)[n]] by {
      assert r.Items(c) == r.Items(c)[..n] + [r.Items(c)[n]];
    }
    TotalAppendOne(s.Items(c), r.Items(c)[n]);
  }

  /** An accepted add leaves the category's list as the old list followed by
      the new entry. */
  lemma AcceptedAddAppends(s: AppState, c: Category, now: int, parseFloat: string -> Option<real>)
    requires Accepts(s.DraftOf(c), parseFloat(s.DraftOf(c).amount))
    ensures var d := s.DraftOf(c);
            AddItem(s, c, now, parseFloat).Items(c) == s.Items(c) + [NewEntry(now, d, parseFloat(d.amount))]
  {
  }

  /** When no entry of the list already carries the new id, removing that id
      undoes an add, accepted or not: the book is back to what it was. */
  lemma RemoveUndoesAdd(s: AppState, c: Category, now: int, parseFloat: string -> Option<real>)
    requires forall e :: e in s.Items(c) ==> e.id != now
    ensures RemoveItem(AddItem(s, c, now, parseFloat), c, now).book == s.book
  {
    if Accepts(s.DraftOf(c), parseFloat(s.DraftOf(c).amount)) {
      var d := s.DraftOf(c);
      AcceptedAddAppends(s, c, now, parseFloat);
      WithoutFreshAppend(s.Items(c), NewEntry(now, d, parseFloat(d.amount)));
    } else {
      WithoutIdentityIffAbsent(s.Items(c), now);
    }
  }

  // ---------------------------------------------------------------------
  // Remove

  /** `removeIncomeItem` / `removeExpenseItem`: every entry of the category
      whose id is `id` goes, the rest stay, with their repeats, in their
      original relative order, and nothing else changes. An id no entry
      carries leaves the state as it was. */
  function RemoveItem(s: AppState, c: Category, id: int): (r: AppState)
    ensures forall e :: e in r.Items(c) <==> e in s.Items(c) && e.id != id
    ensures multiset(r.Items(c)) + multiset(Matching(s.Items(c), id)) == multiset(s.Items(c))
    ensures IsSubsequence(r.Items(c), s.Items(c))
    ensures r.Items(c.Other()) == s.Items(c.Other())
    ensures r.incomeDraft == s.incomeDraft && r.expenseDraft == s.expenseDraft
    ensures (forall e :: e in s.Items(c) ==> e.id != id) <==> r == s
  {
    WithoutMatchingPartition(s.Items(c), id);
    WithoutIsSubsequence(s.Items(c), id);
    WithoutIdentityIffAbsent(s.Items(c), id);
    AppState(s.book.WithItems(c, Without(s.Items(c), id)), s.incomeDraft, s.expenseDraft)
  }

  /** Applying the same removal twice equals applying it once. */
  lemma RemoveIdempotent(s: AppState, c: Category, id: int)
    ensures RemoveItem(RemoveItem(s, c, id), c, id) == RemoveItem(s, c, id)
  {
    WithoutIdempotent(s.Items(c), id);
  }

  /** After a removal the category's total is the old total minus the sum of
      the removed entries' amounts; the other total is unchanged. */
  lemma RemoveLowersTotal(s: AppState, c: Category, id: int)
    ensures var r := RemoveItem(s, c, id);
            && r.book.Total(c) == s.book.Total(c) - Sum(Matching(s.Items(c), id))
            && r.book.Total(c.Other()) == s.book.Total(c.Other())
  {
    SumPartition(s.Items(c), id);
  }

  // ---------------------------------------------------------------------
  // Clear

  /** `clearAllData`: `confirmed` is the user's answer to the confirmation
      prompt. A yes empties both lists and keeps the input fields; a no
      changes nothing. */
  function ClearAllData(s: AppState, confirmed: bool): (r: AppState)
    ensures confirmed ==> r.Items(Income) == [] && r.Items(Expense) == []
    ensures confirmed ==> r.incomeDraft == s.incomeDraft && r.expenseDraft == s.expenseDraft
    ensures !confirmed ==> r == s
  {
    if confirmed then AppState(Book([], []), s.incomeDraft, s.expenseDraft) else s
  }

  /** After a confirmed clear both totals and the net are zero, and clearing
      again changes nothing. */
  lemma ClearZeroesTotals(s: AppState)
    ensures var r := ClearAllData(s, true);
            && r.book.Total(Income) == 0.0 && r.book.Total(Expense) == 0.0
            && r.book.Net() == 0.0
            && ClearAllData(r, true) == r
  {
  }
}
