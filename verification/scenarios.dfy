/** Concrete sessions with the ledger, each starting from the initial state. */
module Scenarios {
  import opened Wrappers
  import opened Text
  import opened Entries
  import opened Ledger
  import opened Storage

  /** Typing into a category's fields and submitting. */
  function Submit(s: AppState, c: Category, description: string, amount: string,
                  now: int, parseFloat: string -> Option<real>): AppState
  {
    AddItem(s.WithDraft(c, Draft(description, amount)), c, now, parseFloat)
  }

  /** Submitting an already trimmed, non-empty description with an amount
      that parses to a positive number appends exactly that entry. */
  lemma SubmitAppends(s: AppState, c: Category, description: string, amount: string,
                      now: int, parseFloat: string -> Option<real>, v: real)
    requires description != "" && Trim(description) == description
    requires amount != "" && parseFloat(amount) == Some(v) && v > 0.0
    ensures var r := Submit(s, c, description, amount, now, parseFloat);
            && r.Items(c) == s.Items(c) + [Entry(now, description, v)]
            && r.Items(c.Other()) == s.Items(c.Other())
  {
    var r := Submit(s, c, description, amount, now, parseFloat);
    var n := |s.Items(c)|;
    assert r.Items(c) == r.Items(c)[..n] + [r.Items(c)[n]];
  }

  /** The descriptions of the session below are already trimmed. */
  lemma SessionDescriptionsTrimmed()
    ensures Trim("Salary") == "Salary" && Trim("Bonus") == "Bonus" && Trim("Rent") == "Rent"
  {
    TrimOfTrimmed("Salary");
    TrimOfTrimmed("Bonus");
    TrimOfTrimmed("Rent");
  }

  /** Income `salary` 1000 then `bonus` 200 totals 1200; an expense `rent`
      500 on top leaves a net of 700. The descriptions are any non-empty,
      already trimmed texts, such as "Salary", "Bonus" and "Rent". */
  lemma SalaryBonusRent(parseFloat: string -> Option<real>, salary: string, bonus: string, rent: string,
                        t1: int, t2: int, t3: int)
    requires salary != "" && Trim(salary) == salary
    requires bonus != "" && Trim(bonus) == bonus
    requires rent != "" && Trim(rent) == rent
    requires parseFloat("1000") == Some(1000.0)
    requires parseFloat("200") == Some(200.0)
    requires parseFloat("500") == Some(500.0)
    ensures var s1 := Submit(Initial(), Income, salary, "1000", t1, parseFloat);
            var s2 := Submit(s1, Income, bonus, "200", t2, parseFloat);
            var s3 := Submit(s2, Expense, rent, "500", t3, parseFloat);
            && s2.book.Total(Income) == 1200.0
            && s3.book.Net() == 700.0
  {
    var e1, e2, e3 := Entry(t1, salary, 1000.0), Entry(t2, bonus, 200.0), Entry(t3, rent, 500.0);
    var s1 := Submit(Initial(), Income, salary, "1000", t1, parseFloat);
    var s2 := Submit(s1, Income, bonus, "200", t2, parseFloat);
    var s3 := Submit(s2, Expense, rent, "500", t3, parseFloat);
    assert s2.book == Book([e1] + [e2], []) by {
      SubmitAppends(Initial(), Income, salary, "1000", t1, parseFloat, 1000.0);
      SubmitAppends(s1, Income, bonus, "200", t2, parseFloat, 200.0);
    }
    assert s3.book == Book([e1] + [e2], [] + [e3]) by {
      SubmitAppends(s2, Expense, rent, "500", t3, parseFloat, 500.0);
    }
    TotalAppendOne([], e1);
    TotalAppendOne([e1], e2);
    TotalAppendOne([], e3);
  }

  /** A description of spaces only is rejected and the typed text stays in
      the fields. */
  lemma BlankDescriptionRejected(parseFloat: string -> Option<real>, now: int)
    requires parseFloat("10") == Some(10.0)
    ensures var s := Initial().WithDraft(Income, Draft("   ", "10"));
            AddItem(s, Income, now, parseFloat) == s
  {
    var s := Initial().WithDraft(Income, Draft("   ", "10"));
    TrimEmptyIffBlank("   ");
  }

  /** Mounting with income storage holding text that does not parse gives an
      empty income list without disturbing the expense list. */
  lemma CorruptIncomeStorage(parse: string -> Option<seq<Entry>>, expense: seq<Entry>)
    requires parse("not json") == None
    requires parse("[e]") == Some(expense)
    ensures var m := Mount(map[IncomeKey := "not json", ExpenseKey := "[e]"], parse);
            m.book == Book([], expense)
  {
  }
}
