/** Income and expense entries, and the list updates the planner's handlers apply to them. */
module Entries {

  /** One income or expense line: an opaque id, a label, an amount in whole
      currency units and a date given as a day ordinal. */
  datatype Entry = Entry(id: string, name: string, amount: int, date: int)

  /** The two entry lists of the month being planned. */
  datatype Book = Book(incomes: seq<Entry>, expenses: seq<Entry>)

  /** The ids that occur in `entries`. */
  function Ids(entries: seq<Entry>): set<string>
  {
    set e | e in entries :: e.id
  }

  /** The sum of the amounts of `entries`. */
  function SumAmounts(entries: seq<Entry>): int
  {
    if entries == [] then 0
    else SumAmounts(entries[..|entries| - 1]) + entries[|entries| - 1].amount
  }

  /** The entry goes at the end; the others stay as they were. */
  function Append(entries: seq<Entry>, entry: Entry): (r: seq<Entry>)
    ensures |r| == |entries| + 1
    ensures r[..|entries|] == entries && r[|entries|] == entry
  {
    entries + [entry]
  }

  /** Exactly the entries with another id survive, in their original order. */
  function RemoveId(entries: seq<Entry>, id: string): (r: seq<Entry>)
    ensures |r| <= |entries|
    ensures forall e :: e in r <==> e in entries && e.id != id
  {
    if entries == [] then []
    else (if entries[0].id == id then [] else [entries[0]]) + RemoveId(entries[1..], id)
  }

  /** Removal works piecewise: the survivors keep their original order. */
  lemma {:induction false} RemoveIdConcat(a: seq<Entry>, b: seq<Entry>, id: string)
    ensures RemoveId(a + b, id) == RemoveId(a, id) + RemoveId(b, id)
  {
    if a == [] {
      assert a + b == b;
    } else {
      assert (a + b)[1..] == a[1..] + b;
      RemoveIdConcat(a[1..], b, id);
    }
  }

  /** Removing an id that does not occur changes nothing. */
  lemma {:induction false} RemoveAbsentId(entries: seq<Entry>, id: string)
    requires id !in Ids(entries)
    ensures RemoveId(entries, id) == entries
  {
    if entries != [] {
      assert entries[0] in entries;
      assert forall e :: e in entries[1..] ==> e in entries;
      RemoveAbsentId(entries[1..], id);
    }
  }

  /** Removing the same id twice is the same as removing it once. */
  lemma RemoveIdIdempotent(entries: seq<Entry>, id: string)
    ensures RemoveId(RemoveId(entries, id), id) == RemoveId(entries, id)
  {
    RemoveAbsentId(RemoveId(entries, id), id);
  }

  /** Deleting a freshly added entry by its (fresh) id restores the list. */
  lemma RemoveAfterAppend(entries: seq<Entry>, entry: Entry)
    requires entry.id !in Ids(entries)
    ensures RemoveId(Append(entries, entry), entry.id) == entries
  {
    RemoveIdConcat(entries, [entry], entry.id);
    RemoveAbsentId(entries, entry.id);
    assert RemoveId([entry], entry.id) == [];
  }

  /** Appending adds the entry's amount to the list's total. */
  lemma AppendSum(entries: seq<Entry>, entry: Entry)
    ensures SumAmounts(Append(entries, entry)) == SumAmounts(entries) + entry.amount
  {
    assert Append(entries, entry)[..|entries|] == entries;
  }

  /** Adds an income at the end of the income list. */
  function AddIncome(book: Book, income: Entry): (r: Book)
    ensures |r.incomes| == |book.incomes| + 1
    ensures r.incomes[..|book.incomes|] == book.incomes && r.incomes[|book.incomes|] == income
    ensures r.expenses == book.expenses
  {
    book.(incomes := Append(book.incomes, income))
  }

  /** Deletes every income with the given id. */
  function DeleteIncome(book: Book, id: string): (r: Book)
    ensures forall e :: e in r.incomes <==> e in book.incomes && e.id != id
    ensures r.expenses == book.expenses
  {
    book.(incomes := RemoveId(book.incomes, id))
  }

  /** Adds an expense at the end of the expense list. */
  function AddExpense(book: Book, expense: Entry): (r: Book)
    ensures |r.expenses| == |book.expenses| + 1
    ensures r.expenses[..|book.expenses|] == book.expenses && r.expenses[|book.expenses|] == expense
    ensures r.incomes == book.incomes
  {
    book.(expenses := Append(book.expenses, expense))
  }

  /** Deletes every expense with the given id. */
  function DeleteExpense(book: Book, id: string): (r: Book)
    ensures forall e :: e in r.expenses <==> e in book.expenses && e.id != id
    ensures r.incomes == book.incomes
  {
    book.(expenses := RemoveId(book.expenses, id))
  }

  /** Deleting a freshly added income by its id gives back the book as it was. */
  lemma DeleteUndoesAddIncome(book: Book, income: Entry)
    requires income.id !in Ids(book.incomes)
    ensures DeleteIncome(AddIncome(book, income), income.id) == book
  {
    RemoveAfterAppend(book.incomes, income);
  }

  /** Deleting a freshly added expense by its id gives back the book as it was. */
  lemma DeleteUndoesAddExpense(book: Book, expense: Entry)
    requires expense.id !in Ids(book.expenses)
    ensures DeleteExpense(AddExpense(book, expense), expense.id) == book
  {
    RemoveAfterAppend(book.expenses, expense);
  }
}
