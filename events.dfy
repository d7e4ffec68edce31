/** Ledger events: the opening balance and one event per entry, in push order. */
module Events {
  import opened Entries

  datatype Kind = Opening | Income | Expense

  /** A dated event of the ledger; `amount` is the entry's amount, or the
      starting balance for the opening event. */
  datatype Event = Event(date: int, description: string, kind: Kind, amount: int)

  const OpeningDescription := "Starting Balance"

  /** The event for the starting balance, dated the first of the month. */
  function OpeningEvent(firstOfMonth: int, startingBalance: int): Event
  {
    Event(firstOfMonth, OpeningDescription, Opening, startingBalance)
  }

  /** The event an income or expense entry contributes. */
  function EntryEvent(entry: Entry, kind: Kind): Event
  {
    Event(entry.date, entry.name, kind, entry.amount)
  }

  /** The signed change an event applies to a running balance. */
  function Change(e: Event): int
  {
    match e.kind
    case Opening => 0
    case Income => e.amount
    case Expense => -e.amount
  }

  /** The events of `entries`, all of kind `kind`, in list order. */
  function AsEvents(entries: seq<Entry>, kind: Kind): seq<Event>
  {
    if entries == [] then []
    else AsEvents(entries[..|entries| - 1], kind) + [EntryEvent(entries[|entries| - 1], kind)]
  }

  /** The event list as it stands before sorting. */
  function PushedEvents(firstOfMonth: int, startingBalance: int, incomes: seq<Entry>, expenses: seq<Entry>): seq<Event>
  {
    [OpeningEvent(firstOfMonth, startingBalance)] + AsEvents(incomes, Income) + AsEvents(expenses, Expense)
  }

  lemma {:induction false} AsEventsAt(entries: seq<Entry>, kind: Kind)
    ensures |AsEvents(entries, kind)| == |entries|
    ensures forall k :: 0 <= k < |entries| ==> AsEvents(entries, kind)[k] == EntryEvent(entries[k], kind)
  {
    if entries != [] {
      AsEventsAt(entries[..|entries| - 1], kind);
    }
  }

  /** One event per pushed item: the opening balance first, then every
      income in list order, then every expense in list order. */
  lemma PushedEventsLayout(firstOfMonth: int, startingBalance: int, incomes: seq<Entry>, expenses: seq<Entry>)
    ensures var events := PushedEvents(firstOfMonth, startingBalance, incomes, expenses);
      && |events| == 1 + |incomes| + |expenses|
      && events[0] == OpeningEvent(firstOfMonth, startingBalance)
      && (forall k :: 0 <= k < |incomes| ==> events[1 + k] == EntryEvent(incomes[k], Income))
      && (forall k :: 0 <= k < |expenses| ==> events[1 + |incomes| + k] == EntryEvent(expenses[k], Expense))
      && (forall k :: 1 <= k < |events| ==> events[k].kind != Opening)
  {
    AsEventsAt(incomes, Income);
    AsEventsAt(expenses, Expense);
  }

  /** Builds the event list by pushing the opening event, then each income, then each expense. */
  method BuildEvents(firstOfMonth: int, startingBalance: int, incomes: seq<Entry>, expenses: seq<Entry>)
    returns (events: seq<Event>)
    ensures events == PushedEvents(firstOfMonth, startingBalance, incomes, expenses)
  {
    events := [OpeningEvent(firstOfMonth, startingBalance)];
    var i := 0;
    while i < |incomes|
      invariant 0 <= i <= |incomes|
      invariant events == [OpeningEvent(firstOfMonth, startingBalance)] + AsEvents(incomes[..i], Income)
    {
      assert incomes[..i + 1][..i] == incomes[..i];
      events := events + [EntryEvent(incomes[i], Income)];
      i := i + 1;
    }
    assert incomes[..i] == incomes;
    ghost var withIncomes := events;
    var j := 0;
    while j < |expenses|
      invariant 0 <= j <= |expenses|
      invariant events == withIncomes + AsEvents(expenses[..j], Expense)
    {
      assert expenses[..j + 1][..j] == expenses[..j];
      events := events + [EntryEvent(expenses[j], Expense)];
      j := j + 1;
    }
    assert expenses[..j] == expenses;
  }
}
