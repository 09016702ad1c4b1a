/** The in-page ledger of lab3 with the page itself stripped away: the list of
    entries the form appends to and the delete button removes from, the
    balance display that is recomputed after each change, the details modal,
    and the description shortening used in the table. */
module LedgerScript {
  import opened Seqs

  /** The number of space characters in `s`. */
  function Spaces(s: string): nat
  {
    if s == [] then 0 else (if s[0] == ' ' then 1 else 0) + Spaces(s[1..])
  }

  /** `s.split(' ')`: the pieces between single spaces. Consecutive spaces
      give empty pieces, and the result is never empty. */
  function Split(s: string): (r: seq<string>)
    ensures |r| == Spaces(s) + 1
    ensures forall i :: 0 <= i < |r| ==> ' ' !in r[i]
  {
    if s == [] then [""]
    else if s[0] == ' ' then [""] + Split(s[1..])
    else
      var rest := Split(s[1..]);
      [[s[0]] + rest[0]] + rest[1..]
  }

  /** Spaces are counted piece by piece. */
  lemma {:induction false} SpacesAppend(a: string, b: string)
    ensures Spaces(a + b) == Spaces(a) + Spaces(b)
    decreases |a|
  {
    if a == [] {
      assert a + b == b;
    } else {
      assert (a + b)[0] == a[0] && (a + b)[1..] == a[1..] + b;
      SpacesAppend(a[1..], b);
    }
  }

  /** `parts.join(' ')`: the pieces with one space between neighbours, so
      space-free pieces give exactly one space fewer than there are pieces. */
  function Join(parts: seq<string>): (r: string)
    ensures parts != [] ==> parts[0] <= r
    ensures parts != [] && (forall i :: 0 <= i < |parts| ==> ' ' !in parts[i]) ==>
              Spaces(r) == |parts| - 1
  {
    if parts == [] then ""
    else
      SpacesOfSpaceFree(parts[0]);
      if |parts| == 1 then parts[0]
      else
        var rest := Join(parts[1..]);
        SpacesAppend(parts[0] + " ", rest);
        SpacesAppend(parts[0], " ");
        assert Spaces(" ") == 1 by { assert " "[1..] == []; }
        parts[0] + " " + rest
  }

  /** A text without spaces has no spaces to count. */
  lemma {:induction false} SpacesOfSpaceFree(s: string)
    ensures ' ' !in s ==> Spaces(s) == 0
    decreases |s|
  {
    if s != [] {
      assert forall c :: c in s[1..] ==> c in s;
      SpacesOfSpaceFree(s[1..]);
    }
  }

  /** Joining the pieces of a split gives back the text. */
  lemma {:induction false} JoinSplit(s: string)
    ensures Join(Split(s)) == s
    decreases |s|
  {
    if s != [] {
      JoinSplit(s[1..]);
      var rest := Split(s[1..]);
      if s[0] == ' ' {
        assert Split(s) == [""] + rest;
        assert s == " " + s[1..];
      } else if |rest| == 1 {
        assert s == [s[0]] + s[1..];
      } else {
        var parts := Split(s);
        assert parts[1..] == rest[1..];
        assert Join(rest) == rest[0] + " " + Join(rest[1..]);
        assert s == [s[0]] + s[1..];
      }
    }
  }

  /** Splitting at a space splits the two sides independently. */
  lemma {:induction false} SplitAtSpace(x: string, y: string)
    ensures Split(x + " " + y) == Split(x) + Split(y)
    decreases |x|
  {
    if x == [] {
      assert x + " " + y == [' '] + y;
      assert (x + " " + y)[1..] == y;
    } else {
      var z := x + " " + y;
      assert z[0] == x[0] && z[1..] == x[1..] + " " + y;
      SplitAtSpace(x[1..], y);
    }
  }

  /** A text without spaces is a single piece. */
  lemma {:induction false} SplitWithoutSpace(x: string)
    requires ' ' !in x
    ensures Split(x) == [x]
    decreases |x|
  {
    if x != [] {
      assert ' ' !in x[1..] by {
        forall i | 0 <= i < |x[1..]| ensures x[1..][i] != ' ' {
          assert x[1..][i] == x[i + 1];
        }
      }
      SplitWithoutSpace(x[1..]);
      assert x == [x[0]] + x[1..];
    }
  }

  /** Splitting a join of space-free pieces gives back the pieces. */
  lemma {:induction false} SplitJoin(parts: seq<string>)
    requires parts != []
    requires forall i :: 0 <= i < |parts| ==> ' ' !in parts[i]
    ensures Split(Join(parts)) == parts
    decreases |parts|
  {
    SplitWithoutSpace(parts[0]);
    if |parts| > 1 {
      SplitJoin(parts[1..]);
      SplitAtSpace(parts[0], Join(parts[1..]));
      assert parts == [parts[0]] + parts[1..];
    }
  }

  /** Joining two non-empty runs of pieces puts one space between them. */
  lemma {:induction false} JoinAppend(a: seq<string>, b: seq<string>)
    requires a != [] && b != []
    ensures Join(a + b) == Join(a) + " " + Join(b)
    decreases |a|
  {
    if |a| == 1 {
      assert (a + b)[1..] == b;
    } else {
      assert (a + b)[1..] == a[1..] + b;
      JoinAppend(a[1..], b);
    }
  }

  /** The first four space-separated pieces of `description`, followed by
      "..." when there were more than four. */
  function TruncateDescription(description: string): (r: string)
    ensures |Split(description)| <= 4 ==> r == description
    ensures |Split(description)| > 4 ==>
              |r| >= 3 && r[|r| - 3..] == "..." &&
              r[..|r| - 3] + " " <= description &&
              Split(r[..|r| - 3]) == Split(description)[..4]
  {
    var words := Split(description);
    var kept := Join(words[..if |words| < 4 then |words| else 4]);
    JoinSplit(description);
    if |words| <= 4 then
      assert words[..|words|] == words;
      kept
    else
      assert words == words[..4] + words[4..];
      JoinAppend(words[..4], words[4..]);
      SplitJoin(words[..4]);
      assert (kept + "...")[..|kept|] == kept;
      kept + "..."
  }

  /** A row of the ledger. The id, the timestamp and the amount come from
      outside the model: a clock-and-random id, `new Date()` and the parsed
      form field. */
  datatype Entry = Entry(id: string, date: int, amount: real, category: string, description: string)

  function EntryAmount(e: Entry): real { e.amount }

  function HasEntryId(id: string): Entry -> bool
  {
    (e: Entry) => e.id == id
  }

  /** The sum of all amounts, as the `reduce` from 0 computes it. */
  function Balance(s: seq<Entry>): (r: real)
    ensures s == [] ==> r == 0.0
    ensures (forall i :: 0 <= i < |s| ==> s[i].amount >= 0.0) ==> r >= 0.0
  {
    SumOf(s, EntryAmount)
  }

  /** The class name of the balance display: zero counts as positive. */
  function BalanceClass(total: real): (r: string)
    ensures r == "balance positive" <==> total >= 0.0
    ensures r == "balance negative" <==> total < 0.0
  {
    if total >= 0.0 then "balance positive" else "balance negative"
  }

  /** The entries left after deleting `id`: every other entry, and as many
      fewer entries as there were entries with the id. */
  function WithoutId(s: seq<Entry>, id: string): (r: seq<Entry>)
    ensures forall e :: e in r <==> e in s && e.id != id
    ensures |r| + |Filter(s, HasEntryId(id))| == |s|
  {
    FilterPartitionLength(s, HasEntryId(id));
    Filter(s, Not(HasEntryId(id)))
  }

  /** Deleting removes every entry with the id and keeps all other entries,
      in their order. */
  lemma DeleteKeepsOthers(s: seq<Entry>, id: string)
    ensures forall e :: e in WithoutId(s, id) <==> e in s && e.id != id
    ensures SelectsExactly(WithoutId(s, id), s, Not(HasEntryId(id)))
  {
    FilterSelectsExactly(s, Not(HasEntryId(id)));
  }

  /** Deleting an id no entry has changes nothing. */
  lemma DeleteAbsentIdChangesNothing(s: seq<Entry>, id: string)
    requires forall i :: 0 <= i < |s| ==> s[i].id != id
    ensures WithoutId(s, id) == s
  {
    FilterKeepsAll(s, Not(HasEntryId(id)));
  }

  /** Deleting lowers the balance by exactly the amounts of the deleted entries. */
  lemma BalanceAfterDelete(s: seq<Entry>, id: string)
    ensures Balance(WithoutId(s, id)) == Balance(s) - Balance(Filter(s, HasEntryId(id)))
  {
    SumOfPartition(s, HasEntryId(id), EntryAmount);
  }

  /** Adding raises the balance by exactly the new amount. */
  lemma BalanceAfterAdd(s: seq<Entry>, e: Entry)
    ensures Balance(s + [e]) == Balance(s) + e.amount
  {
  }

  /** The module-level `transactions` list together with the parts of the
      page that the list operations write: the balance text and class, and
      the entry shown in the details modal. */
  class Ledger {
    var transactions: seq<Entry>
    var balanceText: real
    var balanceClass: string
    var details: Option<Entry>

    /** The balance display agrees with the list. */
    ghost predicate DisplayInSync()
      reads this
    {
      balanceText == Balance(transactions) && balanceClass == BalanceClass(balanceText)
    }

    constructor ()
      ensures transactions == [] && details == None && DisplayInSync()
    {
      transactions := [];
      balanceText := 0.0;
      balanceClass := BalanceClass(0.0);
      details := None;
    }

    /** Recomputes the balance and classifies it as positive (at least 0) or negative. */
    method CalculateTotal()
      modifies this`balanceText, this`balanceClass
      ensures balanceText == Balance(transactions)
      ensures balanceClass == if balanceText >= 0.0 then "balance positive" else "balance negative"
    {
      var total := Balance(transactions);
      balanceText := total;
      balanceClass := BalanceClass(total);
    }

    /** Appends a new entry built from the form and refreshes the balance. */
    method AddTransaction(id: string, now: int, amount: real, category: string, description: string)
      modifies this`transactions, this`balanceText, this`balanceClass
      ensures transactions == old(transactions) + [Entry(id, now, amount, category, description)]
      ensures DisplayInSync()
      ensures balanceText == old(Balance(transactions)) + amount
    {
      var entry := Entry(id, now, amount, category, description);
      BalanceAfterAdd(transactions, entry);
      transactions := transactions + [entry];
      CalculateTotal();
    }

    /** Drops every entry with the id and refreshes the balance. */
    method DeleteTransaction(id: string)
      modifies this`transactions, this`balanceText, this`balanceClass
      ensures transactions == WithoutId(old(transactions), id)
      ensures DisplayInSync()
    {
      transactions := WithoutId(transactions, id);
      CalculateTotal();
    }

    /** Shows the first entry with the id; does nothing when there is none. */
    method ShowTransactionDetails(id: string)
      modifies this`details
      ensures Find(transactions, HasEntryId(id)).None? ==> details == old(details)
      ensures Find(transactions, HasEntryId(id)).Some? ==> details == Find(transactions, HasEntryId(id))
    {
      var found := Find(transactions, HasEntryId(id));
      if found.None? {
        return;
      }
      details := found;
    }
  }
}
