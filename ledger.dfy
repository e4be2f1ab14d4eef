/** The slice of the ledger's record types the plugin reads and writes:
    amounts, lot costs, postings, transactions and the other directives,
    with a posting's weight and the canonical entry order. Records are
    immutable values; `_replace` is a datatype update. */
module Ledger {
  import opened Results
  import opened Calendar

  datatype Amount = Amount(number: real, currency: string)

  /** A lot's cost basis; (number, date, label) identifies the lot. */
  datatype Cost = Cost(number: real, currency: string, date: CivilDate, lotLabel: Option<string>)

  /** A metadata value: a quoted string or a number. */
  datatype MetaValue = Text(text: string) | Number(number: real)

  type Meta = map<string, MetaValue>

  datatype Posting = Posting(
    account: string,
    units: Amount,
    cost: Option<Cost>,
    price: Option<Amount>,
    flag: Option<char>,
    meta: Meta)

  /** `lineno` is the line number the entry's metadata carries; it is the last
      component of the sort key and is copied along with the rest of `meta`. */
  datatype Transaction = Transaction(
    meta: Meta,
    lineno: int,
    date: CivilDate,
    flag: char,
    payee: Option<string>,
    narration: string,
    tags: set<string>,
    links: set<string>,
    postings: seq<Posting>)

  /** Every other directive (open, close, balance, commodity, ...) only
      matters here through its sort key: `rank` is its type's place in the
      canonical order (transactions have 0). */
  datatype Entry =
    | Txn(txn: Transaction)
    | Other(date: CivilDate, rank: int, lineno: int)
  {
    function EntryDate(): CivilDate {
      match this
      case Txn(t) => t.date
      case Other(d, _, _) => d
    }
  }

  /** Python truthiness of an optional label: None and "" are false. */
  predicate HasLabel(l: Option<string>) {
    l.Some? && l.value != ""
  }

  /** The amount a posting contributes to its transaction's balance: units
      times cost for a posting held at cost, units times price for a
      posting with a price annotation and no cost, its units otherwise. */
  function Weight(p: Posting): Amount {
    match p.cost
    case Some(c) => Amount(p.units.number * c.number, c.currency)
    case None =>
      match p.price
      case Some(price) => Amount(p.units.number * price.number, price.currency)
      case None => p.units
  }

  function WeightTotal(ps: seq<Posting>): real
    decreases |ps|
  {
    if ps == [] then 0.0 else WeightTotal(ps[..|ps| - 1]) + Weight(ps[|ps| - 1]).number
  }

  /** All weights are in one currency and add up to zero. */
  predicate Balanced(ps: seq<Posting>) {
    && (forall i, j :: 0 <= i < j < |ps| ==> Weight(ps[i]).currency == Weight(ps[j]).currency)
    && WeightTotal(ps) == 0.0
  }

  /** The amounts a list of postings books on one account. */
  function AmountOn(ps: seq<Posting>, account: string): real
    decreases |ps|
  {
    if ps == [] then 0.0
    else AmountOn(ps[..|ps| - 1], account)
         + (if ps[|ps| - 1].account == account then ps[|ps| - 1].units.number else 0.0)
  }

  /** The amounts a list of transactions books on one account. */
  function BookedOn(es: seq<Transaction>, account: string): real
    decreases |es|
  {
    if es == [] then 0.0 else BookedOn(es[..|es| - 1], account) + AmountOn(es[|es| - 1].postings, account)
  }

  function AsEntries(ts: seq<Transaction>): (es: seq<Entry>)
    ensures |es| == |ts|
    ensures forall i :: 0 <= i < |ts| ==> es[i] == Txn(ts[i])
  {
    seq(|ts|, i requires 0 <= i < |ts| => Txn(ts[i]))
  }

  // ---------------------------------------------------------------------
  // The canonical entry order (`data.entry_sortkey`) and a stable sort.

  datatype SortKey = SortKey(day: int, rank: int, lineno: int)

  function EntrySortKey(e: Entry): SortKey {
    match e
    case Txn(t) => SortKey(Ordinal(t.date), 0, t.lineno)
    case Other(d, rank, line) => SortKey(Ordinal(d), rank, line)
  }

  predicate KeyLe(a: SortKey, b: SortKey) {
    a.day < b.day
    || (a.day == b.day && a.rank < b.rank)
    || (a.day == b.day && a.rank == b.rank && a.lineno <= b.lineno)
  }

  predicate Sorted(s: seq<Entry>)
  {
    forall i, j :: 0 <= i < j < |s| ==> KeyLe(EntrySortKey(s[i]), EntrySortKey(s[j]))
  }

  /** Puts x in front of the first entry whose key is not below x's. */
  function Insert(x: Entry, s: seq<Entry>): seq<Entry>
  {
    if s == [] then [x]
    else if KeyLe(EntrySortKey(x), EntrySortKey(s[0])) then [x] + s
    else [s[0]] + Insert(x, s[1..])
  }

  /** Insert adds exactly x. */
  lemma {:induction false} InsertMultiset(x: Entry, s: seq<Entry>)
    ensures multiset(Insert(x, s)) == multiset(s) + multiset{x}
  {
    if s != [] && !KeyLe(EntrySortKey(x), EntrySortKey(s[0])) {
      InsertMultiset(x, s[1..]);
      assert s == [s[0]] + s[1..];
    }
  }

  lemma KeyLeTransitive(a: SortKey, b: SortKey, c: SortKey)
    requires KeyLe(a, b) && KeyLe(b, c)
    ensures KeyLe(a, c)
  {
  }

  /** Every element of Insert(x, s) is x or an element of s. */
  lemma InsertElements(x: Entry, s: seq<Entry>, e: Entry)
    requires e in Insert(x, s)
    ensures e == x || e in s
  {
    InsertMultiset(x, s);
    assert e in multiset(Insert(x, s));
  }

  lemma {:induction false} InsertSorted(x: Entry, s: seq<Entry>)
    requires Sorted(s)
    ensures Sorted(Insert(x, s))
  {
    if s != [] && !KeyLe(EntrySortKey(x), EntrySortKey(s[0])) {
      var head := s[0];
      var tail := Insert(x, s[1..]);
      InsertSorted(x, s[1..]);
      assert KeyLe(EntrySortKey(head), EntrySortKey(x));
      forall e | e in tail
        ensures KeyLe(EntrySortKey(head), EntrySortKey(e))
      {
        InsertElements(x, s[1..], e);
        if e != x {
          var k :| 0 <= k < |s[1..]| && s[1..][k] == e;
          assert s[k + 1] == e;
        }
      }
      var r := Insert(x, s);
      assert r == [head] + tail;
      forall i, j | 0 <= i < j < |r|
        ensures KeyLe(EntrySortKey(r[i]), EntrySortKey(r[j]))
      {
        if i == 0 {
          assert r[j] == tail[j - 1];
          assert r[j] in tail;
        } else {
          assert r[i] == tail[i - 1] && r[j] == tail[j - 1];
        }
      }
    }
  }

  /** `list.sort(key=entry_sortkey)`: a stable sort by the entry key. */
  function SortEntries(s: seq<Entry>): (r: seq<Entry>)
    ensures Sorted(r)
    ensures multiset(r) == multiset(s)
  {
    if s == [] then []
    else
      assert s == [s[0]] + s[1..];
      InsertSorted(s[0], SortEntries(s[1..]));
      InsertMultiset(s[0], SortEntries(s[1..]));
      Insert(s[0], SortEntries(s[1..]))
  }

  /** The entries of s that have key k, in the order s holds them. */
  function WithKey(s: seq<Entry>, k: SortKey): seq<Entry>
  {
    if s == [] then []
    else (if EntrySortKey(s[0]) == k then [s[0]] else []) + WithKey(s[1..], k)
  }

  /** The entry x alone if it has key k, else nothing. */
  function Keyed(x: Entry, k: SortKey): seq<Entry> {
    if EntrySortKey(x) == k then [x] else []
  }

  lemma WithKeyCons(x: Entry, s: seq<Entry>, k: SortKey)
    ensures WithKey([x] + s, k) == Keyed(x, k) + WithKey(s, k)
  {
    assert ([x] + s)[1..] == s;
  }

  /** An entry that sorts strictly after another cannot share its key. */
  lemma KeyedApart(x: Entry, y: Entry, k: SortKey)
    requires !KeyLe(EntrySortKey(x), EntrySortKey(y))
    ensures Keyed(x, k) == [] || Keyed(y, k) == []
  {
  }

  lemma {:induction false} InsertWithKey(x: Entry, s: seq<Entry>, k: SortKey)
    ensures WithKey(Insert(x, s), k) == Keyed(x, k) + WithKey(s, k)
  {
    if s == [] {
      WithKeyCons(x, [], k);
    } else if KeyLe(EntrySortKey(x), EntrySortKey(s[0])) {
      WithKeyCons(x, s, k);
    } else {
      var head, tail := s[0], s[1..];
      InsertWithKey(x, tail, k);
      WithKeyCons(head, Insert(x, tail), k);
      assert s == [head] + tail;
      WithKeyCons(head, tail, k);
      KeyedApart(x, head, k);
    }
  }

  /** Stability: entries with equal keys keep their relative order. */
  lemma {:induction false} SortEntriesStable(s: seq<Entry>, k: SortKey)
    ensures WithKey(SortEntries(s), k) == WithKey(s, k)
  {
    if s != [] {
      SortEntriesStable(s[1..], k);
      InsertWithKey(s[0], SortEntries(s[1..]), k);
    }
  }

  /** In a sorted sequence dates never go backwards. */
  lemma SortedDates(s: seq<Entry>, i: int, j: int)
    requires Sorted(s)
    requires 0 <= i < j < |s|
    ensures Ordinal(s[i].EntryDate()) <= Ordinal(s[j].EntryDate())
  {
  }
}
