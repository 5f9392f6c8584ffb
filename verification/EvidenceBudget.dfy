/** Fitting evidence into the character budget of one model message: relations first, then
    documents, then entities, each whole or not at all. */
module EvidenceBudget {
  import opened Sequences

  datatype Kind = Relation | Document | Entity

  /** `rank` is the key's place in the order of strings, `size` what the quoted entry costs. */
  datatype Entry = Entry(kind: Kind, rank: nat, size: nat)

  const LIMIT := 32_000

  function Priority(kind: Kind): nat {
    match kind
    case Relation => 0
    case Document => 1
    case Entity => 2
  }

  predicate Before(a: Entry, b: Entry) {
    Priority(a.kind) < Priority(b.kind) || (a.kind == b.kind && a.rank < b.rank)
  }

  /** Relations go before documents and documents before entities, and within a kind the key decides. */
  ghost predicate GoesBefore(a: Entry, b: Entry) {
    || (a.kind == Relation && b.kind != Relation)
    || (a.kind == Document && b.kind == Entity)
    || (a.kind == b.kind && a.rank < b.rank)
  }

  lemma BeforeMeaning(a: Entry, b: Entry)
    ensures Before(a, b) <==> GoesBefore(a, b)
  {
  }

  /** Entries come from a dictionary, so no key repeats. */
  ghost predicate DistinctKeys(entries: seq<Entry>) {
    forall i, j :: 0 <= i < j < |entries| ==> Before(entries[i], entries[j]) || Before(entries[j], entries[i])
  }

  function Prioritized(entries: seq<Entry>): (order: seq<Entry>)
    requires DistinctKeys(entries)
    ensures Ascends(order, Before) && forall x :: x in order <==> x in entries
  {
    if entries == [] then []
    else
      assert forall x :: x in entries <==> x == entries[0] || x in entries[1..];
      Insert(Prioritized(entries[1..]), entries[0], Before)
  }

  function Total(entries: seq<Entry>): nat {
    if entries == [] then 0 else Total(entries[..|entries| - 1]) + entries[|entries| - 1].size
  }

  /** The entries that go before `x`. */
  function Ahead(entries: seq<Entry>, x: Entry): seq<Entry> {
    if entries == [] then []
    else
      var last := entries[|entries| - 1];
      Ahead(entries[..|entries| - 1], x) + if Before(last, x) then [last] else []
  }

  lemma AheadSnoc(entries: seq<Entry>, last: Entry, x: Entry)
    ensures Ahead(entries + [last], x) == Ahead(entries, x) + if Before(last, x) then [last] else []
    ensures Total(entries + [last]) == Total(entries) + last.size
  {
    assert (entries + [last])[..|entries|] == entries;
  }

  lemma {:induction false} AllAhead(entries: seq<Entry>, x: Entry)
    requires forall y :: y in entries ==> Before(y, x)
    ensures Ahead(entries, x) == entries
  {
    if entries != [] {
      var before, last := entries[..|entries| - 1], entries[|entries| - 1];
      assert entries == before + [last];
      AllAhead(before, x);
      AheadSnoc(before, last, x);
    }
  }

  /** `x` is kept exactly if it fits behind the kept entries that go before it. */
  ghost predicate KeptIff(bounded: seq<Entry>, x: Entry) {
    x in bounded <==> Total(Ahead(bounded, x)) + x.size <= LIMIT
  }

  lemma LaterChangesNothing(bounded: seq<Entry>, last: Entry, x: Entry)
    requires KeptIff(bounded, x) && Before(x, last)
    ensures KeptIff(bounded + [last], x)
  {
    AheadSnoc(bounded, last, x);
    assert !Before(last, x) && last != x;
    assert Ahead(bounded, x) + [] == Ahead(bounded, x);
  }

  /** The newest entry is judged by what has been used. */
  lemma NewestKept(bounded: seq<Entry>, entry: Entry)
    requires forall y :: y in bounded ==> Before(y, entry)
    ensures Total(bounded) + entry.size <= LIMIT ==> KeptIff(bounded + [entry], entry)
    ensures Total(bounded) + entry.size > LIMIT ==> KeptIff(bounded, entry)
  {
    AllAhead(bounded, entry);
    AheadSnoc(bounded, entry, entry);
    assert bounded + [] == bounded;
  }

  /** The budget is kept, the order is the priority order, and each entry is kept exactly if it fits
      behind those that go before it: nothing of lower priority ever displaces it. */
  method Bound(entries: seq<Entry>) returns (bounded: seq<Entry>, used: nat)
    requires DistinctKeys(entries)
    ensures used == Total(bounded) <= LIMIT
    ensures Ascends(bounded, Before) && forall x :: x in bounded ==> x in entries
    ensures forall i, j :: 0 <= i < j < |bounded| ==> GoesBefore(bounded[i], bounded[j])
    ensures forall x :: x in entries ==> KeptIff(bounded, x)
  {
    var order := Prioritized(entries);
    bounded, used := [], 0;
    for k := 0 to |order|
      invariant used == Total(bounded) <= LIMIT && Ascends(bounded, Before)
      invariant forall x :: x in bounded ==> x in order[..k]
      invariant forall i :: 0 <= i < k ==> KeptIff(bounded, order[i])
    {
      var entry := order[k];
      forall y | y in bounded
        ensures Before(y, entry)
      {
        var i :| 0 <= i < k && order[i] == y;
      }
      NewestKept(bounded, entry);
      AheadSnoc(bounded, entry, entry);
      if used + entry.size <= LIMIT {
        forall i | 0 <= i < k
          ensures KeptIff(bounded + [entry], order[i])
        {
          LaterChangesNothing(bounded, entry, order[i]);
        }
        bounded, used := bounded + [entry], used + entry.size;
      }
    }
    assert forall x :: x in entries ==> x in order;
  }

  /** Nothing left out would still fit. */
  lemma NothingLeftFits(bounded: seq<Entry>, x: Entry)
    requires KeptIff(bounded, x) && x !in bounded
    ensures Total(bounded) + x.size > LIMIT
  {
    AheadIsPart(bounded, x);
  }

  lemma {:induction false} AheadIsPart(entries: seq<Entry>, x: Entry)
    ensures Total(Ahead(entries, x)) <= Total(entries)
  {
    if entries != [] {
      var before, last := entries[..|entries| - 1], entries[|entries| - 1];
      AheadIsPart(before, x);
      AheadSnoc(Ahead(before, x), last, x);
      assert Ahead(before, x) + [] == Ahead(before, x);
    }
  }
}
