/** The rollback of remove_last.py: after a fatal fetch error the ledger loses
    every row of the link it was last writing. */
module Rollback {
  import opened Seqs
  import opened Columns

  /** `remove_last_entries_with_same_url` (remove_last.py:7-11) on the ledger's
      rows: keep every row whose `pcurl` differs from the last row's. The
      ledger must have a row, since `iloc[-1]` of an empty column raises. */
  function RemoveLastEntriesWithSameUrl(ledger: seq<Row>): (r: seq<Row>)
    requires |ledger| > 0
    ensures |r| < |ledger|
    ensures forall i :: 0 <= i < |r| ==> r[i].pcurl != ledger[|ledger| - 1].pcurl
  {
    var lastUrl := ledger[|ledger| - 1].pcurl;
    var keep := (row: Row) => row.pcurl != lastUrl;
    FilterDrops(ledger, keep, |ledger| - 1);
    Filter(ledger, keep)
  }

  /** Every row of another link is kept, as often as it occurred and in its
      original relative order; no row of the last link is kept, wherever it
      stood in the ledger. */
  lemma RemoveLastKeepsOthers(ledger: seq<Row>)
    requires |ledger| > 0
    ensures IsSubsequence(RemoveLastEntriesWithSameUrl(ledger), ledger)
    ensures forall row: Row :: row in RemoveLastEntriesWithSameUrl(ledger) <==>
      row in ledger && row.pcurl != ledger[|ledger| - 1].pcurl
    ensures forall row: Row :: row.pcurl != ledger[|ledger| - 1].pcurl ==>
      multiset(RemoveLastEntriesWithSameUrl(ledger))[row] == multiset(ledger)[row]
  {
    var lastUrl := ledger[|ledger| - 1].pcurl;
    var keep := (row: Row) => row.pcurl != lastUrl;
    FilterMembers(ledger, keep);
    FilterIsSubsequence(ledger, keep);
    forall row: Row | row.pcurl != lastUrl
      ensures multiset(RemoveLastEntriesWithSameUrl(ledger))[row] == multiset(ledger)[row]
    {
      FilterMultiplicity(ledger, keep, row);
    }
  }

  /** Rollback completeness: when a link's rows were the last appended, the
      rollback removes all of them together with every earlier row of that
      link, and leaves the rest of the older ledger as it was. */
  lemma RollbackAfterPartialWrite(before: seq<Row>, written: seq<Row>, url: string)
    requires |written| > 0
    requires forall i :: 0 <= i < |written| ==> written[i].pcurl == url
    ensures RemoveLastEntriesWithSameUrl(before + written) == Filter(before, (row: Row) => row.pcurl != url)
  {
    var keep := (row: Row) => row.pcurl != url;
    assert (before + written)[|before + written| - 1] == written[|written| - 1];
    FilterConcat(before, written, keep);
    NoneKept(written, keep);
    assert Filter(before, keep) + [] == Filter(before, keep);
  }

}
