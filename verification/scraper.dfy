/** The scraping run of main.py: the part-number id of an input link, the
    rows `process_url` saves for one link, the resume filter that skips links
    already in the ledger, and a sequential run over the input list. */
module Scraper {
  import opened Wrappers
  import opened Seqs
  import opened Variants
  import opened Columns

  // --------------------------------------------------------- the url id

  /** Python's `str.upper` on ASCII letters. */
  function UpperChar(c: char): (u: char)
    ensures !('a' <= u <= 'z')
    ensures u == '/' <==> c == '/'
  {
    if 'a' <= c <= 'z' then ((c as int) - 32) as char else c
  }

  function Upper(s: string): (r: string)
    ensures |r| == |s|
    ensures forall i :: 0 <= i < |s| ==> r[i] == UpperChar(s[i])
  {
    seq(|s|, i requires 0 <= i < |s| => UpperChar(s[i]))
  }

  /** The part-number id of main.py:45: the link's last path segment, upper-cased.
      It holds no slash and no lower-case ASCII letter, and spells the link's
      tail after its last slash letter for letter. */
  function UrlId(url: string): (r: string)
    ensures '/' !in r
    ensures forall i :: 0 <= i < |r| ==> !('a' <= r[i] <= 'z')
    ensures |r| <= |url|
    ensures forall i :: 0 <= i < |r| ==> r[i] == UpperChar(url[|url| - |r| + i])
    ensures |r| < |url| ==> url[|url| - |r| - 1] == '/'
  {
    var tail := LastPiece(url, '/');
    var r := Upper(tail);
    assert forall i :: 0 <= i < |tail| ==> tail[i] == url[|url| - |tail| + i];
    assert forall i :: 0 <= i < |r| ==> r[i] != '/';
    r
  }

  // --------------------------------------------------------- one link

  /** The rows the colour loop of main.py:86-94 saves, `build` giving the
      row of one colour or the exception it raises. The loop stops at the
      first colour that raises (the bare `except` of main.py:65-66 catches it
      outside the loop) and the rows already appended stay in the ledger. */
  function SaveColors(colors: seq<string>, build: string -> Result<Row, Fault>): (rows: seq<Row>)
    ensures |rows| <= |colors|
    ensures forall i :: 0 <= i < |rows| ==> build(colors[i]) == Ok(rows[i])
    ensures |rows| < |colors| ==> build(colors[|rows|]).Err?
  {
    if |colors| == 0 then []
    else
      match build(colors[0])
      case Err(_) => []
      case Ok(row) =>
        var rest := SaveColors(colors[1..], build);
        assert forall i :: 1 <= i < |colors| ==> colors[1..][i - 1] == colors[i];
        [row] + rest
  }

  /** `process_url` (main.py:43-66): fetch the document for the link's id and
      save a row per colour. A failed fetch or an empty `productsData` saves
      nothing. With one colour the code takes `process_single_color`, with
      any other count `process_multiple_colors`; both build the same row per
      colour. */
  function ProcessUrl(remote: Remote, url: string): (rows: seq<Row>)
    ensures forall i :: 0 <= i < |rows| ==> rows[i].pcurl == url && rows[i].color == ""
    ensures UrlId(url) !in remote.productDetails ==> rows == []
    ensures UrlId(url) in remote.productDetails && |remote.productDetails[UrlId(url)].productsData| == 0 ==> rows == []
    ensures UrlId(url) in remote.productDetails && |remote.productDetails[UrlId(url)].productsData| > 0 ==>
      var p := remote.productDetails[UrlId(url)].productsData[0];
      var colors := ExtractColors(p);
      && |rows| <= |colors|
      && (forall i :: 0 <= i < |rows| ==> BuildRow(url, p, colors[i], remote) == Ok(rows[i]))
      && (|rows| < |colors| ==> BuildRow(url, p, colors[|rows|], remote).Err?)
  {
    match Lookup(remote.productDetails, UrlId(url))
    case None => []
    case Some(doc) =>
      if |doc.productsData| == 0 then []
      else
        var p := doc.productsData[0];
        SaveColors(ExtractColors(p), c => BuildRow(url, p, c, remote))
  }

  /** A product whose colours all build saves exactly one row per distinct
      colour, in the order of the colour list; one without colours saves none. */
  lemma OneRowPerColor(remote: Remote, url: string)
    requires UrlId(url) in remote.productDetails
    requires |remote.productDetails[UrlId(url)].productsData| > 0
    requires var p := remote.productDetails[UrlId(url)].productsData[0];
      var colors := ExtractColors(p);
      forall i :: 0 <= i < |colors| ==> BuildRow(url, p, colors[i], remote).Ok?
    ensures var p := remote.productDetails[UrlId(url)].productsData[0];
      var colors := ExtractColors(p);
      var rows := ProcessUrl(remote, url);
      && |rows| == |colors|
      && (forall i :: 0 <= i < |rows| ==> Ok(rows[i]) == BuildRow(url, p, colors[i], remote))
      && (forall c :: HasColor(p.skus, c) <==> exists i :: 0 <= i < |rows| && colors[i] == c)
  {
  }

  /** A product with no colour at all saves no row. */
  lemma NoColorNoRow(remote: Remote, url: string)
    requires UrlId(url) in remote.productDetails
    requires var doc := remote.productDetails[UrlId(url)];
      |doc.productsData| > 0 && forall c :: !HasColor(doc.productsData[0].skus, c)
    ensures ProcessUrl(remote, url) == []
  {
  }

  // --------------------------------------------------------- resuming

  /** The ledger's `pcurl` column. */
  function PcurlColumn(ledger: seq<Row>): (r: seq<string>)
    ensures |r| == |ledger|
    ensures forall i :: 0 <= i < |ledger| ==> r[i] == ledger[i].pcurl
  {
    seq(|ledger|, i requires 0 <= i < |ledger| => ledger[i].pcurl)
  }

  /** The test of main.py:205, `urls and link in urls`, where `urls` is `None`
      when the ledger file does not exist. */
  predicate AlreadyProcessed(link: string, ledger: Option<seq<Row>>) {
    ledger.Some? && |PcurlColumn(ledger.value)| > 0 && link in PcurlColumn(ledger.value)
  }

  /** The links main.py:203-209 schedules, in input order. */
  function Scheduled(links: seq<string>, ledger: Option<seq<Row>>): (r: seq<string>)
    ensures |r| <= |links|
    ensures forall i :: 0 <= i < |r| ==> r[i] in links && !AlreadyProcessed(r[i], ledger)
  {
    var keep := l => !AlreadyProcessed(l, ledger);
    FilterMembers(links, keep);
    Filter(links, keep)
  }

  /** A link is scheduled iff it is an input link and either there is no
      ledger, the ledger is empty, or no ledger row carries it as `pcurl`.
      Scheduling keeps the input order and every duplicate of a kept link. */
  lemma ScheduledExactly(links: seq<string>, ledger: Option<seq<Row>>)
    ensures forall l :: l in Scheduled(links, ledger) <==>
      l in links && (ledger.None? || |ledger.value| == 0 || forall i :: 0 <= i < |ledger.value| ==> ledger.value[i].pcurl != l)
    ensures IsSubsequence(Scheduled(links, ledger), links)
    ensures forall l :: !AlreadyProcessed(l, ledger) ==>
      multiset(Scheduled(links, ledger))[l] == multiset(links)[l]
  {
    var keep := l => !AlreadyProcessed(l, ledger);
    FilterMembers(links, keep);
    FilterIsSubsequence(links, keep);
    forall l | !AlreadyProcessed(l, ledger)
      ensures multiset(Scheduled(links, ledger))[l] == multiset(links)[l]
    {
      FilterMultiplicity(links, keep, l);
    }
    if ledger.Some? {
      var col := PcurlColumn(ledger.value);
      assert forall l :: l in col <==> exists i :: 0 <= i < |ledger.value| && ledger.value[i].pcurl == l;
    }
  }

  /** Scheduling against the same ledger a second time removes nothing more. */
  lemma ScheduledIdempotent(links: seq<string>, ledger: Option<seq<Row>>)
    ensures Scheduled(Scheduled(links, ledger), ledger) == Scheduled(links, ledger)
  {
    var s := Scheduled(links, ledger);
    NothingFiltered(s, l => !AlreadyProcessed(l, ledger));
  }

  lemma {:induction false} NothingFiltered<T>(s: seq<T>, keep: T -> bool)
    requires forall i :: 0 <= i < |s| ==> keep(s[i])
    ensures Filter(s, keep) == s
  {
    if |s| > 0 {
      NothingFiltered(s[1..], keep);
      assert s == [s[0]] + s[1..];
    }
  }

  // --------------------------------------------------------- a run

  /** The rows of every scheduled link, link after link: only rows of the
      listed links, and every row that processing a listed link saves. */
  function RowsFor(remote: Remote, links: seq<string>): (rows: seq<Row>)
    ensures forall i :: 0 <= i < |rows| ==> rows[i].pcurl in links
  {
    FlatMapOrigin(links, l => ProcessUrl(remote, l));
    FlatMap(links, l => ProcessUrl(remote, l))
  }

  /** Every row that processing a listed link saves is in the output. */
  lemma RowsForComplete(remote: Remote, links: seq<string>, i: int)
    requires 0 <= i < |links|
    ensures multiset(ProcessUrl(remote, links[i])) <= multiset(RowsFor(remote, links))
  {
    FlatMapContains(links, l => ProcessUrl(remote, l), i);
  }

  /** Each row appears in a run's output once for every listed copy of its
      link, times as often as processing that link saves it. */
  lemma RowsForMultiplicity(remote: Remote, links: seq<string>, row: Row)
    ensures multiset(RowsFor(remote, links))[row]
         == Times(multiset(links)[row.pcurl], multiset(ProcessUrl(remote, row.pcurl))[row])
  {
    var f := l => ProcessUrl(remote, l);
    forall l | row in f(l) ensures l == row.pcurl {
      var j :| 0 <= j < |f(l)| && f(l)[j] == row;
    }
    FlatMapMultiplicity(links, f, row, row.pcurl);
  }

  /** The ledger after `main` (main.py:196-213): the rows already there, then
      the rows of every scheduled link, link after link in input order. The
      coroutines that `asyncio.gather` runs never suspend: `session.get`
      (main.py:31) is a plain call, and both semaphores (main.py:17-18,
      28-29) always have a free slot. So each link finishes before the
      next one starts. */
  function Run(remote: Remote, ledger: Option<seq<Row>>, links: seq<string>): (r: seq<Row>)
    ensures ledger.Some? ==> ledger.value <= r
    ensures ledger.None? ==> forall i :: 0 <= i < |r| ==> r[i].pcurl in links
    ensures ledger.Some? ==> forall i :: |ledger.value| <= i < |r| ==>
      r[i].pcurl in links && r[i].pcurl !in PcurlColumn(ledger.value)
  {
    ledger.GetOr([]) + RowsFor(remote, Scheduled(links, ledger))
  }

  /** Every row that processing a scheduled link saves is appended, at least
      as often as processing the link saves it. */
  lemma RunComplete(remote: Remote, ledger: Option<seq<Row>>, links: seq<string>, l: string)
    requires l in Scheduled(links, ledger)
    ensures multiset(ProcessUrl(remote, l)) <= multiset(Run(remote, ledger, links)[|ledger.GetOr([])|..])
  {
    var scheduled := Scheduled(links, ledger);
    var i :| 0 <= i < |scheduled| && scheduled[i] == l;
    RowsForComplete(remote, scheduled, i);
    assert Run(remote, ledger, links)[|ledger.GetOr([])|..] == RowsFor(remote, scheduled);
  }

  /** The rows a run appends: a row of a link already in the ledger never,
      any other row once for every copy of its link in the input, times as
      often as processing that link saves it. */
  lemma RunNewRows(remote: Remote, ledger: Option<seq<Row>>, links: seq<string>, row: Row)
    ensures multiset(Run(remote, ledger, links)[|ledger.GetOr([])|..])[row]
         == if AlreadyProcessed(row.pcurl, ledger) then 0
            else Times(multiset(links)[row.pcurl], multiset(ProcessUrl(remote, row.pcurl))[row])
  {
    var keep := l => !AlreadyProcessed(l, ledger);
    var added := RowsFor(remote, Scheduled(links, ledger));
    assert Run(remote, ledger, links)[|ledger.GetOr([])|..] == added;
    RowsForMultiplicity(remote, Scheduled(links, ledger), row);
    FilterMultiplicity(links, keep, row.pcurl);
  }

  /** Re-running on links that are all in the ledger leaves it unchanged. */
  lemma RerunIsNoOp(remote: Remote, ledger: seq<Row>, links: seq<string>)
    requires forall l :: l in links ==> l in PcurlColumn(ledger)
    ensures Run(remote, Some(ledger), links) == ledger
  {
    forall i | 0 <= i < |links| ensures AlreadyProcessed(links[i], Some(ledger)) {
      assert links[i] in links;
    }
    NoneKept(links, l => !AlreadyProcessed(l, Some(ledger)));
    assert ledger + [] == ledger;
  }
}
