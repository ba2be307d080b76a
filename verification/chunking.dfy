/** split_and_save.py: cutting the input rows into chunk files of a fixed
    size, naming those files, and the compose services that run one scraper
    per chunk file. */
module Chunking {
  import opened Wrappers
  import opened Seqs
  import opened Decimal

  // --------------------------------------------------------- chunks

  /** `[rows[i:i+k] for i in range(0, len(rows), k)]` for a positive `k`:
      the chunks put back together are the rows, every chunk but the last
      holds `k` rows, the last between 1 and `k`, and there are
      `ceil(len(rows) / k)` of them: the least count whose `k`-fold reaches
      the row count. */
  function ChunksOf<T>(rows: seq<T>, k: nat): (r: seq<seq<T>>)
    requires k > 0
    ensures Flatten(r) == rows
    ensures forall i :: 0 <= i < |r| - 1 ==> |r[i]| == k
    ensures |r| > 0 ==> 0 < |r[|r| - 1]| <= k
    ensures |r| == 0 <==> |rows| == 0
    ensures |r| > 0 ==> (|r| - 1) * k < |rows| <= |r| * k
    decreases |rows|
  {
    if |rows| == 0 then []
    else if |rows| <= k then
      assert Flatten([rows]) == rows + Flatten([]);
      [rows]
    else
      var rest := ChunksOf(rows[k..], k);
      var r := [rows[..k]] + rest;
      assert r[1..] == rest;
      assert rows == rows[..k] + rows[k..];
      ChunkCountStep(|rest|, k, |rows|);
      r
  }

  /** One more chunk of `k` rows keeps the count the ceiling. */
  lemma ChunkCountStep(m: int, k: int, n: int)
    requires k > 0 && m >= 1
    requires (m - 1) * k < n - k <= m * k
    ensures m * k < n <= (m + 1) * k
  {
    assert (m + 1) * k == m * k + k;
    assert m * k == (m - 1) * k + k;
  }

  /** `split_and_save_csv`'s chunking (split_and_save.py:11) for any integer
      chunk size: `range` with a step of zero raises, so a zero size yields
      `None`; a negative step gives an empty range, so no chunk at all. */
  function Chunks<T>(rows: seq<T>, chunkSize: int): (r: Option<seq<seq<T>>>)
    ensures r.None? <==> chunkSize == 0
    ensures chunkSize < 0 ==> r == Some([])
    ensures chunkSize > 0 ==> r == Some(ChunksOf(rows, chunkSize))
    ensures chunkSize > 0 ==> r.Some? && Flatten(r.value) == rows
    ensures chunkSize > 0 && |rows| > 0 ==>
      (|r.value| - 1) * chunkSize < |rows| <= |r.value| * chunkSize
  {
    if chunkSize == 0 then None
    else if chunkSize < 0 then Some([])
    else Some(ChunksOf(rows, chunkSize))
  }

  /** No rows, no chunks (and so no chunk files). */
  lemma EmptyInputNoChunks<T>(chunkSize: int)
    requires chunkSize != 0
    ensures Chunks<T>([], chunkSize) == Some([])
  {
  }

  // --------------------------------------------------------- file names

  /** The name of chunk `i` (0-based) of input file stem `stem`
      (split_and_save.py:16): `<stem>_chunk_<i+1>.csv`. */
  function ChunkFileName(stem: string, i: nat): (r: string)
    ensures |r| > |stem| + 11
    ensures r[..|stem| + 7] == stem + "_chunk_"
    ensures r[|r| - 4..] == ".csv"
    ensures r[|stem| + 7..|r| - 4] == NatToString(i + 1)
  {
    stem + "_chunk_" + NatToString(i + 1) + ".csv"
  }

  /** Different chunks get different file names, so no chunk overwrites another. */
  lemma ChunkFileNamesDistinct(stem: string, i: nat, j: nat)
    requires ChunkFileName(stem, i) == ChunkFileName(stem, j)
    ensures i == j
  {
    var p := stem + "_chunk_";
    var a := p + NatToString(i + 1);
    var b := p + NatToString(j + 1);
    assert ChunkFileName(stem, i) == a + ".csv";
    assert ChunkFileName(stem, j) == b + ".csv";
    assert |a| == |b|;
    assert (a + ".csv")[..|a|] == a;
    assert (b + ".csv")[..|b|] == b;
    PrefixedNumberInjective(p, i + 1, j + 1);
  }

  /** The files of `count` chunks, in chunk order. */
  function ChunkFiles(stem: string, count: nat): (r: seq<string>)
    ensures |r| == count
    ensures forall i :: 0 <= i < count ==> r[i] == ChunkFileName(stem, i)
    ensures NoDup(r)
  {
    var r := seq(count, i requires 0 <= i < count => ChunkFileName(stem, i));
    forall i, j | 0 <= i < j < count ensures r[i] != r[j] {
      if r[i] == r[j] {
        ChunkFileNamesDistinct(stem, i, j);
      }
    }
    r
  }

  // --------------------------------------------------------- compose services

  /** A compose service: the shared base, or one scraper that extends it. */
  datatype Service =
    | Base(
        buildContext: string,
        dockerfile: string,
        restart: string,
        environment: seq<string>,
        volumes: seq<string>,
        restartCondition: string,
        restartDelay: string)
    | Worker(extendsName: string, containerName: string, environment: seq<string>)

  const BaseName := "scraper-base"

  /** The `scraper-base` service of split_and_save.py:26-40. */
  const BaseService := Base(".", "Dockerfile", "on-failure", ["PYTHONUNBUFFERED=1"], [".:/usr/src/app"], "on-failure", "5s")

  /** `scraper-<k>`. */
  function ServiceName(k: nat): string {
    "scraper-" + NatToString(k)
  }

  /** The service of the `k`-th chunk file (split_and_save.py:45-53): it
      extends the base and points `INPUT_FILE` at the file inside the
      output directory as mounted in the container. */
  function WorkerFor(outputDir: string, fileName: string, k: nat): (s: Service)
    ensures s.Worker? && s.extendsName == BaseName
    ensures s.environment == ["PYTHONUNBUFFERED=1", "INPUT_FILE=/usr/src/app/" + outputDir + "/" + fileName]
    ensures s.containerName == "scraper_container_" + NatToString(k)
  {
    Worker(BaseName, "scraper_container_" + NatToString(k), ["PYTHONUNBUFFERED=1", "INPUT_FILE=/usr/src/app/" + outputDir + "/" + fileName])
  }

  /** No worker is named like the base. */
  lemma ServiceNameNotBase(k: nat)
    ensures ServiceName(k) != BaseName
  {
    var s := ServiceName(k);
    assert s[8] == NatToString(k)[0];
    assert IsDigit(s[8]);
    assert BaseName[8] == 'b';
  }

  /** Workers of different files have different names. */
  lemma ServiceNamesDistinct(j: nat, k: nat)
    requires ServiceName(j) == ServiceName(k)
    ensures j == k
  {
    PrefixedNumberInjective("scraper-", j, k);
  }

  /** The `services` map of `build_docker_compose` (split_and_save.py:24-53)
      for the listed chunk files: `scraper-base` and `scraper-1` to
      `scraper-m` for `m` files, each worker pointing at its own file, and
      no entry overwritten. */
  function Services(outputDir: string, files: seq<string>): (m: map<string, Service>)
    ensures BaseName in m && m[BaseName] == BaseService
    ensures forall k :: 1 <= k <= |files| ==>
      ServiceName(k) in m && m[ServiceName(k)] == WorkerFor(outputDir, files[k - 1], k)
    ensures forall name :: name in m ==>
      name == BaseName || exists k :: 1 <= k <= |files| && name == ServiceName(k)
    ensures |m| == |files| + 1
  {
    if |files| == 0 then map[BaseName := BaseService]
    else
      var n := |files|;
      var prev := Services(outputDir, files[..n - 1]);
      ServiceNameNotBase(n);
      forall k | 1 <= k < n ensures ServiceName(k) != ServiceName(n) {
        if ServiceName(k) == ServiceName(n) {
          ServiceNamesDistinct(k, n);
        }
      }
      assert ServiceName(n) !in prev;
      prev[ServiceName(n) := WorkerFor(outputDir, files[n - 1], n)]
  }

  /** No two workers of one compose file share a container name. */
  lemma ContainerNamesDistinct(outputDir: string, files: seq<string>, j: nat, k: nat)
    requires 1 <= j < k <= |files|
    ensures Services(outputDir, files)[ServiceName(j)].containerName
         != Services(outputDir, files)[ServiceName(k)].containerName
  {
    var m := Services(outputDir, files);
    if m[ServiceName(j)].containerName == m[ServiceName(k)].containerName {
      PrefixedNumberInjective("scraper_container_", j, k);
    }
  }

  /** The compose file for `n` chunk files has one service per file plus the
      base, and `scraper-j` reads chunk file `j`, `<stem>_chunk_<j>.csv`. */
  lemma ComposeOfChunkFiles(stem: string, outputDir: string, n: nat)
    ensures |Services(outputDir, ChunkFiles(stem, n))| == n + 1
    ensures forall j :: 1 <= j <= n ==>
      Services(outputDir, ChunkFiles(stem, n))[ServiceName(j)].environment[1]
        == "INPUT_FILE=/usr/src/app/" + outputDir + "/" + ChunkFileName(stem, j - 1)
  {
    forall j | 1 <= j <= n
      ensures Services(outputDir, ChunkFiles(stem, n))[ServiceName(j)].environment[1]
           == "INPUT_FILE=/usr/src/app/" + outputDir + "/" + ChunkFileName(stem, j - 1)
    {
      WorkerReads(outputDir, ChunkFiles(stem, n), j);
    }
  }

  /** Any listing of the chunk files of one split, in whatever order `glob`
      returns them (split_and_save.py:22): `n` files, no file twice, every
      chunk file present and nothing else. */
  lemma ChunkListing(stem: string, n: nat, files: seq<string>)
    requires multiset(files) == multiset(ChunkFiles(stem, n))
    ensures |files| == n
    ensures NoDup(files)
    ensures forall i :: 0 <= i < n ==> ChunkFileName(stem, i) in files
    ensures forall j :: 0 <= j < n ==> exists i :: 0 <= i < n && files[j] == ChunkFileName(stem, i)
  {
    var chunks := ChunkFiles(stem, n);
    assert |multiset(files)| == |files|;
    assert |multiset(chunks)| == |chunks|;
    SameMultisetNoDup(files, chunks);
    forall i | 0 <= i < n ensures ChunkFileName(stem, i) in files {
      assert chunks[i] in multiset(files);
    }
    forall j | 0 <= j < n ensures exists i :: 0 <= i < n && files[j] == ChunkFileName(stem, i) {
      assert files[j] in multiset(chunks);
      var i :| 0 <= i < n && chunks[i] == files[j];
    }
  }

  /** The compose file of the chunk files of one split, listed in any order:
      a worker per chunk file, worker `j` reading the `j`-th listed file, so
      every chunk file is read by exactly one worker. */
  lemma ComposeAnyOrder(stem: string, outputDir: string, n: nat, files: seq<string>)
    requires multiset(files) == multiset(ChunkFiles(stem, n))
    ensures |files| == n && NoDup(files)
    ensures forall i :: 0 <= i < n ==> ChunkFileName(stem, i) in files
    ensures |Services(outputDir, files)| == n + 1
    ensures forall j :: 1 <= j <= n ==>
      Services(outputDir, files)[ServiceName(j)].environment[1]
        == "INPUT_FILE=/usr/src/app/" + outputDir + "/" + files[j - 1]
  {
    ChunkListing(stem, n, files);
    forall j | 1 <= j <= n
      ensures Services(outputDir, files)[ServiceName(j)].environment[1]
           == "INPUT_FILE=/usr/src/app/" + outputDir + "/" + files[j - 1]
    {
      WorkerReads(outputDir, files, j);
    }
  }

  /** Worker `j` reads file `j` of the list. */
  lemma WorkerReads(outputDir: string, files: seq<string>, j: nat)
    requires 1 <= j <= |files|
    ensures Services(outputDir, files)[ServiceName(j)].environment[1]
         == "INPUT_FILE=/usr/src/app/" + outputDir + "/" + files[j - 1]
  {
  }


  /** Splitting and composing together: the compose file of the chunk files
      of one split has a worker per chunk, `scraper-j` reading chunk file `j`. */
  lemma SplitThenCompose<T>(rows: seq<T>, k: nat, stem: string, outputDir: string)
    requires k > 0
    ensures |Services(outputDir, ChunkFiles(stem, |ChunksOf(rows, k)|))| == |ChunksOf(rows, k)| + 1
    ensures forall j :: 1 <= j <= |ChunksOf(rows, k)| ==>
      Services(outputDir, ChunkFiles(stem, |ChunksOf(rows, k)|))[ServiceName(j)].environment[1]
        == "INPUT_FILE=/usr/src/app/" + outputDir + "/" + ChunkFileName(stem, j - 1)
  {
    ComposeOfChunkFiles(stem, outputDir, |ChunksOf(rows, k)|);
  }
}
