/**
 * What the three download screens (`DownloadScreen`, `PlanDownloadScreen`,
 * `ProviderDownloadScreen`) show while `prefetch` runs: the `(cachedItems, totalItems)` pair that
 * `updateCounts` copies from each `changeCallback` call, the progress bar's percentage, and the
 * condition under which the Start button replaces the progress bar.
 */
module DownloadProgress {
  import opened CachedData

  /** The screen's `cachedItems` and `totalItems`. */
  datatype Counts = Counts(cached: nat, total: nat)

  /** `ready && cachedItems === totalItems`: the Start button is shown. */
  predicate StartVisible(ready: bool, counts: Counts) {
    ready && counts.cached == counts.total
  }

  /**
   * The progress bar's width in percent: 0 with nothing to download, else the finished files plus
   * the current file's fraction, over the number of files.
   */
  function ProgressPercent(counts: Counts, currentFileProgress: real): (percent: real)
    ensures counts.total == 0 ==> percent == 0.0
    ensures counts.total > 0 ==>
      percent * (counts.total as real) == (counts.cached as real + currentFileProgress) * 100.0
    ensures counts.cached < counts.total && 0.0 <= currentFileProgress <= 1.0 ==>
      0.0 <= percent <= 100.0
  {
    if counts.total > 0 then
      var t := counts.total as real;
      var done := counts.cached as real + currentFileProgress;
      assert done / t * 100.0 * t == done * 100.0;
      if counts.cached < counts.total && 0.0 <= currentFileProgress <= 1.0 then
        assert done <= t;
        assert 0.0 <= done / t <= 1.0;
        done / t * 100.0
      else done / t * 100.0
    else 0.0
  }

  /** The counts after `updateCounts` has seen every `changeCallback` call of a log. */
  function CountsAfter(log: seq<Event>, start: Counts): (c: Counts)
    ensures c == start || exists i :: 0 <= i < |log| && log[i] == Aggregate(c.cached, c.total)
    ensures (forall i :: 0 <= i < |log| ==> log[i].FileProgress?) ==> c == start
  {
    if log == [] then start
    else
      match log[|log| - 1]
      case Aggregate(cached, total) => Counts(cached, total)
      case FileProgress(_) =>
        var front := log[..|log| - 1];
        assert forall i :: 0 <= i < |front| ==> front[i] == log[i];
        CountsAfter(front, start)
  }

  /** `currentFileProgress` after `updateFileProgress` has seen every `fileProgressCallback` call. */
  function FileProgressAfter(log: seq<Event>, start: real): (r: real)
    ensures r == start || exists i :: 0 <= i < |log| && log[i] == FileProgress(r)
    ensures (forall i :: 0 <= i < |log| ==> log[i].Aggregate?) ==> r == start
  {
    if log == [] then start
    else
      match log[|log| - 1]
      case FileProgress(ratio) => ratio
      case Aggregate(_, _) =>
        var front := log[..|log| - 1];
        assert forall i :: 0 <= i < |front| ==> front[i] == log[i];
        FileProgressAfter(front, start)
  }

  /** The counts a log leaves are those of its last `changeCallback` call, if it has one. */
  lemma {:induction false} CountsAfterLastAggregate(log: seq<Event>, start: Counts)
    ensures var a := Aggregates(log);
      CountsAfter(log, start) == if a == [] then start
                                 else Counts(a[|a| - 1].cached, a[|a| - 1].total)
  {
    if log != [] {
      CountsAfterLastAggregate(log[..|log| - 1], start);
    }
  }

  /**
   * Once `prefetch` has finished, the screen shows `cachedItems == totalItems == |files|`, so
   * `ready` alone decides whether Start appears.
   */
  lemma PrefetchCompletesCounts(cachesDir: string, decode: string -> string, files: seq<MediaFile>,
                                net: nat -> Transfer, disk: set<string>, start: Counts)
    ensures var log := PrefetchRun(cachesDir, decode, files, |files|, net, disk).log;
      CountsAfter(log, start) == Counts(|files|, |files|)
      && StartVisible(true, CountsAfter(log, start))
  {
    var log := PrefetchRun(cachesDir, decode, files, |files|, net, disk).log;
    PrefetchCountsUp(cachesDir, decode, files, |files|, net, disk);
    CountsAfterLastAggregate(log, start);
  }
}
