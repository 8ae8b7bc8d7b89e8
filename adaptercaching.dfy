/** The caching adapter: a process-wide table, keyed by a line, in front of
    the same rasteriser. Go keys the table by an MD5 digest of the line's
    JSON form; here the line value itself is the key, which distinguishes
    exactly the lines the four-field digest is meant to distinguish. */
module AdapterCaching {
  import opened Adapter

  type Table = map<Line, seq<Point>>

  /** The global point cache. Go's entries are slices of an adapter's
      buffer; later appends to that buffer only write past a stored slice's
      length, so each entry behaves as the snapshot a sequence value is. */
  class PointCache {
    var entries: Table

    constructor ()
      ensures entries == map[]
    {
      entries := map[];
    }
  }

  /** One cached step on (accumulated points, table): a hit appends the
      stored points and leaves the table alone; a miss appends the line's
      own points and stores the whole accumulated buffer under the line. */
  function CachedStep(acc: seq<Point>, table: Table, line: Line): (seq<Point>, Table)
  {
    if line in table then (acc + table[line], table)
    else (acc + LinePoints(line), table[line := acc + LinePoints(line)])
  }

  /** The points and the table after a fresh adapter has handled every
      line, starting from the given table. */
  function RunCached(table: Table, lines: seq<Line>): (seq<Point>, Table)
  {
    if lines == [] then ([], table)
    else
      var prev := RunCached(table, lines[..|lines| - 1]);
      CachedStep(prev.0, prev.1, lines[|lines| - 1])
  }

  /** Handles one line through the cache. On a hit the rasteriser does not
      run and the table is not written; on a miss the line is rasterised
      (the same two loops as RasterAdapter.AddLine) and the table maps the
      line to everything accumulated so far. */
  method AddLineCached(a: RasterAdapter, cache: PointCache, line: Line)
    modifies a, cache
    ensures line in old(cache.entries) ==>
      a.points == old(a.points) + old(cache.entries)[line] && cache.entries == old(cache.entries)
    ensures line !in old(cache.entries) ==>
      a.points == old(a.points) + LinePoints(line) && cache.entries == old(cache.entries)[line := a.points]
  {
    if line in cache.entries {
      a.points := a.points + cache.entries[line];
      return;
    }
    a.AddLine(line);
    cache.entries := cache.entries[line := a.points];
  }

  /** A fresh adapter fed every line of the image through the cache. */
  method VectorToRasterCached(vi: VectorImage, cache: PointCache) returns (a: RasterAdapter)
    modifies cache
    ensures fresh(a)
    ensures (a.points, cache.entries) == RunCached(old(cache.entries), vi.lines)
  {
    a := new RasterAdapter();
    for i := 0 to |vi.lines|
      invariant (a.points, cache.entries) == RunCached(old(cache.entries), vi.lines[..i])
    {
      assert vi.lines[..i + 1][..i] == vi.lines[..i];
      AddLineCached(a, cache, vi.lines[i]);
    }
    assert vi.lines[..|vi.lines|] == vi.lines;
  }

  /** A step writes at most the key of its own line: every other entry, and
      every entry that was already there, is unchanged. */
  lemma StepWritesOnlyItsLine(acc: seq<Point>, table: Table, line: Line)
    ensures CachedStep(acc, table, line).1.Keys == table.Keys + {line}
    ensures forall k :: k in table ==> CachedStep(acc, table, line).1[k] == table[k]
  {
  }

  /** After a run, the table's keys are the old keys and the image's lines. */
  lemma {:induction false} RunCachedKeys(table: Table, lines: seq<Line>)
    ensures RunCached(table, lines).1.Keys == table.Keys + set l | l in lines
  {
    if lines != [] {
      var front := lines[..|lines| - 1];
      RunCachedKeys(table, front);
      assert (set l | l in lines) == (set l | l in front) + {lines[|lines| - 1]};
    }
  }

  /** After a run every line of the image is a key in the table. */
  lemma EveryLineCached(table: Table, lines: seq<Line>)
    ensures forall l :: l in lines ==> l in RunCached(table, lines).1
  {
    RunCachedKeys(table, lines);
  }

  /** A run never overwrites an entry that was in the table before. */
  lemma {:induction false} RunCachedKeepsEntries(table: Table, lines: seq<Line>)
    ensures forall k :: k in table ==> k in RunCached(table, lines).1 && RunCached(table, lines).1[k] == table[k]
  {
    if lines != [] {
      RunCachedKeepsEntries(table, lines[..|lines| - 1]);
    }
  }

  /** When every line is already cached, a run takes the hit path every
      time and writes nothing. */
  lemma {:induction false} AllHitsWriteNothing(table: Table, lines: seq<Line>)
    requires forall l :: l in lines ==> l in table
    ensures RunCached(table, lines).1 == table
  {
    if lines != [] {
      var front := lines[..|lines| - 1];
      assert forall l :: l in front ==> l in lines;
      AllHitsWriteNothing(table, front);
      assert lines[|lines| - 1] in lines;
    }
  }

  /** Converting the same image a second time makes no cache writes. */
  lemma SecondRunWritesNothing(table: Table, lines: seq<Line>)
    ensures RunCached(RunCached(table, lines).1, lines).1 == RunCached(table, lines).1
  {
    EveryLineCached(table, lines);
    AllHitsWriteNothing(RunCached(table, lines).1, lines);
  }

  /** When the image's lines are distinct and none is cached, every line
      misses and the points are exactly those of the uncached adapter. */
  lemma {:induction false} AllMissesMatchRasterize(table: Table, lines: seq<Line>)
    requires forall i, j :: 0 <= i < j < |lines| ==> lines[i] != lines[j]
    requires forall l :: l in lines ==> l !in table
    ensures RunCached(table, lines).0 == Rasterize(lines)
  {
    if lines != [] {
      var front, last := lines[..|lines| - 1], lines[|lines| - 1];
      assert forall l :: l in front ==> l in lines;
      AllMissesMatchRasterize(table, front);
      RunCachedKeys(table, front);
    }
  }

  // ---------------------------------------------------------------------
  // The stored value on a miss is the whole accumulated buffer, so a later
  // hit on that line replays the points of every line handled before it.

  /** Two one-point lines, then the second line alone: the cached adapter
      gives back both points, where the uncached adapter gives one. */
  lemma HitReplaysEarlierLines()
    ensures var a, b := Line(0, 0, 0, 0), Line(1, 1, 1, 1);
            var table := RunCached(map[], [a, b]).1;
            RunCached(table, [b]).0 == [Point(0, 0), Point(1, 1)]
            && Rasterize([b]) == [Point(1, 1)]
  {
    var a, b := Line(0, 0, 0, 0), Line(1, 1, 1, 1);
    assert LinePoints(a) == [Point(0, 0)];
    assert LinePoints(b) == [Point(1, 1)];
    assert [a, b][..1] == [a];
    assert [a][..0] == [];
    var t0 := RunCached(map[], []);
    assert t0 == ([], map[]);
    var t1 := RunCached(map[], [a]);
    assert t1 == CachedStep([], map[], a);
    assert [] + LinePoints(a) == [Point(0, 0)];
    assert t1.0 == [Point(0, 0)] && t1.1.Keys == {a};
    var t2 := RunCached(map[], [a, b]);
    assert t2 == CachedStep(t1.0, t1.1, b);
    assert t2.1[b] == [Point(0, 0), Point(1, 1)];
    assert [b][..0] == [];
    assert RunCached(t2.1, [b]) == CachedStep([], t2.1, b);
  }

  /** The step as evidently intended: a miss stores only this line's points. */
  function PerLineStep(acc: seq<Point>, table: Table, line: Line): (seq<Point>, Table)
  {
    if line in table then (acc + table[line], table)
    else (acc + LinePoints(line), table[line := LinePoints(line)])
  }

  function RunPerLine(table: Table, lines: seq<Line>): (seq<Point>, Table)
  {
    if lines == [] then ([], table)
    else
      var prev := RunPerLine(table, lines[..|lines| - 1]);
      PerLineStep(prev.0, prev.1, lines[|lines| - 1])
  }

  /** Every entry holds exactly the points of its own line. */
  ghost predicate Consistent(table: Table)
  {
    forall k :: k in table ==> table[k] == LinePoints(k)
  }

  /** With per-line entries the cache is invisible: from a consistent table
      a run yields exactly the uncached points and leaves a consistent table. */
  lemma {:induction false} PerLineCacheMatchesRasterize(table: Table, lines: seq<Line>)
    requires Consistent(table)
    ensures RunPerLine(table, lines).0 == Rasterize(lines)
    ensures Consistent(RunPerLine(table, lines).1)
  {
    if lines != [] {
      PerLineCacheMatchesRasterize(table, lines[..|lines| - 1]);
    }
  }

  /** The corrected cached step: like AddLineCached, except that a miss
      stores this line's points rather than the whole buffer. */
  method AddLineCachedPerLine(a: RasterAdapter, cache: PointCache, line: Line)
    modifies a, cache
    ensures (a.points, cache.entries) == PerLineStep(old(a.points), old(cache.entries), line)
  {
    if line in cache.entries {
      a.points := a.points + cache.entries[line];
      return;
    }
    var start := |a.points|;
    a.AddLine(line);
    cache.entries := cache.entries[line := a.points[start..]];
  }

  /** The corrected conversion; from a consistent cache it returns exactly
      the points of the uncached conversion. */
  method VectorToRasterCachedPerLine(vi: VectorImage, cache: PointCache) returns (a: RasterAdapter)
    modifies cache
    ensures fresh(a)
    ensures (a.points, cache.entries) == RunPerLine(old(cache.entries), vi.lines)
    ensures Consistent(old(cache.entries)) ==> a.points == Rasterize(vi.lines) && Consistent(cache.entries)
  {
    a := new RasterAdapter();
    for i := 0 to |vi.lines|
      invariant (a.points, cache.entries) == RunPerLine(old(cache.entries), vi.lines[..i])
    {
      assert vi.lines[..i + 1][..i] == vi.lines[..i];
      AddLineCachedPerLine(a, cache, vi.lines[i]);
    }
    assert vi.lines[..|vi.lines|] == vi.lines;
    if Consistent(old(cache.entries)) {
      PerLineCacheMatchesRasterize(old(cache.entries), vi.lines);
    }
  }
}
