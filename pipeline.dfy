/**
 * The two stages together: the records the collector returns are the
 * analyzer's input, one record at a time.
 */
module Pipeline {
  import opened PyJson
  import Collector
  import Analyzer

  /**
   * Every record a completed collect stores holds exactly `symbol` and
   * `price` and no `prices` list, so analysing it always yields the
   * "No clear trend" label.
   */
  lemma CollectedRecordHasNoTrend(symbols: seq<string>, script: seq<Collector.Reply>, cursor: nat, s: string)
    requires Collector.Gather(map[], Collector.Trace(symbols, script, cursor)).Returned?
    requires s in Collector.Gather(map[], Collector.Trace(symbols, script, cursor)).value
    ensures var record := Collector.Gather(map[], Collector.Trace(symbols, script, cursor)).value[s];
      Analyzer.AnalyzeTrends(Obj(record)) == map["opportunity" := Analyzer.NoTrendLabel]
  {
    Collector.CollectSpec(symbols, script, cursor);
    var record := Collector.Gather(map[], Collector.Trace(symbols, script, cursor)).value[s];
    assert "symbol" in record.Keys && "prices" !in record.Keys;
    Analyzer.NoPricesIsFlat(Obj(record));
  }
}
