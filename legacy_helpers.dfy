/**
 * `measure_loop` of degiro/portfolio/lib/helpers.py: the portfolio measures
 * gathered into one dictionary.
 */
module LegacyHelpers {
  import opened Assoc
  import opened DegiroApi

  /**
   * `measure_loop`: `measures` are the dictionaries the six measures
   * (returns, annualized returns, standard deviation, Sharpe ratio, value at
   * risk, maximum drawdown) computed from the series, in the switcher's key
   * order; each is unpacked over the dictionary built so far, so a later
   * measure's key overrides an earlier one.
   */
  method MeasureLoop(measures: seq<Dict<string, real>>) returns (data: Dict<string, real>)
    ensures data == MergeAll(measures)
  {
    data := [];
    var k := 0;
    while k < |measures|
      invariant 0 <= k <= |measures|
      invariant data == MergeAll(measures[..k])
    {
      MergeAllStep(measures, k);
      data := Merge(data, measures[k]);
      k := k + 1;
    }
    assert measures[..k] == measures;
  }
}
