/**
  The service object: its registry of charts, the registration of the two core charts when
  metrics are enabled, and the gathering of every registered chart's contribution.
*/
module Metrics {
  import opened Results
  import opened Json
  import opened Charts
  import JsonBuilders

  /** The kinds of chart there are: the two core charts, and the pie charts callers register. */
  datatype ChartKind = PlatformKind(serviceId: int) | ServiceVersionKind | SimplePieKind

  /** A chart object; registration compares charts by identity. */
  class Chart {
    const chartId: string
    const kind: ChartKind

    constructor(chartId: string, kind: ChartKind)
      ensures this.chartId == chartId && this.kind == kind
    {
      this.chartId := chartId;
      this.kind := kind;
    }
  }

  const NullChartError := "NullPointerException"

  class MetricsService {
    /** Whether the configuration enables metrics. */
    const enabled: bool
    /** The registered charts, each once, in the order they were first registered. */
    var charts: seq<Chart>

    ghost predicate Valid()
      reads this
    {
      forall i, j :: 0 <= i < j < |charts| ==> charts[i] != charts[j]
    }

    /**
      A service whose configuration enables metrics starts with the platform chart and the
      service-version chart registered; a disabled one starts with none.
    */
    constructor(enabled: bool, serviceId: int)
      ensures Valid() && this.enabled == enabled
      ensures !enabled ==> charts == []
      ensures enabled ==> |charts| == 2
      ensures enabled ==> fresh(charts[0]) && charts[0].chartId == "platform" && charts[0].kind == PlatformKind(serviceId)
      ensures enabled ==> fresh(charts[1]) && charts[1].chartId == "serviceVersion" && charts[1].kind == ServiceVersionKind
    {
      this.enabled := enabled;
      charts := [];
      new;
      if enabled {
        RegisterCoreCharts(serviceId);
      }
    }

    /** Registers a fresh platform chart and a fresh service-version chart. */
    method RegisterCoreCharts(serviceId: int)
      requires Valid()
      modifies this
      ensures Valid()
      ensures |charts| == |old(charts)| + 2 && charts[..|old(charts)|] == old(charts)
      ensures fresh(charts[|old(charts)|]) && fresh(charts[|old(charts)| + 1])
      ensures charts[|old(charts)|].chartId == "platform" && charts[|old(charts)|].kind == PlatformKind(serviceId)
      ensures charts[|old(charts)| + 1].chartId == "serviceVersion"
      ensures charts[|old(charts)| + 1].kind == ServiceVersionKind
    {
      var platform := new Chart("platform", PlatformKind(serviceId));
      var r := RegisterChart(platform);
      var version := new Chart("serviceVersion", ServiceVersionKind);
      r := RegisterChart(version);
    }

    /**
      Adds `chart` to the registry unless it is already there; a registry holds each chart
      object once. A null chart is refused with an exception and changes nothing.
    */
    method RegisterChart(chart: Chart?) returns (r: Result<()>)
      requires Valid()
      modifies this
      ensures Valid()
      ensures r.Err? <==> chart == null
      ensures chart == null ==> charts == old(charts)
      ensures chart != null && chart in old(charts) ==> charts == old(charts)
      ensures chart != null && chart !in old(charts) ==> charts == old(charts) + [chart]
    {
      if chart == null {
        return Err(NullChartError);
      }
      if chart !in charts {
        charts := charts + [chart];
      }
      r := Ok(());
    }

    /**
      The data collections agree with the registered charts' kinds: a platform chart reports
      its service id and the given server type. Pie and service-version charts are left free.
    */
    predicate KindsRespected(outcome: Chart -> DataOutcome, serverType: string)
      reads this
    {
      forall i :: 0 <= i < |charts| && charts[i].kind.PlatformKind? ==>
        outcome(charts[i]) == PlatformData(charts[i].kind.serviceId, serverType)
    }

    /** Each registered chart's id with what its data collection does, in registry order. */
    function Entries(outcome: Chart -> DataOutcome): seq<(string, DataOutcome)>
      reads this
    {
      seq(|charts|, i reads this requires 0 <= i < |charts| => (charts[i].chartId, outcome(charts[i])))
    }

    /**
      `collectCharts`: the envelopes of the registered charts that have data, in registry
      order, and the warnings for those whose collection threw.
    */
    function CollectCharts(outcome: Chart -> DataOutcome): (c: Collection)
      reads this
      ensures |c.envelopes| <= |charts|
      ensures |c.envelopes| == CountWithData(Entries(outcome))
      ensures |c.warnings| == CountThrowing(Entries(outcome))
      ensures forall x :: x in c.envelopes <==>
        exists i :: 0 <= i < |charts| && outcome(charts[i]).Value? &&
          x == Envelope(charts[i].chartId, outcome(charts[i]).data)
    {
      var es := Entries(outcome);
      assert |es| == |charts|;
      assert forall i :: 0 <= i < |charts| ==> es[i] == (charts[i].chartId, outcome(charts[i]));
      CollectAllCounts(es);
      forall x ensures x in CollectAll(es).envelopes <==>
        exists i :: 0 <= i < |charts| && outcome(charts[i]).Value? &&
          x == Envelope(charts[i].chartId, outcome(charts[i]).data)
      {
        CollectAllMembers(es, x);
      }
      CollectAll(es)
    }

    /** `collectCharts` as written: the non-null results gathered by the array collector. */
    method CollectChartArray(outcome: Chart -> DataOutcome) returns (arr: JsonBuilders.JsonArray)
      ensures fresh(arr) && arr.items == CollectCharts(outcome).envelopes
    {
      var c := CollectCharts(outcome);
      arr := JsonBuilders.Collect(c.envelopes);
    }
  }

  /**
    Of the registered charts, one whose data collection throws costs its own envelope and
    logs one warning naming it; every other chart is still sent.
  */
  lemma OneChartThrows(service: MetricsService, outcome: Chart -> DataOutcome, k: nat)
    requires k < |service.charts| && outcome(service.charts[k]).Throws?
    requires forall i :: 0 <= i < |service.charts| && i != k ==> outcome(service.charts[i]).Value?
    ensures |service.CollectCharts(outcome).envelopes| == |service.charts| - 1
    ensures service.CollectCharts(outcome).warnings == [WarningPrefix + service.charts[k].chartId]
  {
    var es := service.Entries(outcome);
    var a, b := es[..k], es[k + 1..];
    assert es == a + [(service.charts[k].chartId, Throws)] + b;
    assert AllHaveData(a) by {
      forall i | 0 <= i < |a| ensures a[i].1.Value? {
        assert a[i] == es[i];
      }
    }
    assert AllHaveData(b) by {
      forall i | 0 <= i < |b| ensures b[i].1.Value? {
        assert b[i] == es[k + 1 + i];
      }
    }
    OneOfManyThrows(a, service.charts[k].chartId, b);
  }

  /**
    A registered platform chart is always sent when the data collections agree with the kinds:
    its data never throws and is never null.
  */
  lemma PlatformChartSent(service: MetricsService, outcome: Chart -> DataOutcome, serverType: string, k: nat)
    requires k < |service.charts| && service.charts[k].kind.PlatformKind?
    requires service.KindsRespected(outcome, serverType)
    ensures outcome(service.charts[k]).Value?
    ensures Envelope(service.charts[k].chartId, outcome(service.charts[k]).data) in
      service.CollectCharts(outcome).envelopes
  {
    var c := service.charts[k];
    assert outcome(c) == PlatformData(c.kind.serviceId, serverType);
  }
}
