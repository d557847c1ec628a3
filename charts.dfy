/**
  What a chart contributes to a submission. `AbstractChart.collect` wraps the chart's data
  in an envelope `{"chartId": …, "data": …}`; a chart that has no data contributes nothing,
  and one whose data collection throws contributes nothing but a logged warning.
  `collectCharts` gathers the envelopes of all registered charts into one array.
*/
module Charts {
  import opened Results
  import opened Json

  /** What a chart's `collectData` does: throws an `Exception`, returns null, or returns a value. */
  datatype DataOutcome = Throws | Absent | Value(data: JsonValue)

  const WarningPrefix := "Failed to collect chart: "
  const ChartIdKey := "chartId"
  const DataKey := "data"

  /** The result of one `collect` call: the envelope or null, and the warning it logged. */
  datatype Collected = Collected(envelope: Option<JsonValue>, warning: Option<string>)

  /** The envelope a chart with data is sent as. */
  function Envelope(chartId: string, data: JsonValue): JsonValue {
    JObject([(ChartIdKey, JPrim(Str(chartId))), (DataKey, data)])
  }

  /**
    `AbstractChart.collect`: the envelope is built by two `add` calls on a fresh object;
    a throw anywhere in the try block becomes the warning naming the chart.
  */
  function Collect(chartId: string, outcome: DataOutcome): (c: Collected)
    ensures c.envelope.Some? <==> outcome.Value?
    ensures c.warning.Some? <==> outcome.Throws?
    ensures outcome.Value? ==> c.envelope.value == Envelope(chartId, outcome.data)
    ensures outcome.Throws? ==> c.warning.value == WarningPrefix + chartId
  {
    var failed := Collected(None, Some(WarningPrefix + chartId));
    match outcome
    case Throws => failed
    case Absent => Collected(None, None)
    case Value(d) =>
      OfJson(d);
      AddTwoFields(ChartIdKey, HText(chartId), JPrim(Str(chartId)), DataKey, HJson(d), d);
      match AddField([], ChartIdKey, HText(chartId))
      case Err(_) => failed
      case Ok(withId) =>
        match AddField(withId, DataKey, HJson(d))
        case Err(_) => failed
        case Ok(both) => Collected(Some(JObject(both)), None)
  }

  /** Two `add` calls with different keys on a fresh object, neither of which throws. */
  lemma AddTwoFields(k1: string, h1: HostValue, v1: JsonValue, k2: string, h2: HostValue, v2: JsonValue)
    requires Of(h1) == Ok(v1) && Of(h2) == Ok(v2) && k1 != k2
    ensures AddField([], k1, h1) == Ok([(k1, v1)])
    ensures AddField([(k1, v1)], k2, h2) == Ok([(k1, v1), (k2, v2)])
  {
    assert Keys([]) == [];
    KeysAt([(k1, v1)]);
    assert k2 !in Keys([(k1, v1)]);
    assert [(k1, v1)] + [(k2, v2)] == [(k1, v1), (k2, v2)];
  }

  /** An envelope has exactly the two fields, `chartId` first, and keys that differ. */
  lemma EnvelopeShape(chartId: string, data: JsonValue)
    ensures Envelope(chartId, data).JObject?
    ensures Keys(Envelope(chartId, data).fields) == [ChartIdKey, DataKey]
    ensures UniqueKeys(Envelope(chartId, data).fields)
    ensures Lookup(Envelope(chartId, data).fields, ChartIdKey) == Some(JPrim(Str(chartId)))
    ensures Lookup(Envelope(chartId, data).fields, DataKey) == Some(data)
  {
  }

  /** The submitted array of envelopes and the warnings logged while building it. */
  datatype Collection = Collection(envelopes: seq<JsonValue>, warnings: seq<string>)

  function OptionSeq<T>(o: Option<T>): seq<T> {
    match o
    case Some(x) => [x]
    case None => []
  }

  /**
    `collectCharts` over charts given, in iteration order, as their ids and what their data
    collection does: each is collected, the null results are dropped, the rest are gathered.
  */
  function CollectAll(charts: seq<(string, DataOutcome)>): Collection {
    if |charts| == 0 then Collection([], [])
    else
      var c := Collect(charts[0].0, charts[0].1);
      var rest := CollectAll(charts[1..]);
      Collection(OptionSeq(c.envelope) + rest.envelopes, OptionSeq(c.warning) + rest.warnings)
  }

  /** What one chart contributes on its own. */
  lemma CollectOne(chartId: string, outcome: DataOutcome)
    ensures CollectAll([(chartId, outcome)]).envelopes == OptionSeq(Collect(chartId, outcome).envelope)
    ensures CollectAll([(chartId, outcome)]).warnings == OptionSeq(Collect(chartId, outcome).warning)
  {
    assert [(chartId, outcome)][1..] == [];
  }

  /** Collecting two runs of charts one after the other concatenates their results. */
  lemma {:induction false} CollectAllAppend(a: seq<(string, DataOutcome)>, b: seq<(string, DataOutcome)>)
    ensures CollectAll(a + b).envelopes == CollectAll(a).envelopes + CollectAll(b).envelopes
    ensures CollectAll(a + b).warnings == CollectAll(a).warnings + CollectAll(b).warnings
  {
    if |a| > 0 {
      assert (a + b)[1..] == a[1..] + b;
      CollectAllAppend(a[1..], b);
    } else {
      assert a + b == b;
    }
  }

  /** A chart whose data collection throws is skipped; the others are unaffected. */
  lemma ThrowingChartSkipped(a: seq<(string, DataOutcome)>, chartId: string, b: seq<(string, DataOutcome)>)
    ensures CollectAll(a + [(chartId, Throws)] + b).envelopes == CollectAll(a + b).envelopes
    ensures CollectAll(a + [(chartId, Throws)] + b).warnings ==
      CollectAll(a).warnings + [WarningPrefix + chartId] + CollectAll(b).warnings
  {
    var x := (chartId, Throws);
    CollectOne(chartId, Throws);
    assert CollectAll([x]) == Collection([], [WarningPrefix + chartId]);
    CollectAllAppend(a, [x]);
    assert CollectAll(a + [x]).envelopes == CollectAll(a).envelopes by {
      assert CollectAll(a).envelopes + [] == CollectAll(a).envelopes;
    }
    CollectAllAppend(a + [x], b);
    CollectAllAppend(a, b);
  }

  /** A chart without data is skipped silently; the others are unaffected. */
  lemma AbsentChartSkipped(a: seq<(string, DataOutcome)>, chartId: string, b: seq<(string, DataOutcome)>)
    ensures CollectAll(a + [(chartId, Absent)] + b) == CollectAll(a + b)
  {
    CollectAllAppend(a + [(chartId, Absent)], b);
    CollectAllAppend(a, [(chartId, Absent)]);
    CollectAllAppend(a, b);
    CollectOne(chartId, Absent);
    assert CollectAll([(chartId, Absent)]) == Collection([], []);
    assert CollectAll(a + [(chartId, Absent)]) == CollectAll(a) by {
      assert CollectAll(a).envelopes + [] == CollectAll(a).envelopes;
      assert CollectAll(a).warnings + [] == CollectAll(a).warnings;
    }
  }

  predicate AllHaveData(charts: seq<(string, DataOutcome)>) {
    forall i :: 0 <= i < |charts| ==> charts[i].1.Value?
  }

  /** When every chart has data, the array holds one envelope per chart, in order, and nothing is logged. */
  lemma {:induction false} AllCollected(charts: seq<(string, DataOutcome)>)
    requires AllHaveData(charts)
    ensures |CollectAll(charts).envelopes| == |charts|
    ensures forall i :: 0 <= i < |charts| ==>
      CollectAll(charts).envelopes[i] == Envelope(charts[i].0, charts[i].1.data)
    ensures CollectAll(charts).warnings == []
  {
    if |charts| > 0 {
      AllCollected(charts[1..]);
    }
  }

  /**
    Of N charts with data and one whose collection throws, wherever it stands, N envelopes
    are sent and one warning naming the failing chart is logged.
  */
  lemma OneOfManyThrows(a: seq<(string, DataOutcome)>, chartId: string, b: seq<(string, DataOutcome)>)
    requires AllHaveData(a) && AllHaveData(b)
    ensures |CollectAll(a + [(chartId, Throws)] + b).envelopes| == |a| + |b|
    ensures CollectAll(a + [(chartId, Throws)] + b).warnings == [WarningPrefix + chartId]
  {
    ThrowingChartSkipped(a, chartId, b);
    CollectAllAppend(a, b);
    AllCollected(a);
    AllCollected(b);
  }

  /** The number of charts with data. */
  function CountWithData(charts: seq<(string, DataOutcome)>): nat {
    if |charts| == 0 then 0
    else (if charts[0].1.Value? then 1 else 0) + CountWithData(charts[1..])
  }

  /** The number of charts whose data collection throws. */
  function CountThrowing(charts: seq<(string, DataOutcome)>): nat {
    if |charts| == 0 then 0
    else (if charts[0].1.Throws? then 1 else 0) + CountThrowing(charts[1..])
  }

  /** One envelope per chart with data, and one warning per chart that threw. */
  lemma {:induction false} CollectAllCounts(charts: seq<(string, DataOutcome)>)
    ensures |CollectAll(charts).envelopes| == CountWithData(charts)
    ensures |CollectAll(charts).warnings| == CountThrowing(charts)
    ensures |CollectAll(charts).envelopes| + |CollectAll(charts).warnings| <= |charts|
  {
    if |charts| > 0 {
      CollectAllCounts(charts[1..]);
    }
  }

  /**
    The array holds exactly the envelopes of the charts with data: every envelope comes
    from such a chart, and every such chart's envelope is there.
  */
  lemma {:induction false} CollectAllMembers(charts: seq<(string, DataOutcome)>, x: JsonValue)
    ensures x in CollectAll(charts).envelopes <==>
      exists i :: 0 <= i < |charts| && charts[i].1.Value? && x == Envelope(charts[i].0, charts[i].1.data)
  {
    if |charts| > 0 {
      CollectAllMembers(charts[1..], x);
      var c := Collect(charts[0].0, charts[0].1);
      if x in CollectAll(charts).envelopes && x !in OptionSeq(c.envelope) {
        var j :| 0 <= j < |charts[1..]| && charts[1..][j].1.Value? &&
          x == Envelope(charts[1..][j].0, charts[1..][j].1.data);
        assert charts[j + 1] == charts[1..][j];
      }
      if exists i :: 0 <= i < |charts| && charts[i].1.Value? && x == Envelope(charts[i].0, charts[i].1.data) {
        var i :| 0 <= i < |charts| && charts[i].1.Value? && x == Envelope(charts[i].0, charts[i].1.data);
        if i > 0 {
          assert charts[1..][i - 1] == charts[i];
        }
      }
    }
  }

  /** What a `SimplePieChart`'s supplier does: throws, or returns a string or null. */
  datatype Supplied = SupplierThrows | Supplied(value: Option<string>)

  /** `SimplePieChart.collectData`: the supplied string wrapped as a primitive. */
  function SimplePieData(s: Supplied): (r: DataOutcome)
    ensures !r.Absent?
    ensures r.Throws? <==> s.SupplierThrows?
    ensures s == Supplied(None) ==> r == Value(JPrim(Null))
    ensures forall t :: s == Supplied(Some(t)) ==> r == Value(JPrim(Str(t)))
  {
    match s
    case SupplierThrows => Throws
    case Supplied(None) => Value(JPrim(Null))
    case Supplied(Some(t)) => Value(JPrim(Str(t)))
  }

  /** A pie chart is always sent when its supplier returns, even when it returns null. */
  lemma SimplePieSent(chartId: string, value: Option<string>)
    ensures value.None? ==>
      Collect(chartId, SimplePieData(Supplied(value))).envelope == Some(Envelope(chartId, JPrim(Null)))
    ensures value.Some? ==>
      Collect(chartId, SimplePieData(Supplied(value))).envelope == Some(Envelope(chartId, JPrim(Str(value.value))))
  {
  }

  /** `PlatformChart.collectData` for a given server type: `{"serviceId": …, "serverType": …}`. */
  function PlatformData(serviceId: int, serverType: string): (r: DataOutcome)
    ensures r.Value? && r.data.JObject?
    ensures Keys(r.data.fields) == ["serviceId", "serverType"]
    ensures Lookup(r.data.fields, "serviceId") == Some(JPrim(Int(serviceId)))
    ensures Lookup(r.data.fields, "serverType") == Some(JPrim(Str(serverType)))
  {
    AddTwoFields("serviceId", HInt(serviceId), JPrim(Int(serviceId)),
                 "serverType", HText(serverType), JPrim(Str(serverType)));
    KeysAt([("serviceId", JPrim(Int(serviceId))), ("serverType", JPrim(Str(serverType)))]);
    match AddField([], "serviceId", HInt(serviceId))
    case Err(_) => Absent
    case Ok(withId) =>
      match AddField(withId, "serverType", HText(serverType))
      case Err(_) => Absent
      case Ok(both) => Value(JObject(both))
  }
}
