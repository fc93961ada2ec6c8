/** The metrics sink (Telegraf's accumulator) as the collector sees it. */
module Sink {
  import opened Base

  /** One record handed to the sink: measurement name, field map and tag map. */
  datatype Metric = Metric(measurement: string, fields: map<string, Int64>, tags: map<string, string>)

  /** One call made on the accumulator. */
  datatype Entry = AddedFields(metric: Metric) | AddedError(err: Option<string>)

  /** The accumulator, seen only as the append-only log of the calls made on it.
      What it does with a call (dropping a nil error, say) is not modelled. */
  class Accumulator {
    var log: seq<Entry>

    constructor ()
      ensures log == []
    {
      log := [];
    }

    method AddFields(measurement: string, fields: map<string, Int64>, tags: map<string, string>)
      modifies this
      ensures log == old(log) + [AddedFields(Metric(measurement, fields, tags))]
    {
      log := log + [AddedFields(Metric(measurement, fields, tags))];
    }

    method AddError(err: Option<string>)
      modifies this
      ensures log == old(log) + [AddedError(err)]
    {
      log := log + [AddedError(err)];
    }
  }

  /** The number of `AddError` calls in a log. */
  function ErrorCalls(log: seq<Entry>): (n: nat)
    ensures n <= |log|
  {
    if log == [] then 0
    else (if log[0].AddedError? then 1 else 0) + ErrorCalls(log[1..])
  }

  lemma {:induction false} ErrorCallsAppend(a: seq<Entry>, b: seq<Entry>)
    ensures ErrorCalls(a + b) == ErrorCalls(a) + ErrorCalls(b)
  {
    if a == [] {
      assert a + b == b;
    } else {
      assert (a + b)[1..] == a[1..] + b;
      ErrorCallsAppend(a[1..], b);
    }
  }
}
