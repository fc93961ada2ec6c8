/** The status record decoded from a `/varz` body and the field map it becomes. */
module Stats {
  import opened Base
  import opened Sink

  /** A JSON value as far as decoding it into an `int64` struct field matters:
      an integer, `null`, or anything else (string, boolean, array, object,
      number with a fraction or exponent). */
  datatype JsonValue = Integer(n: int) | Null | Other

  /** A response body: a JSON object, given by its top-level members, or text
      the decoder rejects. */
  datatype Body = Malformed | Object(members: map<string, JsonValue>)

  /** The twelve `int64` fields of the status record (Go's `VarStats`). */
  datatype VarStats = VarStats(
    memory: Int64, cpu: Int64, connections: Int64, totalConnections: Int64,
    routes: Int64, remotes: Int64, inMessages: Int64, outMessages: Int64,
    inBytes: Int64, outBytes: Int64, slowConsumers: Int64, subscriptions: Int64)
  {
    /** Reports the record to the sink under measurement "nats". */
    method Gather(tags: map<string, string>, acc: Accumulator)
      modifies acc
      ensures acc.log == old(acc.log) + [AddedFields(Metric(Measurement, Fields(this), tags))]
    {
      acc.AddFields(Measurement, Fields(this), tags);
    }
  }

  const Measurement := "nats"

  /** The JSON keys the struct tags name. The last one is spelt "subscritpions",
      so a payload's "subscriptions" member is an unknown key. */
  const JsonTags: set<string> := {
    "mem", "cpu", "connections", "total_connections", "routes", "remotes",
    "in_msgs", "out_msgs", "in_bytes", "out_bytes", "slow_consumers", "subscritpions"}

  /** The keys of the emitted field map. */
  const FieldKeys: set<string> := {
    "memory", "used_cpu", "connections", "total_connections", "routes", "remotes",
    "in_messages", "out_messages", "in_bytes", "out_bytes", "slow_consumers", "subscriptions"}

  /** What decoding member `tag` of an object into an `int64` field gives:
      absent or `null` leaves the zero value, an integer in range is taken,
      anything else is a decoding error (`None`). */
  function FieldValue(members: map<string, JsonValue>, tag: string): (r: Option<Int64>)
    ensures tag !in members || members[tag].Null? ==> r == Some(0)
    ensures r.Some? && tag in members && members[tag].Integer? ==> r.value == members[tag].n
    ensures r.None? <==> tag in members && (members[tag].Other? ||
                         (members[tag].Integer? && !(MinInt64 <= members[tag].n <= MaxInt64)))
  {
    if tag !in members then Some(0)
    else match members[tag]
      case Null => Some(0)
      case Integer(n) => if MinInt64 <= n <= MaxInt64 then Some(n) else None
      case Other => None
  }

  /** Decoding a body into a `VarStats`; `None` is a decoding error. Members
      whose key is not one of `JsonTags` are ignored. */
  function DecodeVarStats(body: Body): (r: Option<VarStats>)
    ensures body.Malformed? ==> r.None?
    ensures r.Some? ==>
      && body.Object?
      && FieldValue(body.members, "mem") == Some(r.value.memory)
      && FieldValue(body.members, "cpu") == Some(r.value.cpu)
      && FieldValue(body.members, "in_msgs") == Some(r.value.inMessages)
      && FieldValue(body.members, "out_msgs") == Some(r.value.outMessages)
      && FieldValue(body.members, "subscritpions") == Some(r.value.subscriptions)
  {
    match body
    case Malformed => None
    case Object(m) =>
      if forall t | t in JsonTags :: FieldValue(m, t).Some? then
        Some(VarStats(
          FieldValue(m, "mem").value, FieldValue(m, "cpu").value,
          FieldValue(m, "connections").value, FieldValue(m, "total_connections").value,
          FieldValue(m, "routes").value, FieldValue(m, "remotes").value,
          FieldValue(m, "in_msgs").value, FieldValue(m, "out_msgs").value,
          FieldValue(m, "in_bytes").value, FieldValue(m, "out_bytes").value,
          FieldValue(m, "slow_consumers").value, FieldValue(m, "subscritpions").value))
      else None
  }

  /** The field map of one record: twelve keys, each value a struct field. */
  function Fields(s: VarStats): (m: map<string, Int64>)
    ensures m.Keys == FieldKeys
  {
    map[
      "connections" := s.connections,
      "total_connections" := s.totalConnections,
      "memory" := s.memory,
      "used_cpu" := s.cpu,
      "routes" := s.routes,
      "remotes" := s.remotes,
      "in_messages" := s.inMessages,
      "out_messages" := s.outMessages,
      "in_bytes" := s.inBytes,
      "out_bytes" := s.outBytes,
      "slow_consumers" := s.slowConsumers,
      "subscriptions" := s.subscriptions]
  }

  /** Twelve distinct keys: the emitted map has exactly twelve fields. */
  lemma FieldCount(s: VarStats)
    ensures |Fields(s)| == 12
  {
    var a := {"memory", "used_cpu", "connections", "total_connections", "routes", "remotes"};
    var b := {"in_messages", "out_messages", "in_bytes", "out_bytes", "slow_consumers", "subscriptions"};
    assert |a| == 6;
    assert |b| == 6;
    assert a !! b;
    assert FieldKeys == a + b;
    assert |Fields(s)| == |Fields(s).Keys|;
  }

  /** Reads a record back from a field map; the inverse of `Fields`. */
  function StatsOf(m: map<string, Int64>): VarStats
    requires FieldKeys <= m.Keys
  {
    VarStats(
      m["memory"], m["used_cpu"], m["connections"], m["total_connections"],
      m["routes"], m["remotes"], m["in_messages"], m["out_messages"],
      m["in_bytes"], m["out_bytes"], m["slow_consumers"], m["subscriptions"])
  }

  /** No struct field is lost or merged with another on the way to the field map. */
  lemma FieldsRoundTrip(s: VarStats)
    ensures StatsOf(Fields(s)) == s
  {
  }

  /** Decoding then mapping carries every tracked JSON member, unchanged, to its
      field key: `mem` becomes `memory`, `cpu` becomes `used_cpu`, `in_msgs` and
      `out_msgs` become `in_messages` and `out_messages`, and `subscritpions`
      becomes `subscriptions`; the other keys keep their names. */
  lemma DecodedFieldsFollowRenames(m: map<string, JsonValue>)
    requires DecodeVarStats(Object(m)).Some?
    ensures var f := Fields(DecodeVarStats(Object(m)).value);
      && f["memory"] == FieldValue(m, "mem").value
      && f["used_cpu"] == FieldValue(m, "cpu").value
      && f["connections"] == FieldValue(m, "connections").value
      && f["total_connections"] == FieldValue(m, "total_connections").value
      && f["routes"] == FieldValue(m, "routes").value
      && f["remotes"] == FieldValue(m, "remotes").value
      && f["in_messages"] == FieldValue(m, "in_msgs").value
      && f["out_messages"] == FieldValue(m, "out_msgs").value
      && f["in_bytes"] == FieldValue(m, "in_bytes").value
      && f["out_bytes"] == FieldValue(m, "out_bytes").value
      && f["slow_consumers"] == FieldValue(m, "slow_consumers").value
      && f["subscriptions"] == FieldValue(m, "subscritpions").value
  {
  }

  /** Decoding fails exactly when some tracked member holds a value the field
      cannot take. */
  lemma DecodeFailsOnlyOnTrackedMembers(m: map<string, JsonValue>)
    ensures DecodeVarStats(Object(m)).None? <==>
            exists t :: t in JsonTags && t in m && FieldValue(m, t).None?
  {
  }

  /** Decoding is tolerant: a member whose key is not a tracked one changes nothing. */
  lemma UnknownMembersIgnored(m: map<string, JsonValue>, k: string, v: JsonValue)
    requires k !in JsonTags
    ensures DecodeVarStats(Object(m[k := v])) == DecodeVarStats(Object(m))
  {
    forall t | t in JsonTags
      ensures FieldValue(m[k := v], t) == FieldValue(m, t)
    {
      assert t != k;
    }
  }

  /** Missing members default to zero. */
  lemma EmptyObjectDecodesToZero()
    ensures DecodeVarStats(Object(map[])) == Some(VarStats(0, 0, 0, 0, 0, 0, 0, 0, 0, 0, 0, 0))
  {
  }

  /** The struct tag is "subscritpions": a payload's "subscriptions" member is
      ignored and the field keeps whatever the misspelt key gives (zero when absent). */
  lemma SubscriptionsReadFromMisspeltKey(m: map<string, JsonValue>, v: JsonValue)
    ensures "subscriptions" !in JsonTags
    ensures DecodeVarStats(Object(m["subscriptions" := v])) == DecodeVarStats(Object(m))
    ensures DecodeVarStats(Object(m)).Some? && "subscritpions" !in m ==>
            DecodeVarStats(Object(m)).value.subscriptions == 0
  {
    UnknownMembersIgnored(m, "subscriptions", v);
  }
}
