/**
 The statistics plugin package: its plugin table, the labels of a call metric and the
 one-line text of a client discovery metric.
 */
module StatisApi {
  import opened Wrappers
  import opened Primitives
  import opened PluginRegistry
  import opened Decimal
  import opened Text

  /** An implementation of the `Statis` plugin interface. */
  type Statis = Plugin

  /** The package-level state: the `slots` table. */
  class Plugins {
    const slots: Registry<Statis>

    constructor ()
      ensures fresh(slots) && slots.entries == map[]
    {
      slots := new Registry();
    }

    /** Binds `name` to `plugin`; panics, leaving the table as it was, if `name` is bound. */
    method Register(name: string, plugin: Statis) returns (outcome: Outcome)
      modifies slots
      ensures outcome == if name in old(slots.entries) then Panicked(ExistedPluginMessage(name)) else Returned
      ensures slots.entries == Insert(old(slots.entries), name, plugin)
    {
      var added := slots.Register(name, plugin);
      outcome := if added then Returned else Panicked(ExistedPluginMessage(name));
    }

    /** The plugin bound to `name` and whether there is one. */
    method Get(name: string) returns (plugin: Option<Statis>)
      ensures plugin == Lookup(slots.entries, name)
    {
      plugin := slots.Get(name);
    }
  }

  const LabelApi := "api"
  const LabelProtocol := "protocol"
  const LabelErrCode := "err_code"

  const TrafficDirectionInBound := "INBOUND"
  const TrafficDirectionOutBound := "OUTBOUND"

  /** A Go `map[string]string`: a reference, so that a write through one holder is seen by all. */
  class LabelMap {
    var entries: map<string, string>

    constructor ()
      ensures entries == map[]
    {
      entries := map[];
    }
  }

  datatype CallMetric = CallMetric(
    metricType: string,
    api: string,
    protocol: string,
    code: int64,
    times: int64,
    success: bool,
    duration: int64,
    labels: LabelMap?,   // null is the nil map
    trafficDirection: string)

  /** `base` with the three call labels written over it. */
  function CallLabels(base: map<string, string>, m: CallMetric): (r: map<string, string>)
    ensures r.Keys == base.Keys + {LabelApi, LabelProtocol, LabelErrCode}
    ensures r[LabelApi] == m.api && r[LabelProtocol] == m.protocol
    ensures r[LabelErrCode] == FormatInt(m.code as int)
    ensures forall k :: k in base && k !in {LabelApi, LabelProtocol, LabelErrCode} ==> r[k] == base[k]
  {
    base[LabelApi := m.api][LabelProtocol := m.protocol][LabelErrCode := FormatInt(m.code as int)]
  }

  /** An empty or nil label map yields exactly the three call labels. */
  lemma CallLabelsOfEmpty(m: CallMetric)
    ensures CallLabels(map[], m).Keys == {LabelApi, LabelProtocol, LabelErrCode}
  {
  }

  /** Writing the call labels twice gives the same map as writing them once. */
  lemma CallLabelsIdempotent(base: map<string, string>, m: CallMetric)
    ensures CallLabels(CallLabels(base, m), m) == CallLabels(base, m)
  {
  }

  /** `CallMetric.GetLabels`. A non-empty label map is the caller's own map and is written
      in place; an empty or nil one is replaced by a fresh map, leaving the caller's as it was. */
  method GetLabels(m: CallMetric) returns (labels: LabelMap)
    modifies m.labels
    ensures old(m.labels == null || |m.labels.entries| == 0) ==>
      fresh(labels) && labels.entries == CallLabels(map[], m) &&
      (m.labels != null ==> m.labels.entries == old(m.labels.entries))
    ensures old(m.labels != null && |m.labels.entries| > 0) ==>
      labels == m.labels && labels.entries == CallLabels(old(m.labels.entries), m)
  {
    if m.labels == null || |m.labels.entries| == 0 {
      labels := new LabelMap();
    } else {
      labels := m.labels;
    }
    labels.entries := labels.entries[LabelApi := m.api];
    labels.entries := labels.entries[LabelProtocol := m.protocol];
    labels.entries := labels.entries[LabelErrCode := FormatInt(m.code as int)];
  }

  /** `%+v` of a bool. */
  function BoolText(b: bool): (s: string)
    ensures s == "true" || s == "false"
    ensures (s == "true") == b
  {
    if b then "true" else "false"
  }

  /** `ms / 1000` with Go's division, which truncates toward zero. */
  function UnixSeconds(ms: int64): (s: int)
    ensures ms >= 0 ==> s * 1000 <= ms as int < s * 1000 + 1000
    ensures ms < 0 ==> s * 1000 - 1000 < ms as int <= s * 1000
  {
    if ms >= 0 then ms as int / 1000 else -((-(ms as int)) / 1000)
  }

  /** The revision column: "-" stands for an empty revision. */
  function RevisionText(revision: string): (s: string)
    ensures s != ""
    ensures revision == "" ==> s == "-"
    ensures revision != "" ==> s == revision
  {
    if revision == "" then "-" else revision
  }

  datatype ClientDiscoverMetric = ClientDiscoverMetric(
    clientIP: string,
    action: string,
    namespace: string,
    resource: string,
    revision: string,
    timestamp: int64,   // milliseconds since the Unix epoch
    costTime: int64,    // milliseconds
    success: bool)
  {
    /** The eight `|`-separated columns of `String`, in order. */
    function Columns(dateTime: int -> string): seq<string> {
      [clientIP, action, namespace, resource, RevisionText(revision),
       dateTime(UnixSeconds(timestamp)), FormatInt(costTime as int) + "ms", BoolText(success)]
    }

    /** `ClientDiscoverMetric.String`. `dateTime` renders Unix seconds as
        `time.Unix(sec, 0).Format(time.DateTime)` does in the process's time zone. */
    function String(dateTime: int -> string): (s: string)
      ensures s == Join(Columns(dateTime), '|')
    {
      JoinEight(clientIP, action, namespace, resource, RevisionText(revision),
        dateTime(UnixSeconds(timestamp)), FormatInt(costTime as int) + "ms", BoolText(success), '|');
      clientIP + "|" + action + "|" + namespace + "|" + resource + "|" + RevisionText(revision) + "|"
        + dateTime(UnixSeconds(timestamp)) + "|" + FormatInt(costTime as int) + "ms" + "|" + BoolText(success)
    }
  }

  /** When no text column contains '|', splitting the line on '|' gives back its eight
      columns; in particular the fifth is "-" exactly when the revision is empty or "-". */
  lemma ClientDiscoverColumns(c: ClientDiscoverMetric, dateTime: int -> string)
    requires '|' !in c.clientIP && '|' !in c.action && '|' !in c.namespace && '|' !in c.resource
    requires '|' !in c.revision && '|' !in dateTime(UnixSeconds(c.timestamp))
    ensures Split(c.String(dateTime), '|') == c.Columns(dateTime)
    ensures Split(c.String(dateTime), '|')[4] == "-" <==> c.revision == "" || c.revision == "-"
  {
    var cols := c.Columns(dateTime);
    assert '|' !in FormatInt(c.costTime as int) + "ms";
    assert forall i :: 0 <= i < |cols| ==> '|' !in cols[i];
    SplitJoin(cols, '|');
  }
}
