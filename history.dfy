/** The operation-history plugin package: its plugin table and the one-line text of a history record. */
module HistoryApi {
  import opened Wrappers
  import opened Primitives
  import opened PluginRegistry
  import opened Text

  /** An implementation of the `History` plugin interface. */
  type History = Plugin

  /** The package-level state: the `slots` table. */
  class Plugins {
    const slots: Registry<History>

    constructor ()
      ensures fresh(slots) && slots.entries == map[]
    {
      slots := new Registry();
    }

    /** Binds `name` to `plugin`; panics, leaving the table as it was, if `name` is bound. */
    method Register(name: string, plugin: History) returns (outcome: Outcome)
      modifies slots
      ensures outcome == if name in old(slots.entries) then Panicked(ExistedPluginMessage(name)) else Returned
      ensures slots.entries == Insert(old(slots.entries), name, plugin)
    {
      var added := slots.Register(name, plugin);
      outcome := if added then Returned else Panicked(ExistedPluginMessage(name));
    }

    /** The plugin bound to `name` and whether there is one. */
    method Get(name: string) returns (plugin: Option<History>)
      ensures plugin == Lookup(slots.entries, name)
    {
      plugin := slots.Get(name);
    }
  }

  datatype RecordEntry = RecordEntry(
    resourceType: string,
    resourceName: string,
    namespace: string,
    operator: string,
    operationType: string,
    detail: string,
    server: string,
    happenTime: Time)
  {
    /** The eight `|`-separated fields of `String`, in order: the operation type comes
        before the operator, unlike in the declaration. */
    function Fields(format: Time -> string): seq<string> {
      [format(happenTime), resourceType, resourceName, namespace, operationType, operator, detail, server]
    }

    /** `RecordEntry.String`; `format` renders the time. */
    function String(format: Time -> string): (s: string)
      ensures s == Join(Fields(format), '|')
    {
      JoinEight(format(happenTime), resourceType, resourceName, namespace, operationType, operator, detail, server, '|');
      format(happenTime) + "|" + resourceType + "|" + resourceName + "|" + namespace + "|"
        + operationType + "|" + operator + "|" + detail + "|" + server
    }
  }

  /** When no field, the rendered time included, contains '|', splitting the line on '|'
      gives back the eight fields in order, and `format` is consulted for the time only. */
  lemma RecordEntryFields(r: RecordEntry, format: Time -> string)
    requires '|' !in format(r.happenTime)
    requires '|' !in r.resourceType && '|' !in r.resourceName && '|' !in r.namespace
    requires '|' !in r.operationType && '|' !in r.operator && '|' !in r.detail && '|' !in r.server
    ensures Split(r.String(format), '|') ==
      [format(r.happenTime), r.resourceType, r.resourceName, r.namespace,
       r.operationType, r.operator, r.detail, r.server]
  {
    var fields := r.Fields(format);
    assert forall i :: 0 <= i < |fields| ==> '|' !in fields[i];
    SplitJoin(fields, '|');
  }

  /** Two records free of '|' print alike only if they agree on every printed field. */
  lemma RecordEntryStringInjective(r: RecordEntry, q: RecordEntry, format: Time -> string)
    requires '|' !in format(r.happenTime) && '|' !in format(q.happenTime)
    requires '|' !in r.resourceType && '|' !in r.resourceName && '|' !in r.namespace
    requires '|' !in r.operationType && '|' !in r.operator && '|' !in r.detail && '|' !in r.server
    requires '|' !in q.resourceType && '|' !in q.resourceName && '|' !in q.namespace
    requires '|' !in q.operationType && '|' !in q.operator && '|' !in q.detail && '|' !in q.server
    requires r.String(format) == q.String(format)
    ensures format(r.happenTime) == format(q.happenTime)
    ensures r.(happenTime := q.happenTime) == q
  {
    var fr, fq := r.Fields(format), q.Fields(format);
    assert forall i :: 0 <= i < |fr| ==> '|' !in fr[i];
    assert forall i :: 0 <= i < |fq| ==> '|' !in fq[i];
    JoinInjective(fr, fq, '|');
  }
}
