/**
 The configuration-file data objects of the store model: the textual key of a
 configuration file and the constructor of an empty release record.
 */
module ConfigModel {
  import opened Wrappers
  import opened Primitives
  import opened Text

  /** `ReleaseType`. */
  type ReleaseType = string

  const ReleaseTypeFull: ReleaseType := ""
  const ReleaseTypeGray: ReleaseType := "gray"

  datatype ConfigFileKey = ConfigFileKey(name: string, namespace: string, group: string)
  {
    /** `ConfigFileKey.String`: namespace, group and name, in that order, separated by '@'. */
    function String(): (s: string)
      ensures s == Join([namespace, group, name], '@')
    {
      JoinCons(group, [name], '@');
      JoinCons(namespace, [group, name], '@');
      namespace + "@" + group + "@" + name
    }
  }

  /** When no part contains '@', splitting the key text on '@' recovers namespace, group and name. */
  lemma ConfigFileKeyRoundTrip(k: ConfigFileKey)
    requires '@' !in k.namespace && '@' !in k.group && '@' !in k.name
    ensures Split(k.String(), '@') == [k.namespace, k.group, k.name]
  {
    SplitJoin([k.namespace, k.group, k.name], '@');
  }

  /** Under the same condition distinct keys have distinct texts. */
  lemma ConfigFileKeyInjective(k: ConfigFileKey, l: ConfigFileKey)
    requires '@' !in k.namespace && '@' !in k.group && '@' !in k.name
    requires '@' !in l.namespace && '@' !in l.group && '@' !in l.name
    requires k.String() == l.String()
    ensures k == l
  {
    JoinInjective([k.namespace, k.group, k.name], [l.namespace, l.group, l.name], '@');
  }

  /** A client label from the external specification module; not looked into. */
  datatype ClientLabel = ClientLabel(handle: nat)

  datatype ConfigFileReleaseKey = ConfigFileReleaseKey(
    id: uint64,
    name: string,
    namespace: string,
    group: string,
    fileName: string,
    releaseType: ReleaseType)

  /** `SimpleConfigFileRelease`; `key` is the embedded `*ConfigFileReleaseKey`, `None` when nil,
      and a nil `Metadata` map is the empty map. */
  datatype SimpleConfigFileRelease = SimpleConfigFileRelease(
    key: Option<ConfigFileReleaseKey>,
    version: uint64,
    comment: string,
    md5: string,
    flag: int64,
    active: bool,
    valid: bool,
    format: string,
    metadata: map<string, string>,
    createTime: Time,
    createBy: string,
    modifyTime: Time,
    modifyBy: string,
    releaseDescription: string,
    betaLabels: seq<ClientLabel>)

  /** `ConfigFileRelease`; `simple` is the embedded `*SimpleConfigFileRelease`, `None` when nil. */
  datatype ConfigFileRelease = ConfigFileRelease(
    simple: Option<SimpleConfigFileRelease>,
    content: string)

  /** Both embedded pointers are set, so every promoted field can be read without a nil dereference. */
  predicate FieldsReachable(r: ConfigFileRelease) {
    r.simple.Some? && r.simple.value.key.Some?
  }

  predicate IsZeroKey(k: ConfigFileReleaseKey) {
    k.id == 0 && k.name == "" && k.namespace == "" && k.group == "" && k.fileName == "" && k.releaseType == ""
  }

  predicate HasZeroFields(s: SimpleConfigFileRelease) {
    && s.version == 0 && s.comment == "" && s.md5 == "" && s.flag == 0
    && !s.active && !s.valid && s.format == "" && s.metadata == map[]
    && s.createTime == ZeroTime && s.createBy == "" && s.modifyTime == ZeroTime && s.modifyBy == ""
    && s.releaseDescription == "" && s.betaLabels == []
  }

  /** `NewConfigFileRelease`: a release whose embedded pointers are both set and whose
      fields otherwise all hold their zero values; it is therefore a full release. */
  function NewConfigFileRelease(): (r: ConfigFileRelease)
    ensures FieldsReachable(r)
    ensures IsZeroKey(r.simple.value.key.value) && HasZeroFields(r.simple.value) && r.content == ""
    ensures r.simple.value.key.value.releaseType == ReleaseTypeFull != ReleaseTypeGray
  {
    ConfigFileRelease(
      Some(SimpleConfigFileRelease(
        Some(ConfigFileReleaseKey(0, "", "", "", "", "")),
        0, "", "", 0, false, false, "", map[], ZeroTime, "", ZeroTime, "", "", [])),
      "")
  }
}
