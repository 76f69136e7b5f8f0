/** The container-registry repository reconciler: validation of the
    component definition, the op selection of `lambda_handler`, and the
    handlers it calls in a fixed order, each gated on its op name. */
module Repo {
  import opened Json
  import opened Handler
  import opened Tags

  /** The error codes each handler reports as permanent (constant data only). */
  const CreatePermErrors := ["LimitExceededException", "RepositoryAlreadyExistsException",
    "InvalidParameterException", "InvalidTagParameterException", "TooManyTagsException"]
  const ScanningPermErrors := ["RepositoryNotFoundException", "InvalidParameterException", "ValidationException"]
  const MutabilityPermErrors := ["RepositoryNotFoundException", "InvalidParameterException"]
  const TagPermErrors := ["InvalidParameterValueException"]

  const NotFound := "RepositoryNotFoundException"

  /** Op names. */
  const CompareDefsOp := "compare_defs"
  const GetRepositoryOp := "get_repository"
  const CreateOp := "create_repository"
  const ScanningOp := "update_image_scanning_configuration"
  const MutabilityOp := "update_image_tag_mutability"
  const AddTagsOp := "add_tags"
  const RemoveTagsOp := "remove_tags"
  const DeleteOp := "delete_repository"
  const ScanOnPushOp := "update_scan_on_push"

  /** Log titles and error messages. */
  const FullTrustNoChange := "Full Trust, No Change: Exiting"
  const FoundRepo := "Found Repository Project"
  const GetFailed := "Get Repository Failed"
  const CreatedRepo := "Created ECR Repository"
  const CreateRepoFailed := "Create ECR Repository Failed"
  const ScanningUpdated := "Updated Image Scanning Configuration"
  const ScanningFailed := "Update Image Scanning Configuration Failed"
  const MutabilityUpdated := "Updated Image Tag Mutability"
  const MutabilityFailed := "Update Image Tag Mutability Failed"
  const TagsAdded := "Tags Added"
  const AddTagsFailed := "Add Tags Failed"
  const TagsRemoved := "Tags Removed"
  const RemoveTagsFailed := "Remove Tags Failed"
  const RepoDeleted := "Deleted Repo if it Existed"
  const RepoAlreadyGone := "Old Repo Does Not Exist"
  const DeleteFailed := "Delete Repo Failed"

  /** The handlers `lambda_handler` calls, in its order; `compare_defs` is
      called twice. */
  const Order := [CompareDefsOp, CompareDefsOp, GetRepositoryOp, CreateOp, ScanningOp, MutabilityOp,
    AddTagsOp, RemoveTagsOp, DeleteOp]

  /** What the previous invocation left behind (`prev_state`). */
  datatype Prev = Prev(props: map<string, Json>, links: map<string, Json>, rendef: Dict)

  /** The invocation event; `op` is "" when the event has none, and
      `safeName` is what `component_safe_name` yields for the event. */
  datatype Event = Event(op: string, passBackData: bool, cdef: Dict, prev: Prev, safeName: string)

  /** The fields of a repository description the reconciler reads; the
      nested lookups `encryptionConfiguration.encryptionType` and
      `imageScanningConfiguration.scanOnPush` are None when absent. */
  datatype Description = Description(arn: Json, name: Json, uri: Json, registryId: Json,
    encryptionType: Option<Json>, mutability: Option<Json>, scanOnPush: Option<Json>)

  /** The answer of each registry call: a value, or the code of a `ClientError`. */
  datatype DescribeResult = Repositories(repos: seq<Description>) | DescribeFailed(code: string)
  datatype ListTagsResult = TagList(tags: seq<Tag>) | ListTagsFailed(code: string)
  datatype CreateResult = Created(repo: Description) | CreateFailed(code: string)

  /** The registry as this invocation sees it; None for a call that succeeds. */
  datatype Cloud = Cloud(
    describe: DescribeResult,
    listTags: ListTagsResult,
    create: CreateResult,
    putScanning: Option<string>,
    putMutability: Option<string>,
    tagResource: Option<string>,
    untagResource: Option<string>,
    deleteRepository: Option<string>)

  /** The validated settings of a component definition. */
  datatype Config = Config(name: Json, registryAccountId: Option<Json>, tags: Dict, fullTrust: bool,
    mutability: string, scanOnPush: Json, kmsKey: Option<Json>)

  /** `changeable_tags`: "MUTABLE" when missing or falsy; anything else but
      the two allowed strings raises. */
  function ParseChangeableTags(raw: Option<Json>): (r: Result<string>)
    ensures r.Ok? ==> r.value == "MUTABLE" || r.value == "IMMUTABLE"
    ensures !(raw.Some? && Truthy(raw.value)) ==> r == Ok("MUTABLE")
    ensures raw.Some? && Truthy(raw.value) ==>
      (r.Ok? <==> raw.value == JStr("MUTABLE") || raw.value == JStr("IMMUTABLE")) &&
      (r.Ok? ==> raw.value == JStr(r.value)) &&
      (r.Raised? ==> r.msg == "Invalid changeable_tags value: " + Show(raw.value))
  {
    var v := OrDefault(raw, JStr("MUTABLE"));
    if v == JStr("MUTABLE") || v == JStr("IMMUTABLE") then Ok(v.s)
    else Raised("Invalid changeable_tags value: " + Show(v))
  }

  /** `scan_on_push`: False when missing or falsy; only True and False (and
      1, which Python's `in [True, False]` lets through, since `1 == True`)
      pass, and the value is kept as given. */
  function ParseScanOnPush(raw: Option<Json>): (r: Result<Json>)
    ensures !(raw.Some? && Truthy(raw.value)) ==> r == Ok(JBool(false))
    ensures raw.Some? && Truthy(raw.value) ==>
      (r.Ok? <==> raw.value == JBool(true) || raw.value == JInt(1)) &&
      (r.Ok? ==> r.value == raw.value) &&
      (r.Raised? ==> r.msg == "Invalid scan_on_push value: " + Show(raw.value))
  {
    var v := OrDefault(raw, JBool(false));
    match v
    case JBool(_) => Ok(v)
    case JInt(1) => Ok(v)
    case _ => Raised("Invalid scan_on_push value: " + Show(v))
  }

  /** The settings `lambda_handler` reads before it enqueues anything; the
      mutability check comes first, so its error wins. */
  function ParseConfig(cdef: Dict, safeName: string): (r: Result<Config>)
    ensures r.Raised? <==>
      (ParseChangeableTags(Get(cdef, "changeable_tags")).Raised? || ParseScanOnPush(Get(cdef, "scan_on_push")).Raised?)
    ensures ParseChangeableTags(Get(cdef, "changeable_tags")).Raised? ==>
      r == Raised(ParseChangeableTags(Get(cdef, "changeable_tags")).msg)
    ensures ParseChangeableTags(Get(cdef, "changeable_tags")).Ok? && ParseScanOnPush(Get(cdef, "scan_on_push")).Raised? ==>
      r == Raised(ParseScanOnPush(Get(cdef, "scan_on_push")).msg)
    ensures r.Ok? ==>
      r.value.mutability == ParseChangeableTags(Get(cdef, "changeable_tags")).value &&
      r.value.scanOnPush == ParseScanOnPush(Get(cdef, "scan_on_push")).value &&
      r.value.fullTrust == (Get(cdef, "trust_level") == Some(JStr("full"))) &&
      r.value.name != JNull &&
      (Get(cdef, "name").Some? && Truthy(Get(cdef, "name").value) ==> r.value.name == Get(cdef, "name").value) &&
      (!(Get(cdef, "name").Some? && Truthy(Get(cdef, "name").value)) ==> r.value.name == JStr(safeName)) &&
      (r.value.registryAccountId.Some? <==> Get(cdef, "registry_account_id").Some? && Truthy(Get(cdef, "registry_account_id").value)) &&
      (r.value.registryAccountId.Some? ==> r.value.registryAccountId == Get(cdef, "registry_account_id")) &&
      r.value.tags == ObjFields(OrDefault(Get(cdef, "tags"), JObj([]))) &&
      r.value.kmsKey == Get(cdef, "kms_key_arn")
  {
    match ParseChangeableTags(Get(cdef, "changeable_tags"))
    case Raised(msg) => Raised(msg)
    case Ok(mutability) =>
      match ParseScanOnPush(Get(cdef, "scan_on_push"))
      case Raised(msg) => Raised(msg)
      case Ok(scan) =>
        var reg := Get(cdef, "registry_account_id");
        var name := OrDefault(Get(cdef, "name"), JStr(safeName));
        Ok(Config(
          name,
          if reg.Some? && Truthy(reg.value) then reg else None,
          ObjFields(OrDefault(Get(cdef, "tags"), JObj([]))),
          Get(cdef, "trust_level") == Some(JStr("full")),
          mutability, scan, Get(cdef, "kms_key_arn")))
  }

  predicate KmsGiven(c: Config) {
    c.kmsKey.Some? && Truthy(c.kmsKey.value)
  }

  function TagJsons(ts: seq<Tag>): (r: seq<Json>)
    ensures |r| == |ts| && forall i :: 0 <= i < |ts| ==> r[i] == TagJson(ts[i])
  {
    seq(|ts|, i requires 0 <= i < |ts| => TagJson(ts[i]))
  }

  /** The pairs of the repository definition before None values are dropped. */
  function RepoDefPairs(c: Config): Dict {
    [("registryId", if c.registryAccountId.Some? then c.registryAccountId.value else JNull),
     ("repositoryName", c.name),
     ("tags", if FormatTags(c.tags) != [] then JList(TagJsons(FormatTags(c.tags))) else JNull),
     ("imageTagMutability", JStr(c.mutability)),
     ("imageScanningConfiguration", JObj([("scanOnPush", c.scanOnPush)])),
     ("encryptionConfiguration",
        if KmsGiven(c) then JObj([("encryptionType", JStr("KMS")), ("kmsKey", c.kmsKey.value)]) else JNull)]
  }

  /** The `create_repository` request built from the settings. */
  function RepoDef(c: Config): Dict {
    RemoveNone(RepoDefPairs(c))
  }

  /** What `lookup(d, k1)` then `.get(k2)` yields for a nested dict. */
  function Lookup2(d: Dict, k1: string, k2: string): Option<Json> {
    match Get(d, k1)
    case Some(JObj(f)) => Get(f, k2)
    case _ => None
  }

  lemma RepoDefPairsDistinct(c: Config)
    ensures DistinctKeys(RepoDefPairs(c))
  {
  }

  /** The repository definition carries an encryption configuration of
      type KMS exactly when a key is given. */
  lemma RepoDefEncryption(c: Config)
    ensures Get(RepoDef(c), "encryptionConfiguration").Some? <==> KmsGiven(c)
    ensures KmsGiven(c) ==> Lookup2(RepoDef(c), "encryptionConfiguration", "encryptionType") == Some(JStr("KMS"))
  {
    var pairs := RepoDefPairs(c);
    RepoDefPairsDistinct(c);
    GetRemoveNone(pairs, 5);
    if KmsGiven(c) {
      GetPair(pairs[5].1.fields, "encryptionType", JStr("KMS"));
    }
  }

  /** No tags entry for empty tags, and no registry id when none is given. */
  lemma RepoDefOptional(c: Config)
    requires c.registryAccountId.Some? ==> Truthy(c.registryAccountId.value)
    ensures Get(RepoDef(c), "tags").Some? <==> c.tags != []
    ensures Get(RepoDef(c), "registryId") == c.registryAccountId
  {
    var pairs := RepoDefPairs(c);
    RepoDefPairsDistinct(c);
    GetRemoveNone(pairs, 0);
    GetRemoveNone(pairs, 2);
  }

  /** The name, the mutability and the scan-on-push setting are always there. */
  lemma RepoDefSettings(c: Config)
    requires c.name != JNull
    ensures Get(RepoDef(c), "repositoryName") == Some(c.name)
    ensures Get(RepoDef(c), "imageTagMutability") == Some(JStr(c.mutability))
    ensures Lookup2(RepoDef(c), "imageScanningConfiguration", "scanOnPush") == Some(c.scanOnPush)
  {
    var pairs := RepoDefPairs(c);
    RepoDefPairsDistinct(c);
    GetRemoveNone(pairs, 1);
    GetRemoveNone(pairs, 3);
    GetRemoveNone(pairs, 4);
    GetPair(pairs[4].1.fields, "scanOnPush", c.scanOnPush);
  }

  // ----- op selection -----

  /** The `delete_repository` payload of a delete intent. */
  function DeleteIntent(name: Json): Json {
    JObj([("create_and_remove", JBool(false)), ("name", name)])
  }

  /** The ops `lambda_handler` enqueues before calling the handlers. */
  function InitialOps(ev: Event, c: Config): (r: map<string, Json>)
    ensures ev.passBackData ==> r == map[]
    ensures !ev.passBackData && ev.op == "upsert" ==>
      r == if c.fullTrust then map[CompareDefsOp := NoPayload] else map[GetRepositoryOp := NoPayload]
    ensures !ev.passBackData && ev.op == "delete" ==> r == map[DeleteOp := DeleteIntent(c.name)]
    ensures ev.op != "upsert" && ev.op != "delete" ==> r == map[]
  {
    if ev.passBackData then map[]
    else if ev.op == "upsert" then
      if c.fullTrust then map[CompareDefsOp := NoPayload] else map[GetRepositoryOp := NoPayload]
    else if ev.op == "delete" then map[DeleteOp := DeleteIntent(c.name)]
    else map[]
  }

  // ----- compare_defs -----

  /** The definitions agree once `trust_level` is popped from both. */
  predicate SameDefinition(rendef: Dict, cdef: Dict) {
    ToMap(Pop(rendef, "trust_level")) == ToMap(Pop(cdef, "trust_level"))
  }

  /** Whether two definitions agree does not depend on their `trust_level`. */
  lemma SameDefinitionIgnoresTrust(rendef: Dict, cdef: Dict)
    ensures SameDefinition(rendef, cdef) <==> ToMap(rendef) - {"trust_level"} == ToMap(cdef) - {"trust_level"}
  {
    PopToMap(rendef, "trust_level");
    PopToMap(cdef, "trust_level");
  }

  /** `compare_defs`: unchanged definitions carry the previous links and
      props forward; changed ones enqueue `get_repository`. */
  function CompareDefsStep(v: Context, prev: Prev, cdef: Dict): (r: Context)
    ensures Gated(v, r, CompareDefsOp, {GetRepositoryOp})
    ensures r.ops.Keys == v.ops.Keys + (if CompareDefsOp in v.ops && !SameDefinition(prev.rendef, cdef) then {GetRepositoryOp} else {})
    ensures r.requests == v.requests && r.state == v.state
  {
    if CompareDefsOp !in v.ops then v
    else
      var v1 := v.(trace := v.trace + [CompareDefsOp]);
      if !SameDefinition(prev.rendef, cdef) then v1.(ops := v1.ops[GetRepositoryOp := NoPayload])
      else v1.(links := v1.links + prev.links, props := v1.props + prev.props,
               logs := v1.logs + [Log(FullTrustNoChange, false)])
  }

  /** The dicts as `compare_defs` leaves them: it pops `trust_level` from
      both in place, when it runs. */
  function AfterCompareDefs(v: Context, d: Dict): (r: Dict)
    ensures ToMap(r) == if CompareDefsOp in v.ops then ToMap(d) - {"trust_level"} else ToMap(d)
  {
    PopToMap(d, "trust_level");
    if CompareDefsOp in v.ops then Pop(d, "trust_level") else d
  }

  /** Popping the definitions in place does not change what the second
      `compare_defs` call decides. */
  lemma SecondCompareAgrees(v: Context, rendef: Dict, cdef: Dict)
    ensures SameDefinition(AfterCompareDefs(v, rendef), AfterCompareDefs(v, cdef)) == SameDefinition(rendef, cdef)
  {
    PopIdempotent(rendef, "trust_level");
    PopIdempotent(cdef, "trust_level");
  }

  // ----- get_repository -----

  /** The previous repository's name, when the previous props hold a truthy one. */
  function PrevName(prevProps: map<string, Json>): Option<Json> {
    if "name" in prevProps && Truthy(prevProps["name"]) then Some(prevProps["name"]) else None
  }

  /** A rename: a previous name that differs from the current one. */
  predicate Renamed(prevProps: map<string, Json>, name: Json) {
    PrevName(prevProps).Some? && PrevName(prevProps).value != name
  }

  /** The `delete_repository` payload of a rename: the old repository. */
  function RenamePayload(prevProps: map<string, Json>): Json {
    JObj([("create_and_remove", JBool(true)), ("name", PropOrNull(prevProps, "name")),
          ("registry_id", PropOrNull(prevProps, "registry_id"))])
  }

  /** The props copied from a repository description. */
  function DescribedProps(d: Description): (r: map<string, Json>)
    ensures r.Keys == {"arn", "name", "uri", "registry_id"}
    ensures r["arn"] == d.arn && r["name"] == d.name && r["uri"] == d.uri && r["registry_id"] == d.registryId
  {
    map["arn" := d.arn, "name" := d.name, "uri" := d.uri, "registry_id" := d.registryId]
  }

  /** The op names `get_repository` may enqueue. */
  const GetRepositoryEnqueues: set<string> := {DeleteOp, CreateOp, MutabilityOp, ScanOnPushOp, AddTagsOp, RemoveTagsOp}

  const KmsWarning := "WARNING: Create a New Component to Change Encryption Type"

  /** A KMS-encrypted repository whose definition asks for no encryption
      configuration: only a warning, since encryption cannot be changed. */
  predicate EncryptionWarning(d: Description, repoDef: Dict) {
    d.encryptionType == Some(JStr("KMS")) &&
    !(Get(repoDef, "encryptionConfiguration").Some? && Truthy(Get(repoDef, "encryptionConfiguration").value))
  }

  predicate MutabilityDiffers(d: Description, repoDef: Dict) {
    d.mutability != Get(repoDef, "imageTagMutability")
  }

  /** The integer a bool or an integer stands for in a Python comparison. */
  function Numeric(j: Json): Option<int> {
    match j
    case JBool(b) => Some(if b then 1 else 0)
    case JInt(i) => Some(i)
    case _ => None
  }

  /** Python's `==` on two lookups when one side holds a bool or an
      integer: equal values, or equal numbers (`True == 1`). */
  predicate PyEqual(a: Option<Json>, b: Option<Json>) {
    a == b || (a.Some? && b.Some? && Numeric(a.value).Some? && Numeric(a.value) == Numeric(b.value))
  }

  predicate ScanOnPushDiffers(d: Description, repoDef: Dict) {
    !PyEqual(d.scanOnPush, Lookup2(repoDef, "imageScanningConfiguration", "scanOnPush"))
  }

  /** A failure of `describe_repositories` or `list_tags_for_resource`:
      "not found" means the repository must be created. */
  function DescribeFailure(v: Context, code: string): (r: Context)
    ensures r.trace == v.trace && v.ops.Keys <= r.ops.Keys <= v.ops.Keys + {CreateOp}
    ensures r.requests == v.requests && r.props == v.props
    ensures CreateOp in r.ops <==> CreateOp in v.ops || code == NotFound
    ensures forall k :: k != CreateOp ==> KeepsOp(v, r, k)
  {
    if code == NotFound then v.(ops := v.ops[CreateOp := NoPayload])
    else v.(ret := Some(CommonError(GetFailed, code, 10, [])))
  }

  /** A described repository: its props, the warning, and the attribute
      mismatches as ops. The scan-on-push mismatch enqueues
      ScanOnPushOp, a name no handler is gated on. */
  function Described(v: Context, d: Description, repoDef: Dict): (r: Context)
    ensures r.trace == v.trace && r.requests == v.requests && r.props == v.props + DescribedProps(d)
    ensures r.ops == AttributeOps(v.ops, d, repoDef) && r.ret == v.ret
    ensures r.logs == v.logs + [Log(FoundRepo, false)] + (if EncryptionWarning(d, repoDef) then [Log(KmsWarning, true)] else [])
  {
    var v1 := v.(logs := v.logs + [Log(FoundRepo, false)], props := v.props + DescribedProps(d));
    var v2 := if EncryptionWarning(d, repoDef) then v1.(logs := v1.logs + [Log(KmsWarning, true)]) else v1;
    v2.(ops := AttributeOps(v.ops, d, repoDef))
  }

  /** The ops for the attributes that differ from the definition. */
  function AttributeOps(ops: map<string, Json>, d: Description, repoDef: Dict): (r: map<string, Json>)
    ensures ops.Keys <= r.Keys <= ops.Keys + {MutabilityOp, ScanOnPushOp}
    ensures MutabilityOp in r <==> MutabilityOp in ops || MutabilityDiffers(d, repoDef)
    ensures ScanOnPushOp in r <==> ScanOnPushOp in ops || ScanOnPushDiffers(d, repoDef)
    ensures forall k :: k in ops && k != MutabilityOp && k != ScanOnPushOp ==> r[k] == ops[k]
  {
    var o1 := if MutabilityDiffers(d, repoDef) then ops[MutabilityOp := NoPayload] else ops;
    if ScanOnPushDiffers(d, repoDef) then o1[ScanOnPushOp := NoPayload] else o1
  }

  /** The tag diff against the tags `list_tags_for_resource` reports. */
  function TagDiff(v: Context, tags: Dict, listTags: ListTagsResult): (r: Context)
    ensures r.trace == v.trace && v.ops.Keys <= r.ops.Keys <= v.ops.Keys + {CreateOp, AddTagsOp, RemoveTagsOp}
    ensures r.requests == v.requests && r.props == v.props
    ensures forall k :: k != CreateOp && k != AddTagsOp && k != RemoveTagsOp ==> KeepsOp(v, r, k)
  {
    match listTags
    case ListTagsFailed(code) => DescribeFailure(v, code)
    case TagList(l) =>
      var current := UnformatTags(l);
      if ToMap(tags) == ToMap(current) then v
      else
        var removed := RemovedKeys(current, tags);
        var added := AddedTags(tags, current);
        var v1 := if removed != [] then v.(ops := v.ops[RemoveTagsOp := JList(StrList(removed))]) else v;
        if added != [] then v1.(ops := v1.ops[AddTagsOp := JObj(added)]) else v1
  }

  /** With the current tags listed, a tag op is enqueued exactly when its
      part of the delta is non-empty, carrying that part; no repository is
      created. */
  lemma TagDiffOps(v: Context, tags: Dict, l: seq<Tag>)
    ensures var r := TagDiff(v, tags, TagList(l)); var current := UnformatTags(l);
      KeepsOp(v, r, CreateOp) &&
      (AddTagsOp in r.ops <==> AddTagsOp in v.ops || AddedTags(tags, current) != []) &&
      (AddedTags(tags, current) != [] ==> r.ops[AddTagsOp] == JObj(AddedTags(tags, current))) &&
      (RemoveTagsOp in r.ops <==> RemoveTagsOp in v.ops || RemovedKeys(current, tags) != []) &&
      (RemovedKeys(current, tags) != [] ==> r.ops[RemoveTagsOp] == JList(StrList(RemovedKeys(current, tags))))
  {
    var current := UnformatTags(l);
    if ToMap(tags) == ToMap(current) {
      EqualTagsNoDelta(current, tags);
    }
  }

  /** The op names the description of the repository may enqueue. */
  const InspectEnqueues: set<string> := {CreateOp, MutabilityOp, ScanOnPushOp, AddTagsOp, RemoveTagsOp}

  /** What the description of the repository leads to. */
  function Inspect(v: Context, repoDef: Dict, tags: Dict, cloud: Cloud): (r: Context)
    ensures r.trace == v.trace && v.ops.Keys <= r.ops.Keys
    ensures r.ops.Keys <= v.ops.Keys + InspectEnqueues
    ensures r.requests == v.requests && v.props.Keys <= r.props.Keys
  {
    match cloud.describe
    case DescribeFailed(code) => DescribeFailure(v, code)
    case Repositories(repos) =>
      if repos == [] then v.(ops := v.ops[CreateOp := NoPayload])
      else TagDiff(Described(v, repos[0], repoDef), tags, cloud.listTags)
  }

  /** The description leaves every other op as it was. */
  lemma InspectKeeps(v: Context, repoDef: Dict, tags: Dict, cloud: Cloud)
    ensures forall k :: k !in InspectEnqueues ==> KeepsOp(v, Inspect(v, repoDef, tags, cloud), k)
  {
    forall k | k !in InspectEnqueues ensures KeepsOp(v, Inspect(v, repoDef, tags, cloud), k) {
      InspectKeepsOne(v, repoDef, tags, cloud, k);
    }
  }

  lemma InspectKeepsOne(v: Context, repoDef: Dict, tags: Dict, cloud: Cloud, k: string)
    requires k !in InspectEnqueues
    ensures KeepsOp(v, Inspect(v, repoDef, tags, cloud), k)
  {
    match cloud.describe
    case DescribeFailed(code) =>
    case Repositories(repos) =>
      if repos != [] {
        var v1 := Described(v, repos[0], repoDef);
        assert KeepsOp(v, v1, k);
        assert KeepsOp(v1, TagDiff(v1, tags, cloud.listTags), k);
      }
  }

  /** The description enqueues a tag op only once it has the repository's ARN. */
  lemma InspectArn(v: Context, repoDef: Dict, tags: Dict, cloud: Cloud)
    ensures var r := Inspect(v, repoDef, tags, cloud);
      (AddTagsOp in r.ops && AddTagsOp !in v.ops) || (RemoveTagsOp in r.ops && RemoveTagsOp !in v.ops) ==>
        "arn" in r.props
  {
    if cloud.describe.Repositories? && cloud.describe.repos != [] {
      var v1 := Described(v, cloud.describe.repos[0], repoDef);
      assert "arn" in v1.props;
    } else {
      assert KeepsOp(v, Inspect(v, repoDef, tags, cloud), AddTagsOp);
      assert KeepsOp(v, Inspect(v, repoDef, tags, cloud), RemoveTagsOp);
    }
  }

  /** `get_repository`: the rename delete, then the diff of the described
      repository against the definition, or the creation it needs. */
  function GetRepositoryStep(v: Context, name: Json, repoDef: Dict, prevProps: map<string, Json>,
                             tags: Dict, cloud: Cloud): (r: Context)
    ensures Gated(v, r, GetRepositoryOp, GetRepositoryEnqueues)
  {
    if GetRepositoryOp !in v.ops then v
    else
      Inspect(RenameStep(v, name, prevProps), repoDef, tags, cloud)
  }

  /** Entering `get_repository`: the delete of the previous repository on a rename. */
  function RenameStep(v: Context, name: Json, prevProps: map<string, Json>): (r: Context)
    ensures r.trace == v.trace + [GetRepositoryOp] && r.props == v.props && r.requests == v.requests
    ensures r.ops == if Renamed(prevProps, name) then v.ops[DeleteOp := RenamePayload(prevProps)] else v.ops
  {
    var v0 := v.(trace := v.trace + [GetRepositoryOp]);
    if Renamed(prevProps, name) then v0.(ops := v0.ops[DeleteOp := RenamePayload(prevProps)]) else v0
  }

  // ----- the mutating handlers -----

  /** `create_repository` with the repository definition as its request. */
  function CreateStep(v: Context, repoDef: Dict, cloud: Cloud): (r: Context)
    ensures Gated(v, r, CreateOp, {}) && r.ops == v.ops && v.props.Keys <= r.props.Keys
    ensures r.requests == v.requests + (if CreateOp in v.ops then [Request(CreateOp, repoDef)] else [])
    ensures r.props == if CreateOp in v.ops && cloud.create.Created? then v.props + DescribedProps(cloud.create.repo) else v.props
  {
    if CreateOp !in v.ops then v
    else
      var v1 := v.(trace := v.trace + [CreateOp],
                   requests := v.requests + [Request(CreateOp, repoDef)]);
      match cloud.create
      case Created(d) => v1.(logs := v1.logs + [Log(CreatedRepo, false)], props := v1.props + DescribedProps(d))
      case CreateFailed(code) => v1.(ret := Some(CommonError(CreateRepoFailed, code, 20, CreatePermErrors)))
  }

  /** The `put_image_scanning_configuration` request. */
  function ScanningRequest(props: map<string, Json>, name: Json, scan: Json): Request {
    Request("put_image_scanning_configuration",
      [("registryId", PropOrNull(props, "registry_id")), ("repositoryName", name),
       ("imageScanningConfiguration", JObj([("scanOnPush", scan)]))])
  }

  function ScanningStep(v: Context, name: Json, scan: Json, cloud: Cloud): (r: Context)
    ensures Gated(v, r, ScanningOp, {}) && r.ops == v.ops && r.props == v.props && r.links == v.links
    ensures r.requests == v.requests + (if ScanningOp in v.ops then [ScanningRequest(v.props, name, scan)] else [])
    ensures r.ret == if ScanningOp in v.ops && cloud.putScanning.Some?
      then Some(CommonError(ScanningFailed, cloud.putScanning.value, 30, ScanningPermErrors)) else v.ret
  {
    if ScanningOp !in v.ops then v
    else
      var v1 := v.(trace := v.trace + [ScanningOp],
                   requests := v.requests + [ScanningRequest(v.props, name, scan)]);
      match cloud.putScanning
      case None => v1.(logs := v1.logs + [Log(ScanningUpdated, false)])
      case Some(code) =>
        v1.(ret := Some(CommonError(ScanningFailed, code, 30, ScanningPermErrors)))
  }

  /** The `put_image_tag_mutability` request. */
  function MutabilityRequest(props: map<string, Json>, name: Json, mutability: string): Request {
    Request("put_image_tag_mutability",
      [("registryId", PropOrNull(props, "registry_id")), ("repositoryName", name),
       ("imageTagMutability", JStr(mutability))])
  }

  function MutabilityStep(v: Context, name: Json, mutability: string, cloud: Cloud): (r: Context)
    ensures Gated(v, r, MutabilityOp, {}) && r.ops == v.ops && r.props == v.props && r.links == v.links
    ensures r.requests == v.requests + (if MutabilityOp in v.ops then [MutabilityRequest(v.props, name, mutability)] else [])
    ensures r.ret == if MutabilityOp in v.ops && cloud.putMutability.Some?
      then Some(CommonError(MutabilityFailed, cloud.putMutability.value, 35, MutabilityPermErrors)) else v.ret
  {
    if MutabilityOp !in v.ops then v
    else
      var v1 := v.(trace := v.trace + [MutabilityOp],
                   requests := v.requests + [MutabilityRequest(v.props, name, mutability)]);
      match cloud.putMutability
      case None => v1.(logs := v1.logs + [Log(MutabilityUpdated, false)])
      case Some(code) =>
        v1.(ret := Some(CommonError(MutabilityFailed, code, 35, MutabilityPermErrors)))
  }

  /** The `tag_resource` request for the tags an `add_tags` payload holds. */
  function TagRequest(arn: Json, payload: Json): Request {
    Request("tag_resource", [("ResourceArn", arn), ("Tags", JList(TagJsons(FormatTags(ObjFields(payload)))))])
  }

  /** The `untag_resource` request for the keys a `remove_tags` payload holds. */
  function UntagRequest(arn: Json, payload: Json): Request {
    Request("untag_resource", [("ResourceArn", arn), ("TagKeys", payload)])
  }

  /** `add_tags`; the props always hold the `arn` here (`TagOpsHaveArn`), so
      the null ARN is never sent. */
  function AddTagsStep(v: Context, cloud: Cloud): (r: Context)
    ensures Gated(v, r, AddTagsOp, {}) && r.ops == v.ops && r.props == v.props && r.links == v.links
    ensures r.requests == v.requests +
      (if AddTagsOp in v.ops then [TagRequest(PropOrNull(v.props, "arn"), v.ops[AddTagsOp])] else [])
    ensures r.ret == if AddTagsOp in v.ops && cloud.tagResource.Some?
      then Some(CommonError(AddTagsFailed, cloud.tagResource.value, 50, TagPermErrors)) else v.ret
  {
    if AddTagsOp !in v.ops then v
    else
      var v1 := v.(trace := v.trace + [AddTagsOp],
                   requests := v.requests + [TagRequest(PropOrNull(v.props, "arn"), v.ops[AddTagsOp])]);
      match cloud.tagResource
      case None => v1.(logs := v1.logs + [Log(TagsAdded, false)])
      case Some(code) => v1.(ret := Some(CommonError(AddTagsFailed, code, 50, TagPermErrors)))
  }

  function RemoveTagsStep(v: Context, cloud: Cloud): (r: Context)
    ensures Gated(v, r, RemoveTagsOp, {}) && r.ops == v.ops && r.props == v.props && r.links == v.links
    ensures r.requests == v.requests +
      (if RemoveTagsOp in v.ops then [UntagRequest(PropOrNull(v.props, "arn"), v.ops[RemoveTagsOp])] else [])
    ensures r.ret == if RemoveTagsOp in v.ops && cloud.untagResource.Some?
      then Some(CommonError(RemoveTagsFailed, cloud.untagResource.value, 65, TagPermErrors)) else v.ret
  {
    if RemoveTagsOp !in v.ops then v
    else
      var v1 := v.(trace := v.trace + [RemoveTagsOp],
                   requests := v.requests + [UntagRequest(PropOrNull(v.props, "arn"), v.ops[RemoveTagsOp])]);
      match cloud.untagResource
      case None => v1.(logs := v1.logs + [Log(TagsRemoved, false)])
      case Some(code) => v1.(ret := Some(CommonError(RemoveTagsFailed, code, 65, TagPermErrors)))
  }

  /** The `delete_repository` request read from the op's payload; a None
      registry id is dropped. */
  function DeleteRequest(payload: Json): Request {
    var p := ObjFields(payload);
    Request(DeleteOp, RemoveNone([("repositoryName", GetOrNull(p, "name")),
      ("registryId", GetOrNull(p, "registry_id")), ("force", JBool(true))]))
  }

  /** The progress a failed delete reports: 80 for a rename's delete, 10 for
      a delete intent. */
  function DeleteProgress(payload: Json): int {
    if Truthy(GetOrNull(ObjFields(payload), "create_and_remove")) then 80 else 10
  }

  function DeleteStep(v: Context, cloud: Cloud): (r: Context)
    ensures Gated(v, r, DeleteOp, {}) && r.ops == v.ops && r.props == v.props && r.links == v.links
    ensures r.requests == v.requests + (if DeleteOp in v.ops then [DeleteRequest(v.ops[DeleteOp])] else [])
    ensures DeleteOp in v.ops && cloud.deleteRepository.Some? && cloud.deleteRepository.value != NotFound ==>
      r.ret == Some(CommonError(DeleteFailed, cloud.deleteRepository.value, DeleteProgress(v.ops[DeleteOp]), []))
    ensures DeleteOp !in v.ops || cloud.deleteRepository.None? || cloud.deleteRepository == Some(NotFound) ==>
      r.ret == v.ret
  {
    if DeleteOp !in v.ops then v
    else
      var payload := v.ops[DeleteOp];
      var v1 := v.(trace := v.trace + [DeleteOp], requests := v.requests + [DeleteRequest(payload)]);
      match cloud.deleteRepository
      case None => v1.(logs := v1.logs + [Log(RepoDeleted, false)])
      case Some(code) =>
        if code == NotFound then v1.(logs := v1.logs + [Log(RepoAlreadyGone, false)])
        else v1.(ret := Some(CommonError(DeleteFailed, code, DeleteProgress(payload), [])))
  }

  // ----- lambda_handler -----

  /** The op table `lambda_handler` sets up, and both `compare_defs` calls. */
  function Prelude(ev: Event, c: Config): Context {
    var v0 := Empty.(ops := InitialOps(ev, c));
    var v1 := CompareDefsStep(v0, ev.prev, ev.cdef);
    CompareDefsStep(v1, ev.prev.(rendef := AfterCompareDefs(v0, ev.prev.rendef)), AfterCompareDefs(v0, ev.cdef))
  }

  /** The handlers that read and set up the repository. */
  function Provision(v: Context, c: Config, prevProps: map<string, Json>, cloud: Cloud): Context {
    var repoDef := RepoDef(c);
    var v3 := GetRepositoryStep(v, c.name, repoDef, prevProps, c.tags, cloud);
    var v4 := CreateStep(v3, repoDef, cloud);
    var v5 := ScanningStep(v4, c.name, c.scanOnPush, cloud);
    MutabilityStep(v5, c.name, c.mutability, cloud)
  }

  /** The tag handlers and the delete. */
  function Finish(v: Context, cloud: Cloud): Context {
    DeleteStep(RemoveTagsStep(AddTagsStep(v, cloud), cloud), cloud)
  }

  /** The handlers in their fixed order, after validation succeeded. */
  function Run(ev: Event, c: Config, cloud: Cloud): Context {
    Finish(Provision(Prelude(ev, c), c, ev.prev.props, cloud), cloud)
  }

  /** `lambda_handler`: a validation error is caught at the top and
      reported with progress 0 before any op is enqueued. */
  function Reconcile(ev: Event, cloud: Cloud): Context {
    match ParseConfig(ev.cdef, ev.safeName)
    case Raised(msg) => Crash(Empty, msg)
    case Ok(c) => Run(ev, c, cloud)
  }

  // ----- the handlers on the shared `eh` -----

  /** Returns the two definitions as the handler leaves them in place. */
  method CompareDefs(eh: ExtensionHandler, prev: Prev, cdef: Dict) returns (rendef': Dict, cdef': Dict)
    modifies eh
    ensures eh.Current() == CompareDefsStep(old(eh.Current()), prev, cdef)
    ensures rendef' == AfterCompareDefs(old(eh.Current()), prev.rendef)
    ensures cdef' == AfterCompareDefs(old(eh.Current()), cdef)
  {
    if CompareDefsOp !in eh.ops {
      return prev.rendef, cdef;
    }
    eh.Enter(CompareDefsOp);
    rendef' := Pop(prev.rendef, "trust_level");
    cdef' := Pop(cdef, "trust_level");
    if ToMap(rendef') != ToMap(cdef') {
      eh.AddOp(GetRepositoryOp, NoPayload);
    } else {
      eh.AddLinks(prev.links);
      eh.AddProps(prev.props);
      eh.AddLog(FullTrustNoChange, false);
    }
  }

  method ReportFailure(eh: ExtensionHandler, code: string)
    modifies eh
    ensures eh.Current() == DescribeFailure(old(eh.Current()), code)
  {
    if code == NotFound {
      eh.AddOp(CreateOp, NoPayload);
    } else {
      eh.Declare(CommonError(GetFailed, code, 10, []));
    }
  }

  method Found(eh: ExtensionHandler, d: Description, repoDef: Dict)
    modifies eh
    ensures eh.Current() == Described(old(eh.Current()), d, repoDef)
  {
    eh.AddLog(FoundRepo, false);
    eh.AddProps(DescribedProps(d));
    if EncryptionWarning(d, repoDef) {
      eh.AddLog(KmsWarning, true);
    }
    if MutabilityDiffers(d, repoDef) {
      eh.AddOp(MutabilityOp, NoPayload);
    }
    if ScanOnPushDiffers(d, repoDef) {
      eh.AddOp(ScanOnPushOp, NoPayload);
    }
  }

  method DiffTags(eh: ExtensionHandler, tags: Dict, listTags: ListTagsResult)
    modifies eh
    ensures eh.Current() == TagDiff(old(eh.Current()), tags, listTags)
  {
    match listTags
    case ListTagsFailed(code) =>
      ReportFailure(eh, code);
    case TagList(l) =>
      var current := UnformatTags(l);
      if ToMap(tags) != ToMap(current) {
        var removed := RemovedKeys(current, tags);
        var added := AddedTags(tags, current);
        if removed != [] {
          eh.AddOp(RemoveTagsOp, JList(StrList(removed)));
        }
        if added != [] {
          eh.AddOp(AddTagsOp, JObj(added));
        }
      }
  }

  method GetRepository(eh: ExtensionHandler, name: Json, repoDef: Dict, prevProps: map<string, Json>,
                       tags: Dict, cloud: Cloud)
    modifies eh
    ensures eh.Current() == GetRepositoryStep(old(eh.Current()), name, repoDef, prevProps, tags, cloud)
  {
    if GetRepositoryOp !in eh.ops {
      return;
    }
    eh.Enter(GetRepositoryOp);
    if Renamed(prevProps, name) {
      eh.AddOp(DeleteOp, RenamePayload(prevProps));
    }
    Describe(eh, repoDef, tags, cloud);
  }

  method Describe(eh: ExtensionHandler, repoDef: Dict, tags: Dict, cloud: Cloud)
    modifies eh
    ensures eh.Current() == Inspect(old(eh.Current()), repoDef, tags, cloud)
  {
    match cloud.describe
    case DescribeFailed(code) =>
      ReportFailure(eh, code);
    case Repositories(repos) =>
      if repos == [] {
        eh.AddOp(CreateOp, NoPayload);
      } else {
        Found(eh, repos[0], repoDef);
        DiffTags(eh, tags, cloud.listTags);
      }
  }

  method CreateRepository(eh: ExtensionHandler, repoDef: Dict, cloud: Cloud)
    modifies eh
    ensures eh.Current() == CreateStep(old(eh.Current()), repoDef, cloud)
  {
    if CreateOp !in eh.ops {
      return;
    }
    eh.Enter(CreateOp);
    eh.Send(CreateOp, repoDef);
    match cloud.create
    case Created(d) =>
      eh.AddLog(CreatedRepo, false);
      eh.AddProps(DescribedProps(d));
    case CreateFailed(code) =>
      eh.Declare(CommonError(CreateRepoFailed, code, 20, CreatePermErrors));
  }

  lemma ScanningRuns(v: Context, name: Json, scan: Json, cloud: Cloud)
    requires ScanningOp in v.ops
    ensures var v1 := v.(trace := v.trace + [ScanningOp], requests := v.requests + [ScanningRequest(v.props, name, scan)]);
      ScanningStep(v, name, scan, cloud) == if cloud.putScanning.None? then v1.(logs := v1.logs + [Log(ScanningUpdated, false)])
        else v1.(ret := Some(CommonError(ScanningFailed, cloud.putScanning.value, 30, ScanningPermErrors)))
  {
  }

  method UpdateImageScanningConfiguration(eh: ExtensionHandler, name: Json, scan: Json, cloud: Cloud)
    modifies eh
    ensures eh.Current() == ScanningStep(old(eh.Current()), name, scan, cloud)
  {
    if ScanningOp !in eh.ops {
      return;
    }
    ScanningRuns(eh.Current(), name, scan, cloud);
    eh.Enter(ScanningOp);
    var req := ScanningRequest(eh.props, name, scan);
    eh.Send(req.api, req.params);
    match cloud.putScanning
    case None =>
      eh.AddLog(ScanningUpdated, false);
    case Some(code) =>
      eh.Declare(CommonError(ScanningFailed, code, 30, ScanningPermErrors));
  }

  method UpdateImageTagMutability(eh: ExtensionHandler, name: Json, mutability: string, cloud: Cloud)
    modifies eh
    ensures eh.Current() == MutabilityStep(old(eh.Current()), name, mutability, cloud)
  {
    if MutabilityOp !in eh.ops {
      return;
    }
    eh.Enter(MutabilityOp);
    var req := MutabilityRequest(eh.props, name, mutability);
    eh.Send(req.api, req.params);
    match cloud.putMutability
    case None =>
      eh.AddLog(MutabilityUpdated, false);
    case Some(code) =>
      eh.Declare(CommonError(MutabilityFailed, code, 35, MutabilityPermErrors));
  }

  method AddTags(eh: ExtensionHandler, cloud: Cloud)
    modifies eh
    ensures eh.Current() == AddTagsStep(old(eh.Current()), cloud)
  {
    if AddTagsOp !in eh.ops {
      return;
    }
    eh.Enter(AddTagsOp);
    var req := TagRequest(PropOrNull(eh.props, "arn"), eh.ops[AddTagsOp]);
    eh.Send(req.api, req.params);
    match cloud.tagResource
    case None =>
      eh.AddLog(TagsAdded, false);
    case Some(code) =>
      eh.Declare(CommonError(AddTagsFailed, code, 50, TagPermErrors));
  }

  method RemoveTags(eh: ExtensionHandler, cloud: Cloud)
    modifies eh
    ensures eh.Current() == RemoveTagsStep(old(eh.Current()), cloud)
  {
    if RemoveTagsOp !in eh.ops {
      return;
    }
    eh.Enter(RemoveTagsOp);
    var req := UntagRequest(PropOrNull(eh.props, "arn"), eh.ops[RemoveTagsOp]);
    eh.Send(req.api, req.params);
    match cloud.untagResource
    case None =>
      eh.AddLog(TagsRemoved, false);
    case Some(code) =>
      eh.Declare(CommonError(RemoveTagsFailed, code, 65, TagPermErrors));
  }

  method DeleteRepository(eh: ExtensionHandler, cloud: Cloud)
    modifies eh
    ensures eh.Current() == DeleteStep(old(eh.Current()), cloud)
  {
    if DeleteOp !in eh.ops {
      return;
    }
    var payload := eh.ops[DeleteOp];
    eh.Enter(DeleteOp);
    var req := DeleteRequest(payload);
    eh.Send(req.api, req.params);
    match cloud.deleteRepository
    case None =>
      eh.AddLog(RepoDeleted, false);
    case Some(code) =>
      if code == NotFound {
        eh.AddLog(RepoAlreadyGone, false);
      } else {
        eh.Declare(CommonError(DeleteFailed, code, DeleteProgress(payload), []));
      }
  }

  /** `lambda_handler` on a fresh `eh`: what it returns is `Reconcile`. */
  method LambdaHandler(ev: Event, cloud: Cloud) returns (resp: Context)
    ensures resp == Reconcile(ev, cloud)
  {
    var eh := new ExtensionHandler();
    var parsed := ParseConfig(ev.cdef, ev.safeName);
    if parsed.Raised? {
      eh.Fail(parsed.msg);
      return eh.Current();
    }
    var c := parsed.value;
    SelectOps(eh, ev, c);
    Prepare(eh, ev, c);
    Provide(eh, c, ev.prev.props, cloud);
    Conclude(eh, cloud);
    resp := eh.Current();
  }

  /** The op selection of `lambda_handler`. */
  method SelectOps(eh: ExtensionHandler, ev: Event, c: Config)
    requires eh.Current() == Empty
    modifies eh
    ensures eh.Current() == Empty.(ops := InitialOps(ev, c))
  {
    if !ev.passBackData {
      if ev.op == "upsert" {
        if c.fullTrust {
          eh.AddOp(CompareDefsOp, NoPayload);
        } else {
          eh.AddOp(GetRepositoryOp, NoPayload);
        }
      } else if ev.op == "delete" {
        eh.AddOp(DeleteOp, DeleteIntent(c.name));
      }
    }
  }

  method Prepare(eh: ExtensionHandler, ev: Event, c: Config)
    requires eh.Current() == Empty.(ops := InitialOps(ev, c))
    modifies eh
    ensures eh.Current() == Prelude(ev, c)
  {
    var rendef, cdef := CompareDefs(eh, ev.prev, ev.cdef);
    rendef, cdef := CompareDefs(eh, ev.prev.(rendef := rendef), cdef);
  }

  method Provide(eh: ExtensionHandler, c: Config, prevProps: map<string, Json>, cloud: Cloud)
    modifies eh
    ensures eh.Current() == Provision(old(eh.Current()), c, prevProps, cloud)
  {
    var repoDef := RepoDef(c);
    GetRepository(eh, c.name, repoDef, prevProps, c.tags, cloud);
    CreateRepository(eh, repoDef, cloud);
    UpdateImageScanningConfiguration(eh, c.name, c.scanOnPush, cloud);
    UpdateImageTagMutability(eh, c.name, c.mutability, cloud);
  }

  method Conclude(eh: ExtensionHandler, cloud: Cloud)
    modifies eh
    ensures eh.Current() == Finish(old(eh.Current()), cloud)
  {
    AddTags(eh, cloud);
    RemoveTags(eh, cloud);
    DeleteRepository(eh, cloud);
  }

  // ----- the order the handlers run in -----

  /** Every op the reconciler can enqueue. */
  const Enqueued: set<string> := {CompareDefsOp, GetRepositoryOp} + GetRepositoryEnqueues

  lemma PreludeTrace(ev: Event, c: Config)
    ensures Prelude(ev, c).trace == Filter(Order[..2], Prelude(ev, c).ops.Keys)
    ensures Prelude(ev, c).ops.Keys <= {CompareDefsOp, GetRepositoryOp, DeleteOp}
  {
    var v0 := Empty.(ops := InitialOps(ev, c));
    var v1 := CompareDefsStep(v0, ev.prev, ev.cdef);
    var v2 := CompareDefsStep(v1, ev.prev.(rendef := AfterCompareDefs(v0, ev.prev.rendef)), AfterCompareDefs(v0, ev.cdef));
    assert Order[..0] == [];
    GatedAt(Order, 0, v0, v1, {GetRepositoryOp});
    GatedAt(Order, 1, v1, v2, {GetRepositoryOp});
  }

  lemma EnqueuesComeLater()
    ensures forall x :: x in GetRepositoryEnqueues ==> x !in Order[..3]
  {
    assert Order[..3] == [CompareDefsOp, CompareDefsOp, GetRepositoryOp];
  }

  lemma GetRepositoryTrace(v: Context, name: Json, repoDef: Dict, prevProps: map<string, Json>, tags: Dict, cloud: Cloud)
    requires v.trace == Filter(Order[..2], v.ops.Keys)
    ensures var r := GetRepositoryStep(v, name, repoDef, prevProps, tags, cloud);
      r.trace == Filter(Order[..3], r.ops.Keys)
  {
    EnqueuesComeLater();
    GatedAt(Order, 2, v, GetRepositoryStep(v, name, repoDef, prevProps, tags, cloud), GetRepositoryEnqueues);
  }

  lemma ProvisionTrace(v: Context, c: Config, prevProps: map<string, Json>, cloud: Cloud)
    requires v.trace == Filter(Order[..2], v.ops.Keys)
    ensures Provision(v, c, prevProps, cloud).trace == Filter(Order[..6], Provision(v, c, prevProps, cloud).ops.Keys)
    ensures Provision(v, c, prevProps, cloud).ops.Keys <= v.ops.Keys + GetRepositoryEnqueues
  {
    var repoDef := RepoDef(c);
    var v3 := GetRepositoryStep(v, c.name, repoDef, prevProps, c.tags, cloud);
    GetRepositoryTrace(v, c.name, repoDef, prevProps, c.tags, cloud);
    SetupTrace(v3, c, repoDef, cloud);
  }

  lemma SetupTrace(v: Context, c: Config, repoDef: Dict, cloud: Cloud)
    requires v.trace == Filter(Order[..3], v.ops.Keys)
    ensures var r := MutabilityStep(ScanningStep(CreateStep(v, repoDef, cloud), c.name, c.scanOnPush, cloud), c.name, c.mutability, cloud);
      r.trace == Filter(Order[..6], r.ops.Keys) && r.ops == v.ops
  {
    var v4 := CreateStep(v, repoDef, cloud);
    var v5 := ScanningStep(v4, c.name, c.scanOnPush, cloud);
    var v6 := MutabilityStep(v5, c.name, c.mutability, cloud);
    SetupGated(v, v4, v5, v6);
  }

  lemma SetupGated(v: Context, v4: Context, v5: Context, v6: Context)
    requires v.trace == Filter(Order[..3], v.ops.Keys)
    requires Gated(v, v4, CreateOp, {}) && Gated(v4, v5, ScanningOp, {}) && Gated(v5, v6, MutabilityOp, {})
    ensures v6.trace == Filter(Order[..6], v6.ops.Keys)
  {
    assert Order[3] == CreateOp && Order[4] == ScanningOp && Order[5] == MutabilityOp;
    GatedAt(Order, 3, v, v4, {});
    GatedAt(Order, 4, v4, v5, {});
    GatedAt(Order, 5, v5, v6, {});
  }

  lemma FinishTrace(v: Context, cloud: Cloud)
    requires v.trace == Filter(Order[..6], v.ops.Keys)
    ensures Finish(v, cloud).trace == Filter(Order, Finish(v, cloud).ops.Keys)
    ensures Finish(v, cloud).ops == v.ops && Finish(v, cloud).props == v.props
  {
    var v7 := AddTagsStep(v, cloud);
    var v8 := RemoveTagsStep(v7, cloud);
    var v9 := DeleteStep(v8, cloud);
    GatedLastThree(Order, v, v7, v8, v9);
  }

  /** The handlers that ran are those of the fixed call sequence whose op
      is in the final op table, in the sequence's order; and only the ops in
      `Enqueued` ever appear. */
  lemma RunTrace(ev: Event, c: Config, cloud: Cloud)
    ensures Run(ev, c, cloud).trace == Filter(Order, Run(ev, c, cloud).ops.Keys)
    ensures Run(ev, c, cloud).ops.Keys <= Enqueued
  {
    PreludeTrace(ev, c);
    var v2 := Prelude(ev, c);
    ProvisionTrace(v2, c, ev.prev.props, cloud);
    FinishTrace(Provision(v2, c, ev.prev.props, cloud), cloud);
  }

  /** Every handler that ran is in the fixed call sequence and its op was
      enqueued; they ran in the sequence's order. */
  lemma ReconcileTrace(ev: Event, cloud: Cloud)
    ensures Reconcile(ev, cloud).trace == Filter(Order, Reconcile(ev, cloud).ops.Keys)
    ensures Reconcile(ev, cloud).ops.Keys <= Enqueued
  {
    match ParseConfig(ev.cdef, ev.safeName)
    case Raised(msg) =>
      assert Reconcile(ev, cloud) == Crash(Empty, msg);
      assert Crash(Empty, msg).ops.Keys == {};
      FilterNone(Order);
    case Ok(c) =>
      RunTrace(ev, c, cloud);
  }

  lemma OrderUnique()
    ensures forall m, n :: 2 <= m < |Order| && 0 <= n < |Order| && m != n ==> Order[m] != Order[n]
  {
  }

  /** Whatever ops are enqueued, the repository is read before it is created. */
  lemma GetBeforeCreate(ops: set<string>)
    ensures var t := Filter(Order, ops);
      forall i, j :: 0 <= i < |t| && 0 <= j < |t| && t[i] == GetRepositoryOp && t[j] == CreateOp ==> i < j
  {
    var t := Filter(Order, ops);
    OrderUnique();
    forall i, j | 0 <= i < |t| && 0 <= j < |t| && t[i] == GetRepositoryOp && t[j] == CreateOp ensures i < j {
      FilterKeepsOrder(Order, ops, 2, 3, i, j);
    }
  }

  /** Whatever ops are enqueued, tags are added before others are removed. */
  lemma AddTagsBeforeRemoveTags(ops: set<string>)
    ensures var t := Filter(Order, ops);
      forall i, j :: 0 <= i < |t| && 0 <= j < |t| && t[i] == AddTagsOp && t[j] == RemoveTagsOp ==> i < j
  {
    var t := Filter(Order, ops);
    OrderUnique();
    forall i, j | 0 <= i < |t| && 0 <= j < |t| && t[i] == AddTagsOp && t[j] == RemoveTagsOp ensures i < j {
      FilterKeepsOrder(Order, ops, 6, 7, i, j);
    }
  }

  /** Whatever ops are enqueued, a delete runs after every other handler. */
  lemma DeleteRunsLast(ops: set<string>)
    ensures var t := Filter(Order, ops);
      DeleteOp in t ==> t[|t| - 1] == DeleteOp && DeleteOp !in t[..|t| - 1]
  {
    var t := Filter(Order, ops);
    var pre := Order[..|Order| - 1];
    assert Order[|Order| - 1] == DeleteOp;
    assert DeleteOp !in pre;
    if DeleteOp in t {
      assert t == Filter(pre, ops) + [DeleteOp];
      assert t[..|t| - 1] == Filter(pre, ops);
    }
  }

  /** The handlers of one invocation keep the order of the call sequence. */
  lemma ReconcileOrder(ev: Event, cloud: Cloud)
    ensures var t := Reconcile(ev, cloud).trace;
      forall i, j :: 0 <= i < |t| && 0 <= j < |t| && t[i] == GetRepositoryOp && t[j] == CreateOp ==> i < j
    ensures var t := Reconcile(ev, cloud).trace;
      forall i, j :: 0 <= i < |t| && 0 <= j < |t| && t[i] == AddTagsOp && t[j] == RemoveTagsOp ==> i < j
    ensures var t := Reconcile(ev, cloud).trace;
      DeleteOp in t ==> t[|t| - 1] == DeleteOp && DeleteOp !in t[..|t| - 1]
  {
    ReconcileTrace(ev, cloud);
    var ops := Reconcile(ev, cloud).ops.Keys;
    GetBeforeCreate(ops);
    AddTagsBeforeRemoveTags(ops);
    DeleteRunsLast(ops);
  }

  // ----- what one invocation does -----

  /** An upsert that reaches `get_repository`: not full trust, or a
      definition that changed since the previous invocation. */
  predicate Inspects(ev: Event, c: Config) {
    !ev.passBackData && ev.op == "upsert" && !(c.fullTrust && SameDefinition(ev.prev.rendef, ev.cdef))
  }

  lemma PreludeInspects(ev: Event, c: Config)
    requires Inspects(ev, c)
    ensures var v := Prelude(ev, c);
      GetRepositoryOp in v.ops && v.ops.Keys <= {CompareDefsOp, GetRepositoryOp} &&
      v.props == map[] && v.requests == [] && v.ret == None &&
      (CompareDefsOp in v.ops <==> c.fullTrust)
  {
    SecondCompareAgrees(Empty.(ops := InitialOps(ev, c)), ev.prev.rendef, ev.cdef);
  }

  lemma PreludeUnchanged(ev: Event, c: Config)
    requires !ev.passBackData && ev.op == "upsert" && c.fullTrust && SameDefinition(ev.prev.rendef, ev.cdef)
    ensures var v := Prelude(ev, c);
      v.ops == map[CompareDefsOp := NoPayload] && v.props == ev.prev.props && v.links == ev.prev.links &&
      v.requests == [] && v.ret == None && v.trace == [CompareDefsOp, CompareDefsOp]
  {
    var v0 := Empty.(ops := InitialOps(ev, c));
    assert v0.ops == map[CompareDefsOp := NoPayload];
    SecondCompareAgrees(v0, ev.prev.rendef, ev.cdef);
    var prev2 := ev.prev.(rendef := AfterCompareDefs(v0, ev.prev.rendef));
    CompareDefsSame(v0, ev.prev, ev.cdef);
    var v1 := CompareDefsStep(v0, ev.prev, ev.cdef);
    MergeIntoEmpty(ev.prev.links);
    MergeIntoEmpty(ev.prev.props);
    CompareDefsSame(v1, prev2, AfterCompareDefs(v0, ev.cdef));
    MergeTwice(ev.prev.links);
    MergeTwice(ev.prev.props);
  }

  /** `compare_defs` on agreeing definitions copies the previous links and
      props and logs that nothing changed. */
  lemma CompareDefsSame(v: Context, prev: Prev, cdef: Dict)
    requires CompareDefsOp in v.ops && SameDefinition(prev.rendef, cdef)
    ensures CompareDefsStep(v, prev, cdef) == v.(trace := v.trace + [CompareDefsOp],
      links := v.links + prev.links, props := v.props + prev.props,
      logs := v.logs + [Log(FullTrustNoChange, false)])
  {
  }

  lemma MergeIntoEmpty<V>(m: map<string, V>)
    ensures map[] + m == m
  {
  }

  lemma MergeTwice<V>(m: map<string, V>)
    ensures m + m == m
  {
  }

  lemma PreludeDelete(ev: Event, c: Config)
    requires !ev.passBackData && ev.op == "delete"
    ensures Prelude(ev, c) == Empty.(ops := map[DeleteOp := DeleteIntent(c.name)])
  {
  }

  /** A missing repository is to be created, and nothing else is diffed. */
  lemma InspectMissing(v: Context, repoDef: Dict, tags: Dict, cloud: Cloud)
    requires cloud.describe == DescribeFailed(NotFound) || cloud.describe == Repositories([])
    ensures Inspect(v, repoDef, tags, cloud) == v.(ops := v.ops[CreateOp := NoPayload])
  {
  }

  /** A described repository is not created, and each attribute that
      differs from the definition is enqueued. */
  lemma InspectFound(v: Context, repoDef: Dict, tags: Dict, cloud: Cloud)
    requires cloud.describe.Repositories? && cloud.describe.repos != [] && cloud.listTags.TagList?
    requires CreateOp !in v.ops && MutabilityOp !in v.ops && ScanOnPushOp !in v.ops
    ensures var r := Inspect(v, repoDef, tags, cloud); var d := cloud.describe.repos[0];
      CreateOp !in r.ops && r.props == v.props + DescribedProps(d) &&
      (MutabilityOp in r.ops <==> MutabilityDiffers(d, repoDef)) &&
      (ScanOnPushOp in r.ops <==> ScanOnPushDiffers(d, repoDef))
  {
    TagDiffOps(Described(v, cloud.describe.repos[0], repoDef), tags, cloud.listTags.tags);
  }

  /** For a described repository the tag ops are exactly the delta between
      the definition's tags and the listed ones. */
  lemma InspectTags(v: Context, repoDef: Dict, tags: Dict, cloud: Cloud)
    requires cloud.describe.Repositories? && cloud.describe.repos != [] && cloud.listTags.TagList?
    requires AddTagsOp !in v.ops && RemoveTagsOp !in v.ops
    ensures var r := Inspect(v, repoDef, tags, cloud); var current := UnformatTags(cloud.listTags.tags);
      (AddTagsOp in r.ops <==> AddedTags(tags, current) != []) &&
      (AddTagsOp in r.ops ==> r.ops[AddTagsOp] == JObj(AddedTags(tags, current))) &&
      (RemoveTagsOp in r.ops <==> RemovedKeys(current, tags) != []) &&
      (RemoveTagsOp in r.ops ==> r.ops[RemoveTagsOp] == JList(StrList(RemovedKeys(current, tags))))
  {
    TagDiffOps(Described(v, cloud.describe.repos[0], repoDef), tags, cloud.listTags.tags);
  }

  /** `get_repository` enqueues the delete of the previous repository
      exactly on a rename. */
  lemma GetRepositoryRename(v: Context, c: Config, prevProps: map<string, Json>, cloud: Cloud)
    requires GetRepositoryOp in v.ops && DeleteOp !in v.ops
    ensures var r := GetRepositoryStep(v, c.name, RepoDef(c), prevProps, c.tags, cloud);
      (DeleteOp in r.ops <==> Renamed(prevProps, c.name)) &&
      (DeleteOp in r.ops ==> r.ops[DeleteOp] == RenamePayload(prevProps))
  {
    var v1 := RenameStep(v, c.name, prevProps);
    InspectKeeps(v1, RepoDef(c), c.tags, cloud);
    assert KeepsOp(v1, Inspect(v1, RepoDef(c), c.tags, cloud), DeleteOp);
  }

  /** What the handlers after `get_repository` leave: the same ops, the
      create request first among the new requests, and the created
      repository's props. */
  lemma AfterGetRepository(v: Context, c: Config, prevProps: map<string, Json>, cloud: Cloud)
    ensures var g := GetRepositoryStep(v, c.name, RepoDef(c), prevProps, c.tags, cloud);
      var r := Finish(Provision(v, c, prevProps, cloud), cloud);
      r.ops == g.ops && Provision(v, c, prevProps, cloud).ops == g.ops && g.requests <= r.requests &&
      (CreateOp in g.ops ==> |r.requests| > |g.requests| && r.requests[|g.requests|] == Request(CreateOp, RepoDef(c))) &&
      r.props == (if CreateOp in g.ops && cloud.create.Created? then g.props + DescribedProps(cloud.create.repo) else g.props)
  {
    var g := GetRepositoryStep(v, c.name, RepoDef(c), prevProps, c.tags, cloud);
    var v4 := CreateStep(g, RepoDef(c), cloud);
    AfterCreate(v4, c, cloud);
    var r := Finish(Provision(v, c, prevProps, cloud), cloud);
    Extended(g.requests, v4.requests);
    if CreateOp in g.ops {
      assert v4.requests[|g.requests|] == Request(CreateOp, RepoDef(c));
      assert r.requests[|g.requests|] == v4.requests[|g.requests|];
    }
  }

  /** The handlers after `create_repository` keep its ops and props and only
      append requests. */
  lemma AfterCreate(v4: Context, c: Config, cloud: Cloud)
    ensures var v6 := MutabilityStep(ScanningStep(v4, c.name, c.scanOnPush, cloud), c.name, c.mutability, cloud);
      var r := Finish(v6, cloud);
      v6.ops == v4.ops && r.ops == v4.ops && r.props == v4.props && v4.requests <= r.requests
  {
    var v5 := ScanningStep(v4, c.name, c.scanOnPush, cloud);
    var v6 := MutabilityStep(v5, c.name, c.mutability, cloud);
    Extended(v4.requests, v5.requests);
    Extended(v5.requests, v6.requests);
    FinishKeepsState(v6, cloud);
    PrefixTrans(v4.requests, v5.requests, v6.requests, Finish(v6, cloud).requests);
  }

  /** The tag handlers and the delete change no op or prop and only append
      requests. */
  lemma FinishKeepsState(v: Context, cloud: Cloud)
    ensures var r := Finish(v, cloud); r.ops == v.ops && r.props == v.props && v.requests <= r.requests
  {
    var a := AddTagsStep(v, cloud);
    var b := RemoveTagsStep(a, cloud);
    var r := DeleteStep(b, cloud);
    Extended(v.requests, a.requests);
    Extended(a.requests, b.requests);
    Extended(b.requests, r.requests);
    PrefixTrans(v.requests, a.requests, b.requests, r.requests);
  }

  /** A request log the next handler appended to starts with the old one. */
  lemma Extended(s: seq<Request>, t: seq<Request>)
    requires exists x :: t == s + x
    ensures s <= t
  {
    var x :| t == s + x;
    assert t[..|s|] == s;
  }

  lemma PrefixTrans(s0: seq<Request>, s1: seq<Request>, s2: seq<Request>, s3: seq<Request>)
    requires s0 <= s1 && s1 <= s2 && s2 <= s3
    ensures s0 <= s3
  {
    assert s3[..|s0|] == s2[..|s1|][..|s0|];
  }

  /** A rename's delete reports failures with progress 80, a delete intent's with 10. */
  lemma DeleteProgressByIntent(prevProps: map<string, Json>, name: Json)
    ensures DeleteProgress(RenamePayload(prevProps)) == 80
    ensures DeleteProgress(DeleteIntent(name)) == 10
  {
    GetPair(RenamePayload(prevProps).fields, "create_and_remove", JBool(true));
    GetPair(DeleteIntent(name).fields, "create_and_remove", JBool(false));
  }

  /** A delete intent names the repository and no registry. */
  lemma DeleteIntentFields(name: Json)
    ensures GetOrNull(DeleteIntent(name).fields, "name") == name
    ensures GetOrNull(DeleteIntent(name).fields, "registry_id") == JNull
  {
    GetPair(DeleteIntent(name).fields, "name", name);
    GetMissing(DeleteIntent(name).fields, "registry_id");
  }

  lemma RemoveNoneMiddle(a: (string, Json), b: (string, Json), c: (string, Json))
    requires a.1 != JNull && b.1 == JNull && c.1 != JNull
    ensures RemoveNone([a, b, c]) == [a, c]
  {
    assert [a, b, c][..2] == [a, b] && [a, b][..1] == [a] && [a][..0] == [];
    assert RemoveNone([a]) == [a];
    assert RemoveNone([a, b]) == [a];
  }

  /** A delete intent deletes the repository by name, forced, with no registry id. */
  lemma DeleteIntentRequest(name: Json)
    requires name != JNull
    ensures DeleteRequest(DeleteIntent(name)) == Request(DeleteOp, [("repositoryName", name), ("force", JBool(true))])
  {
    DeleteIntentFields(name);
    RemoveNoneMiddle(("repositoryName", name), ("registryId", JNull), ("force", JBool(true)));
  }

  /** With no op to act on, the invocation does nothing. */
  lemma NoOpNoWork(ev: Event, c: Config, cloud: Cloud)
    requires ParseConfig(ev.cdef, ev.safeName) == Ok(c)
    requires ev.passBackData || (ev.op != "upsert" && ev.op != "delete")
    ensures Reconcile(ev, cloud) == Empty
  {
    assert Prelude(ev, c) == Empty;
  }

  /** A definition that fails validation is reported with progress 0 and
      the validation message as error code, before any op is enqueued. */
  lemma ReconcileInvalid(ev: Event, cloud: Cloud)
    requires ParseConfig(ev.cdef, ev.safeName).Raised?
    ensures var r := Reconcile(ev, cloud);
      r.ret == Some(Declared(0, false, Some(ParseConfig(ev.cdef, ev.safeName).msg))) &&
      r.ops == map[] && r.requests == [] && r.trace == [] && r.props == map[]
  {
  }

  /** The handlers of `Provision` do nothing when none of their ops is enqueued. */
  lemma ProvisionIdle(v: Context, c: Config, prevProps: map<string, Json>, cloud: Cloud)
    requires GetRepositoryOp !in v.ops && CreateOp !in v.ops && ScanningOp !in v.ops && MutabilityOp !in v.ops
    ensures Provision(v, c, prevProps, cloud) == v
  {
  }

  /** `Finish` is the delete alone when no tag op is enqueued. */
  lemma FinishDeleteOnly(v: Context, cloud: Cloud)
    requires AddTagsOp !in v.ops && RemoveTagsOp !in v.ops
    ensures Finish(v, cloud) == DeleteStep(v, cloud)
  {
  }

  /** Full trust and an unchanged definition: both `compare_defs` calls run,
      nothing else does, and the previous props and links are carried
      forward as they were. */
  lemma FullTrustUnchanged(ev: Event, c: Config, cloud: Cloud)
    requires ParseConfig(ev.cdef, ev.safeName) == Ok(c)
    requires !ev.passBackData && ev.op == "upsert" && c.fullTrust && SameDefinition(ev.prev.rendef, ev.cdef)
    ensures var r := Reconcile(ev, cloud);
      r.props == ev.prev.props && r.links == ev.prev.links && r.ops.Keys == {CompareDefsOp} &&
      r.requests == [] && r.ret == None && r.trace == [CompareDefsOp, CompareDefsOp]
  {
    PreludeUnchanged(ev, c);
    OnlyCompareDefs(Prelude(ev, c), c, ev.prev.props, cloud);
  }

  /** With only `compare_defs` enqueued, the later handlers do nothing. */
  lemma OnlyCompareDefs(v: Context, c: Config, prevProps: map<string, Json>, cloud: Cloud)
    requires v.ops == map[CompareDefsOp := NoPayload]
    ensures Finish(Provision(v, c, prevProps, cloud), cloud) == v && v.ops.Keys == {CompareDefsOp}
  {
    ProvisionIdle(v, c, prevProps, cloud);
    FinishDeleteOnly(v, cloud);
  }

  /** What the handlers after the two `compare_defs` calls may add to the op table. */
  lemma RunOps(ev: Event, c: Config, cloud: Cloud)
    ensures var v := Prelude(ev, c); var r := Run(ev, c, cloud);
      v.ops.Keys <= r.ops.Keys <= v.ops.Keys + GetRepositoryEnqueues &&
      r.ops == GetRepositoryStep(v, c.name, RepoDef(c), ev.prev.props, c.tags, cloud).ops
  {
    AfterGetRepository(Prelude(ev, c), c, ev.prev.props, cloud);
  }

  /** The trace of an upsert that reads the repository: the read, preceded
      by both `compare_defs` calls exactly when they were enqueued. */
  lemma UpsertTraceShape(v: Context, r: Context, full: bool)
    requires GetRepositoryOp in v.ops && (CompareDefsOp in v.ops <==> full)
    requires v.ops.Keys <= r.ops.Keys <= v.ops.Keys + GetRepositoryEnqueues
    requires r.trace == Filter(Order, r.ops.Keys)
    ensures GetRepositoryOp in r.trace && (CompareDefsOp in r.trace <==> full)
    ensures full ==> r.trace[..2] == [CompareDefsOp, CompareDefsOp]
  {
    var ops := r.ops.Keys;
    assert GetRepositoryOp in Order;
    FilterHas(Order, ops, GetRepositoryOp);
    if full {
      UpsertTraceFull(ops, r.trace);
    } else {
      assert CompareDefsOp !in GetRepositoryEnqueues;
    }
  }

  /** Both `compare_defs` calls open the trace when their op is enqueued. */
  lemma UpsertTraceFull(ops: set<string>, trace: seq<string>)
    requires CompareDefsOp in ops && trace == Filter(Order, ops)
    ensures CompareDefsOp in trace && |trace| >= 2 && trace[..2] == [CompareDefsOp, CompareDefsOp]
  {
    FilterHeadTwice(Order, ops, CompareDefsOp);
    assert trace[0] == CompareDefsOp;
  }

  /** An upsert that is not cut short by `compare_defs` reads the repository,
      after both `compare_defs` calls when the trust is full. */
  lemma UpsertReadsRepository(ev: Event, c: Config, cloud: Cloud)
    requires ParseConfig(ev.cdef, ev.safeName) == Ok(c) && Inspects(ev, c)
    ensures var t := Reconcile(ev, cloud).trace;
      GetRepositoryOp in t && (CompareDefsOp in t <==> c.fullTrust) &&
      (c.fullTrust ==> t[..2] == [CompareDefsOp, CompareDefsOp])
  {
    PreludeInspects(ev, c);
    RunOps(ev, c, cloud);
    RunTrace(ev, c, cloud);
    UpsertTraceShape(Prelude(ev, c), Run(ev, c, cloud), c.fullTrust);
  }

  /** On an upsert that reads the repository, the final op table is the one
      the description leaves, and the later handlers only append requests. */
  lemma RunInspects(ev: Event, c: Config, cloud: Cloud)
    requires Inspects(ev, c)
    ensures var v := Prelude(ev, c); var g := Inspect(RenameStep(v, c.name, ev.prev.props), RepoDef(c), c.tags, cloud);
      var r := Run(ev, c, cloud);
      v.ops.Keys <= {CompareDefsOp, GetRepositoryOp} && v.props == map[] && v.requests == [] &&
      r.ops == g.ops && g.requests == [] &&
      (CreateOp in g.ops ==> |r.requests| > 0 && r.requests[0] == Request(CreateOp, RepoDef(c))) &&
      r.props == (if CreateOp in g.ops && cloud.create.Created? then g.props + DescribedProps(cloud.create.repo) else g.props)
  {
    PreludeInspects(ev, c);
    AfterGetRepository(Prelude(ev, c), c, ev.prev.props, cloud);
  }

  /** Entering `get_repository` after the two `compare_defs` calls of an
      upsert: no op of the description is enqueued yet and no props are set. */
  lemma RenamedPrelude(v: Context, name: Json, prevProps: map<string, Json>)
    requires v.ops.Keys <= {CompareDefsOp, GetRepositoryOp} && v.props == map[]
    ensures var r := RenameStep(v, name, prevProps);
      CreateOp !in r.ops && MutabilityOp !in r.ops && ScanOnPushOp !in r.ops &&
      AddTagsOp !in r.ops && RemoveTagsOp !in r.ops && r.props == map[]
  {
  }

  /** The handlers that run are those whose op is in the final table. */
  lemma RanIffEnqueued(r: Context, x: string)
    requires r.trace == Filter(Order, r.ops.Keys) && x in Order
    ensures x in r.trace <==> x in r.ops
  {
    if x in r.ops {
      FilterHas(Order, r.ops.Keys, x);
    }
  }

  lemma CreateShape(v: Context, r: Context, create: CreateResult)
    requires v.ops.Keys <= {CompareDefsOp, GetRepositoryOp, DeleteOp} && v.props == map[]
    requires r.ops == v.ops[CreateOp := NoPayload] && r.trace == Filter(Order, r.ops.Keys)
    requires r.props == if create.Created? then v.props + DescribedProps(create.repo) else v.props
    ensures CreateOp in r.trace && (create.Created? ==> r.props == DescribedProps(create.repo))
    ensures MutabilityOp !in r.trace && AddTagsOp !in r.trace && RemoveTagsOp !in r.trace
  {
    assert CreateOp in Order;
    RanIffEnqueued(r, CreateOp);
    if create.Created? {
      assert map[] + DescribedProps(create.repo) == DescribedProps(create.repo);
    }
  }

  /** A repository that does not exist is created from the definition, and
      no attribute or tag handler runs. */
  lemma MissingRepositoryCreated(ev: Event, c: Config, cloud: Cloud)
    requires ParseConfig(ev.cdef, ev.safeName) == Ok(c) && Inspects(ev, c)
    requires cloud.describe == DescribeFailed(NotFound) || cloud.describe == Repositories([])
    ensures var r := Reconcile(ev, cloud);
      CreateOp in r.trace && |r.requests| > 0 && r.requests[0] == Request(CreateOp, RepoDef(c)) &&
      (cloud.create.Created? ==> r.props == DescribedProps(cloud.create.repo)) &&
      MutabilityOp !in r.trace && AddTagsOp !in r.trace && RemoveTagsOp !in r.trace
  {
    var v1 := RenameStep(Prelude(ev, c), c.name, ev.prev.props);
    RunInspects(ev, c, cloud);
    InspectMissing(v1, RepoDef(c), c.tags, cloud);
    RunTrace(ev, c, cloud);
    CreateShape(v1, Run(ev, c, cloud), cloud.create);
  }

  lemma FoundShape(v: Context, g: Context, r: Context, d: Description, repoDef: Dict, mutability: string, scan: Json)
    requires Get(repoDef, "imageTagMutability") == Some(JStr(mutability))
    requires Lookup2(repoDef, "imageScanningConfiguration", "scanOnPush") == Some(scan)
    requires v.props == map[] && CreateOp !in g.ops && g.props == v.props + DescribedProps(d)
    requires MutabilityOp in g.ops <==> MutabilityDiffers(d, repoDef)
    requires ScanOnPushOp in g.ops <==> ScanOnPushDiffers(d, repoDef)
    requires r.ops == g.ops && r.props == g.props && r.trace == Filter(Order, r.ops.Keys)
    ensures CreateOp !in r.trace && r.props == DescribedProps(d)
    ensures MutabilityOp in r.trace <==> d.mutability != Some(JStr(mutability))
    ensures ScanOnPushOp in r.ops <==> !PyEqual(d.scanOnPush, Some(scan))
  {
    assert MutabilityOp in Order;
    RanIffEnqueued(r, MutabilityOp);
    assert map[] + DescribedProps(d) == DescribedProps(d);
  }

  /** A repository that exists is not created; its props are the described
      ones, and an attribute handler is enqueued exactly when the attribute
      differs from the definition. */
  lemma FoundRepositoryUpdated(ev: Event, c: Config, cloud: Cloud)
    requires ParseConfig(ev.cdef, ev.safeName) == Ok(c) && Inspects(ev, c)
    requires cloud.describe.Repositories? && cloud.describe.repos != [] && cloud.listTags.TagList?
    ensures var r := Reconcile(ev, cloud); var d := cloud.describe.repos[0];
      CreateOp !in r.trace && r.props == DescribedProps(d) &&
      (MutabilityOp in r.trace <==> d.mutability != Some(JStr(c.mutability))) &&
      (ScanOnPushOp in r.ops <==> !PyEqual(d.scanOnPush, Some(c.scanOnPush)))
  {
    var v1 := RenameStep(Prelude(ev, c), c.name, ev.prev.props);
    RunInspects(ev, c, cloud);
    RenamedPrelude(Prelude(ev, c), c.name, ev.prev.props);
    InspectFound(v1, RepoDef(c), c.tags, cloud);
    RepoDefSettings(c);
    RunTrace(ev, c, cloud);
    FoundShape(v1, Inspect(v1, RepoDef(c), c.tags, cloud), Run(ev, c, cloud), cloud.describe.repos[0],
      RepoDef(c), c.mutability, c.scanOnPush);
  }

  lemma TagsShape(g: Context, r: Context, added: Dict, removed: seq<string>)
    requires AddTagsOp in g.ops <==> added != []
    requires AddTagsOp in g.ops ==> g.ops[AddTagsOp] == JObj(added)
    requires RemoveTagsOp in g.ops <==> removed != []
    requires RemoveTagsOp in g.ops ==> g.ops[RemoveTagsOp] == JList(StrList(removed))
    requires r.ops == g.ops && r.trace == Filter(Order, r.ops.Keys)
    ensures AddTagsOp in r.trace <==> added != []
    ensures AddTagsOp in r.ops ==> r.ops[AddTagsOp] == JObj(added)
    ensures RemoveTagsOp in r.trace <==> removed != []
    ensures RemoveTagsOp in r.ops ==> r.ops[RemoveTagsOp] == JList(StrList(removed))
  {
    assert AddTagsOp in Order && RemoveTagsOp in Order;
    RanIffEnqueued(r, AddTagsOp);
    RanIffEnqueued(r, RemoveTagsOp);
  }

  /** For a repository that exists, a tag handler runs exactly when its part
      of the tag delta is non-empty, and its op carries that part. */
  lemma FoundRepositoryTags(ev: Event, c: Config, cloud: Cloud)
    requires ParseConfig(ev.cdef, ev.safeName) == Ok(c) && Inspects(ev, c)
    requires cloud.describe.Repositories? && cloud.describe.repos != [] && cloud.listTags.TagList?
    ensures var r := Reconcile(ev, cloud); var current := UnformatTags(cloud.listTags.tags);
      (AddTagsOp in r.trace <==> AddedTags(c.tags, current) != []) &&
      (AddTagsOp in r.ops ==> r.ops[AddTagsOp] == JObj(AddedTags(c.tags, current))) &&
      (RemoveTagsOp in r.trace <==> RemovedKeys(current, c.tags) != []) &&
      (RemoveTagsOp in r.ops ==> r.ops[RemoveTagsOp] == JList(StrList(RemovedKeys(current, c.tags))))
  {
    var v1 := RenameStep(Prelude(ev, c), c.name, ev.prev.props);
    var current := UnformatTags(cloud.listTags.tags);
    RunInspects(ev, c, cloud);
    RenamedPrelude(Prelude(ev, c), c.name, ev.prev.props);
    InspectTags(v1, RepoDef(c), c.tags, cloud);
    RunTrace(ev, c, cloud);
    TagsShape(Inspect(v1, RepoDef(c), c.tags, cloud), Run(ev, c, cloud), AddedTags(c.tags, current),
      RemovedKeys(current, c.tags));
  }

  /** A failing delete, other than for a repository already gone, is the
      last return declared. */
  lemma FinishDeleteFails(v: Context, cloud: Cloud)
    requires DeleteOp in v.ops && cloud.deleteRepository.Some? && cloud.deleteRepository.value != NotFound
    ensures Finish(v, cloud).ret == Some(CommonError(DeleteFailed, cloud.deleteRepository.value, DeleteProgress(v.ops[DeleteOp]), []))
  {
  }

  lemma RenameShape(g: Context, r: Context, renamed: bool, payload: Json)
    requires (DeleteOp in g.ops <==> renamed) && (DeleteOp in g.ops ==> g.ops[DeleteOp] == payload)
    requires r.ops == g.ops && r.trace == Filter(Order, r.ops.Keys)
    ensures DeleteOp in r.trace <==> renamed
    ensures DeleteOp in r.ops ==> r.ops[DeleteOp] == payload
  {
    assert DeleteOp in Order;
    RanIffEnqueued(r, DeleteOp);
  }

  /** On an upsert that reads the repository, the previous repository is
      deleted exactly when it was renamed. */
  lemma RenameDeletesOld(ev: Event, c: Config, cloud: Cloud)
    requires ParseConfig(ev.cdef, ev.safeName) == Ok(c) && Inspects(ev, c)
    ensures var r := Reconcile(ev, cloud);
      (DeleteOp in r.trace <==> Renamed(ev.prev.props, c.name)) &&
      (DeleteOp in r.ops ==> r.ops[DeleteOp] == RenamePayload(ev.prev.props))
  {
    var v := Prelude(ev, c);
    PreludeInspects(ev, c);
    GetRepositoryRename(v, c, ev.prev.props, cloud);
    RunOps(ev, c, cloud);
    RunTrace(ev, c, cloud);
    RenameShape(GetRepositoryStep(v, c.name, RepoDef(c), ev.prev.props, c.tags, cloud), Run(ev, c, cloud),
      Renamed(ev.prev.props, c.name), RenamePayload(ev.prev.props));
  }

  /** A failure of a rename's delete is the return declared last, with progress 80. */
  lemma RenameDeleteFails(ev: Event, c: Config, cloud: Cloud)
    requires ParseConfig(ev.cdef, ev.safeName) == Ok(c) && Inspects(ev, c) && Renamed(ev.prev.props, c.name)
    requires cloud.deleteRepository.Some? && cloud.deleteRepository.value != NotFound
    ensures Reconcile(ev, cloud).ret == Some(CommonError(DeleteFailed, cloud.deleteRepository.value, 80, []))
  {
    var v := Prelude(ev, c);
    PreludeInspects(ev, c);
    GetRepositoryRename(v, c, ev.prev.props, cloud);
    var p := Provision(v, c, ev.prev.props, cloud);
    AfterGetRepository(v, c, ev.prev.props, cloud);
    DeleteProgressByIntent(ev.prev.props, c.name);
    FinishDeleteFails(p, cloud);
  }

  /** A delete intent alone: the delete handler is all that runs. */
  lemma DeleteOnly(v: Context, c: Config, prevProps: map<string, Json>, cloud: Cloud)
    requires v == Empty.(ops := map[DeleteOp := DeleteIntent(c.name)]) && c.name != JNull
    ensures var r := Finish(Provision(v, c, prevProps, cloud), cloud);
      r.trace == [DeleteOp] &&
      r.requests == [Request(DeleteOp, [("repositoryName", c.name), ("force", JBool(true))])] &&
      (cloud.deleteRepository.None? || cloud.deleteRepository == Some(NotFound) ==> r.ret == None) &&
      (cloud.deleteRepository.Some? && cloud.deleteRepository.value != NotFound ==>
        r.ret == Some(CommonError(DeleteFailed, cloud.deleteRepository.value, 10, [])))
  {
    ProvisionIdle(v, c, prevProps, cloud);
    FinishDeleteOnly(v, cloud);
    DeleteIntentRequest(c.name);
    DeleteProgressByIntent(prevProps, c.name);
  }

  /** A delete deletes the repository by name, forced, and runs no other
      handler; a repository already gone is not an error, and any other
      failure is reported with progress 10. */
  lemma DeleteIntentHandled(ev: Event, c: Config, cloud: Cloud)
    requires ParseConfig(ev.cdef, ev.safeName) == Ok(c) && !ev.passBackData && ev.op == "delete"
    ensures var r := Reconcile(ev, cloud);
      r.trace == [DeleteOp] &&
      r.requests == [Request(DeleteOp, [("repositoryName", c.name), ("force", JBool(true))])] &&
      (cloud.deleteRepository.None? || cloud.deleteRepository == Some(NotFound) ==> r.ret == None) &&
      (cloud.deleteRepository.Some? && cloud.deleteRepository.value != NotFound ==>
        r.ret == Some(CommonError(DeleteFailed, cloud.deleteRepository.value, 10, [])))
  {
    PreludeDelete(ev, c);
    DeleteOnly(Prelude(ev, c), c, ev.prev.props, cloud);
  }

  /** No op the reconciler enqueues is the scanning handler's, so a
      scan-on-push mismatch never updates the scanning configuration. */
  lemma ScanningNeverRuns(ev: Event, cloud: Cloud)
    ensures ScanningOp !in Reconcile(ev, cloud).trace
  {
    var r := Reconcile(ev, cloud);
    ReconcileTrace(ev, cloud);
    NotEnqueuedNeverRuns(r.trace, r.ops.Keys);
  }

  /** A trace filtered by ops the reconciler may enqueue holds no scanning handler. */
  lemma NotEnqueuedNeverRuns(trace: seq<string>, ops: set<string>)
    requires trace == Filter(Order, ops) && ops <= Enqueued
    ensures ScanningOp !in trace
  {
    assert ScanningOp !in Enqueued;
  }

  lemma ArnShape(v: Context, g: Context, r: Context)
    requires AddTagsOp !in v.ops && RemoveTagsOp !in v.ops
    requires (AddTagsOp in g.ops && AddTagsOp !in v.ops) || (RemoveTagsOp in g.ops && RemoveTagsOp !in v.ops) ==>
      "arn" in g.props
    requires r.ops == g.ops && g.props.Keys <= r.props.Keys
    ensures AddTagsOp in r.ops || RemoveTagsOp in r.ops ==> "arn" in r.props
  {
  }

  /** A tag op is only ever enqueued together with the repository's ARN,
      which the tag handlers send. */
  lemma TagOpsHaveArn(ev: Event, c: Config, cloud: Cloud)
    ensures var r := Run(ev, c, cloud); AddTagsOp in r.ops || RemoveTagsOp in r.ops ==> "arn" in r.props
  {
    PreludeTrace(ev, c);
    ArnAfterPrelude(Prelude(ev, c), c, ev.prev.props, cloud);
  }

  lemma ArnAfterPrelude(v: Context, c: Config, prevProps: map<string, Json>, cloud: Cloud)
    requires v.ops.Keys <= {CompareDefsOp, GetRepositoryOp, DeleteOp}
    ensures var r := Finish(Provision(v, c, prevProps, cloud), cloud);
      AddTagsOp in r.ops || RemoveTagsOp in r.ops ==> "arn" in r.props
  {
    assert AddTagsOp !in v.ops && RemoveTagsOp !in v.ops;
    var g := GetRepositoryStep(v, c.name, RepoDef(c), prevProps, c.tags, cloud);
    if GetRepositoryOp in v.ops {
      var v1 := RenameStep(v, c.name, prevProps);
      InspectArn(v1, RepoDef(c), c.tags, cloud);
    }
    AfterGetRepository(v, c, prevProps, cloud);
    ArnShape(v, g, Finish(Provision(v, c, prevProps, cloud), cloud));
  }
}
