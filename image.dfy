/** The container-image reconciler: the op selection of `lambda_handler`
    (rollback and trust level), the definition and code fingerprints that
    let an unchanged component skip its build, the CodeBuild project
    definition it builds from the docker tags, and the image props, link
    and artifact it reports. */
module Image {
  import opened Json
  import opened Text
  import opened Handler
  import opened Tags

  /** Op names: the handlers `lambda_handler` calls, and the one it only enqueues. */
  const CompareDefsOp := "compare_defs"
  const CompareEtagsOp := "compare_etags"
  const LoadInitialPropsOp := "load_initial_props"
  const SetupOp := "setup_codebuild_project"
  const RunBuildOp := "run_codebuild_build"
  const FinalPropsOp := "get_final_props"
  const PropsFromArtifactOp := "get_props_from_artifact"
  const CheckRequiredOp := "check_required_attributes"

  /** The handlers in the order `lambda_handler` calls them. */
  const Order := [CompareDefsOp, CompareEtagsOp, LoadInitialPropsOp, SetupOp, RunBuildOp, FinalPropsOp,
    PropsFromArtifactOp]

  /** Log titles, error messages and keys. */
  const RepoNameRequiredLog := "repo_name is Required; Exiting"
  const RepoNameRequired := "repo_name is Required"
  const MissingRollbackImage := "Missing Rollback Image"
  const ZipNotFound := "Cound Not Find Zipfile"
  const ObjectNotFound := "Object Not Found"
  const DefsMatch := "Definitions Match, Checking Code"
  const DefsDiffer := "Definitions Don't Match, Deploying"
  const NoChangeDetected := "Elevated Trust: No Change Detected"
  const CodeChanged := "Code Changed, Deploying"
  const SecretsNotSet := "Dockerhub Login Secrets Not Set"
  const FinalPropsFailed := "Get Final Props"
  const PropsFromArtifactFailed := "Get Props From Artifact"
  const ProjectKey := "Codebuild Project"
  const BuildKey := "Codebuild Build"
  const IndexError := "list index out of range"
  const ZipEtagKey := "zip_etag"
  const DefHashKey := "def_hash"
  const InitialEtagKey := "initial_etag"

  /** What the previous invocation left behind (`prev_state`); the rollback
      reads the artifacts under "##artifacts##", the carry-forward those
      under "artifacts". */
  datatype Prev = Prev(props: map<string, Json>, links: map<string, Json>, state: map<string, Json>,
    artifacts: map<string, Json>, rollbackArtifacts: map<string, Json>)

  /** The invocation event; `op` is "" when the event has none. */
  datatype Event = Event(op: string, passBackData: bool, rollback: Json, cdef: Dict, prev: Prev,
    bucket: Json, objectName: Json)

  /** `head_object` on the code archive: its ETag, or `NoSuchKey`. */
  datatype HeadResult = ETag(etag: string) | NoSuchKey
  /** `describe_images` by digest: the image's tags (None when the image is
      untagged and the response has no `imageTags`), or a `ClientError` code. */
  datatype ImagesResult = ImageFound(imageTags: Option<Json>) | ImagesFailed(code: string)
  /** `describe_images` by tag: the image's digest, or a `ClientError` code. */
  datatype DigestResult = DigestFound(digest: string) | DigestFailed(code: string)

  /** The environment as this invocation sees it: the account context, the
      answers of the AWS calls, the Dockerhub secrets (`lambda_env`, None
      when they are not set) and the props the two nested CodeBuild
      reconcilers hand back. `images` answers `describe_images` for the
      previous image's digest in the repository it is asked about. */
  datatype Cloud = Cloud(
    account: string,
    region: string,
    head: HeadResult,
    images: string -> ImagesResult,
    dockerhub: Option<(Json, Json)>,
    projectProps: Dict,
    buildProps: Dict,
    finalImage: DigestResult)

  /** The settings `lambda_handler` reads from the component definition. */
  datatype Config = Config(trust: Json, repoName: Json, dockerTags: seq<Json>, projectOverrides: Dict,
    buildOverrides: Dict, login: bool)

  /** `cdef.get("docker_tags") or ["latest"]`. */
  function DockerTags(raw: Option<Json>): (r: seq<Json>)
    ensures |r| >= 1
    ensures raw.Some? && raw.value.JList? && raw.value.items != [] ==> r == raw.value.items
    ensures !(raw.Some? && Truthy(raw.value)) ==> r == [JStr("latest")]
  {
    if raw.Some? && raw.value.JList? && raw.value.items != [] then raw.value.items else [JStr("latest")]
  }

  function ParseConfig(cdef: Dict, rollback: Json): (c: Config)
    ensures Truthy(rollback) ==> c.trust == JStr("zero")
    ensures !Truthy(rollback) ==> c.trust == OrDefault(Get(cdef, "trust_level"), JStr("code"))
    ensures c.dockerTags != [] && c.login == (Get(cdef, "login_to_dockerhub").Some? && Truthy(Get(cdef, "login_to_dockerhub").value))
    ensures c.repoName == GetOrNull(cdef, "repo_name") && c.dockerTags == DockerTags(Get(cdef, "docker_tags"))
    ensures c.projectOverrides == ObjFields(OrDefault(Get(cdef, "Codebuild Project"), JObj([])))
    ensures c.buildOverrides == ObjFields(OrDefault(Get(cdef, "Codebuild Build"), JObj([])))
  {
    var login := Get(cdef, "login_to_dockerhub");
    Config(
      if Truthy(rollback) then JStr("zero") else OrDefault(Get(cdef, "trust_level"), JStr("code")),
      GetOrNull(cdef, "repo_name"),
      DockerTags(Get(cdef, "docker_tags")),
      ObjFields(OrDefault(Get(cdef, "Codebuild Project"), JObj([]))),
      ObjFields(OrDefault(Get(cdef, "Codebuild Build"), JObj([]))),
      login.Some? && Truthy(login.value))
  }

  // ----- image URIs -----

  /** The message of calling a method of a value that has none. */
  function NoAttribute(j: Json, name: string): string {
    "'" + TypeName(j) + "' object has no attribute '" + name + "'"
  }

  /** `path.split(":")[0]` as the source writes it: the part of a URI path
      before a `:tag` suffix. On a digest URI (`repo@sha256:…`) it leaves
      `repo@sha256`. */
  function RepoPartAsWritten(path: string): string {
    Split(path, ':')[0]
  }

  /** The repository part of a URI path as evidently intended: without a
      `:tag` suffix and without an `@digest` suffix. */
  function RepoPart(path: string): string {
    Split(RepoPartAsWritten(path), '@')[0]
  }

  /** `uri.split("/")[1].split(":")[0]`: the repository part of an image
      URI as the source computes it, or the exception the expression
      raises. On a digest URI the part keeps `@sha256`. */
  function UriRepo(uri: Json): (r: Result<string>)
    ensures r.Ok? <==> uri.JStr? && '/' in uri.s
    ensures r.Raised? ==> r.msg == if uri.JStr? then IndexError else NoAttribute(uri, "split")
    ensures r.Ok? ==> '/' !in r.value && ':' !in r.value
  {
    if !uri.JStr? then Raised(NoAttribute(uri, "split"))
    else
      var f := Split(uri.s, '/');
      SplitLength(uri.s, '/');
      CountPositive(uri.s, '/');
      SplitFieldsFree(uri.s, '/');
      if |f| < 2 then Raised(IndexError)
      else
        RepoPartFree(f[1], '/');
        Ok(RepoPartAsWritten(f[1]))
  }

  /** The part before the first `:` holds no `:`, and no character the
      path lacks. */
  lemma RepoPartFree(path: string, c: char)
    requires c !in path
    ensures c !in RepoPartAsWritten(path) && ':' !in RepoPartAsWritten(path)
  {
    SplitFieldsFree(path, ':');
    SplitFieldsWithin(path, ':');
  }

  /** Without an `@` the correction changes nothing. */
  lemma RepoPartNoDigest(path: string)
    ensures '@' !in RepoPartAsWritten(path) ==> RepoPart(path) == RepoPartAsWritten(path)
  {
    if '@' !in RepoPartAsWritten(path) {
      SplitNoSep(RepoPartAsWritten(path), '@');
    }
  }

  /** So does the intended part, which holds no `@` either. */
  lemma RepoPartIntendedFree(path: string, c: char)
    requires c !in path
    ensures c !in RepoPart(path) && ':' !in RepoPart(path) && '@' !in RepoPart(path)
  {
    RepoPartFree(path, c);
    SplitFieldsFree(RepoPartAsWritten(path), '@');
    SplitFieldsWithin(RepoPartAsWritten(path), '@');
  }

  /** `UriRepo` as evidently intended: the repository part without the
      `@digest` suffix either. */
  function UriRepoIntended(uri: Json): (r: Result<string>)
    ensures r.Ok? <==> UriRepo(uri).Ok?
    ensures r.Raised? ==> r == UriRepo(uri)
    ensures r.Ok? ==> '/' !in r.value && ':' !in r.value && '@' !in r.value
    ensures r.Ok? && '@' !in UriRepo(uri).value ==> r == UriRepo(uri)
  {
    if !uri.JStr? then Raised(NoAttribute(uri, "split"))
    else
      var f := Split(uri.s, '/');
      if |f| < 2 then Raised(IndexError)
      else
        SplitFieldsFree(uri.s, '/');
        RepoPartIntendedFree(f[1], '/');
        RepoPartNoDigest(f[1]);
        Ok(RepoPart(f[1]))
  }

  /** `gen_ecr_artifact_link`: the console link of an image as the source
      builds it, or the exception one of its subscripts raises. */
  function GenLink(uri: Json, digest: string): (r: Result<string>)
    ensures r.Ok? <==> uri.JStr? && Count(uri.s, '.') >= 3 && '/' in uri.s
    ensures r.Raised? ==> r.msg == if uri.JStr? then IndexError else NoAttribute(uri, "split")
    ensures r.Ok? ==> (|Split(uri.s, '.')| >= 4 &&
      r.value == ConsoleLink(Split(uri.s, '.')[0], Split(uri.s, '.')[3], UriRepo(uri).value, digest))
  {
    if !uri.JStr? then Raised(NoAttribute(uri, "split"))
    else
      var dots := Split(uri.s, '.');
      var slashes := Split(uri.s, '/');
      SplitLength(uri.s, '.');
      SplitLength(uri.s, '/');
      CountPositive(uri.s, '/');
      if |dots| < 4 || |slashes| < 2 then Raised(IndexError)
      else Ok(ConsoleLink(dots[0], dots[3], RepoPartAsWritten(slashes[1]), digest))
  }

  /** `GenLink` as evidently intended: the link names the repository without
      the `@digest` suffix. */
  function GenLinkIntended(uri: Json, digest: string): (r: Result<string>)
    ensures r.Ok? <==> GenLink(uri, digest).Ok?
    ensures r.Raised? ==> r == GenLink(uri, digest)
    ensures r.Ok? ==> (uri.JStr? && |Split(uri.s, '.')| >= 4 &&
      r.value == ConsoleLink(Split(uri.s, '.')[0], Split(uri.s, '.')[3], UriRepoIntended(uri).value, digest))
  {
    if !uri.JStr? then Raised(NoAttribute(uri, "split"))
    else
      var dots := Split(uri.s, '.');
      var slashes := Split(uri.s, '/');
      if |dots| < 4 || |slashes| < 2 then Raised(IndexError)
      else Ok(ConsoleLink(dots[0], dots[3], RepoPart(slashes[1]), digest))
  }

  function ConsoleLink(account: string, region: string, repo: string, digest: string): string {
    "https://" + region + ".console.aws.amazon.com/ecr/repositories/private/" + account + "/" + repo +
      "/_/image/" + digest + "/details?region=" + region
  }

  /** The image URI `get_final_props` builds. */
  function FinalUri(account: string, region: string, repoName: Json, digest: string): string {
    account + ".dkr.ecr." + region + ".amazonaws.com/" + Show(repoName) + "@" + digest
  }

  /** The props that describe an image. */
  function ImageProps(uri: Json, digest: Json, tags: Json): map<string, Json> {
    map["uri" := uri, "digest" := digest, "tags" := tags]
  }

  /** The `image` artifact. */
  function ImageArtifact(location: Json, digest: Json): Json {
    JObj([("type", JStr("ECR")), ("location", location), ("digest", digest)])
  }

  // ----- op selection -----

  /** What the op selection leaves: the handler's state, and the repository
      name, image URI and digest the later handlers are given; or the
      exception that ends the invocation. */
  datatype Selection =
    | Selected(ctx: Context, repoName: Json, uri: Json, digest: Json)
    | SelectThrew(ctx: Context, msg: string)

  /** The build ops: the project setup, and `compare_defs` when the trust
      level lets an unchanged component skip its build. */
  function BuildOps(v: Context, trust: Json): (r: Context)
    ensures r.trace == v.trace && r.props == v.props && r.ret == v.ret
    ensures r.ops.Keys == v.ops.Keys + {SetupOp} + (if trust == JStr("full") || trust == JStr("code") then {CompareDefsOp} else {})
  {
    var v1 := v.(ops := v.ops[SetupOp := NoPayload]);
    if trust == JStr("full") || trust == JStr("code") then v1.(ops := v1.ops[CompareDefsOp := NoPayload]) else v1
  }

  /** A rollback to the previous image: taken when it is asked for and the
      previous artifacts hold an image. */
  predicate RollbackAsked(ev: Event) {
    Truthy(ev.rollback) && ev.prev.rollbackArtifacts != map[] &&
    "image" in ev.prev.rollbackArtifacts && Truthy(ev.prev.rollbackArtifacts["image"])
  }

  /** The upsert branch with the two ops every upsert enqueues in `v`. */
  function SelectUpsert(v: Context, ev: Event, c: Config, cloud: Cloud): Selection {
    if RollbackAsked(ev) then
      var image := ev.prev.rollbackArtifacts["image"];
      if !image.JObj? then SelectThrew(v, NoAttribute(image, "get"))
      else
        var uri := GetOrNull(image.fields, "location");
        match UriRepo(uri)
        case Raised(msg) => SelectThrew(v, msg)
        case Ok(repo) =>
          var digest := GetOrNull(image.fields, "digest");
          match cloud.images(repo)
          case ImageFound(_) => Selected(v.(ops := v.ops[PropsFromArtifactOp := NoPayload]), JStr(repo), uri, digest)
          case ImagesFailed(_) =>
            Selected(BuildOps(v.(logs := v.logs + [Log(MissingRollbackImage, true)]), c.trust), JStr(repo), uri, digest)
    else Selected(BuildOps(v, c.trust), c.repoName, JNull, JNull)
  }

  /** The repository name check: a missing name is a permanent error at
      progress 0, yet the invocation goes on. */
  function NameChecked(repoName: Json): (r: Context)
    ensures r.ops == map[] && r.trace == [] && r.props == map[] && r.invocations == []
    ensures Truthy(repoName) <==> r.ret == None
    ensures !Truthy(repoName) ==> r.ret == Some(PermError(RepoNameRequired, Some(0)))
  {
    if Truthy(repoName) then Empty
    else Empty.(logs := Empty.logs + [Log(RepoNameRequiredLog, true)]).(ret := Some(PermError(RepoNameRequired, Some(0))))
  }

  /** The part of `lambda_handler` before the handlers: the repository
      name check, then the ops for the event's op. */
  function Select(ev: Event, c: Config, cloud: Cloud): Selection {
    var v0 := NameChecked(c.repoName);
    if ev.passBackData then Selected(v0, c.repoName, JNull, JNull)
    else if ev.op == "upsert" then
      SelectUpsert(v0.(ops := v0.ops[CheckRequiredOp := NoPayload][LoadInitialPropsOp := NoPayload]), ev, c, cloud)
    else if ev.op == "delete" then Selected(v0.(ops := v0.ops[SetupOp := NoPayload]), c.repoName, JNull, JNull)
    else Selected(v0, c.repoName, JNull, JNull)
  }

  // ----- the fingerprint handlers -----

  /** `get_s3_etag`: the archive's ETag into the state, or a retry error. */
  function S3Etag(v: Context, head: HeadResult): (r: Context)
    ensures r.trace == v.trace && r.ops == v.ops && r.props == v.props && r.invocations == v.invocations
    ensures r.links == v.links && r.artifacts == v.artifacts
  {
    match head
    case ETag(e) => v.(state := v.state + map[ZipEtagKey := JStr(e)])
    case NoSuchKey => v.(logs := v.logs + [Log(ZipNotFound, false)], ret := Some(RetryError(ObjectNotFound)))
  }

  /** The definition's fingerprint: the hash of the definition without its
      trust level. */
  function DefHash(cdef: Dict, fingerprint: Dict -> string): string {
    fingerprint(Pop(cdef, "trust_level"))
  }

  /** `compare_defs`: records the fingerprint, and checks the code only when
      it equals the previous one. */
  function CompareDefsStep(v: Context, prevProps: map<string, Json>, cdef: Dict, fingerprint: Dict -> string): (r: Context)
    ensures Gated(v, r, CompareDefsOp, {CompareEtagsOp}) && (CompareDefsOp !in v.ops ==> r == v)
  {
    if CompareDefsOp !in v.ops then v
    else
      var digest := DefHash(cdef, fingerprint);
      var v1 := v.(trace := v.trace + [CompareDefsOp], props := v.props + map[DefHashKey := JStr(digest)]);
      if PropOrNull(prevProps, DefHashKey) == JStr(digest) then
        v1.(logs := v1.logs + [Log(DefsMatch, false)], ops := v1.ops[CompareEtagsOp := NoPayload])
      else v1.(logs := v1.logs + [Log(DefsDiffer, false)])
  }

  /** The definition as `compare_defs` leaves it: without its trust level
      when it ran. */
  function AfterCompareDefs(v: Context, cdef: Dict): Dict {
    if CompareDefsOp in v.ops then Pop(cdef, "trust_level") else cdef
  }

  /** `wrap_up_not_deploying`: the previous outputs, and success. */
  function WrapUp(v: Context, prev: Prev): (r: Context)
    ensures r.trace == v.trace && r.ops == v.ops && r.invocations == v.invocations
  {
    v.(props := v.props + prev.props, links := v.links + prev.links, state := v.state + prev.state,
       artifacts := v.artifacts + prev.artifacts, ret := Some(Declared(100, true, None)))
  }

  /** `compare_etags`: an archive whose ETag is the one the previous
      invocation started from is not rebuilt; a changed one is. */
  function CompareEtagsStep(v: Context, prev: Prev, head: HeadResult): (r: Context)
    ensures Gated(v, r, CompareEtagsOp, {SetupOp}) && r.invocations == v.invocations
    ensures CompareEtagsOp !in v.ops ==> r == v
  {
    if CompareEtagsOp !in v.ops then v
    else
      var v1 := S3Etag(v.(trace := v.trace + [CompareEtagsOp]), head);
      var etag := PropOrNull(v1.state, ZipEtagKey);
      if !Truthy(etag) then v1
      else if PropOrNull(prev.props, InitialEtagKey) == etag then
        WrapUp(v1.(logs := v1.logs + [Log(NoChangeDetected, false)]), prev)
      else v1.(ops := v1.ops[SetupOp := NoPayload], logs := v1.logs + [Log(CodeChanged, false)])
  }

  /** `load_initial_props`: the ETag the build starts from, and the
      definition's fingerprint when no handler recorded one yet. */
  function LoadInitialPropsStep(v: Context, cdef: Dict, head: HeadResult, fingerprint: Dict -> string): (r: Context)
    ensures Gated(v, r, LoadInitialPropsOp, {}) && r.ops == v.ops && r.invocations == v.invocations
  {
    if LoadInitialPropsOp !in v.ops then v
    else
      var v1 := S3Etag(v.(trace := v.trace + [LoadInitialPropsOp]), head);
      var etag := PropOrNull(v1.state, ZipEtagKey);
      var v2 := if Truthy(etag) then v1.(props := v1.props + map[InitialEtagKey := etag]) else v1;
      if Truthy(PropOrNull(v2.props, DefHashKey)) then v2
      else v2.(props := v2.props + map[DefHashKey := JStr(DefHash(cdef, fingerprint))])
  }

  // ----- setup_codebuild_project -----

  const LoginEcho := "echo Logging in to Amazon ECR..."
  const EcrLogin := "aws ecr get-login-password --region $AWS_DEFAULT_REGION | docker login --username AWS --password-stdin $AWS_ACCOUNT_ID.dkr.ecr.$AWS_DEFAULT_REGION.amazonaws.com"
  const BuildStarted := "echo Build started on `date`"
  const Building := "echo Building the Docker image..."
  const BuildCompleted := "echo Build completed on `date`"
  const Pushing := "echo Pushing the Docker image..."
  const DockerhubLogin := "docker login -u $DOCKERHUB_USERNAME -p $DOCKERHUB_PASSWORD"
  const DockerLogout := "docker logout"
  const LocalImage := "$IMAGE_REPO_NAME:$IMAGE_TAG_"
  const RegistryImage := "$AWS_ACCOUNT_ID.dkr.ecr.$AWS_DEFAULT_REGION.amazonaws.com/$IMAGE_REPO_NAME:$IMAGE_TAG_"
  const BuildImage := "aws/codebuild/standard:6.0"
  const TagVarPrefix := "IMAGE_TAG_"

  /** The environment variable that holds tag `i`. */
  function TagVar(i: nat): string {
    TagVarPrefix + Itoa(i)
  }

  /** The `-t` flag of the build command for tag `i`. */
  function TagFlag(i: nat): string {
    "-t " + LocalImage + Itoa(i) + " "
  }

  function TagCommand(i: nat): string {
    "docker tag " + LocalImage + Itoa(i) + " " + RegistryImage + Itoa(i)
  }

  function PushCommand(i: nat): string {
    "docker push " + RegistryImage + Itoa(i)
  }

  /** The flags for the first `n` tags, in tag order. */
  function Flags(n: nat): string {
    if n == 0 then "" else Flags(n - 1) + TagFlag(n - 1)
  }

  function BuildCommand(n: nat): string {
    "docker build " + Flags(n) + "."
  }

  function TagCommands(n: nat): (r: seq<string>)
    ensures |r| == n && forall i :: 0 <= i < n ==> r[i] == TagCommand(i)
  {
    seq(n, i requires 0 <= i < n => TagCommand(i))
  }

  function PushCommands(n: nat): (r: seq<string>)
    ensures |r| == n && forall i :: 0 <= i < n ==> r[i] == PushCommand(i)
  {
    seq(n, i requires 0 <= i < n => PushCommand(i))
  }

  function PreBuild(login: bool): seq<string> {
    [LoginEcho, EcrLogin] + (if login then [DockerhubLogin] else [])
  }

  function BuildCommands(n: nat): seq<string> {
    [BuildStarted, Building] + [BuildCommand(n)] + TagCommands(n)
  }

  function PostBuild(login: bool, n: nat): seq<string> {
    [BuildCompleted, Pushing] + (if login then [DockerLogout] else []) + PushCommands(n)
  }

  /** The environment variables before the tags: the account context, the
      repository name, and the Dockerhub credentials when logging in. */
  function BaseEnv(region: string, account: string, repoName: Json, creds: Option<(Json, Json)>): Dict {
    [("AWS_DEFAULT_REGION", JStr(region)), ("AWS_ACCOUNT_ID", JStr(account)), ("IMAGE_REPO_NAME", repoName)] +
    (if creds.Some? then [("DOCKERHUB_USERNAME", creds.value.0), ("DOCKERHUB_PASSWORD", creds.value.1)] else [])
  }

  /** One variable per tag, in tag order. */
  function TagVars(tags: seq<Json>): (r: Dict)
    ensures |r| == |tags| && forall i :: 0 <= i < |tags| ==> r[i] == (TagVar(i), tags[i])
  {
    seq(|tags|, i requires 0 <= i < |tags| => (TagVar(i), tags[i]))
  }

  /** The project definition before the user's overrides. */
  function DefaultProjectDef(bucket: Json, objectName: Json, env: Dict, login: bool, n: nat): Dict {
    [("s3_bucket", bucket), ("s3_object", objectName), ("environment_variables", JObj(env)),
     ("pre_build_commands", JList(StrList(PreBuild(login)))),
     ("build_commands", JList(StrList(BuildCommands(n)))),
     ("post_build_commands", JList(StrList(PostBuild(login, n)))),
     ("container_image", JStr(BuildImage)), ("privileged_mode", JBool(true))]
  }

  /** The Dockerhub credentials the project is given. */
  function Creds(c: Config, cloud: Cloud): Option<(Json, Json)> {
    if c.login then cloud.dockerhub else None
  }

  /** The tags `setup_codebuild_project` builds: `["latest"]` for none. */
  function SetupTags(tags: seq<Json>): seq<Json> {
    if tags == [] then [JStr("latest")] else tags
  }

  /** The definition the project reconciler is invoked with. */
  function ProjectDef(ev: Event, c: Config, repoName: Json, cloud: Cloud): Dict {
    var tags := SetupTags(c.dockerTags);
    var env := BaseEnv(cloud.region, cloud.account, repoName, Creds(c, cloud)) + TagVars(tags);
    Update(DefaultProjectDef(ev.bucket, ev.objectName, env, c.login, |tags|), c.projectOverrides)
  }

  /** Logging in to Dockerhub without the secrets set. */
  predicate SecretsMissing(c: Config, cloud: Cloud) {
    c.login && cloud.dockerhub.None?
  }

  /** `setup_codebuild_project`: invokes the project reconciler, then
      enqueues the build on an upsert. */
  function SetupStep(v: Context, ev: Event, c: Config, repoName: Json, cloud: Cloud): (r: Context)
    ensures Gated(v, r, SetupOp, {RunBuildOp}) && v.invocations <= r.invocations
    ensures SetupOp !in v.ops ==> r == v
  {
    if SetupOp !in v.ops then v
    else
      var v1 := v.(trace := v.trace + [SetupOp]);
      if SecretsMissing(c, cloud) then
        v1.(logs := v1.logs + [Log(SecretsNotSet, true)], ret := Some(PermError(SecretsNotSet, None)))
      else
        var v2 := v1.(invocations := v1.invocations + [Invocation(ProjectKey, ProjectDef(ev, c, repoName, cloud), 25, 30)],
                      props := v1.props[ProjectKey := JObj(cloud.projectProps)]);
        if ev.op == "upsert" then v2.(ops := v2.ops[RunBuildOp := NoPayload]) else v2
  }

  /** The keys of the variables that are not tags. */
  const BaseKeys: set<string> := {"AWS_DEFAULT_REGION", "AWS_ACCOUNT_ID", "IMAGE_REPO_NAME", "DOCKERHUB_USERNAME",
    "DOCKERHUB_PASSWORD"}

  lemma BaseEnvKeys(region: string, account: string, repoName: Json, creds: Option<(Json, Json)>)
    ensures forall x :: x in BaseEnv(region, account, repoName, creds) ==> x.0 in BaseKeys
    ensures DistinctKeys(BaseEnv(region, account, repoName, creds))
  {
  }

  /** No tag variable is one of the other variables. */
  lemma TagVarNotBase(i: nat, k: string)
    requires k in BaseKeys
    ensures TagVar(i) != k
  {
    var t := TagVar(i);
    assert t[6] == 'T' && t[0] == 'I';
    if k == "IMAGE_REPO_NAME" {
      assert k[6] == 'R';
    } else {
      assert k[0] == 'A' || k[0] == 'D';
    }
  }

  /** Distinct tags get distinct variables. */
  lemma TagVarInjective(i: nat, j: nat)
    requires TagVar(i) == TagVar(j)
    ensures i == j
  {
    assert TagVar(i)[|TagVarPrefix|..] == Itoa(i);
    assert TagVar(j)[|TagVarPrefix|..] == Itoa(j);
    ItoaInjective(i, j);
  }

  /** The variable of the next tag is not yet set. */
  lemma TagVarFresh(base: Dict, tags: seq<Json>, i: nat)
    requires i < |tags|
    requires forall x :: x in base ==> x.0 in BaseKeys
    ensures TagVar(i) !in ToMap(base + TagVars(tags[..i]))
  {
    var d := base + TagVars(tags[..i]);
    forall j | 0 <= j < |d| ensures Keys(d)[j] != TagVar(i) {
      if j < |base| {
        assert d[j] in base;
        TagVarNotBase(i, d[j].0);
      } else {
        assert d[j].0 == TagVar(j - |base|);
        if TagVar(j - |base|) == TagVar(i) {
          TagVarInjective(j - |base|, i);
        }
      }
    }
    ToMapKeys(d);
  }

  /** The project's variables have distinct keys, and tag `i` is the value
      of its own variable. */
  lemma EnvTags(base: Dict, tags: seq<Json>, i: nat)
    requires i < |tags|
    requires forall x :: x in base ==> x.0 in BaseKeys
    requires DistinctKeys(base)
    ensures DistinctKeys(base + TagVars(tags))
    ensures Get(base + TagVars(tags), TagVar(i)) == Some(tags[i])
  {
    var d := base + TagVars(tags);
    forall p, q | 0 <= p < q < |d| ensures d[p].0 != d[q].0 {
      if q < |base| {
      } else if p < |base| {
        assert d[p] in base;
        TagVarNotBase(q - |base|, d[p].0);
      } else if d[p].0 == d[q].0 {
        TagVarInjective(p - |base|, q - |base|);
      }
    }
    assert d[|base| + i] == (TagVar(i), tags[i]);
    ToMapAt(d, |base| + i);
  }

  // ----- the build and the image props -----

  /** A handler that returns, or raises out of `lambda_handler`. */
  datatype Outcome = Done(ctx: Context) | Threw(ctx: Context, msg: string)

  /** `eh.props["Codebuild Project"]["name"]`, or the `KeyError` it raises;
      the message for a value that is not a dict is schematic. */
  function ProjectName(props: map<string, Json>): Result<Json> {
    if ProjectKey !in props then Raised("'" + ProjectKey + "'")
    else
      var p := props[ProjectKey];
      if !p.JObj? then Raised("'" + TypeName(p) + "' object is not subscriptable")
      else if "name" in ToMap(p.fields) then Ok(ToMap(p.fields)["name"])
      else Raised("'name'")
  }

  /** `run_codebuild_build`: invokes the build reconciler on the project,
      then enqueues the image lookup. */
  function RunBuildStep(v: Context, overrides: Dict, buildProps: Dict): (r: Outcome)
    ensures Gated(v, r.ctx, RunBuildOp, {FinalPropsOp})
    ensures r.Threw? ==> r.ctx.ops == v.ops
    ensures RunBuildOp !in v.ops ==> r == Done(v)
  {
    if RunBuildOp !in v.ops then Done(v)
    else
      var v1 := v.(trace := v.trace + [RunBuildOp]);
      match ProjectName(v1.props)
      case Raised(msg) => Threw(v1, msg)
      case Ok(name) =>
        var v2 := v1.(invocations := v1.invocations + [Invocation(BuildKey, Update([("project_name", name)], overrides), 30, 45)],
                      props := v1.props[BuildKey := JObj(buildProps)]);
        Done(v2.(ops := v2.ops[FinalPropsOp := NoPayload]))
  }

  /** The console link of the built image; `FinalLinkOk` shows its
      subscripts never fail. */
  function FinalLink(account: string, region: string, repoName: Json, digest: string): string {
    FinalLinkOk(account, region, repoName, digest);
    GenLink(JStr(FinalUri(account, region, repoName, digest)), digest).value
  }

  /** `get_final_props`: the URI, digest and tags of the built image. */
  function FinalPropsStep(v: Context, repoName: Json, tags: seq<Json>, cloud: Cloud): (r: Context)
    ensures Gated(v, r, FinalPropsOp, {}) && r.ops == v.ops && r.invocations == v.invocations
  {
    if FinalPropsOp !in v.ops then v
    else
      var v1 := v.(trace := v.trace + [FinalPropsOp]);
      match cloud.finalImage
      case DigestFailed(code) => v1.(ret := Some(CommonError(FinalPropsFailed, code, 90, [])))
      case DigestFound(d) =>
        var uri := FinalUri(cloud.account, cloud.region, repoName, d);
        v1.(props := v1.props + ImageProps(JStr(uri), JStr(d), JList(tags)),
            links := v1.links + map["Image" := JStr(FinalLink(cloud.account, cloud.region, repoName, d))],
            artifacts := v1.artifacts + map["image" := ImageArtifact(JStr(uri), JStr(d))])
  }

  /** `get_props_from_artifact`: the props of the image the rollback returns to. */
  function PropsFromArtifactStep(v: Context, uri: Json, digest: Json, images: string -> ImagesResult): (r: Outcome)
    ensures Gated(v, r.ctx, PropsFromArtifactOp, {}) && r.ctx.ops == v.ops && r.ctx.invocations == v.invocations
  {
    if PropsFromArtifactOp !in v.ops then Done(v)
    else
      var v1 := v.(trace := v.trace + [PropsFromArtifactOp]);
      match UriRepo(uri)
      case Raised(msg) => Threw(v1, msg)
      case Ok(repo) =>
        match images(repo)
        case ImagesFailed(code) => Done(v1.(ret := Some(CommonError(PropsFromArtifactFailed, code, 90, []))))
        case ImageFound(None) => Threw(v1, "'imageTags'")
        case ImageFound(Some(tags)) =>
          var v2 := v1.(props := v1.props + ImageProps(uri, digest, tags));
          match GenLink(uri, Show(digest))
          case Raised(msg) => Threw(v2, msg)
          case Ok(link) =>
            Done(v2.(links := v2.links + map["Image" := JStr(link)], artifacts := v2.artifacts + map["image" := ImageArtifact(uri, digest)]))
  }

  /** The (uri, digest) link of a final image has enough fields. */
  lemma FinalLinkOk(account: string, region: string, repoName: Json, digest: string)
    ensures GenLink(JStr(FinalUri(account, region, repoName, digest)), digest).Ok?
  {
    FinalUriFields(account, region, repoName, digest);
  }

  lemma FinalUriFields(account: string, region: string, repoName: Json, digest: string)
    ensures |Split(FinalUri(account, region, repoName, digest), '.')| >= 4
    ensures |Split(FinalUri(account, region, repoName, digest), '/')| >= 2
  {
    var tail := Show(repoName) + "@" + digest;
    assert FinalUri(account, region, repoName, digest) == account + ".dkr.ecr." + region + ".amazonaws.com/" + tail;
    FinalUriDots(account, region, tail);
    FinalUriSlashes(account, region, tail);
  }

  lemma FinalUriDots(account: string, region: string, tail: string)
    ensures |Split(account + ".dkr.ecr." + region + ".amazonaws.com/" + tail, '.')| >= 4
  {
    var rest := region + ".amazonaws.com/" + tail;
    assert account + ".dkr.ecr." + region + ".amazonaws.com/" + tail == account + (['.'] + "dkr" + ['.'] + "ecr" + ['.']) + rest;
    ThreeSeparators(account, "dkr", "ecr", rest, '.');
  }

  lemma FinalUriSlashes(account: string, region: string, tail: string)
    ensures |Split(account + ".dkr.ecr." + region + ".amazonaws.com/" + tail, '/')| >= 2
  {
    var head := account + ".dkr.ecr." + region;
    assert account + ".dkr.ecr." + region + ".amazonaws.com/" + tail == head + (".amazonaws.com" + ['/']) + tail;
    SeparatorInside(head, ".amazonaws.com", tail, '/');
  }

  /** On a digest URI path (`repo@alg:hex`) the source's expression keeps
      the digest algorithm in the repository name; the intended one strips
      it. */
  lemma RepoPartDigest(name: string, alg: string, hex: string)
    requires ':' !in name && '@' !in name && ':' !in alg
    ensures RepoPartAsWritten(name + "@" + alg + ":" + hex) == name + "@" + alg != name
    ensures RepoPart(name + "@" + alg + ":" + hex) == name
  {
    var w := name + ['@'] + alg;
    assert name + "@" + alg + ":" + hex == w + [':'] + hex;
    assert ':' !in w;
    SplitAt(w, hex, ':');
    SplitAt(name, alg, '@');
  }

  /** The intended repository part of a digest URI path is the name,
      whatever the digest. */
  lemma RepoPartStrips(name: string, digest: string)
    requires ':' !in name && '@' !in name
    ensures RepoPart(name + "@" + digest) == name
  {
    assert ':' !in name + "@";
    SplitFirst(name + "@", digest, ':');
    assert name + "@" + Split(digest, ':')[0] == name + ['@'] + Split(digest, ':')[0];
    SplitAt(name, Split(digest, ':')[0], '@');
  }

  /** On a tag URI path (`repo:tag`) the correction changes nothing. */
  lemma RepoPartTag(path: string)
    requires '@' !in path
    ensures RepoPart(path) == RepoPartAsWritten(path)
  {
    SplitFieldsWithin(path, ':');
    SplitNoSep(RepoPartAsWritten(path), '@');
  }

  /** What a built image's URI is made of, when the account, the region,
      the repository name and the digest have no separators of their own. */
  predicate PlainParts(account: string, region: string, repoName: Json, digest: string) {
    '.' !in account && '/' !in account && '.' !in region && '/' !in region &&
    '/' !in Show(repoName) && ':' !in Show(repoName) && '@' !in Show(repoName) && '/' !in digest
  }

  lemma FinalUriDotFields(account: string, region: string, tail: string)
    requires '.' !in account && '.' !in region
    ensures var f := Split(account + ".dkr.ecr." + region + ".amazonaws.com/" + tail, '.');
      |f| >= 4 && f[0] == account && f[3] == region
  {
    var r4 := "amazonaws.com/" + tail;
    var r3 := region + ['.'] + r4;
    var r2 := "ecr" + ['.'] + r3;
    var r1 := "dkr" + ['.'] + r2;
    HostDots(account, region, tail);
    SplitAt(account, r1, '.');
    SplitAt("dkr", r2, '.');
    SplitAt("ecr", r3, '.');
    SplitAt(region, r4, '.');
  }

  lemma HostDots(account: string, region: string, tail: string)
    ensures account + ".dkr.ecr." + region + ".amazonaws.com/" + tail ==
      account + ['.'] + ("dkr" + ['.'] + ("ecr" + ['.'] + (region + ['.'] + ("amazonaws.com/" + tail))))
  {
  }

  lemma FinalUriSlashFields(account: string, region: string, tail: string)
    requires '/' !in account && '/' !in region && '/' !in tail
    ensures var f := Split(account + ".dkr.ecr." + region + ".amazonaws.com/" + tail, '/');
      |f| == 2 && f[1] == tail
  {
    var head := account + ".dkr.ecr." + region + ".amazonaws.com";
    HostNoSlash(account, region);
    HostThenPath(account, region, tail);
    SecondField(head, tail, '/');
  }

  lemma HostNoSlash(account: string, region: string)
    requires '/' !in account && '/' !in region
    ensures '/' !in account + ".dkr.ecr." + region + ".amazonaws.com"
  {
  }

  lemma HostThenPath(account: string, region: string, tail: string)
    ensures account + ".dkr.ecr." + region + ".amazonaws.com/" + tail ==
      account + ".dkr.ecr." + region + ".amazonaws.com" + ['/'] + tail
  {
  }

  /** The console link of a built image, as the source builds it, names its
      account, region and digest, and for a repository the part of
      `name@digest` before the digest's first `:`. */
  lemma FinalLinkParts(account: string, region: string, repoName: Json, digest: string)
    requires PlainParts(account, region, repoName, digest)
    ensures FinalLink(account, region, repoName, digest) ==
      ConsoleLink(account, region, RepoPartAsWritten(Show(repoName) + "@" + digest), digest)
  {
    var tail := Show(repoName) + "@" + digest;
    assert FinalUri(account, region, repoName, digest) == account + ".dkr.ecr." + region + ".amazonaws.com/" + tail;
    FinalUriDotFields(account, region, tail);
    FinalUriSlashFields(account, region, tail);
  }

  /** For a registry digest `alg:hex` that link names `name@alg`, a
      repository other than the one the image was built in. */
  lemma FinalLinkFields(account: string, region: string, repoName: Json, alg: string, hex: string)
    requires PlainParts(account, region, repoName, alg + ":" + hex) && ':' !in alg
    ensures FinalLink(account, region, repoName, alg + ":" + hex) ==
      ConsoleLink(account, region, Show(repoName) + "@" + alg, alg + ":" + hex)
    ensures Show(repoName) + "@" + alg != Show(repoName)
  {
    FinalLinkParts(account, region, repoName, alg + ":" + hex);
    assert Show(repoName) + "@" + (alg + ":" + hex) == Show(repoName) + "@" + alg + ":" + hex;
    RepoPartDigest(Show(repoName), alg, hex);
  }

  /** The intended link of a built image names its account, region,
      repository and digest. */
  lemma FinalLinkIntendedFields(account: string, region: string, repoName: Json, digest: string)
    requires PlainParts(account, region, repoName, digest)
    ensures GenLinkIntended(JStr(FinalUri(account, region, repoName, digest)), digest) ==
      Ok(ConsoleLink(account, region, Show(repoName), digest))
  {
    var tail := Show(repoName) + "@" + digest;
    assert FinalUri(account, region, repoName, digest) == account + ".dkr.ecr." + region + ".amazonaws.com/" + tail;
    FinalUriDotFields(account, region, tail);
    FinalUriSlashFields(account, region, tail);
    RepoPartStrips(Show(repoName), digest);
  }

  /** The source reads back, from the URI of a built image, the part of
      `name@digest` before the digest's first `:`. */
  lemma FinalUriRepo(account: string, region: string, repoName: Json, digest: string)
    requires PlainParts(account, region, repoName, digest)
    ensures UriRepo(JStr(FinalUri(account, region, repoName, digest))) ==
      Ok(RepoPartAsWritten(Show(repoName) + "@" + digest))
  {
    var tail := Show(repoName) + "@" + digest;
    assert FinalUri(account, region, repoName, digest) == account + ".dkr.ecr." + region + ".amazonaws.com/" + tail;
    FinalUriSlashFields(account, region, tail);
  }

  /** For a registry digest `alg:hex` a rollback to the artifact a build
      left asks for the repository `name@alg`, not the one the image was
      built in. */
  lemma RollbackNamesRepository(account: string, region: string, repoName: Json, alg: string, hex: string)
    requires PlainParts(account, region, repoName, alg + ":" + hex) && ':' !in alg
    ensures UriRepo(JStr(FinalUri(account, region, repoName, alg + ":" + hex))) == Ok(Show(repoName) + "@" + alg)
  {
    FinalUriRepo(account, region, repoName, alg + ":" + hex);
    assert Show(repoName) + "@" + (alg + ":" + hex) == Show(repoName) + "@" + alg + ":" + hex;
    RepoPartDigest(Show(repoName), alg, hex);
  }

  /** The intended reading gives back the repository the image was built in. */
  lemma RollbackNamesRepositoryIntended(account: string, region: string, repoName: Json, digest: string)
    requires PlainParts(account, region, repoName, digest)
    ensures UriRepoIntended(JStr(FinalUri(account, region, repoName, digest))) == Ok(Show(repoName))
  {
    var tail := Show(repoName) + "@" + digest;
    assert FinalUri(account, region, repoName, digest) == account + ".dkr.ecr." + region + ".amazonaws.com/" + tail;
    FinalUriSlashFields(account, region, tail);
    RepoPartStrips(Show(repoName), digest);
  }

  // ----- lambda_handler -----

  /** The fingerprint handlers. */
  function Check(v: Context, ev: Event, cloud: Cloud, fingerprint: Dict -> string): Context {
    var v1 := CompareDefsStep(v, ev.prev.props, ev.cdef, fingerprint);
    var v2 := CompareEtagsStep(v1, ev.prev, cloud.head);
    LoadInitialPropsStep(v2, AfterCompareDefs(v, ev.cdef), cloud.head, fingerprint)
  }

  /** The CodeBuild handlers. */
  function Build(v: Context, ev: Event, c: Config, repoName: Json, cloud: Cloud): Outcome {
    RunBuildStep(SetupStep(v, ev, c, repoName, cloud), c.buildOverrides, cloud.buildProps)
  }

  /** The handlers that report the image. */
  function Conclude(v: Context, c: Config, repoName: Json, uri: Json, digest: Json, cloud: Cloud): Outcome {
    PropsFromArtifactStep(FinalPropsStep(v, repoName, c.dockerTags, cloud), uri, digest, cloud.images)
  }

  /** The handlers in their fixed order after the selection; an exception
      ends the invocation through the top-level `except`. */
  function Run(v: Context, ev: Event, c: Config, repoName: Json, uri: Json, digest: Json, cloud: Cloud,
               fingerprint: Dict -> string): Context {
    AfterBuild(Build(Check(v, ev, cloud, fingerprint), ev, c, repoName, cloud), c, repoName, uri, digest, cloud)
  }

  /** The rest of the invocation once the build handlers are done. */
  function AfterBuild(o: Outcome, c: Config, repoName: Json, uri: Json, digest: Json, cloud: Cloud): Context {
    match o
    case Threw(w, msg) => Crash(w, msg)
    case Done(v5) => Finished(Conclude(v5, c, repoName, uri, digest, cloud))
  }

  /** The end of the invocation: an exception goes to the top-level `except`. */
  function Finished(o: Outcome): Context {
    match o
    case Threw(w, msg) => Crash(w, msg)
    case Done(r) => r
  }

  /** `lambda_handler`. */
  function Reconcile(ev: Event, cloud: Cloud, fingerprint: Dict -> string): Context {
    var c := ParseConfig(ev.cdef, ev.rollback);
    match Select(ev, c, cloud)
    case SelectThrew(v, msg) => Crash(v, msg)
    case Selected(v, repoName, uri, digest) => Run(v, ev, c, repoName, uri, digest, cloud, fingerprint)
  }

  // ----- the handlers on the shared `eh` -----

  /** The op selection of `lambda_handler`: the repository name, URI and
      digest the handlers are given, or the exception it raises. */
  method SelectOps(eh: ExtensionHandler, ev: Event, c: Config, cloud: Cloud)
      returns (repoName: Json, uri: Json, digest: Json, err: Option<string>)
    requires eh.Current() == Empty
    modifies eh
    ensures match Select(ev, c, cloud)
      case Selected(v, n, u, d) => eh.Current() == v && repoName == n && uri == u && digest == d && err == None
      case SelectThrew(v, msg) => eh.Current() == v && err == Some(msg)
  {
    repoName, uri, digest, err := c.repoName, JNull, JNull, None;
    if !Truthy(c.repoName) {
      eh.AddLog(RepoNameRequiredLog, true);
      eh.Declare(PermError(RepoNameRequired, Some(0)));
    }
    assert eh.Current() == NameChecked(c.repoName);
    if ev.passBackData {
      return;
    }
    if ev.op == "upsert" {
      eh.AddOp(CheckRequiredOp, NoPayload);
      eh.AddOp(LoadInitialPropsOp, NoPayload);
      repoName, uri, digest, err := SelectUpsertOps(eh, ev, c, cloud);
    } else if ev.op == "delete" {
      eh.AddOp(SetupOp, NoPayload);
    }
  }

  /** The upsert branch of the op selection, after its first two ops. */
  method SelectUpsertOps(eh: ExtensionHandler, ev: Event, c: Config, cloud: Cloud)
      returns (repoName: Json, uri: Json, digest: Json, err: Option<string>)
    modifies eh
    ensures match SelectUpsert(old(eh.Current()), ev, c, cloud)
      case Selected(v, n, u, d) => eh.Current() == v && repoName == n && uri == u && digest == d && err == None
      case SelectThrew(v, msg) => eh.Current() == v && err == Some(msg)
  {
    repoName, uri, digest, err := c.repoName, JNull, JNull, None;
    var buildOps := true;
    if RollbackAsked(ev) {
      var image := ev.prev.rollbackArtifacts["image"];
      if !image.JObj? {
        return c.repoName, JNull, JNull, Some(NoAttribute(image, "get"));
      }
      uri := GetOrNull(image.fields, "location");
      var repo := UriRepo(uri);
      if repo.Raised? {
        return c.repoName, JNull, JNull, Some(repo.msg);
      }
      repoName := JStr(repo.value);
      digest := GetOrNull(image.fields, "digest");
      match cloud.images(repo.value)
      case ImageFound(_) =>
        eh.AddOp(PropsFromArtifactOp, NoPayload);
        buildOps := false;
      case ImagesFailed(_) =>
        eh.AddLog(MissingRollbackImage, true);
    }
    if buildOps {
      eh.AddOp(SetupOp, NoPayload);
      if c.trust == JStr("full") || c.trust == JStr("code") {
        eh.AddOp(CompareDefsOp, NoPayload);
      }
    }
  }

  method GetS3Etag(eh: ExtensionHandler, head: HeadResult)
    modifies eh
    ensures eh.Current() == S3Etag(old(eh.Current()), head)
  {
    match head
    case ETag(e) =>
      eh.AddState(map[ZipEtagKey := JStr(e)]);
    case NoSuchKey =>
      eh.AddLog(ZipNotFound, false);
      eh.Declare(RetryError(ObjectNotFound));
  }

  /** Returns the definition as the handler leaves it in place. */
  method CompareDefs(eh: ExtensionHandler, prevProps: map<string, Json>, cdef: Dict, fingerprint: Dict -> string)
      returns (cdef': Dict)
    modifies eh
    ensures eh.Current() == CompareDefsStep(old(eh.Current()), prevProps, cdef, fingerprint)
    ensures cdef' == AfterCompareDefs(old(eh.Current()), cdef)
  {
    if CompareDefsOp !in eh.ops {
      return cdef;
    }
    eh.Enter(CompareDefsOp);
    cdef' := Pop(cdef, "trust_level");
    var digest := fingerprint(cdef');
    eh.AddProps(map[DefHashKey := JStr(digest)]);
    if PropOrNull(prevProps, DefHashKey) == JStr(digest) {
      eh.AddLog(DefsMatch, false);
      eh.AddOp(CompareEtagsOp, NoPayload);
    } else {
      eh.AddLog(DefsDiffer, false);
    }
  }

  method WrapUpNotDeploying(eh: ExtensionHandler, prev: Prev)
    modifies eh
    ensures eh.Current() == WrapUp(old(eh.Current()), prev)
  {
    eh.AddProps(prev.props);
    eh.AddLinks(prev.links);
    eh.AddState(prev.state);
    eh.AddArtifacts(prev.artifacts);
    eh.Declare(Declared(100, true, None));
  }

  method CompareEtags(eh: ExtensionHandler, prev: Prev, head: HeadResult)
    modifies eh
    ensures eh.Current() == CompareEtagsStep(old(eh.Current()), prev, head)
  {
    if CompareEtagsOp !in eh.ops {
      return;
    }
    eh.Enter(CompareEtagsOp);
    GetS3Etag(eh, head);
    var etag := PropOrNull(eh.state, ZipEtagKey);
    if Truthy(etag) {
      if PropOrNull(prev.props, InitialEtagKey) == etag {
        eh.AddLog(NoChangeDetected, false);
        WrapUpNotDeploying(eh, prev);
      } else {
        eh.AddOp(SetupOp, NoPayload);
        eh.AddLog(CodeChanged, false);
      }
    }
  }

  method LoadInitialProps(eh: ExtensionHandler, cdef: Dict, head: HeadResult, fingerprint: Dict -> string)
    modifies eh
    ensures eh.Current() == LoadInitialPropsStep(old(eh.Current()), cdef, head, fingerprint)
  {
    if LoadInitialPropsOp !in eh.ops {
      return;
    }
    eh.Enter(LoadInitialPropsOp);
    GetS3Etag(eh, head);
    var etag := PropOrNull(eh.state, ZipEtagKey);
    if Truthy(etag) {
      eh.AddProps(map[InitialEtagKey := etag]);
    }
    if !Truthy(PropOrNull(eh.props, DefHashKey)) {
      eh.AddProps(map[DefHashKey := JStr(fingerprint(Pop(cdef, "trust_level")))]);
    }
  }

  method SetupCodebuildProject(eh: ExtensionHandler, ev: Event, c: Config, repoName: Json, cloud: Cloud)
    modifies eh
    ensures eh.Current() == SetupStep(old(eh.Current()), ev, c, repoName, cloud)
  {
    if SetupOp !in eh.ops {
      return;
    }
    eh.Enter(SetupOp);
    if SecretsMissing(c, cloud) {
      eh.AddLog(SecretsNotSet, true);
      eh.Declare(PermError(SecretsNotSet, None));
      return;
    }
    var def := BuildProjectDef(ev, c, repoName, cloud);
    eh.Invoke(ProjectKey, def, 25, 30, JObj(cloud.projectProps));
    if ev.op == "upsert" {
      eh.AddOp(RunBuildOp, NoPayload);
    }
  }

  /** The body of `setup_codebuild_project` that builds the project
      definition: the account variables and login commands, then one
      variable, flag, tag command and push command per docker tag. */
  method BuildProjectDef(ev: Event, c: Config, repoName: Json, cloud: Cloud) returns (def: Dict)
    requires !SecretsMissing(c, cloud)
    ensures def == ProjectDef(ev, c, repoName, cloud)
  {
    var env: Dict := [("AWS_DEFAULT_REGION", JStr(cloud.region)), ("AWS_ACCOUNT_ID", JStr(cloud.account)),
      ("IMAGE_REPO_NAME", repoName)];
    var pre := [LoginEcho, EcrLogin];
    var post := [BuildCompleted, Pushing];
    ghost var creds := Creds(c, cloud);
    if c.login {
      SetNew(env, "DOCKERHUB_USERNAME", cloud.dockerhub.value.0);
      env := Set(env, "DOCKERHUB_USERNAME", cloud.dockerhub.value.0);
      SetNew(env, "DOCKERHUB_PASSWORD", cloud.dockerhub.value.1);
      env := Set(env, "DOCKERHUB_PASSWORD", cloud.dockerhub.value.1);
      pre := pre + [DockerhubLogin];
      post := post + [DockerLogout];
    }
    assert env == BaseEnv(cloud.region, cloud.account, repoName, creds);
    assert pre == PreBuild(c.login);
    BaseEnvKeys(cloud.region, cloud.account, repoName, creds);
    var tags := c.dockerTags;
    if tags == [] {
      tags := [JStr("latest")];
    }
    ghost var post0 := post;
    var build, tagCommands;
    env, build, tagCommands, post := TagEach(env, post, tags);
    build := build + ".";
    var commands := [BuildStarted, Building] + [build] + tagCommands;
    assert commands == BuildCommands(|tags|);
    assert post == PostBuild(c.login, |tags|);
    def := [("s3_bucket", ev.bucket), ("s3_object", ev.objectName), ("environment_variables", JObj(env)),
      ("pre_build_commands", JList(StrList(pre))), ("build_commands", JList(StrList(commands))),
      ("post_build_commands", JList(StrList(post))), ("container_image", JStr(BuildImage)),
      ("privileged_mode", JBool(true))];
    assert def == DefaultProjectDef(ev.bucket, ev.objectName, env, c.login, |tags|);
    def := Update(def, c.projectOverrides);
  }

  /** `d[k] = v` for a key `d` lacks appends the pair. */
  lemma SetNew(d: Dict, k: string, v: Json)
    requires forall i :: 0 <= i < |d| ==> d[i].0 != k
    ensures Set(d, k, v) == d + [(k, v)]
  {
    ToMapKeys(d);
  }

  /** The `for i, tag in enumerate(docker_tags)` loop. */
  method TagEach(base: Dict, post0: seq<string>, tags: seq<Json>)
      returns (env: Dict, build: string, tagCommands: seq<string>, post: seq<string>)
    requires forall x :: x in base ==> x.0 in BaseKeys
    ensures env == base + TagVars(tags)
    ensures build == "docker build " + Flags(|tags|)
    ensures tagCommands == TagCommands(|tags|)
    ensures post == post0 + PushCommands(|tags|)
  {
    env, build, tagCommands, post := base, "docker build ", [], post0;
    var i := 0;
    while i < |tags|
      invariant 0 <= i <= |tags|
      invariant env == base + TagVars(tags[..i])
      invariant build == "docker build " + Flags(i)
      invariant tagCommands == TagCommands(i)
      invariant post == post0 + PushCommands(i)
    {
      EnvSnoc(base, tags, i, env);
      env := Set(env, TagVar(i), tags[i]);
      FlagsSnoc(build, "docker build ", i);
      build := build + TagFlag(i);
      tagCommands := tagCommands + [TagCommand(i)];
      post := post + [PushCommand(i)];
      TagStepSnoc(tags, i);
      i := i + 1;
    }
    assert tags[..i] == tags;
  }

  /** One iteration's environment variable is new, so the `dict` gains it at the end. */
  lemma EnvSnoc(base: Dict, tags: seq<Json>, i: nat, env: Dict)
    requires i < |tags| && env == base + TagVars(tags[..i])
    requires forall x :: x in base ==> x.0 in BaseKeys
    ensures Set(env, TagVar(i), tags[i]) == base + TagVars(tags[..i + 1])
  {
    TagVarFresh(base, tags, i);
    TagStepSnoc(tags, i);
    assert base + TagVars(tags[..i + 1]) == env + [(TagVar(i), tags[i])];
  }

  lemma FlagsSnoc(build: string, prefix: string, i: nat)
    requires build == prefix + Flags(i)
    ensures build + TagFlag(i) == prefix + Flags(i + 1)
  {
    ConcatAssoc(prefix, Flags(i), TagFlag(i));
  }

  lemma ConcatAssoc(a: string, b: string, c: string)
    ensures a + b + c == a + (b + c)
  {
  }

  /** What one iteration of the tag loop appends. */
  lemma TagStepSnoc(tags: seq<Json>, i: nat)
    requires i < |tags|
    ensures TagVars(tags[..i + 1]) == TagVars(tags[..i]) + [(TagVar(i), tags[i])]
    ensures TagCommands(i + 1) == TagCommands(i) + [TagCommand(i)]
    ensures PushCommands(i + 1) == PushCommands(i) + [PushCommand(i)]
  {
    assert tags[..i + 1][..i] == tags[..i];
  }

  /** Reports the exception the handler raises, if any. */
  method RunCodebuildBuild(eh: ExtensionHandler, overrides: Dict, buildProps: Dict) returns (err: Option<string>)
    modifies eh
    ensures var o := RunBuildStep(old(eh.Current()), overrides, buildProps);
      eh.Current() == o.ctx && err == (if o.Threw? then Some(o.msg) else None)
  {
    if RunBuildOp !in eh.ops {
      return None;
    }
    eh.Enter(RunBuildOp);
    var name := ProjectName(eh.props);
    if name.Raised? {
      return Some(name.msg);
    }
    eh.Invoke(BuildKey, Update([("project_name", name.value)], overrides), 30, 45, JObj(buildProps));
    eh.AddOp(FinalPropsOp, NoPayload);
    return None;
  }

  method GetFinalProps(eh: ExtensionHandler, repoName: Json, tags: seq<Json>, cloud: Cloud)
    modifies eh
    ensures eh.Current() == FinalPropsStep(old(eh.Current()), repoName, tags, cloud)
  {
    if FinalPropsOp !in eh.ops {
      return;
    }
    eh.Enter(FinalPropsOp);
    match cloud.finalImage
    case DigestFailed(code) =>
      eh.Declare(CommonError(FinalPropsFailed, code, 90, []));
    case DigestFound(d) =>
      var uri := FinalUri(cloud.account, cloud.region, repoName, d);
      eh.AddProps(ImageProps(JStr(uri), JStr(d), JList(tags)));
      eh.AddLinks(map["Image" := JStr(FinalLink(cloud.account, cloud.region, repoName, d))]);
      eh.AddArtifacts(map["image" := ImageArtifact(JStr(uri), JStr(d))]);
  }

  /** Reports the exception the handler raises, if any. */
  method GetPropsFromArtifact(eh: ExtensionHandler, uri: Json, digest: Json, images: string -> ImagesResult)
      returns (err: Option<string>)
    modifies eh
    ensures var o := PropsFromArtifactStep(old(eh.Current()), uri, digest, images);
      eh.Current() == o.ctx && err == (if o.Threw? then Some(o.msg) else None)
  {
    if PropsFromArtifactOp !in eh.ops {
      return None;
    }
    eh.Enter(PropsFromArtifactOp);
    var repo := UriRepo(uri);
    if repo.Raised? {
      return Some(repo.msg);
    }
    match images(repo.value)
    case ImagesFailed(code) =>
      eh.Declare(CommonError(PropsFromArtifactFailed, code, 90, []));
      return None;
    case ImageFound(None) =>
      return Some("'imageTags'");
    case ImageFound(Some(tags)) =>
      eh.AddProps(ImageProps(uri, digest, tags));
      var link := GenLink(uri, Show(digest));
      if link.Raised? {
        return Some(link.msg);
      }
      eh.AddLinks(map["Image" := JStr(link.value)]);
      eh.AddArtifacts(map["image" := ImageArtifact(uri, digest)]);
      return None;
  }

  /** `lambda_handler` on a fresh `eh`: what it returns is `Reconcile`. */
  method LambdaHandler(ev: Event, cloud: Cloud, fingerprint: Dict -> string) returns (resp: Context)
    ensures resp == Reconcile(ev, cloud, fingerprint)
  {
    var eh := new ExtensionHandler();
    var c := ParseConfig(ev.cdef, ev.rollback);
    var repoName, uri, digest, err := SelectOps(eh, ev, c, cloud);
    if err.Some? {
      eh.Fail(err.value);
      return eh.Current();
    }
    ghost var v0 := eh.Current();
    var cdef := CompareDefs(eh, ev.prev.props, ev.cdef, fingerprint);
    CompareEtags(eh, ev.prev, cloud.head);
    LoadInitialProps(eh, cdef, cloud.head, fingerprint);
    assert eh.Current() == Check(v0, ev, cloud, fingerprint);
    SetupCodebuildProject(eh, ev, c, repoName, cloud);
    err := RunCodebuildBuild(eh, c.buildOverrides, cloud.buildProps);
    if err.Some? {
      eh.Fail(err.value);
      return eh.Current();
    }
    ghost var v5 := eh.Current();
    GetFinalProps(eh, repoName, c.dockerTags, cloud);
    err := GetPropsFromArtifact(eh, uri, digest, cloud.images);
    assert Conclude(v5, c, repoName, uri, digest, cloud).ctx == eh.Current();
    if err.Some? {
      eh.Fail(err.value);
      return eh.Current();
    }
    resp := eh.Current();
  }

  // ----- the order the handlers run in -----

  /** What the op selection leaves when it does not raise: nothing has run
      yet, only selection ops are enqueued, and a restore from the artifact
      excludes the build. */
  predicate SelectedShape(v: Context) {
    v.trace == [] && v.props == map[] && v.invocations == [] &&
    CompareEtagsOp !in v.ops && RunBuildOp !in v.ops && FinalPropsOp !in v.ops &&
    (PropsFromArtifactOp in v.ops ==> SetupOp !in v.ops && CompareDefsOp !in v.ops)
  }

  /** An op the selection may enqueue keeps the shape, provided it does
      not bring the build and the restore together. */
  lemma AddSelectionOp(v: Context, k: string)
    requires SelectedShape(v)
    requires k != CompareEtagsOp && k != RunBuildOp && k != FinalPropsOp
    requires k == PropsFromArtifactOp ==> SetupOp !in v.ops && CompareDefsOp !in v.ops
    requires PropsFromArtifactOp in v.ops ==> k != SetupOp && k != CompareDefsOp
    ensures SelectedShape(v.(ops := v.ops[k := NoPayload]))
  {
  }

  lemma LaterOpsDistinct(k: string)
    requires k in {CheckRequiredOp, LoadInitialPropsOp, SetupOp, CompareDefsOp, PropsFromArtifactOp}
    ensures k != CompareEtagsOp && k != RunBuildOp && k != FinalPropsOp
  {
  }

  lemma BuildOpsShape(v: Context, trust: Json)
    requires SelectedShape(v) && PropsFromArtifactOp !in v.ops
    ensures SelectedShape(BuildOps(v, trust))
  {
    LaterOpsDistinct(SetupOp);
    LaterOpsDistinct(CompareDefsOp);
    assert SetupOp != PropsFromArtifactOp;
    var v1 := v.(ops := v.ops[SetupOp := NoPayload]);
    AddSelectionOp(v, SetupOp);
    if trust == JStr("full") || trust == JStr("code") {
      assert CompareDefsOp != PropsFromArtifactOp;
      AddSelectionOp(v1, CompareDefsOp);
    }
  }

  lemma UpsertShape(v: Context, ev: Event, c: Config, cloud: Cloud)
    requires SelectedShape(v)
    requires PropsFromArtifactOp !in v.ops && SetupOp !in v.ops && CompareDefsOp !in v.ops
    ensures SelectUpsert(v, ev, c, cloud).Selected? ==> SelectedShape(SelectUpsert(v, ev, c, cloud).ctx)
    ensures SelectUpsert(v, ev, c, cloud).ctx.trace == []
  {
    if RollbackAsked(ev) {
      LaterOpsDistinct(PropsFromArtifactOp);
      AddSelectionOp(v, PropsFromArtifactOp);
      BuildOpsShape(v.(logs := v.logs + [Log(MissingRollbackImage, true)]), c.trust);
    } else {
      BuildOpsShape(v, c.trust);
    }
  }

  lemma SelectShape(ev: Event, c: Config, cloud: Cloud)
    ensures Select(ev, c, cloud).Selected? ==> SelectedShape(Select(ev, c, cloud).ctx)
    ensures Select(ev, c, cloud).ctx.trace == []
  {
    var v0 := NameChecked(c.repoName);
    if !ev.passBackData && ev.op == "upsert" {
      LaterOpsDistinct(CheckRequiredOp);
      LaterOpsDistinct(LoadInitialPropsOp);
      AddSelectionOp(v0, CheckRequiredOp);
      var v1 := v0.(ops := v0.ops[CheckRequiredOp := NoPayload]);
      AddSelectionOp(v1, LoadInitialPropsOp);
      var v2 := v1.(ops := v1.ops[LoadInitialPropsOp := NoPayload]);
      assert PropsFromArtifactOp !in v2.ops && SetupOp !in v2.ops && CompareDefsOp !in v2.ops;
      UpsertShape(v2, ev, c, cloud);
    } else if !ev.passBackData && ev.op == "delete" {
      LaterOpsDistinct(SetupOp);
      AddSelectionOp(v0, SetupOp);
    }
  }

  /** A gated handler leaves out an op that was absent and that it does not enqueue. */
  lemma NotEnqueued(v: Context, r: Context, name: string, enq: set<string>, x: string)
    requires Gated(v, r, name, enq) && x !in v.ops && x !in enq
    ensures x !in r.ops
  {
  }

  lemma CheckOrder(v: Context, v1: Context, v2: Context, w: Context)
    requires v.trace == []
    requires Gated(v, v1, CompareDefsOp, {CompareEtagsOp})
    requires Gated(v1, v2, CompareEtagsOp, {SetupOp})
    requires Gated(v2, w, LoadInitialPropsOp, {})
    ensures w.trace == Filter(Order[..3], w.ops.Keys)
  {
    assert Order[..0] == [] && Order[..1] == [CompareDefsOp] && Order[..2] == [CompareDefsOp, CompareEtagsOp];
    GatedAt(Order, 0, v, v1, {CompareEtagsOp});
    GatedAt(Order, 1, v1, v2, {SetupOp});
    GatedAt(Order, 2, v2, w, {});
  }

  lemma CheckOps(v: Context, v1: Context, v2: Context, w: Context)
    requires SelectedShape(v)
    requires Gated(v, v1, CompareDefsOp, {CompareEtagsOp}) && (CompareDefsOp !in v.ops ==> v1 == v)
    requires Gated(v1, v2, CompareEtagsOp, {SetupOp}) && (CompareEtagsOp !in v1.ops ==> v2 == v1)
    requires Gated(v2, w, LoadInitialPropsOp, {})
    ensures RunBuildOp !in w.ops && FinalPropsOp !in w.ops
    ensures PropsFromArtifactOp in w.ops ==> SetupOp !in w.ops
  {
    LaterOpsDistinct(SetupOp);
    LaterOpsDistinct(PropsFromArtifactOp);
    assert RunBuildOp != CompareEtagsOp && FinalPropsOp != CompareEtagsOp;
    NotEnqueued(v, v1, CompareDefsOp, {CompareEtagsOp}, RunBuildOp);
    NotEnqueued(v1, v2, CompareEtagsOp, {SetupOp}, RunBuildOp);
    NotEnqueued(v2, w, LoadInitialPropsOp, {}, RunBuildOp);
    NotEnqueued(v, v1, CompareDefsOp, {CompareEtagsOp}, FinalPropsOp);
    NotEnqueued(v1, v2, CompareEtagsOp, {SetupOp}, FinalPropsOp);
    NotEnqueued(v2, w, LoadInitialPropsOp, {}, FinalPropsOp);
    if PropsFromArtifactOp in w.ops {
      assert PropsFromArtifactOp in v.ops;
      assert v2 == v;
    }
  }

  lemma CheckTrace(v: Context, ev: Event, cloud: Cloud, fingerprint: Dict -> string)
    requires SelectedShape(v)
    ensures var w := Check(v, ev, cloud, fingerprint);
      w.trace == Filter(Order[..3], w.ops.Keys) && RunBuildOp !in w.ops && FinalPropsOp !in w.ops &&
      (PropsFromArtifactOp in w.ops ==> SetupOp !in w.ops)
  {
    var v1 := CompareDefsStep(v, ev.prev.props, ev.cdef, fingerprint);
    var v2 := CompareEtagsStep(v1, ev.prev, cloud.head);
    var w := LoadInitialPropsStep(v2, AfterCompareDefs(v, ev.cdef), cloud.head, fingerprint);
    CheckOrder(v, v1, v2, w);
    CheckOps(v, v1, v2, w);
  }

  lemma BuildOrder(v: Context, v4: Context, o: Outcome)
    requires v.trace == Filter(Order[..3], v.ops.Keys)
    requires RunBuildOp !in v.ops && FinalPropsOp !in v.ops
    requires Gated(v, v4, SetupOp, {RunBuildOp})
    requires Gated(v4, o.ctx, RunBuildOp, {FinalPropsOp})
    ensures o.ctx.trace == Filter(Order[..5], o.ctx.ops.Keys)
  {
    assert Order[..4] == Order[..3] + [SetupOp] && Order[..5] == Order[..4] + [RunBuildOp];
    GatedAt(Order, 3, v, v4, {RunBuildOp});
    GatedAt(Order, 4, v4, o.ctx, {FinalPropsOp});
  }

  /** The build raises only when the setup ran, so never beside a restore
      from the artifact, and nothing after it is enqueued. */
  lemma BuildThrew(v: Context, v4: Context, o: Outcome)
    requires RunBuildOp !in v.ops && FinalPropsOp !in v.ops
    requires PropsFromArtifactOp in v.ops ==> SetupOp !in v.ops
    requires Gated(v, v4, SetupOp, {RunBuildOp}) && (SetupOp !in v.ops ==> v4 == v)
    requires (o.Threw? ==> o.ctx.ops == v4.ops) && (RunBuildOp !in v4.ops ==> o == Done(v4))
    requires o.Threw?
    ensures FinalPropsOp !in o.ctx.ops && PropsFromArtifactOp !in o.ctx.ops
  {
    LaterOpsDistinct(PropsFromArtifactOp);
    assert FinalPropsOp != RunBuildOp;
    assert RunBuildOp in v4.ops;
    assert SetupOp in v.ops;
  }

  /** With neither reporting handler enqueued, the trace stops after the build. */
  lemma NoConclusion(ops: set<string>)
    requires FinalPropsOp !in ops && PropsFromArtifactOp !in ops
    ensures Filter(Order, ops) == Filter(Order[..5], ops)
  {
    FilterDrop(Order, 5, ops);
  }

  lemma BuildTrace(v: Context, ev: Event, c: Config, repoName: Json, cloud: Cloud)
    requires v.trace == Filter(Order[..3], v.ops.Keys)
    requires RunBuildOp !in v.ops && FinalPropsOp !in v.ops
    requires PropsFromArtifactOp in v.ops ==> SetupOp !in v.ops
    ensures var o := Build(v, ev, c, repoName, cloud);
      o.ctx.trace == Filter(Order[..5], o.ctx.ops.Keys) &&
      (o.Threw? ==> o.ctx.trace == Filter(Order, o.ctx.ops.Keys))
  {
    var v4 := SetupStep(v, ev, c, repoName, cloud);
    var o := RunBuildStep(v4, c.buildOverrides, cloud.buildProps);
    BuildOrder(v, v4, o);
    if o.Threw? {
      BuildThrew(v, v4, o);
      NoConclusion(o.ctx.ops.Keys);
    }
  }

  lemma ConcludeShape(v: Context, v6: Context, o: Outcome)
    requires v.trace == Filter(Order[..5], v.ops.Keys)
    requires Gated(v, v6, FinalPropsOp, {}) && Gated(v6, o.ctx, PropsFromArtifactOp, {})
    ensures o.ctx.trace == Filter(Order, o.ctx.ops.Keys)
  {
    GatedAt(Order, 5, v, v6, {});
    GatedAt(Order, 6, v6, o.ctx, {});
    assert Order[..7] == Order;
  }

  lemma ConcludeTrace(v: Context, c: Config, repoName: Json, uri: Json, digest: Json, cloud: Cloud)
    requires v.trace == Filter(Order[..5], v.ops.Keys)
    ensures var o := Conclude(v, c, repoName, uri, digest, cloud);
      o.ctx.trace == Filter(Order, o.ctx.ops.Keys)
  {
    var v6 := FinalPropsStep(v, repoName, c.dockerTags, cloud);
    ConcludeShape(v, v6, PropsFromArtifactStep(v6, uri, digest, cloud.images));
  }

  lemma AfterBuildTrace(o: Outcome, c: Config, repoName: Json, uri: Json, digest: Json, cloud: Cloud)
    requires o.ctx.trace == Filter(Order[..5], o.ctx.ops.Keys)
    requires o.Threw? ==> o.ctx.trace == Filter(Order, o.ctx.ops.Keys)
    ensures var r := AfterBuild(o, c, repoName, uri, digest, cloud); r.trace == Filter(Order, r.ops.Keys)
  {
    if o.Done? {
      ConcludeTrace(o.ctx, c, repoName, uri, digest, cloud);
    }
  }

  lemma RunTrace(v: Context, ev: Event, c: Config, repoName: Json, uri: Json, digest: Json, cloud: Cloud,
                 fingerprint: Dict -> string)
    requires SelectedShape(v)
    ensures var r := Run(v, ev, c, repoName, uri, digest, cloud, fingerprint);
      r.trace == Filter(Order, r.ops.Keys)
  {
    var w := Check(v, ev, cloud, fingerprint);
    CheckTrace(v, ev, cloud, fingerprint);
    BuildTrace(w, ev, c, repoName, cloud);
    AfterBuildTrace(Build(w, ev, c, repoName, cloud), c, repoName, uri, digest, cloud);
  }

  /** The handlers that run are those whose op is enqueued, in the order
      `lambda_handler` calls them; when the op selection raises, none runs. */
  lemma ReconcileTrace(ev: Event, cloud: Cloud, fingerprint: Dict -> string)
    ensures var c := ParseConfig(ev.cdef, ev.rollback);
      var r := Reconcile(ev, cloud, fingerprint);
      (Select(ev, c, cloud).SelectThrew? ==> r.trace == []) &&
      (Select(ev, c, cloud).Selected? ==> r.trace == Filter(Order, r.ops.Keys))
  {
    var c := ParseConfig(ev.cdef, ev.rollback);
    SelectShape(ev, c, cloud);
    match Select(ev, c, cloud)
    case SelectThrew(_, _) =>
    case Selected(v, repoName, uri, digest) =>
      RunTrace(v, ev, c, repoName, uri, digest, cloud, fingerprint);
  }

  /** `check_required_attributes` is enqueued on every upsert but never
      called, so it never runs. */
  lemma CheckRequiredNeverRuns(ev: Event, cloud: Cloud, fingerprint: Dict -> string)
    ensures CheckRequiredOp !in Reconcile(ev, cloud, fingerprint).trace
  {
    ReconcileTrace(ev, cloud, fingerprint);
    var c := ParseConfig(ev.cdef, ev.rollback);
    TraceWithinOrder(Reconcile(ev, cloud, fingerprint), Select(ev, c, cloud).SelectThrew?);
  }

  lemma TraceWithinOrder(r: Context, threw: bool)
    requires threw ==> r.trace == []
    requires !threw ==> r.trace == Filter(Order, r.ops.Keys)
    ensures CheckRequiredOp !in r.trace
  {
  }
}
