/** What the image reconciler's handlers promise, one handler or one kind
    of invocation at a time. */
module ImageFacts {
  import opened Json
  import opened Text
  import opened Handler
  import opened Image

  // ----- op selection -----

  /** Trust "full" or "code": the levels that check the fingerprints. */
  predicate ChecksFingerprints(trust: Json) {
    trust == JStr("full") || trust == JStr("code")
  }

  /** An upsert without a rollback to take enqueues the setup, and
      `compare_defs` exactly when the trust level checks fingerprints; the
      handlers get the definition's repository name and no image. */
  lemma UpsertSelectsBuild(v: Context, ev: Event, c: Config, cloud: Cloud)
    requires !RollbackAsked(ev)
    ensures SelectUpsert(v, ev, c, cloud) == Selected(BuildOps(v, c.trust), c.repoName, JNull, JNull)
    ensures BuildOps(v, c.trust).ops.Keys ==
      v.ops.Keys + {SetupOp} + (if ChecksFingerprints(c.trust) then {CompareDefsOp} else {})
  {
  }

  /** A rollback whose image the registry still has enqueues only the
      restore from the artifact, and hands it the artifact's URI and digest
      and the repository part of the URI. */
  lemma RollbackSelectsRestore(v: Context, ev: Event, c: Config, cloud: Cloud, repo: string)
    requires RollbackAsked(ev) && ev.prev.rollbackArtifacts["image"].JObj?
    requires UriRepo(GetOrNull(ev.prev.rollbackArtifacts["image"].fields, "location")) == Ok(repo)
    requires cloud.images(repo).ImageFound?
    ensures var image := ev.prev.rollbackArtifacts["image"].fields;
      SelectUpsert(v, ev, c, cloud) ==
        Selected(v.(ops := v.ops[PropsFromArtifactOp := NoPayload]), JStr(repo),
          GetOrNull(image, "location"), GetOrNull(image, "digest"))
  {
  }

  /** A rollback whose image the registry no longer has logs it and builds
      afresh from the artifact's repository. */
  lemma RollbackImageMissing(v: Context, ev: Event, c: Config, cloud: Cloud, repo: string)
    requires RollbackAsked(ev) && ev.prev.rollbackArtifacts["image"].JObj?
    requires UriRepo(GetOrNull(ev.prev.rollbackArtifacts["image"].fields, "location")) == Ok(repo)
    requires cloud.images(repo).ImagesFailed?
    ensures SelectUpsert(v, ev, c, cloud).Selected?
    ensures var s := SelectUpsert(v, ev, c, cloud);
      s.repoName == JStr(repo) && s.ctx.logs == v.logs + [Log(MissingRollbackImage, true)] &&
      s.ctx.ops.Keys == v.ops.Keys + {SetupOp} + (if ChecksFingerprints(c.trust) then {CompareDefsOp} else {})
  {
  }

  /** An `image` artifact that is not a dict ends the invocation: it has no `get`. */
  lemma RollbackNotObject(v: Context, ev: Event, c: Config, cloud: Cloud)
    requires RollbackAsked(ev) && !ev.prev.rollbackArtifacts["image"].JObj?
    ensures SelectUpsert(v, ev, c, cloud) == SelectThrew(v, NoAttribute(ev.prev.rollbackArtifacts["image"], "get"))
  {
  }

  /** A rollback always builds, if it builds at all, with trust "zero": it
      never checks fingerprints. */
  lemma RollbackNeverChecks(ev: Event)
    requires Truthy(ev.rollback)
    ensures !ChecksFingerprints(ParseConfig(ev.cdef, ev.rollback).trust)
  {
  }

  /** Without a rollback the trust level is the definition's, "code" when it
      has none. */
  lemma TrustDefault(ev: Event)
    requires !Truthy(ev.rollback)
    ensures var t := Get(ev.cdef, "trust_level");
      ChecksFingerprints(ParseConfig(ev.cdef, ev.rollback).trust) <==>
        !(t.Some? && Truthy(t.value)) || ChecksFingerprints(t.value)
  {
  }

  /** A rollback whose image the registry still has, in the repository the
      source reads from the artifact's URI. */
  predicate RestoreAvailable(ev: Event, cloud: Cloud) {
    RollbackAsked(ev) && ev.prev.rollbackArtifacts["image"].JObj? &&
    var repo := UriRepo(GetOrNull(ev.prev.rollbackArtifacts["image"].fields, "location"));
    repo.Ok? && cloud.images(repo.value).ImageFound?
  }

  /** The upsert ops: `check_required_attributes` and `load_initial_props`
      always, then the restore or the build. */
  lemma UpsertOps(ev: Event, c: Config, cloud: Cloud)
    requires !ev.passBackData && ev.op == "upsert"
    requires Select(ev, c, cloud).Selected?
    ensures var ops := Select(ev, c, cloud).ctx.ops.Keys;
      CheckRequiredOp in ops && LoadInitialPropsOp in ops &&
      (PropsFromArtifactOp in ops <==> RestoreAvailable(ev, cloud)) &&
      (SetupOp in ops <==> PropsFromArtifactOp !in ops) &&
      (CompareDefsOp in ops <==> SetupOp in ops && ChecksFingerprints(c.trust))
  {
    AddSelectionNames();
  }

  lemma AddSelectionNames()
    ensures PropsFromArtifactOp !in {CheckRequiredOp, LoadInitialPropsOp, SetupOp, CompareDefsOp}
    ensures SetupOp !in {CheckRequiredOp, LoadInitialPropsOp, CompareDefsOp}
    ensures CompareDefsOp !in {CheckRequiredOp, LoadInitialPropsOp}
  {
  }

  /** A delete enqueues only the setup, which hands the delete to the
      project reconciler. */
  lemma DeleteSelectsSetup(ev: Event, c: Config, cloud: Cloud)
    requires !ev.passBackData && ev.op == "delete"
    ensures Select(ev, c, cloud).Selected? && Select(ev, c, cloud).ctx.ops.Keys == {SetupOp}
  {
  }

  /** Passing back data, or an op that is neither upsert nor delete,
      enqueues nothing. */
  lemma OtherSelectsNothing(ev: Event, c: Config, cloud: Cloud)
    requires ev.passBackData || (ev.op != "upsert" && ev.op != "delete")
    ensures Select(ev, c, cloud).Selected? && Select(ev, c, cloud).ctx.ops == map[]
  {
  }

  /** A missing repository name is a permanent error at progress 0 that
      does not stop the invocation. */
  lemma NameRequired(ev: Event, c: Config, cloud: Cloud)
    requires !Truthy(c.repoName)
    ensures Select(ev, c, cloud).ctx.ret == Some(PermError(RepoNameRequired, Some(0)))
  {
  }

  // ----- the fingerprint handlers -----

  /** `compare_defs` records the hash of the definition without its trust
      level, and enqueues `compare_etags` exactly when the hash is the one
      the previous invocation recorded. */
  lemma CompareDefsRecords(v: Context, prevProps: map<string, Json>, cdef: Dict, fingerprint: Dict -> string)
    requires CompareDefsOp in v.ops
    ensures var r := CompareDefsStep(v, prevProps, cdef, fingerprint);
      r.props == v.props + map[DefHashKey := JStr(fingerprint(Pop(cdef, "trust_level")))] &&
      (CompareEtagsOp in r.ops <==> CompareEtagsOp in v.ops || PropOrNull(prevProps, DefHashKey) == r.props[DefHashKey]) &&
      r.state == v.state && r.ret == v.ret && r.invocations == v.invocations
  {
  }

  /** The fingerprint ignores the trust level: two definitions that differ
      only there have the same one. */
  lemma DefHashIgnoresTrust(cdef: Dict, level: Json, fingerprint: Dict -> string)
    ensures DefHash(Set(cdef, "trust_level", level), fingerprint) == DefHash(cdef, fingerprint)
  {
    PopSet(cdef, "trust_level", level);
  }

  /** `compare_etags` on an archive whose ETag is the one the previous
      invocation started from: the previous outputs carried forward and a
      declared success at progress 100, with no op enqueued. */
  lemma CompareEtagsUnchanged(v: Context, prev: Prev, e: string)
    requires CompareEtagsOp in v.ops && e != ""
    requires PropOrNull(prev.props, InitialEtagKey) == JStr(e)
    ensures var r := CompareEtagsStep(v, prev, ETag(e));
      r.ret == Some(Declared(100, true, None)) && r.ops == v.ops &&
      r.props == v.props + prev.props && r.links == v.links + prev.links &&
      r.artifacts == v.artifacts + prev.artifacts &&
      r.state == v.state + map[ZipEtagKey := JStr(e)] + prev.state
  {
  }

  /** `compare_etags` enqueues the setup exactly when the archive has a
      non-empty ETag other than the previous starting one (when no ETag was
      read before it). */
  lemma CompareEtagsEnqueues(v: Context, prev: Prev, head: HeadResult)
    requires CompareEtagsOp in v.ops && SetupOp !in v.ops && ZipEtagKey !in v.state
    ensures var r := CompareEtagsStep(v, prev, head);
      SetupOp in r.ops <==> head.ETag? && head.etag != "" && PropOrNull(prev.props, InitialEtagKey) != JStr(head.etag)
  {
  }

  /** A missing archive is a retry error that leaves the op table alone. */
  lemma CompareEtagsNoArchive(v: Context, prev: Prev)
    requires CompareEtagsOp in v.ops && ZipEtagKey !in v.state
    ensures var r := CompareEtagsStep(v, prev, NoSuchKey);
      r.ret == Some(RetryError(ObjectNotFound)) && r.ops == v.ops && r.props == v.props
  {
  }

  /** `load_initial_props` records the archive's ETag when it has one, and
      the fingerprint only when no handler recorded one yet. */
  lemma LoadInitialRecords(v: Context, cdef: Dict, head: HeadResult, fingerprint: Dict -> string)
    requires LoadInitialPropsOp in v.ops
    ensures var r := LoadInitialPropsStep(v, cdef, head, fingerprint);
      (head.ETag? && head.etag != "" ==> InitialEtagKey in r.props && r.props[InitialEtagKey] == JStr(head.etag)) &&
      DefHashKey in r.props &&
      r.props[DefHashKey] == (if Truthy(PropOrNull(v.props, DefHashKey)) then v.props[DefHashKey]
                              else JStr(DefHash(cdef, fingerprint))) &&
      (head.NoSuchKey? ==> r.ret == Some(RetryError(ObjectNotFound)))
  {
  }

  /** `compare_etags` keeps a recorded fingerprint: it carries the previous
      props forward only when their fingerprint is the same one. */
  lemma CompareEtagsKeepsHash(v: Context, prev: Prev, head: HeadResult, h: string)
    requires DefHashKey in v.props && v.props[DefHashKey] == JStr(h)
    requires CompareEtagsOp in v.ops ==> PropOrNull(prev.props, DefHashKey) == JStr(h)
    ensures var r := CompareEtagsStep(v, prev, head); DefHashKey in r.props && r.props[DefHashKey] == JStr(h)
  {
  }

  lemma LoadInitialKeepsHash(v: Context, cdef: Dict, head: HeadResult, fingerprint: Dict -> string, h: string)
    requires DefHashKey in v.props ==> v.props[DefHashKey] == JStr(h)
    requires DefHash(cdef, fingerprint) == h && LoadInitialPropsOp in v.ops
    ensures var r := LoadInitialPropsStep(v, cdef, head, fingerprint); DefHashKey in r.props && r.props[DefHashKey] == JStr(h)
  {
    LoadInitialRecords(v, cdef, head, fingerprint);
  }

  /** After the fingerprint handlers of an upsert the props hold the
      fingerprint of the current definition, whichever of them ran: the one
      `compare_defs` records, the same one carried forward by
      `compare_etags`, or the one `load_initial_props` computes itself from
      the definition `compare_defs` already stripped. */
  lemma FingerprintRecorded(v: Context, ev: Event, cloud: Cloud, fingerprint: Dict -> string)
    requires SelectedShape(v) && LoadInitialPropsOp in v.ops
    ensures var w := Check(v, ev, cloud, fingerprint);
      DefHashKey in w.props && w.props[DefHashKey] == JStr(DefHash(ev.cdef, fingerprint))
  {
    var h := DefHash(ev.cdef, fingerprint);
    var v1 := CompareDefsStep(v, ev.prev.props, ev.cdef, fingerprint);
    var v2 := CompareEtagsStep(v1, ev.prev, cloud.head);
    var cdef := AfterCompareDefs(v, ev.cdef);
    if CompareDefsOp in v.ops {
      CompareDefsRecords(v, ev.prev.props, ev.cdef, fingerprint);
      CompareEtagsKeepsHash(v1, ev.prev, cloud.head, h);
      PopIdempotent(ev.cdef, "trust_level");
    }
    assert DefHash(cdef, fingerprint) == h;
    LoadInitialKeepsHash(v2, cdef, cloud.head, fingerprint, h);
  }

  // ----- setup_codebuild_project -----

  /** The variables the project is given before the user's overrides. */
  function ProjectEnv(c: Config, repoName: Json, cloud: Cloud): Dict {
    BaseEnv(cloud.region, cloud.account, repoName, Creds(c, cloud)) + TagVars(SetupTags(c.dockerTags))
  }

  /** Every variable is set once, and `IMAGE_TAG_i` holds the i-th docker tag. */
  lemma ProjectEnvTags(c: Config, repoName: Json, cloud: Cloud, i: nat)
    requires i < |SetupTags(c.dockerTags)|
    ensures DistinctKeys(ProjectEnv(c, repoName, cloud))
    ensures Get(ProjectEnv(c, repoName, cloud), TagVar(i)) == Some(SetupTags(c.dockerTags)[i])
  {
    var base := BaseEnv(cloud.region, cloud.account, repoName, Creds(c, cloud));
    BaseEnvKeys(cloud.region, cloud.account, repoName, Creds(c, cloud));
    EnvTags(base, SetupTags(c.dockerTags), i);
  }

  /** The account variables and the repository name are set, and the
      Dockerhub credentials exactly when logging in with them. */
  lemma ProjectEnvBase(c: Config, repoName: Json, cloud: Cloud)
    ensures var env := ProjectEnv(c, repoName, cloud);
      Get(env, "AWS_DEFAULT_REGION") == Some(JStr(cloud.region)) &&
      Get(env, "AWS_ACCOUNT_ID") == Some(JStr(cloud.account)) &&
      Get(env, "IMAGE_REPO_NAME") == Some(repoName) &&
      Get(env, "DOCKERHUB_USERNAME") == (if c.login && cloud.dockerhub.Some? then Some(cloud.dockerhub.value.0) else None) &&
      Get(env, "DOCKERHUB_PASSWORD") == (if c.login && cloud.dockerhub.Some? then Some(cloud.dockerhub.value.1) else None)
  {
    var env := ProjectEnv(c, repoName, cloud);
    var base := BaseEnv(cloud.region, cloud.account, repoName, Creds(c, cloud));
    var tags := SetupTags(c.dockerTags);
    BaseEnvKeys(cloud.region, cloud.account, repoName, Creds(c, cloud));
    ProjectEnvTags(c, repoName, cloud, 0);
    assert env[0] == ("AWS_DEFAULT_REGION", JStr(cloud.region)) && env[1] == ("AWS_ACCOUNT_ID", JStr(cloud.account));
    assert env[2] == ("IMAGE_REPO_NAME", repoName);
    GetPair(env, "AWS_DEFAULT_REGION", JStr(cloud.region));
    GetPair(env, "AWS_ACCOUNT_ID", JStr(cloud.account));
    GetPair(env, "IMAGE_REPO_NAME", repoName);
    if c.login && cloud.dockerhub.Some? {
      assert env[3] == ("DOCKERHUB_USERNAME", cloud.dockerhub.value.0);
      assert env[4] == ("DOCKERHUB_PASSWORD", cloud.dockerhub.value.1);
      GetPair(env, "DOCKERHUB_USERNAME", cloud.dockerhub.value.0);
      GetPair(env, "DOCKERHUB_PASSWORD", cloud.dockerhub.value.1);
    } else {
      NoCredentialVars(base, tags, "DOCKERHUB_USERNAME");
      NoCredentialVars(base, tags, "DOCKERHUB_PASSWORD");
    }
  }

  lemma NoCredentialVars(base: Dict, tags: seq<Json>, k: string)
    requires |base| == 3 && k in BaseKeys && (k == "DOCKERHUB_USERNAME" || k == "DOCKERHUB_PASSWORD")
    requires base[0].0 == "AWS_DEFAULT_REGION" && base[1].0 == "AWS_ACCOUNT_ID" && base[2].0 == "IMAGE_REPO_NAME"
    ensures Get(base + TagVars(tags), k) == None
  {
    var env := base + TagVars(tags);
    forall x | x in env ensures x.0 != k {
      var j :| 0 <= j < |env| && env[j] == x;
      if j >= 3 {
        TagVarNotBase(j - 3, k);
      }
    }
    GetMissing(env, k);
  }

  /** The build commands: two echoes, then `docker build` with one `-t`
      flag per tag, then one `docker tag` per tag, in tag order. */
  lemma BuildCommandsShape(n: nat)
    ensures |BuildCommands(n)| == 3 + n
    ensures BuildCommands(n)[..2] == [BuildStarted, Building]
    ensures BuildCommands(n)[2] == "docker build " + Flags(n) + "."
    ensures forall i :: 0 <= i < n ==> BuildCommands(n)[3 + i] == TagCommand(i)
  {
  }

  /** The flags name the tags in order: those of the first `i` tags, then
      tag `i`'s, start the flags of any longer tag list. */
  lemma FlagsInOrder(i: nat, n: nat)
    requires i < n
    ensures Flags(i) + TagFlag(i) <= Flags(n)
  {
    forall k: nat | 0 < k <= n ensures Flags(k) == Flags(k - 1) + TagFlag(k - 1) {
      FlagsUnfold(k);
    }
    PiecesInOrder(Flags, TagFlag, i, n);
  }

  lemma FlagsUnfold(k: nat)
    requires 0 < k
    ensures Flags(k) == Flags(k - 1) + TagFlag(k - 1)
  {
  }

  /** A string built piece by piece starts with each of its earlier stages
      followed by the next piece. */
  lemma {:induction false} PiecesInOrder(built: nat -> string, piece: nat -> string, i: nat, n: nat)
    requires i < n
    requires forall k: nat :: 0 < k <= n ==> built(k) == built(k - 1) + piece(k - 1)
    ensures built(i) + piece(i) <= built(n)
  {
    if i + 1 < n {
      PiecesInOrder(built, piece, i, n - 1);
      PrefixAppend(built(i) + piece(i), built(n - 1), piece(n - 1));
    }
  }

  lemma PrefixAppend(a: string, b: string, c: string)
    requires a <= b
    ensures a <= b + c
  {
    assert (b + c)[..|a|] == b[..|a|];
  }

  /** With a Dockerhub login there is exactly one login command, the last
      of the pre-build phase, and one `docker logout`, after the two echoes
      and before the pushes; the pushes follow in tag order. */
  lemma LoginCommands(login: bool, n: nat)
    ensures |PreBuild(login)| == if login then 3 else 2
    ensures PreBuild(login)[..2] == [LoginEcho, EcrLogin]
    ensures login ==> PreBuild(login)[2] == DockerhubLogin
    ensures var k := if login then 3 else 2;
      |PostBuild(login, n)| == k + n &&
      (login ==> PostBuild(login, n)[2] == DockerLogout) &&
      forall i :: 0 <= i < n ==> PostBuild(login, n)[k + i] == PushCommand(i)
    ensures DockerLogout in PostBuild(login, n) <==> login
  {
    CommandsDiffer();
    if !login {
      forall x | x in PostBuild(login, n) ensures x != DockerLogout {
        var j :| 0 <= j < |PostBuild(login, n)| && PostBuild(login, n)[j] == x;
        if j >= 2 {
          PushIsNotLogout(j - 2);
        }
      }
    }
  }

  lemma CommandsDiffer()
    ensures BuildCompleted != DockerLogout && Pushing != DockerLogout
  {
    assert BuildCompleted[0] == 'e' && Pushing[0] == 'e' && DockerLogout[0] == 'd';
  }

  lemma PushIsNotLogout(i: nat)
    ensures PushCommand(i) != DockerLogout
  {
    assert PushCommand(i)[7] == 'p' && DockerLogout[7] == 'l';
  }

  /** The user's project overrides replace the defaults key by key. */
  lemma ProjectOverrides(ev: Event, c: Config, repoName: Json, cloud: Cloud)
    ensures ToMap(ProjectDef(ev, c, repoName, cloud)) ==
      ToMap(DefaultProjectDef(ev.bucket, ev.objectName, ProjectEnv(c, repoName, cloud), c.login, |SetupTags(c.dockerTags)|)) +
      ToMap(c.projectOverrides)
  {
    UpdateToMap(DefaultProjectDef(ev.bucket, ev.objectName, ProjectEnv(c, repoName, cloud), c.login, |SetupTags(c.dockerTags)|),
      c.projectOverrides);
  }

  /** Logging in without the secrets set is a permanent error: nothing is
      invoked and no build is enqueued. */
  lemma SetupSecretsMissing(v: Context, ev: Event, c: Config, repoName: Json, cloud: Cloud)
    requires SetupOp in v.ops && SecretsMissing(c, cloud)
    ensures var r := SetupStep(v, ev, c, repoName, cloud);
      r.ret == Some(PermError(SecretsNotSet, None)) && r.invocations == v.invocations &&
      r.ops == v.ops && r.props == v.props
  {
  }

  /** Otherwise the project reconciler is invoked once, with the project
      definition, over progress 25 to 30; its props are kept under its key;
      the build is enqueued exactly on an upsert. */
  lemma SetupInvokes(v: Context, ev: Event, c: Config, repoName: Json, cloud: Cloud)
    requires SetupOp in v.ops && !SecretsMissing(c, cloud) && RunBuildOp !in v.ops
    ensures var r := SetupStep(v, ev, c, repoName, cloud);
      r.invocations == v.invocations + [Invocation(ProjectKey, ProjectDef(ev, c, repoName, cloud), 25, 30)] &&
      r.props == v.props[ProjectKey := JObj(cloud.projectProps)] && r.ret == v.ret &&
      (RunBuildOp in r.ops <==> ev.op == "upsert")
  {
  }

  // ----- run_codebuild_build -----

  /** The build reconciler is given the project's name, unless the user's
      build overrides name another project. */
  lemma BuildProjectName(name: Json, overrides: Dict)
    ensures var def := ToMap(Update([("project_name", name)], overrides));
      "project_name" in def &&
      def["project_name"] == if "project_name" in ToMap(overrides) then ToMap(overrides)["project_name"] else name
  {
    var base: Dict := [("project_name", name)];
    assert base[..0] == [];
    UpdateToMap(base, overrides);
  }

  /** `run_codebuild_build` raises exactly when the project's props have no
      name; otherwise it invokes the build reconciler once, over progress 30
      to 45, and enqueues `get_final_props`. */
  lemma RunBuildInvokes(v: Context, overrides: Dict, buildProps: Dict)
    requires RunBuildOp in v.ops
    ensures var o := RunBuildStep(v, overrides, buildProps);
      (o.Threw? <==> ProjectName(v.props).Raised?) &&
      (o.Threw? ==> o.msg == ProjectName(v.props).msg && o.ctx.invocations == v.invocations) &&
      (o.Done? ==>
        o.ctx.invocations == v.invocations +
          [Invocation(BuildKey, Update([("project_name", ProjectName(v.props).value)], overrides), 30, 45)] &&
        o.ctx.props == v.props[BuildKey := JObj(buildProps)] && FinalPropsOp in o.ctx.ops)
  {
  }

  /** After a setup that invoked the project reconciler on an upsert, the
      build raises exactly when the project reconciler handed back no name. */
  lemma SetupThenBuild(v: Context, ev: Event, c: Config, repoName: Json, cloud: Cloud)
    requires SetupOp in v.ops && RunBuildOp !in v.ops && !SecretsMissing(c, cloud) && ev.op == "upsert"
    ensures var o := Build(v, ev, c, repoName, cloud);
      (o.Threw? <==> "name" !in ToMap(cloud.projectProps)) &&
      (o.Done? ==> FinalPropsOp in o.ctx.ops && |o.ctx.invocations| == |v.invocations| + 2)
  {
    var v4 := SetupStep(v, ev, c, repoName, cloud);
    SetupInvokes(v, ev, c, repoName, cloud);
    RunBuildInvokes(v4, c.buildOverrides, cloud.buildProps);
  }

  /** Without the Dockerhub secrets nothing is built: the permanent error
      stands, nothing is invoked and neither the build nor the image lookup
      is enqueued. */
  lemma SecretsMissingNoBuild(v: Context, ev: Event, c: Config, repoName: Json, cloud: Cloud)
    requires SetupOp in v.ops && RunBuildOp !in v.ops && SecretsMissing(c, cloud)
    ensures var o := Build(v, ev, c, repoName, cloud);
      o.Done? && o.ctx.invocations == v.invocations && o.ctx.ret == Some(PermError(SecretsNotSet, None)) &&
      RunBuildOp !in o.ctx.ops && (FinalPropsOp in o.ctx.ops <==> FinalPropsOp in v.ops)
  {
    SetupSecretsMissing(v, ev, c, repoName, cloud);
  }

  // ----- get_final_props and get_props_from_artifact -----

  /** The fields an image's URI, digest and tags are recorded in. */
  lemma RecordedImage(v: Context, uri: string, d: string, tags: Json, link: string)
    ensures var r := v.(props := v.props + ImageProps(JStr(uri), JStr(d), tags),
                        links := v.links + map["Image" := JStr(link)],
                        artifacts := v.artifacts + map["image" := ImageArtifact(JStr(uri), JStr(d))]);
      "uri" in r.props && "digest" in r.props && "tags" in r.props && "image" in r.artifacts && "Image" in r.links &&
      r.props["uri"] == JStr(uri) && r.props["digest"] == JStr(d) && r.props["tags"] == tags &&
      r.links["Image"] == JStr(link) &&
      r.artifacts["image"] == ImageArtifact(r.props["uri"], r.props["digest"]) && r.ret == v.ret
  {
  }

  /** `get_final_props` records the image's URI, digest and tags, and an
      `image` artifact that agrees with them on URI and digest. */
  lemma FinalPropsRecords(v: Context, repoName: Json, tags: seq<Json>, cloud: Cloud, d: string)
    requires FinalPropsOp in v.ops && cloud.finalImage == DigestFound(d)
    ensures var r := FinalPropsStep(v, repoName, tags, cloud);
      "uri" in r.props && "digest" in r.props && "tags" in r.props && "image" in r.artifacts && "Image" in r.links &&
      r.props["uri"] == JStr(FinalUri(cloud.account, cloud.region, repoName, d)) &&
      r.props["digest"] == JStr(d) && r.props["tags"] == JList(tags) &&
      r.artifacts["image"] == ImageArtifact(r.props["uri"], r.props["digest"]) && r.ret == v.ret
  {
    var uri := FinalUri(cloud.account, cloud.region, repoName, d);
    var link := FinalLink(cloud.account, cloud.region, repoName, d);
    var v1 := v.(trace := v.trace + [FinalPropsOp]);
    assert FinalPropsStep(v, repoName, tags, cloud) ==
      v1.(props := v1.props + ImageProps(JStr(uri), JStr(d), JList(tags)),
          links := v1.links + map["Image" := JStr(link)],
          artifacts := v1.artifacts + map["image" := ImageArtifact(JStr(uri), JStr(d))]);
    RecordedImage(v1, uri, d, JList(tags), link);
  }

  /** Its link is the console page of the image, but for a registry digest
      `alg:hex` in the repository `name@alg`. */
  lemma FinalPropsLink(v: Context, repoName: Json, tags: seq<Json>, cloud: Cloud, alg: string, hex: string)
    requires FinalPropsOp in v.ops && cloud.finalImage == DigestFound(alg + ":" + hex)
    requires PlainParts(cloud.account, cloud.region, repoName, alg + ":" + hex) && ':' !in alg
    ensures var r := FinalPropsStep(v, repoName, tags, cloud);
      "Image" in r.links &&
      r.links["Image"] == JStr(ConsoleLink(cloud.account, cloud.region, Show(repoName) + "@" + alg, alg + ":" + hex))
  {
    FinalLinkFields(cloud.account, cloud.region, repoName, alg, hex);
  }

  /** A registry error is reported at progress 90 and records nothing. */
  lemma FinalPropsFails(v: Context, repoName: Json, tags: seq<Json>, cloud: Cloud, code: string)
    requires FinalPropsOp in v.ops && cloud.finalImage == DigestFailed(code)
    ensures var r := FinalPropsStep(v, repoName, tags, cloud);
      r.ret == Some(CommonError(FinalPropsFailed, code, 90, [])) && r.props == v.props &&
      r.artifacts == v.artifacts && r.links == v.links
  {
  }

  /** What `get_final_props` leaves: on a found digest the image's URI,
      digest, tags, console link and artifact; otherwise the common error at 90. */
  predicate ReportsImage(r: Context, repoName: Json, tags: seq<Json>, cloud: Cloud) {
    match cloud.finalImage
    case DigestFound(d) =>
      var uri := FinalUri(cloud.account, cloud.region, repoName, d);
      "uri" in r.props && "digest" in r.props && "tags" in r.props && "Image" in r.links && "image" in r.artifacts &&
      r.props["uri"] == JStr(uri) && r.props["digest"] == JStr(d) && r.props["tags"] == JList(tags) &&
      r.links["Image"] == JStr(FinalLink(cloud.account, cloud.region, repoName, d)) &&
      r.artifacts["image"] == ImageArtifact(JStr(uri), JStr(d))
    case DigestFailed(code) => r.ret == Some(CommonError(FinalPropsFailed, code, 90, []))
  }

  /** `get_final_props`, once enqueued, reports the image or the failure. */
  lemma FinalPropsReports(v: Context, repoName: Json, tags: seq<Json>, cloud: Cloud)
    requires FinalPropsOp in v.ops
    ensures ReportsImage(FinalPropsStep(v, repoName, tags, cloud), repoName, tags, cloud)
  {
    match cloud.finalImage
    case DigestFound(d) =>
      FinalPropsRecords(v, repoName, tags, cloud, d);
      FinalPropsRecordsLink(v, repoName, tags, cloud, d);
    case DigestFailed(code) =>
      FinalPropsFails(v, repoName, tags, cloud, code);
  }

  /** The `image` artifact's fields, as the rollback reads them. */
  lemma ImageArtifactFields(location: Json, digest: Json)
    ensures ImageArtifact(location, digest).JObj?
    ensures GetOrNull(ImageArtifact(location, digest).fields, "location") == location
    ensures GetOrNull(ImageArtifact(location, digest).fields, "digest") == digest
  {
    var f := ImageArtifact(location, digest).fields;
    assert DistinctKeys(f);
    assert f[1] == ("location", location) && f[2] == ("digest", digest);
    GetPair(f, "location", location);
    GetPair(f, "digest", digest);
  }

  /** ECR repository names hold no `@`, so `describe_images` on such a
      name fails. */
  ghost predicate RegistryNames(cloud: Cloud) {
    forall n :: '@' in n ==> cloud.images(n).ImagesFailed?
  }

  /** A rollback to the artifact a build declared, with a registry digest
      `alg:hex`, asks the registry about the repository `name@alg`; the
      registry has none, so the rollback logs the image as missing and
      builds afresh, in the repository `name@alg`. */
  lemma RollbackFindsBuiltImage(v: Context, ev: Event, c: Config, cloud: Cloud,
                                account: string, region: string, repoName: Json, alg: string, hex: string)
    requires RollbackAsked(ev) && RegistryNames(cloud)
    requires ev.prev.rollbackArtifacts["image"] ==
      ImageArtifact(JStr(FinalUri(account, region, repoName, alg + ":" + hex)), JStr(alg + ":" + hex))
    requires PlainParts(account, region, repoName, alg + ":" + hex) && ':' !in alg
    ensures SelectUpsert(v, ev, c, cloud).Selected?
    ensures var s := SelectUpsert(v, ev, c, cloud);
      s.repoName == JStr(Show(repoName) + "@" + alg) && s.ctx.logs == v.logs + [Log(MissingRollbackImage, true)] &&
      s.ctx.ops.Keys == v.ops.Keys + {SetupOp} + (if ChecksFingerprints(c.trust) then {CompareDefsOp} else {})
  {
    var d := alg + ":" + hex;
    ImageArtifactFields(JStr(FinalUri(account, region, repoName, d)), JStr(d));
    RollbackNamesRepository(account, region, repoName, alg, hex);
    assert '@' in Show(repoName) + "@" + alg by {
      assert (Show(repoName) + "@" + alg)[|Show(repoName)|] == '@';
    }
    RollbackImageMissing(v, ev, c, cloud, Show(repoName) + "@" + alg);
  }

  /** A restore whose URI names a repository that has the image with tags,
      and yields a link, records the image the way a build does. */
  lemma RestoreRecords(w: Context, uri: string, d: string, images: string -> ImagesResult, found: Json, link: string)
    requires PropsFromArtifactOp in w.ops && UriRepo(JStr(uri)).Ok? && GenLink(JStr(uri), d) == Ok(link)
    requires images(UriRepo(JStr(uri)).value) == ImageFound(Some(found))
    ensures var o := PropsFromArtifactStep(w, JStr(uri), JStr(d), images);
      o.Done? &&
      o.ctx == w.(trace := w.trace + [PropsFromArtifactOp]).(
        props := w.props + ImageProps(JStr(uri), JStr(d), found),
        links := w.links + map["Image" := JStr(link)],
        artifacts := w.artifacts + map["image" := ImageArtifact(JStr(uri), JStr(d))])
  {
  }

  /** Restoring from the URI and digest a build recorded, from a repository
      that has the image, declares the same URI, digest, link and artifact
      the build declared. */
  lemma RestoreMatchesBuild(v: Context, w: Context, repoName: Json, tags: seq<Json>, cloud: Cloud, d: string,
                            images: string -> ImagesResult, found: Json)
    requires FinalPropsOp in v.ops && cloud.finalImage == DigestFound(d)
    requires PlainParts(cloud.account, cloud.region, repoName, d)
    requires PropsFromArtifactOp in w.ops
    requires images(RepoPartAsWritten(Show(repoName) + "@" + d)) == ImageFound(Some(found))
    ensures var b := FinalPropsStep(v, repoName, tags, cloud);
      "uri" in b.props && "digest" in b.props && "Image" in b.links && "image" in b.artifacts &&
      var o := PropsFromArtifactStep(w, b.props["uri"], b.props["digest"], images);
      o.Done? && "uri" in o.ctx.props && "digest" in o.ctx.props && "tags" in o.ctx.props &&
      "Image" in o.ctx.links && "image" in o.ctx.artifacts &&
      o.ctx.props["uri"] == b.props["uri"] && o.ctx.props["digest"] == b.props["digest"] &&
      o.ctx.props["tags"] == found &&
      o.ctx.links["Image"] == b.links["Image"] && o.ctx.artifacts["image"] == b.artifacts["image"]
  {
    var uri := FinalUri(cloud.account, cloud.region, repoName, d);
    var link := FinalLink(cloud.account, cloud.region, repoName, d);
    var b := FinalPropsStep(v, repoName, tags, cloud);
    FinalPropsRecordsLink(v, repoName, tags, cloud, d);
    FinalUriRepo(cloud.account, cloud.region, repoName, d);
    FinalLinkOk(cloud.account, cloud.region, repoName, d);
    assert UriRepo(JStr(uri)).value == RepoPartAsWritten(Show(repoName) + "@" + d);
    RestoreSameRecord(b, w, uri, d, images, found, link);
  }

  lemma FinalPropsRecordsLink(v: Context, repoName: Json, tags: seq<Json>, cloud: Cloud, d: string)
    requires FinalPropsOp in v.ops && cloud.finalImage == DigestFound(d)
    ensures var b := FinalPropsStep(v, repoName, tags, cloud);
      var uri := FinalUri(cloud.account, cloud.region, repoName, d);
      "uri" in b.props && "digest" in b.props && "Image" in b.links && "image" in b.artifacts &&
      b.props["uri"] == JStr(uri) && b.props["digest"] == JStr(d) &&
      b.links["Image"] == JStr(FinalLink(cloud.account, cloud.region, repoName, d)) &&
      b.artifacts["image"] == ImageArtifact(JStr(uri), JStr(d))
  {
    var uri := FinalUri(cloud.account, cloud.region, repoName, d);
    var link := FinalLink(cloud.account, cloud.region, repoName, d);
    var v1 := v.(trace := v.trace + [FinalPropsOp]);
    assert FinalPropsStep(v, repoName, tags, cloud) ==
      v1.(props := v1.props + ImageProps(JStr(uri), JStr(d), JList(tags)),
          links := v1.links + map["Image" := JStr(link)],
          artifacts := v1.artifacts + map["image" := ImageArtifact(JStr(uri), JStr(d))]);
    RecordedImage(v1, uri, d, JList(tags), link);
  }

  lemma RestoreSameRecord(b: Context, w: Context, uri: string, d: string, images: string -> ImagesResult,
                          found: Json, link: string)
    requires "uri" in b.props && "digest" in b.props && "Image" in b.links && "image" in b.artifacts
    requires b.props["uri"] == JStr(uri) && b.props["digest"] == JStr(d) && b.links["Image"] == JStr(link)
    requires b.artifacts["image"] == ImageArtifact(JStr(uri), JStr(d))
    requires PropsFromArtifactOp in w.ops && UriRepo(JStr(uri)).Ok? && GenLink(JStr(uri), d) == Ok(link)
    requires images(UriRepo(JStr(uri)).value) == ImageFound(Some(found))
    ensures var o := PropsFromArtifactStep(w, b.props["uri"], b.props["digest"], images);
      o.Done? && "uri" in o.ctx.props && "digest" in o.ctx.props && "tags" in o.ctx.props &&
      "Image" in o.ctx.links && "image" in o.ctx.artifacts &&
      o.ctx.props["uri"] == b.props["uri"] && o.ctx.props["digest"] == b.props["digest"] &&
      o.ctx.props["tags"] == found &&
      o.ctx.links["Image"] == b.links["Image"] && o.ctx.artifacts["image"] == b.artifacts["image"]
  {
    RestoreRecords(w, uri, d, images, found, link);
    var w1 := w.(trace := w.trace + [PropsFromArtifactOp]);
    RecordedImage(w1, uri, d, found, link);
  }

  /** A registry error on the restore is reported at progress 90. */
  lemma RestoreFails(v: Context, uri: Json, digest: Json, images: string -> ImagesResult, code: string)
    requires PropsFromArtifactOp in v.ops && UriRepo(uri).Ok? && images(UriRepo(uri).value) == ImagesFailed(code)
    ensures var o := PropsFromArtifactStep(v, uri, digest, images);
      o.Done? && o.ctx.ret == Some(CommonError(PropsFromArtifactFailed, code, 90, [])) && o.ctx.props == v.props
  {
  }

  /** An untagged image has no `imageTags`: the `KeyError` is no
      `ClientError`, so it leaves the handler before anything is recorded. */
  lemma RestoreUntagged(v: Context, uri: Json, digest: Json, images: string -> ImagesResult)
    requires PropsFromArtifactOp in v.ops && UriRepo(uri).Ok? && images(UriRepo(uri).value) == ImageFound(None)
    ensures var o := PropsFromArtifactStep(v, uri, digest, images);
      o == Threw(v.(trace := v.trace + [PropsFromArtifactOp]), "'imageTags'")
  {
  }

  // ----- whole invocations -----

  /** The ends of the invocation keep the trace, the ops and the invocations. */
  lemma FinishedKeeps(o: Outcome)
    ensures Finished(o).trace == o.ctx.trace && Finished(o).ops == o.ctx.ops &&
      Finished(o).invocations == o.ctx.invocations
  {
  }

  /** With neither fingerprint check enqueued, only `load_initial_props`
      may run before the CodeBuild handlers, and it enqueues nothing. */
  lemma CheckSkips(v: Context, ev: Event, cloud: Cloud, fingerprint: Dict -> string)
    requires CompareDefsOp !in v.ops && CompareEtagsOp !in v.ops
    ensures var w := Check(v, ev, cloud, fingerprint);
      w.trace == v.trace + (if LoadInitialPropsOp in v.ops then [LoadInitialPropsOp] else []) &&
      w.ops == v.ops && w.invocations == v.invocations
  {
  }

  /** The fingerprint checks keep the invocations and may enqueue only
      `compare_etags` and the setup. */
  lemma CheckKeeps(v: Context, ev: Event, cloud: Cloud, fingerprint: Dict -> string)
    ensures var w := Check(v, ev, cloud, fingerprint);
      w.invocations == v.invocations && v.ops.Keys <= w.ops.Keys &&
      w.ops.Keys <= v.ops.Keys + {CompareEtagsOp, SetupOp}
  {
    if CompareDefsOp in v.ops {
      CompareDefsRecords(v, ev.prev.props, ev.cdef, fingerprint);
    }
  }

  lemma SetupDistinct()
    ensures SetupOp !in {CompareDefsOp, CompareEtagsOp, LoadInitialPropsOp, RunBuildOp, FinalPropsOp, PropsFromArtifactOp}
  {
    assert SetupOp[0] == 's' && PropsFromArtifactOp[0] == 'g';
  }

  /** The restore's part of the invocation: `get_props_from_artifact` runs
      last, and nothing is invoked. */
  lemma RestoreConclusion(w: Context, c: Config, repoName: Json, uri: Json, digest: Json, cloud: Cloud)
    requires PropsFromArtifactOp in w.ops && FinalPropsOp !in w.ops
    ensures var r := AfterBuild(Done(w), c, repoName, uri, digest, cloud);
      r.trace == w.trace + [PropsFromArtifactOp] && r.invocations == w.invocations
  {
    FinishedKeeps(Conclude(w, c, repoName, uri, digest, cloud));
  }

  lemma RestoreRun(v: Context, ev: Event, c: Config, repoName: Json, uri: Json, digest: Json, cloud: Cloud,
                   fingerprint: Dict -> string)
    requires v.trace == [] && v.invocations == []
    requires LoadInitialPropsOp in v.ops && PropsFromArtifactOp in v.ops
    requires CompareDefsOp !in v.ops && CompareEtagsOp !in v.ops && SetupOp !in v.ops
    requires RunBuildOp !in v.ops && FinalPropsOp !in v.ops
    ensures var r := Run(v, ev, c, repoName, uri, digest, cloud, fingerprint);
      r.trace == [LoadInitialPropsOp, PropsFromArtifactOp] && r.invocations == []
  {
    var w := Check(v, ev, cloud, fingerprint);
    CheckSkips(v, ev, cloud, fingerprint);
    assert Build(w, ev, c, repoName, cloud) == Done(w);
    RestoreConclusion(w, c, repoName, uri, digest, cloud);
  }

  /** A rollback whose image the registry still has runs
      `load_initial_props` and then the restore, and builds nothing. */
  lemma RollbackRestores(ev: Event, cloud: Cloud, fingerprint: Dict -> string)
    requires !ev.passBackData && ev.op == "upsert" && RestoreAvailable(ev, cloud)
    requires Select(ev, ParseConfig(ev.cdef, ev.rollback), cloud).Selected?
    ensures var r := Reconcile(ev, cloud, fingerprint);
      r.trace == [LoadInitialPropsOp, PropsFromArtifactOp] && r.invocations == []
  {
    var c := ParseConfig(ev.cdef, ev.rollback);
    UpsertOps(ev, c, cloud);
    SelectShape(ev, c, cloud);
    var s := Select(ev, c, cloud);
    RestoreRun(s.ctx, ev, c, s.repoName, s.uri, s.digest, cloud, fingerprint);
  }

  /** The setup of a delete enqueues nothing. */
  lemma DeleteSetup(w: Context, ev: Event, c: Config, repoName: Json, cloud: Cloud)
    requires ev.op == "delete" && w.ops.Keys == {SetupOp}
    ensures var r := SetupStep(w, ev, c, repoName, cloud);
      r.ops.Keys == {SetupOp} && r.trace == w.trace + [SetupOp] &&
      r.invocations == w.invocations +
        (if SecretsMissing(c, cloud) then [] else [Invocation(ProjectKey, ProjectDef(ev, c, repoName, cloud), 25, 30)])
  {
    SetupDistinct();
    if SecretsMissing(c, cloud) {
      SetupSecretsMissing(w, ev, c, repoName, cloud);
    } else {
      SetupInvokes(w, ev, c, repoName, cloud);
    }
  }

  /** With only the setup enqueued, nothing after the build runs. */
  lemma SetupOnlyConclusion(w: Context, c: Config, repoName: Json, uri: Json, digest: Json, cloud: Cloud)
    requires w.ops.Keys == {SetupOp}
    ensures var r := AfterBuild(Done(w), c, repoName, uri, digest, cloud);
      r.trace == w.trace && r.invocations == w.invocations
  {
    SetupDistinct();
    FinishedKeeps(Conclude(w, c, repoName, uri, digest, cloud));
  }

  /** The delete's part of the invocation after the selection. */
  lemma DeleteRun(v: Context, ev: Event, c: Config, repoName: Json, uri: Json, digest: Json, cloud: Cloud,
                  fingerprint: Dict -> string)
    requires ev.op == "delete" && v.trace == [] && v.invocations == [] && v.ops.Keys == {SetupOp}
    ensures var r := Run(v, ev, c, repoName, uri, digest, cloud, fingerprint);
      r.trace == [SetupOp] &&
      r.invocations == if SecretsMissing(c, cloud) then [] else [Invocation(ProjectKey, ProjectDef(ev, c, repoName, cloud), 25, 30)]
  {
    SetupDistinct();
    var w := Check(v, ev, cloud, fingerprint);
    CheckSkips(v, ev, cloud, fingerprint);
    var w4 := SetupStep(w, ev, c, repoName, cloud);
    DeleteSetup(w, ev, c, repoName, cloud);
    assert Build(w, ev, c, repoName, cloud) == Done(w4);
    SetupOnlyConclusion(w4, c, repoName, uri, digest, cloud);
  }

  /** A delete runs only the setup, which hands the delete to the project
      reconciler unless the Dockerhub secrets are missing. */
  lemma DeleteRunsSetupOnly(ev: Event, cloud: Cloud, fingerprint: Dict -> string)
    requires !ev.passBackData && ev.op == "delete"
    ensures var c := ParseConfig(ev.cdef, ev.rollback);
      var r := Reconcile(ev, cloud, fingerprint);
      r.trace == [SetupOp] &&
      r.invocations == if SecretsMissing(c, cloud) then [] else [Invocation(ProjectKey, ProjectDef(ev, c, c.repoName, cloud), 25, 30)]
  {
    var c := ParseConfig(ev.cdef, ev.rollback);
    DeleteSelectsSetup(ev, c, cloud);
    var s := Select(ev, c, cloud);
    assert s.repoName == c.repoName;
    DeleteRun(s.ctx, ev, c, s.repoName, s.uri, s.digest, cloud, fingerprint);
  }

  lemma NothingRun(v: Context, ev: Event, c: Config, repoName: Json, uri: Json, digest: Json, cloud: Cloud,
                   fingerprint: Dict -> string)
    requires v.ops == map[]
    ensures Run(v, ev, c, repoName, uri, digest, cloud, fingerprint) == v
  {
    CheckSkips(v, ev, cloud, fingerprint);
    var w := Check(v, ev, cloud, fingerprint);
    assert Build(w, ev, c, repoName, cloud) == Done(w);
  }

  /** Passing back data, or an op that is neither upsert nor delete, runs
      no handler: the invocation ends with the repository-name check alone. */
  lemma PassBackNothingRuns(ev: Event, cloud: Cloud, fingerprint: Dict -> string)
    requires ev.passBackData || (ev.op != "upsert" && ev.op != "delete")
    ensures var r := Reconcile(ev, cloud, fingerprint);
      r == NameChecked(ParseConfig(ev.cdef, ev.rollback).repoName) && r.trace == [] && r.invocations == []
  {
    var c := ParseConfig(ev.cdef, ev.rollback);
    OtherSelectsNothing(ev, c, cloud);
    var s := Select(ev, c, cloud);
    NothingRun(s.ctx, ev, c, s.repoName, s.uri, s.digest, cloud, fingerprint);
  }

  lemma LaterOpsNotChecks()
    ensures RunBuildOp !in {CompareEtagsOp, SetupOp} && FinalPropsOp !in {CompareEtagsOp, SetupOp}
    ensures PropsFromArtifactOp !in {CompareEtagsOp, SetupOp} && PropsFromArtifactOp != RunBuildOp
    ensures PropsFromArtifactOp != FinalPropsOp
  {
    SetupDistinct();
  }

  /** The fingerprint checks of a build leave the build to do. */
  lemma UpsertCheck(v: Context, ev: Event, cloud: Cloud, fingerprint: Dict -> string)
    requires SetupOp in v.ops && RunBuildOp !in v.ops && FinalPropsOp !in v.ops && PropsFromArtifactOp !in v.ops
    ensures var w := Check(v, ev, cloud, fingerprint);
      SetupOp in w.ops && RunBuildOp !in w.ops && FinalPropsOp !in w.ops && PropsFromArtifactOp !in w.ops &&
      w.invocations == v.invocations
  {
    CheckKeeps(v, ev, cloud, fingerprint);
    LaterOpsNotChecks();
  }

  /** The two nested reconcilers a build invokes: the project, then the
      build of the project the project reconciler named. */
  function BuildInvocations(ev: Event, c: Config, repoName: Json, cloud: Cloud): seq<Invocation>
    requires "name" in ToMap(cloud.projectProps)
  {
    [Invocation(ProjectKey, ProjectDef(ev, c, repoName, cloud), 25, 30),
     Invocation(BuildKey, Update([("project_name", ToMap(cloud.projectProps)["name"])], c.buildOverrides), 30, 45)]
  }

  lemma EndsWithBuild(t: seq<string>, pre: seq<string>)
    requires t == pre + [SetupOp, RunBuildOp] + [FinalPropsOp]
    ensures |t| >= 3 && t[|t| - 3..] == [SetupOp, RunBuildOp, FinalPropsOp]
  {
  }

  /** After the setup of an upsert, the build runs without raising. */
  lemma UpsertBuild(w: Context, ev: Event, c: Config, repoName: Json, cloud: Cloud)
    requires SetupOp in w.ops && RunBuildOp !in w.ops && PropsFromArtifactOp !in w.ops
    requires ev.op == "upsert" && !SecretsMissing(c, cloud) && "name" in ToMap(cloud.projectProps)
    ensures var o := Build(w, ev, c, repoName, cloud);
      o.Done? && FinalPropsOp in o.ctx.ops && PropsFromArtifactOp !in o.ctx.ops &&
      o.ctx.trace == w.trace + [SetupOp, RunBuildOp] &&
      o.ctx.invocations == w.invocations + BuildInvocations(ev, c, repoName, cloud)
  {
    var w4 := SetupStep(w, ev, c, repoName, cloud);
    SetupInvokes(w, ev, c, repoName, cloud);
    assert ProjectName(w4.props) == Ok(ToMap(cloud.projectProps)["name"]);
    RunBuildInvokes(w4, c.buildOverrides, cloud.buildProps);
    LaterOpsNotChecks();
  }

  /** After the build, `get_final_props` runs last. */
  lemma BuildConclusion(w: Context, c: Config, repoName: Json, uri: Json, digest: Json, cloud: Cloud)
    requires FinalPropsOp in w.ops && PropsFromArtifactOp !in w.ops
    ensures var r := AfterBuild(Done(w), c, repoName, uri, digest, cloud);
      r.trace == w.trace + [FinalPropsOp] && r.invocations == w.invocations &&
      ReportsImage(r, repoName, c.dockerTags, cloud)
  {
    FinishedKeeps(Conclude(w, c, repoName, uri, digest, cloud));
    FinalPropsReports(w, repoName, c.dockerTags, cloud);
  }

  lemma UpsertRun(v: Context, ev: Event, c: Config, repoName: Json, uri: Json, digest: Json, cloud: Cloud,
                  fingerprint: Dict -> string)
    requires SetupOp in v.ops && RunBuildOp !in v.ops && FinalPropsOp !in v.ops && PropsFromArtifactOp !in v.ops
    requires v.invocations == []
    requires ev.op == "upsert" && !SecretsMissing(c, cloud) && "name" in ToMap(cloud.projectProps)
    ensures var r := Run(v, ev, c, repoName, uri, digest, cloud, fingerprint);
      |r.trace| >= 3 && r.trace[|r.trace| - 3..] == [SetupOp, RunBuildOp, FinalPropsOp] &&
      r.invocations == BuildInvocations(ev, c, repoName, cloud) && ReportsImage(r, repoName, c.dockerTags, cloud)
  {
    var w := Check(v, ev, cloud, fingerprint);
    UpsertCheck(v, ev, cloud, fingerprint);
    UpsertBuild(w, ev, c, repoName, cloud);
    var o := Build(w, ev, c, repoName, cloud);
    BuildConclusion(o.ctx, c, repoName, uri, digest, cloud);
    EndsWithBuild(AfterBuild(o, c, repoName, uri, digest, cloud).trace, w.trace);
  }

  /** The selection of an upsert without a rollback leaves a build to do. */
  lemma UpsertSelection(ev: Event, c: Config, cloud: Cloud)
    requires !ev.passBackData && ev.op == "upsert" && !RollbackAsked(ev)
    ensures var s := Select(ev, c, cloud);
      s.Selected? && s.repoName == c.repoName && s.ctx.invocations == [] &&
      SetupOp in s.ctx.ops && RunBuildOp !in s.ctx.ops && FinalPropsOp !in s.ctx.ops && PropsFromArtifactOp !in s.ctx.ops
  {
    var v0 := NameChecked(c.repoName);
    var v1 := v0.(ops := v0.ops[CheckRequiredOp := NoPayload][LoadInitialPropsOp := NoPayload]);
    UpsertSelectsBuild(v1, ev, c, cloud);
    UpsertOps(ev, c, cloud);
    SelectShape(ev, c, cloud);
  }

  /** An upsert without a rollback always sets up and runs the build, and
      reports its image last, whatever the fingerprint checks found: the
      "no change" return of `compare_etags` does not stop the build, and a
      found digest overwrites the outputs `wrap_up_not_deploying` copied. */
  lemma UpsertAlwaysBuilds(ev: Event, cloud: Cloud, fingerprint: Dict -> string)
    requires !ev.passBackData && ev.op == "upsert" && !RollbackAsked(ev)
    requires !SecretsMissing(ParseConfig(ev.cdef, ev.rollback), cloud) && "name" in ToMap(cloud.projectProps)
    ensures var c := ParseConfig(ev.cdef, ev.rollback);
      var r := Reconcile(ev, cloud, fingerprint);
      |r.trace| >= 3 && r.trace[|r.trace| - 3..] == [SetupOp, RunBuildOp, FinalPropsOp] &&
      r.invocations == BuildInvocations(ev, c, c.repoName, cloud) && ReportsImage(r, c.repoName, c.dockerTags, cloud)
  {
    var c := ParseConfig(ev.cdef, ev.rollback);
    UpsertSelection(ev, c, cloud);
    var s := Select(ev, c, cloud);
    UpsertRun(s.ctx, ev, c, s.repoName, s.uri, s.digest, cloud, fingerprint);
  }
}
