/** The `POST /generate` route: validation, then generation, then the archive download. */
module Routes {
  import opened Wrappers
  import opened Model
  import opened Naming
  import opened Validation
  import opened Generator

  /** The group the generator reads from a body group; the lists are arrays once validation has passed. */
  function ToGroup(g: GroupBody): VmGroup
  {
    VmGroup(g.groupNumber, g.region,
            if g.hostnames.Some? then g.hostnames.value else [],
            if g.roles.Some? then g.roles.value else [],
            g.osPlatform)
  }

  /** `req.body` as generateTemplate destructures it. */
  function ToRequest(b: GenerationBody): TemplateRequest
  {
    var gs := if b.vmGroups.Some? then b.vmGroups.value else [];
    TemplateRequest(
      TextOf(b.environment), TextOf(b.osPlatform),
      seq(|gs|, i requires 0 <= i < |gs| => ToGroup(gs[i])),
      Metadata(TextOf(b.mettaApplication), TextOf(b.mettaComponent), TextOf(b.shieldTeam),
               TextOf(b.appContextSubscriptionName), TextOf(b.appContextName), TextOf(b.armSubscriptionId),
               b.sourcePath, b.targetIdentifier, b.assignmentGroup))
  }

  datatype Response =
    | BadRequest(errors: seq<FieldError>)
    | Download(fileName: string, files: Files)
    | ServerError(error: string, failure: Query)

  /**
   * The route: a request with validation errors is answered 400 with them; otherwise the
   * sanitized body is generated, and the tree is offered for download unless a lookup failed.
   */
  function HandleGenerate(b: GenerationBody, store: Store): (r: Response)
    ensures r.BadRequest? <==> !GenerationAcceptable(b)
    ensures r.BadRequest? ==> r.errors == GenerationErrors(b) && |r.errors| > 0
    ensures !r.BadRequest? ==> r == Generate(Sanitize(b), store)
  {
    match ValidateRequest(GenerationErrors(b))
    case Rejected(_, errors) => BadRequest(errors)
    case Next => Generate(Sanitize(b), store)
  }

  /** generateTemplate on the sanitized body, answered with the archive or a server error. */
  function Generate(b: GenerationBody, store: Store): (r: Response)
    ensures !r.BadRequest?
    ensures r.Download? ==> r.fileName == "Ansible-Template.zip" && Template(ToRequest(b), store) == Progress(r.files, None)
    ensures r.ServerError? ==> r.error == "Failed to generate template" && Template(ToRequest(b), store).failure == Some(r.failure)
  {
    var t := Template(ToRequest(b), store);
    if t.failure.Some? then ServerError("Failed to generate template", t.failure.value)
    else Download("Ansible-Template.zip", t.files)
  }

  /** `x` is the non-empty trimmed text of the field `v` sent. */
  predicate TrimmedFrom(x: string, v: Option<string>)
  {
    v.Some? && x == Trim(v.value) && x != ""
  }

  lemma GenerationEnvironmentsPlain(e: string)
    requires e in GenerationEnvironments
    ensures '_' !in e
  {
    assert e == "dev" || e == "it" || e == "uat" || e == "prod";
  }

  /**
   * What the generator may rely on once a request is accepted: a plain environment name, a
   * known platform, at least one group, every group with hosts and roles as sent, and every
   * metadata field trimmed and non-empty.
   */
  lemma AcceptedRequest(b: GenerationBody)
    requires GenerationAcceptable(b)
    ensures var req := ToRequest(Sanitize(b));
      && req.environment in GenerationEnvironments && '_' !in req.environment
      && (req.osPlatform == "Linux" || req.osPlatform == "Windows")
      && |req.vmGroups| == |b.vmGroups.value| >= 1
      && (forall i :: 0 <= i < |req.vmGroups| ==>
            && req.vmGroups[i].hostnames == b.vmGroups.value[i].hostnames.value && |req.vmGroups[i].hostnames| >= 1
            && req.vmGroups[i].roles == b.vmGroups.value[i].roles.value && |req.vmGroups[i].roles| >= 1)
      && TrimmedFrom(req.meta.mettaApplication, b.mettaApplication)
      && TrimmedFrom(req.meta.mettaComponent, b.mettaComponent)
      && TrimmedFrom(req.meta.shieldTeam, b.shieldTeam)
      && TrimmedFrom(req.meta.appContextSubscriptionName, b.appContextSubscriptionName)
      && TrimmedFrom(req.meta.appContextName, b.appContextName)
      && TrimmedFrom(req.meta.armSubscriptionId, b.armSubscriptionId)
  {
    GenerationEnvironmentsPlain(TextOf(b.environment));
    var req := ToRequest(Sanitize(b));
    TrimFilled(b.mettaApplication);
    TrimFilled(b.mettaComponent);
    TrimFilled(b.shieldTeam);
    TrimFilled(b.appContextSubscriptionName);
    TrimFilled(b.appContextName);
    TrimFilled(b.armSubscriptionId);
    assert req.meta.mettaApplication == TextOf(TrimValue(b.mettaApplication));
    AcceptedGroups(b);
  }

  lemma AcceptedGroups(b: GenerationBody)
    requires b.vmGroups.Some?
    requires forall i :: 0 <= i < |b.vmGroups.value| ==>
      NonEmptyArray(b.vmGroups.value[i].hostnames) && NonEmptyArray(b.vmGroups.value[i].roles)
    ensures var req := ToRequest(Sanitize(b));
      && |req.vmGroups| == |b.vmGroups.value|
      && forall i :: 0 <= i < |req.vmGroups| && i < |b.vmGroups.value| ==>
            && NonEmptyArray(b.vmGroups.value[i].hostnames) && NonEmptyArray(b.vmGroups.value[i].roles)
            && req.vmGroups[i].hostnames == b.vmGroups.value[i].hostnames.value && |req.vmGroups[i].hostnames| >= 1
            && req.vmGroups[i].roles == b.vmGroups.value[i].roles.value && |req.vmGroups[i].roles| >= 1
  {
    var req := ToRequest(Sanitize(b));
    var gs := b.vmGroups.value;
    assert Sanitize(b).vmGroups == b.vmGroups;
    forall i | 0 <= i < |req.vmGroups|
      ensures && req.vmGroups[i].hostnames == gs[i].hostnames.value && |req.vmGroups[i].hostnames| >= 1
              && req.vmGroups[i].roles == gs[i].roles.value && |req.vmGroups[i].roles| >= 1
    {
      assert req.vmGroups[i] == ToGroup(gs[i]);
      assert NonEmptyArray(gs[i].hostnames) && NonEmptyArray(gs[i].roles);
    }
  }

  lemma TrimFilled(v: Option<string>)
    requires !AllSpace(TextOf(v))
    ensures TrimmedFrom(TextOf(TrimValue(v)), v)
  {
  }

  /** In an accepted request, SHIELD_ENV of every setup job is the requested environment, whatever the region. */
  lemma AcceptedShieldEnv(b: GenerationBody, region: string)
    requires GenerationAcceptable(b)
    ensures var env := ToRequest(Sanitize(b)).environment; ShieldEnvOf(EnvName(env, region)) == env
  {
    GenerationEnvironmentsPlain(TextOf(b.environment));
    ShieldEnvOfEnvName(TextOf(b.environment), region);
  }

  /** With a store that reports no database error, an accepted request is always answered with the download. */
  lemma AcceptedIsServed(b: GenerationBody, store: Store)
    requires GenerationAcceptable(b) && NeverFails(store)
    ensures HandleGenerate(b, store).Download?
  {
    hide Template, GenerationErrors, ToRequest, Sanitize;
    TemplateNeverFails(ToRequest(Sanitize(b)), store);
  }
}
