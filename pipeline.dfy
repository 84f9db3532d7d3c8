/** The GitLab CI document: the common configuration, then per region its LDAP, setup and aggregate jobs. */
module Pipeline {
  import opened Wrappers
  import opened Model
  import opened Text
  import opened Naming
  import opened Regions
  import opened FileSystem
  import opened Playbooks

  // ------------------------------------------------------------ jobs

  /** The names of the job variables the generator sets. */
  datatype VarName =
    | MettaApplication | MettaComponent | ShieldTeam | ShieldEnv
    | AppContextSubscriptionName | AppContextName | PlaybookName | ArmSubscriptionId
    | SourceMount | RotatePassword | HcvaultPluginEnableCarNamespace | SourcePath | TargetIdentifier
    | AppContextRegion | AssignmentGroup

  function VarNameText(n: VarName): string
  {
    match n
    case MettaApplication => "METTA_APPLICATION"
    case MettaComponent => "METTA_COMPONENT"
    case ShieldTeam => "SHIELD_TEAM"
    case ShieldEnv => "SHIELD_ENV"
    case AppContextSubscriptionName => "APP_CONTEXT_SUBSCRIPTION_NAME"
    case AppContextName => "APP_CONTEXT_NAME"
    case PlaybookName => "PLAYBOOK_NAME"
    case ArmSubscriptionId => "ARM_SUBSCRIPTION_ID"
    case SourceMount => "SOURCE_MOUNT"
    case RotatePassword => "ROTATE_PASSWORD"
    case HcvaultPluginEnableCarNamespace => "HCVAULT_PLUGIN_ENABLE_CAR_NAMESPACE"
    case SourcePath => "SOURCE_PATH"
    case TargetIdentifier => "TARGET_IDENTIFIER"
    case AppContextRegion => "APP_CONTEXT_REGION"
    case AssignmentGroup => "ASSIGNMENT_GROUP"
  }

  /** One entry under `variables:`; a `Bare` entry has an empty value and no space after the colon. */
  datatype Variable = Var(key: VarName, value: string) | Bare(key: VarName)

  function VariableLine(v: Variable): string
  {
    match v
    case Var(k, x) => "    " + VarNameText(k) + ": " + x
    case Bare(k) => "    " + VarNameText(k) + ":"
  }

  function VariableLines(vs: seq<Variable>): seq<string>
  {
    seq(|vs|, k requires 0 <= k < |vs| => VariableLine(vs[k]))
  }

  /** A CI job: its name, its settings lines before `variables:`, and its variables. */
  datatype Job = Job(name: string, settings: seq<string>, variables: seq<Variable>)

  /** The text of a job: `name:`, the settings, `  variables:` and one line per variable. */
  function JobText(j: Job): string
  {
    Lines([j.name + ":"] + j.settings + ["  variables:"] + VariableLines(j.variables))
  }

  /** The value of the first variable named `key`, if any. */
  function VarValue(vs: seq<Variable>, key: VarName): (r: Option<string>)
    ensures r.Some? ==> exists k :: 0 <= k < |vs| && vs[k] == Var(key, r.value)
    ensures r.None? ==> forall k :: 0 <= k < |vs| && vs[k].Var? ==> vs[k].key != key
  {
    if vs == [] then None
    else if vs[0].Var? && vs[0].key == key then Some(vs[0].value)
    else VarValue(vs[1..], key)
  }

  /** The first variable with the key decides its value. */
  lemma {:induction false} VarValueAt(vs: seq<Variable>, key: VarName, k: nat)
    requires k < |vs| && vs[k].Var? && vs[k].key == key
    requires forall i :: 0 <= i < k ==> vs[i].key != key
    ensures VarValue(vs, key) == Some(vs[k].value)
  {
    if k > 0 {
      assert vs[0].key != key;
      VarValueAt(vs[1..], key, k - 1);
    }
  }

  lemma {:induction false} VarValueAbsent(vs: seq<Variable>, key: VarName)
    requires forall i :: 0 <= i < |vs| ==> vs[i].key != key
    ensures VarValue(vs, key) == None
  {
    if vs != [] {
      assert vs[0].key != key;
      VarValueAbsent(vs[1..], key);
    }
  }

  predicate DeployEnv(s: string)
  {
    s == "uat" || s == "prod"
  }

  /** The ASSIGNMENT_GROUP variable, present when an assignment group is given and the environment is uat or prod. */
  function AssignmentVars(assignmentGroup: Option<string>, shieldEnv: string): seq<Variable>
  {
    if Truthy(assignmentGroup) && DeployEnv(shieldEnv) then [Var(AssignmentGroup, assignmentGroup.value)] else []
  }

  const SetupSettings: seq<string> := ["  stage: .pre", "  extends: .run-ansible", "  when: manual"]

  function SetupVariables(shieldEnv: string, playbookName: string, meta: Metadata): seq<Variable>
  {
    [ Var(MettaApplication, meta.mettaApplication),
      Var(MettaComponent, meta.mettaComponent),
      Var(ShieldTeam, meta.shieldTeam),
      Var(ShieldEnv, shieldEnv),
      Var(AppContextSubscriptionName, meta.appContextSubscriptionName),
      Var(AppContextName, meta.appContextName),
      Var(PlaybookName, playbookName),
      Var(ArmSubscriptionId, meta.armSubscriptionId) ]
    + AssignmentVars(meta.assignmentGroup, shieldEnv)
  }

  /** generateSetupJob: the manual job that runs one group's playbook. */
  function SetupJob(envName: string, osPlatform: string, groupNumber: string, meta: Metadata): Job
  {
    var shieldEnv := ShieldEnvOf(envName);
    Job(SetupJobName(envName, groupNumber, osPlatform), SetupSettings,
        SetupVariables(shieldEnv, GroupName(envName, groupNumber) + "_ansible_playbook", meta))
  }

  /** generateAllSetupJob: the manual job that runs a region's aggregate playbook. */
  function AllSetupJob(envName: string, osPlatform: string, meta: Metadata): Job
  {
    var shieldEnv := ShieldEnvOf(envName);
    Job(AllSetupJobName(envName, osPlatform), SetupSettings,
        SetupVariables(shieldEnv, envName + "_all_ansible_playbook", meta))
  }

  const LdapSettings: seq<string> :=
    ["  stage: .pre", "  extends: .secret-replicate-ad-template", "  when: manual", "  image:"]

  /** The variables every LDAP replication job carries, in order: the application's, then the replication's. */
  function LdapBaseVariables(environment: string, meta: Metadata): seq<Variable>
  {
    [ Var(MettaApplication, meta.mettaApplication),
      Var(MettaComponent, meta.mettaComponent),
      Var(ShieldTeam, meta.shieldTeam),
      Var(ShieldEnv, environment),
      Var(AppContextSubscriptionName, meta.appContextSubscriptionName),
      Var(AppContextName, meta.appContextName) ]
    + ReplicationVariables(environment, meta)
  }

  function ReplicationVariables(environment: string, meta: Metadata): seq<Variable>
  {
    [ Var(SourceMount, "ldap/" + environment + "/us"),
      Var(RotatePassword, "true"),
      Bare(HcvaultPluginEnableCarNamespace),
      Var(SourcePath, Interpolate(meta.sourcePath)),
      Var(TargetIdentifier, Interpolate(meta.targetIdentifier)) ]
  }

  /** The APP_CONTEXT_REGION variable, present when the region code names an Azure region. */
  function RegionVars(region: string): seq<Variable>
  {
    var appContextRegion := AzureRegion(region);
    if appContextRegion != "" then [Var(AppContextRegion, appContextRegion)] else []
  }

  /**
   * generateLdapReplicationJob. SHIELD_ENV and the ASSIGNMENT_GROUP test use the raw environment,
   * not the first segment of the composite name as the setup jobs do.
   */
  function LdapJob(environment: string, region: string, meta: Metadata): Job
  {
    Job(LdapJobName(EnvName(environment, region)), LdapSettings,
        LdapBaseVariables(environment, meta) + RegionVars(region) + AssignmentVars(meta.assignmentGroup, environment))
  }

  // ------------------------------------------------------------ building a job line by line

  /** `job += "    KEY: value\n"`: one more variable on a job under construction. */
  method AppendVariable(job: string, v: Variable, ghost top: seq<string>, ghost vs: seq<Variable>) returns (out: string)
    requires job == Lines(top + VariableLines(vs))
    ensures out == Lines(top + VariableLines(vs + [v]))
  {
    LinesSnoc(top + VariableLines(vs), VariableLine(v));
    assert VariableLines(vs + [v]) == VariableLines(vs) + [VariableLine(v)];
    assert top + VariableLines(vs + [v]) == top + VariableLines(vs) + [VariableLine(v)];
    out := job + VariableLine(v) + "\n";
  }

  /** The lines generateSetupJob and generateAllSetupJob share after the job name. */
  method AppendSetupLines(job: string, ghost head: seq<string>, shieldEnv: string, playbookName: string, meta: Metadata)
    returns (out: string)
    requires job == Lines(head)
    ensures out == Lines(head + SetupSettings + ["  variables:"] + VariableLines(SetupVariables(shieldEnv, playbookName, meta)))
  {
    ghost var ls := head;
    out := AppendLine(job, "  stage: .pre", ls);
    ls := ls + ["  stage: .pre"];
    out := AppendLine(out, "  extends: .run-ansible", ls);
    ls := ls + ["  extends: .run-ansible"];
    out := AppendLine(out, "  when: manual", ls);
    ls := ls + ["  when: manual"];
    out := AppendLine(out, "  variables:", ls);
    ls := ls + ["  variables:"];
    assert ls == head + SetupSettings + ["  variables:"];
    assert ls + VariableLines([]) == ls;
    ghost var vs: seq<Variable> := [];
    out := AppendVariable(out, Var(MettaApplication, meta.mettaApplication), ls, vs);
    vs := vs + [Var(MettaApplication, meta.mettaApplication)];
    out := AppendVariable(out, Var(MettaComponent, meta.mettaComponent), ls, vs);
    vs := vs + [Var(MettaComponent, meta.mettaComponent)];
    out := AppendVariable(out, Var(ShieldTeam, meta.shieldTeam), ls, vs);
    vs := vs + [Var(ShieldTeam, meta.shieldTeam)];
    out := AppendVariable(out, Var(ShieldEnv, shieldEnv), ls, vs);
    vs := vs + [Var(ShieldEnv, shieldEnv)];
    out := AppendVariable(out, Var(AppContextSubscriptionName, meta.appContextSubscriptionName), ls, vs);
    vs := vs + [Var(AppContextSubscriptionName, meta.appContextSubscriptionName)];
    out := AppendVariable(out, Var(AppContextName, meta.appContextName), ls, vs);
    vs := vs + [Var(AppContextName, meta.appContextName)];
    out := AppendVariable(out, Var(PlaybookName, playbookName), ls, vs);
    vs := vs + [Var(PlaybookName, playbookName)];
    out := AppendVariable(out, Var(ArmSubscriptionId, meta.armSubscriptionId), ls, vs);
    vs := vs + [Var(ArmSubscriptionId, meta.armSubscriptionId)];
    if Truthy(meta.assignmentGroup) && DeployEnv(shieldEnv) {
      out := AppendVariable(out, Var(AssignmentGroup, meta.assignmentGroup.value), ls, vs);
      vs := vs + [Var(AssignmentGroup, meta.assignmentGroup.value)];
    }
    assert vs == SetupVariables(shieldEnv, playbookName, meta);
  }

  /** generateSetupJob, appending line by line as the source does. */
  method GenerateSetupJob(envName: string, osPlatform: string, groupNumber: string, meta: Metadata) returns (job: string)
    ensures job == JobText(SetupJob(envName, osPlatform, groupNumber, meta))
  {
    var jobName := SetupJobName(envName, groupNumber, osPlatform);
    var playbookName := GroupName(envName, groupNumber) + "_ansible_playbook";
    var shieldEnv := ShieldEnvOf(envName);
    job := AppendLine("", jobName + ":", []);
    job := AppendSetupLines(job, [jobName + ":"], shieldEnv, playbookName, meta);
  }

  /** generateAllSetupJob, appending line by line as the source does. */
  method GenerateAllSetupJob(envName: string, osPlatform: string, meta: Metadata) returns (job: string)
    ensures job == JobText(AllSetupJob(envName, osPlatform, meta))
  {
    var jobName := AllSetupJobName(envName, osPlatform);
    var playbookName := envName + "_all_ansible_playbook";
    var shieldEnv := ShieldEnvOf(envName);
    job := AppendLine("", jobName + ":", []);
    job := AppendSetupLines(job, [jobName + ":"], shieldEnv, playbookName, meta);
  }

  /** The variables of generateLdapReplicationJob every job carries, up to TARGET_IDENTIFIER. */
  method AppendLdapBaseVariables(job: string, ghost top: seq<string>, environment: string, meta: Metadata)
    returns (out: string)
    requires job == Lines(top)
    ensures out == Lines(top + VariableLines(LdapBaseVariables(environment, meta)))
  {
    hide Lines;
    assert top + VariableLines([]) == top;
    ghost var vs: seq<Variable> := [];
    out := AppendVariable(job, Var(MettaApplication, meta.mettaApplication), top, vs);
    vs := vs + [Var(MettaApplication, meta.mettaApplication)];
    out := AppendVariable(out, Var(MettaComponent, meta.mettaComponent), top, vs);
    vs := vs + [Var(MettaComponent, meta.mettaComponent)];
    out := AppendVariable(out, Var(ShieldTeam, meta.shieldTeam), top, vs);
    vs := vs + [Var(ShieldTeam, meta.shieldTeam)];
    out := AppendVariable(out, Var(ShieldEnv, environment), top, vs);
    vs := vs + [Var(ShieldEnv, environment)];
    out := AppendVariable(out, Var(AppContextSubscriptionName, meta.appContextSubscriptionName), top, vs);
    vs := vs + [Var(AppContextSubscriptionName, meta.appContextSubscriptionName)];
    out := AppendVariable(out, Var(AppContextName, meta.appContextName), top, vs);
    vs := vs + [Var(AppContextName, meta.appContextName)];
    ghost var application := vs;
    out := AppendReplicationVariables(out, top, application, environment, meta);
    vs := vs + ReplicationVariables(environment, meta);
    assert vs == LdapBaseVariables(environment, meta);
  }

  /** The replication variables of generateLdapReplicationJob, from SOURCE_MOUNT to TARGET_IDENTIFIER. */
  method AppendReplicationVariables(job: string, ghost top: seq<string>, ghost before: seq<Variable>,
                                    environment: string, meta: Metadata)
    returns (out: string)
    requires job == Lines(top + VariableLines(before))
    ensures out == Lines(top + VariableLines(before + ReplicationVariables(environment, meta)))
  {
    var sourceMount := "ldap/" + environment + "/us";
    ghost var vs := before;
    out := AppendVariable(job, Var(SourceMount, sourceMount), top, vs);
    vs := vs + [Var(SourceMount, sourceMount)];
    out := AppendVariable(out, Var(RotatePassword, "true"), top, vs);
    vs := vs + [Var(RotatePassword, "true")];
    out := AppendVariable(out, Bare(HcvaultPluginEnableCarNamespace), top, vs);
    vs := vs + [Bare(HcvaultPluginEnableCarNamespace)];
    out := AppendVariable(out, Var(SourcePath, Interpolate(meta.sourcePath)), top, vs);
    vs := vs + [Var(SourcePath, Interpolate(meta.sourcePath))];
    out := AppendVariable(out, Var(TargetIdentifier, Interpolate(meta.targetIdentifier)), top, vs);
    vs := vs + [Var(TargetIdentifier, Interpolate(meta.targetIdentifier))];
    assert vs == before + ReplicationVariables(environment, meta);
  }

  /** generateLdapReplicationJob, appending line by line as the source does. */
  method GenerateLdapReplicationJob(environment: string, region: string, meta: Metadata) returns (job: string)
    ensures job == JobText(LdapJob(environment, region, meta))
  {
    var envName := EnvName(environment, region);
    var appContextRegion := AzureRegion(region);
    ghost var ls: seq<string> := [];
    job := AppendLine("", LdapJobName(envName) + ":", ls);
    ls := ls + [LdapJobName(envName) + ":"];
    job := AppendLine(job, "  stage: .pre", ls);
    ls := ls + ["  stage: .pre"];
    job := AppendLine(job, "  extends: .secret-replicate-ad-template", ls);
    ls := ls + ["  extends: .secret-replicate-ad-template"];
    job := AppendLine(job, "  when: manual", ls);
    ls := ls + ["  when: manual"];
    job := AppendLine(job, "  image:", ls);
    ls := ls + ["  image:"];
    job := AppendLine(job, "  variables:", ls);
    ls := ls + ["  variables:"];
    assert ls == [LdapJobName(envName) + ":"] + LdapSettings + ["  variables:"];
    job := AppendLdapBaseVariables(job, ls, environment, meta);
    ghost var vs := LdapBaseVariables(environment, meta);
    if appContextRegion != "" {
      job := AppendVariable(job, Var(AppContextRegion, appContextRegion), ls, vs);
      vs := vs + [Var(AppContextRegion, appContextRegion)];
    }
    assert vs == LdapBaseVariables(environment, meta) + RegionVars(region);
    if Truthy(meta.assignmentGroup) && DeployEnv(environment) {
      job := AppendVariable(job, Var(AssignmentGroup, meta.assignmentGroup.value), ls, vs);
      vs := vs + [Var(AssignmentGroup, meta.assignmentGroup.value)];
    }
    assert vs == LdapBaseVariables(environment, meta) + RegionVars(region) + AssignmentVars(meta.assignmentGroup, environment);
  }

  // ------------------------------------------------------------ the LDAP check

  /** The roles of the groups, in visiting order. */
  function AllRoles(gs: seq<VmGroup>): seq<RoleId>
  {
    if gs == [] then [] else gs[0].roles + AllRoles(gs[1..])
  }

  /** A role lookup that ends the scan: a database error, or a role that requires LDAP. */
  predicate Decisive(store: Store, role: RoleId)
  {
    store.requiresLdap(role) == Failed || store.requiresLdap(role) == Found(true)
  }

  /** The scan of checkLdapRequirement over `roles`: the first decisive lookup decides, otherwise false. */
  function LdapScanRoles(roles: seq<RoleId>, store: Store): Result<bool, Query>
  {
    if roles == [] then Ok(false)
    else if store.requiresLdap(roles[0]) == Failed then Err(RequiresLdapQuery(roles[0]))
    else if store.requiresLdap(roles[0]) == Found(true) then Ok(true)
    else LdapScanRoles(roles[1..], store)
  }

  function LdapScan(vmGroups: seq<VmGroup>, store: Store): Result<bool, Query>
  {
    LdapScanRoles(AllRoles(vmGroups), store)
  }

  /** checkLdapRequirement: true as soon as one role requires LDAP; a database error aborts. */
  method CheckLdapRequirement(vmGroups: seq<VmGroup>, store: Store) returns (r: Result<bool, Query>)
    ensures r == LdapScan(vmGroups, store)
  {
    for i := 0 to |vmGroups|
      invariant LdapScan(vmGroups, store) == LdapScanRoles(AllRoles(vmGroups[i..]), store)
    {
      var group := vmGroups[i];
      assert vmGroups[i..][1..] == vmGroups[i + 1..];
      ghost var rest := AllRoles(vmGroups[i + 1..]);
      for j := 0 to |group.roles|
        invariant LdapScan(vmGroups, store) == LdapScanRoles(group.roles[j..] + rest, store)
      {
        var roleId := group.roles[j];
        assert (group.roles[j..] + rest)[1..] == group.roles[j + 1..] + rest;
        var row := store.requiresLdap(roleId);
        if row.Failed? {
          return Err(RequiresLdapQuery(roleId));
        }
        var requiresLdap := row.Found? && row.row;
        if requiresLdap {
          return Ok(true);
        }
      }
      assert group.roles[|group.roles|..] + rest == rest;
    }
    assert vmGroups[|vmGroups|..] == [];
    return Ok(false);
  }

  /** The first decisive role decides the scan: an error names it, otherwise the answer is true. */
  lemma {:induction false} LdapScanAt(roles: seq<RoleId>, store: Store, i: nat)
    requires i < |roles| && Decisive(store, roles[i])
    requires forall k :: 0 <= k < i ==> !Decisive(store, roles[k])
    ensures LdapScanRoles(roles, store)
         == if store.requiresLdap(roles[i]) == Failed then Err(RequiresLdapQuery(roles[i])) else Ok(true)
  {
    if i > 0 {
      assert !Decisive(store, roles[0]);
      LdapScanAt(roles[1..], store, i - 1);
    }
  }

  /** Without a decisive role, no role requires LDAP. */
  lemma {:induction false} LdapScanNone(roles: seq<RoleId>, store: Store)
    requires forall k :: 0 <= k < |roles| ==> !Decisive(store, roles[k])
    ensures LdapScanRoles(roles, store) == Ok(false)
  {
    if roles != [] {
      assert !Decisive(store, roles[0]);
      LdapScanNone(roles[1..], store);
    }
  }

  lemma {:induction false} AllRolesMembers(gs: seq<VmGroup>, role: RoleId)
    ensures role in AllRoles(gs) <==> exists g :: g in gs && role in g.roles
  {
    if gs != [] {
      AllRolesMembers(gs[1..], role);
      assert forall g :: g in gs <==> g == gs[0] || g in gs[1..];
    }
  }

  /** Against a store that never fails, the check answers whether some role of some group requires LDAP. */
  lemma LdapScanNeverFails(vmGroups: seq<VmGroup>, store: Store)
    requires NeverFails(store)
    ensures LdapScan(vmGroups, store).Ok?
    ensures LdapScan(vmGroups, store).value
        <==> exists g, role :: g in vmGroups && role in g.roles && store.requiresLdap(role) == Found(true)
  {
    var roles := AllRoles(vmGroups);
    if i :| 0 <= i < |roles| && Decisive(store, roles[i]) {
      var first := FirstDecisive(roles, store, i);
      LdapScanAt(roles, store, first);
      AllRolesMembers(vmGroups, roles[first]);
    } else {
      LdapScanNone(roles, store);
      forall g, role | g in vmGroups && role in g.roles ensures store.requiresLdap(role) != Found(true) {
        AllRolesMembers(vmGroups, role);
      }
    }
  }

  /** The least index of a decisive role, given one. */
  lemma FirstDecisive(roles: seq<RoleId>, store: Store, i: nat) returns (first: nat)
    requires i < |roles| && Decisive(store, roles[i])
    ensures first <= i && Decisive(store, roles[first])
    ensures forall k :: 0 <= k < first ==> !Decisive(store, roles[k])
  {
    first := i;
    while first > 0 && exists k :: 0 <= k < first && Decisive(store, roles[k])
      invariant first <= i && Decisive(store, roles[first])
      decreases first
    {
      var k :| 0 <= k < first && Decisive(store, roles[k]);
      first := k;
    }
  }

  // ------------------------------------------------------------ the plan of the document

  /** A job of the CI document, before rendering. */
  datatype CiEntry =
    | LdapEntry(region: string)
    | SetupEntry(envName: string, group: VmGroup)
    | AllEntry(envName: string)

  function SetupEntries(envName: string, groups: seq<VmGroup>): seq<CiEntry>
  {
    seq(|groups|, k requires 0 <= k < |groups| => SetupEntry(envName, groups[k]))
  }

  /** The jobs of one region: the LDAP job when replication is on, each group's setup job, and the aggregate job when there are several groups. */
  function RegionPlan(environment: string, ldapOn: bool, b: RegionBucket): seq<CiEntry>
  {
    var envName := EnvName(environment, b.region);
    (if ldapOn then [LdapEntry(b.region)] else [])
    + SetupEntries(envName, b.groups)
    + (if |b.groups| > 1 then [AllEntry(envName)] else [])
  }

  /** The jobs of the buckets, region after region. */
  function CiPlan(environment: string, ldapOn: bool, bs: seq<RegionBucket>): seq<CiEntry>
  {
    if bs == [] then [] else CiPlan(environment, ldapOn, bs[..|bs| - 1]) + RegionPlan(environment, ldapOn, bs[|bs| - 1])
  }

  function Render(environment: string, osPlatform: string, meta: Metadata, e: CiEntry): Job
  {
    match e
    case LdapEntry(region) => LdapJob(environment, region, meta)
    case SetupEntry(envName, g) => SetupJob(envName, osPlatform, g.groupNumber, meta)
    case AllEntry(envName) => AllSetupJob(envName, osPlatform, meta)
  }

  /** Each job followed by an empty line. */
  function PlanText(environment: string, osPlatform: string, meta: Metadata, es: seq<CiEntry>): string
  {
    if es == [] then ""
    else PlanText(environment, osPlatform, meta, es[..|es| - 1]) + JobText(Render(environment, osPlatform, meta, es[|es| - 1])) + "\n"
  }

  lemma PlanTextSnoc(environment: string, osPlatform: string, meta: Metadata, es: seq<CiEntry>, e: CiEntry)
    ensures PlanText(environment, osPlatform, meta, es + [e])
         == PlanText(environment, osPlatform, meta, es) + JobText(Render(environment, osPlatform, meta, e)) + "\n"
  {
    assert (es + [e])[..|es|] == es;
  }

  /** LDAP replication is planned when some role requires it and both a source path and a target identifier are given. */
  function LdapOn(requiresLdap: bool, meta: Metadata): bool
  {
    requiresLdap && Truthy(meta.sourcePath) && Truthy(meta.targetIdentifier)
  }

  /** The document generateGitlabCIYml writes, given the common configuration and the LDAP answer. */
  function CiDocument(common: string, req: TemplateRequest, requiresLdap: bool): string
  {
    common + "\n\n"
    + PlanText(req.environment, req.osPlatform, req.meta,
               CiPlan(req.environment, LdapOn(requiresLdap, req.meta), Grouped(req.vmGroups)))
  }

  /** generateGitlabCIYml as a step of the generation: a failed lookup aborts before the file is written. */
  function CiStep(files: Files, req: TemplateRequest, store: Store): Progress
  {
    if store.ciCommon == Failed then Progress(files, Some(CiConfigQuery("common")))
    else
      var common := if store.ciCommon.Found? then store.ciCommon.row else "";
      var ldap := LdapScan(req.vmGroups, store);
      if ldap.Err? then Progress(files, Some(ldap.error))
      else Progress(files[CiPath := CiDocument(common, req, ldap.value)], None)
  }

  lemma SetupEntriesSnoc(envName: string, groups: seq<VmGroup>, j: nat)
    requires j < |groups|
    ensures SetupEntries(envName, groups[..j + 1]) == SetupEntries(envName, groups[..j]) + [SetupEntry(envName, groups[j])]
  {
  }

  /** The entries one pass of the region loop appends are that region's plan. */
  lemma RegionPlanParts(environment: string, ldapOn: bool, b: RegionBucket,
                        done: seq<CiEntry>, withLdap: seq<CiEntry>, withSetup: seq<CiEntry>, es: seq<CiEntry>)
    requires withLdap == done + (if ldapOn then [LdapEntry(b.region)] else [])
    requires withSetup == withLdap + SetupEntries(EnvName(environment, b.region), b.groups)
    requires es == withSetup + (if |b.groups| > 1 then [AllEntry(EnvName(environment, b.region))] else [])
    ensures es == done + RegionPlan(environment, ldapOn, b)
  {
    var envName := EnvName(environment, b.region);
    var l := if ldapOn then [LdapEntry(b.region)] else [];
    var a := if |b.groups| > 1 then [AllEntry(envName)] else [];
    SeqAssoc(done, l, SetupEntries(envName, b.groups));
    SeqAssoc(done, l + SetupEntries(envName, b.groups), a);
  }

  lemma CiPlanSnoc(environment: string, ldapOn: bool, bs: seq<RegionBucket>, e: nat)
    requires e < |bs|
    ensures CiPlan(environment, ldapOn, bs[..e + 1]) == CiPlan(environment, ldapOn, bs[..e]) + RegionPlan(environment, ldapOn, bs[e])
  {
    assert bs[..e + 1][..e] == bs[..e];
  }

  /** `content += job; content += '\n'`: the next planned job and its separating newline. */
  method AppendJob(content: string, job: string, environment: string, osPlatform: string, meta: Metadata,
                   ghost prefix: string, ghost es: seq<CiEntry>, ghost e: CiEntry)
    returns (out: string)
    requires content == prefix + PlanText(environment, osPlatform, meta, es)
    requires job == JobText(Render(environment, osPlatform, meta, e))
    ensures out == prefix + PlanText(environment, osPlatform, meta, es + [e])
  {
    PlanTextSnoc(environment, osPlatform, meta, es, e);
    AppendAssoc3(prefix, PlanText(environment, osPlatform, meta, es), job, "\n");
    out := content + job;
    out := out + "\n";
  }

  /** The inner loop of one region pass: each group's setup job, followed by a newline. */
  method AppendSetupJobs(content: string, environment: string, osPlatform: string, meta: Metadata, envName: string,
                         groups: seq<VmGroup>, ghost prefix: string, ghost done: seq<CiEntry>)
    returns (out: string)
    requires content == prefix + PlanText(environment, osPlatform, meta, done)
    ensures out == prefix + PlanText(environment, osPlatform, meta, done + SetupEntries(envName, groups))
  {
    out := content;
    ghost var es := done;
    assert groups[..0] == [];
    for j := 0 to |groups|
      invariant es == done + SetupEntries(envName, groups[..j])
      invariant out == prefix + PlanText(environment, osPlatform, meta, es)
    {
      var group := groups[j];
      var job := GenerateSetupJob(envName, osPlatform, group.groupNumber, meta);
      out := AppendJob(out, job, environment, osPlatform, meta, prefix, es, SetupEntry(envName, group));
      SetupEntriesSnoc(envName, groups, j);
      SeqAssoc(done, SetupEntries(envName, groups[..j]), [SetupEntry(envName, group)]);
      es := es + [SetupEntry(envName, group)];
    }
    assert groups[..|groups|] == groups;
  }

  /** One pass of the region loop of generateGitlabCIYml: the region's LDAP, setup and aggregate jobs appended to `content`. */
  method AppendRegionJobs(content: string, environment: string, osPlatform: string, meta: Metadata, ldapOn: bool,
                          b: RegionBucket, ghost prefix: string, ghost done: seq<CiEntry>)
    returns (out: string)
    requires content == prefix + PlanText(environment, osPlatform, meta, done)
    ensures out == prefix + PlanText(environment, osPlatform, meta, done + RegionPlan(environment, ldapOn, b))
  {
    hide PlanText, RegionPlan, SetupEntries;
    out := content;
    var region := b.region;
    var groups := b.groups;
    var envName := EnvName(environment, region);
    ghost var es := done;
    if ldapOn {
      var job := GenerateLdapReplicationJob(environment, region, meta);
      out := AppendJob(out, job, environment, osPlatform, meta, prefix, es, LdapEntry(region));
      es := es + [LdapEntry(region)];
    }
    ghost var withLdap := es;
    out := AppendSetupJobs(out, environment, osPlatform, meta, envName, groups, prefix, es);
    es := es + SetupEntries(envName, groups);
    ghost var withSetup := es;
    if |groups| > 1 {
      var job := GenerateAllSetupJob(envName, osPlatform, meta);
      out := AppendJob(out, job, environment, osPlatform, meta, prefix, es, AllEntry(envName));
      es := es + [AllEntry(envName)];
      assert out == prefix + PlanText(environment, osPlatform, meta, es);
    }
    assert out == prefix + PlanText(environment, osPlatform, meta, es);
    RegionPlanParts(environment, ldapOn, b, done, withLdap, withSetup, es);
  }

  /** generateGitlabCIYml. */
  method GenerateGitlabCiYml(tree: FileTree, req: TemplateRequest, store: Store) returns (failure: Option<Query>)
    modifies tree
    ensures Progress(tree.files, failure) == CiStep(old(tree.files), req, store)
  {
    var environment := req.environment;
    var osPlatform := req.osPlatform;
    var meta := req.meta;
    var content := "";
    // getGitLabConfig('common')
    var commonConfig := "";
    var row := store.ciCommon;
    if row.Failed? {
      return Some(CiConfigQuery("common"));
    } else if row.Found? {
      commonConfig := row.row;
    }
    content := content + commonConfig + "\n\n";
    ghost var prefix := content;
    var ldap := CheckLdapRequirement(req.vmGroups, store);
    if ldap.Err? {
      return Some(ldap.error);
    }
    var requiresLdap := ldap.value;
    // requiresLdap && sourcePath && targetIdentifier, checked once per region in the source
    var ldapOn := requiresLdap && Truthy(meta.sourcePath) && Truthy(meta.targetIdentifier);
    var groupedByRegion := GroupVmsByRegion(req.vmGroups);
    assert content == prefix + PlanText(environment, osPlatform, meta, CiPlan(environment, ldapOn, groupedByRegion[..0]));
    for e := 0 to |groupedByRegion|
      invariant content == prefix + PlanText(environment, osPlatform, meta, CiPlan(environment, ldapOn, groupedByRegion[..e]))
      invariant tree.files == old(tree.files)
    {
      ghost var es := CiPlan(environment, ldapOn, groupedByRegion[..e]);
      content := AppendRegionJobs(content, environment, osPlatform, meta, ldapOn, groupedByRegion[e], prefix, es);
      CiPlanSnoc(environment, ldapOn, groupedByRegion, e);
    }
    assert groupedByRegion[..|groupedByRegion|] == groupedByRegion;
    assert prefix == commonConfig + "\n\n";
    assert content == CiDocument(commonConfig, req, requiresLdap);
    assert CiStep(tree.files, req, store) == Progress(tree.files[CiPath := content], None);
    tree.WriteFile(CiPath, content);
    return None;
  }

  // ------------------------------------------------------------ properties of the jobs

  /** The setup variables carry the environment and the playbook they were built with. */
  lemma SetupVariablesValues(shieldEnv: string, playbookName: string, meta: Metadata)
    ensures var vs := SetupVariables(shieldEnv, playbookName, meta);
      VarValue(vs, ShieldEnv) == Some(shieldEnv) && VarValue(vs, PlaybookName) == Some(playbookName)
  {
    hide VarValue;
    var vs := SetupVariables(shieldEnv, playbookName, meta);
    VarValueAt(vs, ShieldEnv, 3);
    VarValueAt(vs, PlaybookName, 6);
  }

  lemma GroupPlaybookNamePath(envName: string, g: VmGroup)
    ensures PlaybookPath(GroupName(envName, g.groupNumber) + "_ansible_playbook" + ".yml") == GroupPlaybookPath(envName, g)
  {
    assert "_ansible_playbook" + ".yml" == "_ansible_playbook.yml";
    AppendAssoc(GroupName(envName, g.groupNumber), "_ansible_playbook", ".yml");
  }

  /** A setup job runs the playbook generatePlaybooks writes for its group, under the first segment of the composite name. */
  lemma SetupJobRunsGroupPlaybook(envName: string, osPlatform: string, g: VmGroup, meta: Metadata)
    ensures var j := SetupJob(envName, osPlatform, g.groupNumber, meta);
      && j.name == SetupJobName(envName, g.groupNumber, osPlatform)
      && VarValue(j.variables, ShieldEnv) == Some(ShieldEnvOf(envName))
      && VarValue(j.variables, PlaybookName).Some?
      && PlaybookPath(VarValue(j.variables, PlaybookName).value + ".yml") == GroupPlaybookPath(envName, g)
  {
    SetupVariablesValues(ShieldEnvOf(envName), GroupName(envName, g.groupNumber) + "_ansible_playbook", meta);
    GroupPlaybookNamePath(envName, g);
  }

  /** The aggregate setup job runs the region's aggregate playbook. */
  lemma AllSetupJobRunsAllPlaybook(envName: string, osPlatform: string, meta: Metadata)
    ensures var j := AllSetupJob(envName, osPlatform, meta);
      && j.name == AllSetupJobName(envName, osPlatform)
      && VarValue(j.variables, ShieldEnv) == Some(ShieldEnvOf(envName))
      && VarValue(j.variables, PlaybookName) == Some(envName + "_all_ansible_playbook")
  {
    SetupVariablesValues(ShieldEnvOf(envName), envName + "_all_ansible_playbook", meta);
  }

  lemma AllPlaybookNamePath(envName: string)
    ensures PlaybookPath(envName + "_all_ansible_playbook" + ".yml") == PlaybookPath(AllPlaybookFile(envName))
  {
    assert "_all_ansible_playbook" + ".yml" == "_all_ansible_playbook.yml";
    AppendAssoc(envName, "_all_ansible_playbook", ".yml");
  }

  lemma AssignmentVarValue(vs: seq<Variable>, assignmentGroup: Option<string>, env: string)
    requires |vs| >= 8 && forall i :: 0 <= i < |vs| ==> vs[i].key != AssignmentGroup
    ensures var all := vs + AssignmentVars(assignmentGroup, env);
      VarValue(all, AssignmentGroup)
      == if Truthy(assignmentGroup) && DeployEnv(env) then Some(assignmentGroup.value) else None
  {
    var all := vs + AssignmentVars(assignmentGroup, env);
    if Truthy(assignmentGroup) && DeployEnv(env) {
      VarValueAt(all, AssignmentGroup, |vs|);
    } else {
      assert all == vs;
      VarValueAbsent(all, AssignmentGroup);
    }
  }

  /**
   * Setup and aggregate jobs carry ASSIGNMENT_GROUP exactly when an assignment group is given and
   * the first segment of the composite name is uat or prod.
   */
  lemma SetupAssignmentGroup(envName: string, osPlatform: string, groupNumber: string, meta: Metadata)
    ensures var rule := Truthy(meta.assignmentGroup) && DeployEnv(ShieldEnvOf(envName));
      && (VarValue(SetupJob(envName, osPlatform, groupNumber, meta).variables, AssignmentGroup)
          == if rule then Some(meta.assignmentGroup.value) else None)
      && (VarValue(AllSetupJob(envName, osPlatform, meta).variables, AssignmentGroup)
          == if rule then Some(meta.assignmentGroup.value) else None)
  {
    SetupVariablesAssignment(ShieldEnvOf(envName), GroupName(envName, groupNumber) + "_ansible_playbook", meta);
    SetupVariablesAssignment(ShieldEnvOf(envName), envName + "_all_ansible_playbook", meta);
  }

  lemma SetupVariablesAssignment(shieldEnv: string, playbookName: string, meta: Metadata)
    ensures VarValue(SetupVariables(shieldEnv, playbookName, meta), AssignmentGroup)
            == if Truthy(meta.assignmentGroup) && DeployEnv(shieldEnv) then Some(meta.assignmentGroup.value) else None
  {
    var vs := SetupVariables(shieldEnv, playbookName, meta);
    assert vs == vs[..8] + AssignmentVars(meta.assignmentGroup, shieldEnv);
    AssignmentVarValue(vs[..8], meta.assignmentGroup, shieldEnv);
  }

  lemma {:induction false} VarValueAppend(a: seq<Variable>, b: seq<Variable>, key: VarName)
    ensures VarValue(a + b, key) == if VarValue(a, key).Some? then VarValue(a, key) else VarValue(b, key)
  {
    if a == [] {
      assert a + b == b;
    } else {
      assert (a + b)[1..] == a[1..] + b;
      VarValueAppend(a[1..], b, key);
    }
  }

  /** An LDAP job is named after the composite environment and carries the raw environment as SHIELD_ENV. */
  lemma LdapJobIdentity(environment: string, region: string, meta: Metadata)
    ensures var vs := LdapJob(environment, region, meta).variables;
      && LdapJob(environment, region, meta).name == LdapJobName(EnvName(environment, region))
      && VarValue(vs, ShieldEnv) == Some(environment)
  {
    var base := LdapBaseVariables(environment, meta);
    var rest := RegionVars(region) + AssignmentVars(meta.assignmentGroup, environment);
    assert LdapJob(environment, region, meta).variables == base + rest;
    VarValueAt(base, ShieldEnv, 3);
    VarValueAppend(base, rest, ShieldEnv);
  }

  /** The replication variables of an LDAP job: the mount of the raw environment, the source path and the target. */
  lemma LdapJobReplication(environment: string, region: string, meta: Metadata)
    ensures var vs := LdapJob(environment, region, meta).variables;
      && VarValue(vs, SourceMount) == Some("ldap/" + environment + "/us")
      && VarValue(vs, SourcePath) == Some(Interpolate(meta.sourcePath))
      && VarValue(vs, TargetIdentifier) == Some(Interpolate(meta.targetIdentifier))
  {
    ReplicationValues(environment, meta);
    LdapReplicationVar(environment, region, meta, SourceMount);
    LdapReplicationVar(environment, region, meta, SourcePath);
    LdapReplicationVar(environment, region, meta, TargetIdentifier);
  }

  lemma LdapReplicationVar(environment: string, region: string, meta: Metadata, key: VarName)
    requires key == SourceMount || key == SourcePath || key == TargetIdentifier
    requires VarValue(ReplicationVariables(environment, meta), key).Some?
    ensures VarValue(LdapJob(environment, region, meta).variables, key) == VarValue(ReplicationVariables(environment, meta), key)
  {
    hide VarValue;
    var base := LdapBaseVariables(environment, meta);
    var head := base[..6];
    var rep := ReplicationVariables(environment, meta);
    var rest := RegionVars(region) + AssignmentVars(meta.assignmentGroup, environment);
    assert base == head + rep;
    SeqAssoc(base, RegionVars(region), AssignmentVars(meta.assignmentGroup, environment));
    SeqAssoc(head, rep, rest);
    assert LdapJob(environment, region, meta).variables == head + (rep + rest);
    VarValueAbsent(head, key);
    VarValueAppend(rep, rest, key);
    VarValueAppend(head, rep + rest, key);
  }

  lemma ReplicationValues(environment: string, meta: Metadata)
    ensures var rep := ReplicationVariables(environment, meta);
      && VarValue(rep, SourceMount) == Some("ldap/" + environment + "/us")
      && VarValue(rep, SourcePath) == Some(Interpolate(meta.sourcePath))
      && VarValue(rep, TargetIdentifier) == Some(Interpolate(meta.targetIdentifier))
  {
    hide VarValue;
    var rep := ReplicationVariables(environment, meta);
    VarValueAt(rep, SourceMount, 0);
    VarValueAt(rep, SourcePath, 3);
    VarValueAt(rep, TargetIdentifier, 4);
  }

  /** APP_CONTEXT_REGION appears exactly for the region codes cus and eus, with the Azure region they stand for. */
  lemma LdapJobRegion(environment: string, region: string, meta: Metadata)
    ensures var vs := LdapJob(environment, region, meta).variables;
      && (VarValue(vs, AppContextRegion).Some? <==> region == "cus" || region == "eus")
      && (VarValue(vs, AppContextRegion).Some? ==> VarValue(vs, AppContextRegion).value == AzureRegion(region))
  {
    var base := LdapBaseVariables(environment, meta);
    var rv := RegionVars(region);
    var av := AssignmentVars(meta.assignmentGroup, environment);
    VarValueAbsent(base, AppContextRegion);
    VarValueAbsent(av, AppContextRegion);
    VarValueAppend(base, rv, AppContextRegion);
    VarValueAppend(base + rv, av, AppContextRegion);
    if rv != [] {
      VarValueAt(rv, AppContextRegion, 0);
    } else {
      VarValueAbsent(rv, AppContextRegion);
    }
  }

  /** ASSIGNMENT_GROUP appears exactly when an assignment group is given and the raw environment is uat or prod. */
  lemma LdapJobAssignment(environment: string, region: string, meta: Metadata)
    ensures VarValue(LdapJob(environment, region, meta).variables, AssignmentGroup)
         == if Truthy(meta.assignmentGroup) && DeployEnv(environment) then Some(meta.assignmentGroup.value) else None
  {
    var base := LdapBaseVariables(environment, meta);
    var rv := RegionVars(region);
    VarValueAbsent(base, AssignmentGroup);
    VarValueAbsent(rv, AssignmentGroup);
    VarValueAppend(base, rv, AssignmentGroup);
    AssignmentVarValue(base + rv, meta.assignmentGroup, environment);
  }

  // ------------------------------------------------------------ properties of the plan

  /** The groups of the setup jobs, in document order. */
  function SetupGroups(es: seq<CiEntry>): seq<VmGroup>
  {
    if es == [] then [] else (if es[0].SetupEntry? then [es[0].group] else []) + SetupGroups(es[1..])
  }

  /** The regions of the LDAP jobs, in document order. */
  function LdapRegions(es: seq<CiEntry>): seq<string>
  {
    if es == [] then [] else (if es[0].LdapEntry? then [es[0].region] else []) + LdapRegions(es[1..])
  }

  /** The composite names of the aggregate setup jobs, in document order. */
  function AllEnvs(es: seq<CiEntry>): seq<string>
  {
    if es == [] then [] else (if es[0].AllEntry? then [es[0].envName] else []) + AllEnvs(es[1..])
  }

  lemma {:induction false} ProjectionsAppend(a: seq<CiEntry>, b: seq<CiEntry>)
    ensures SetupGroups(a + b) == SetupGroups(a) + SetupGroups(b)
    ensures LdapRegions(a + b) == LdapRegions(a) + LdapRegions(b)
    ensures AllEnvs(a + b) == AllEnvs(a) + AllEnvs(b)
  {
    if a == [] {
      assert a + b == b;
    } else {
      assert (a + b)[1..] == a[1..] + b;
      ProjectionsAppend(a[1..], b);
      SeqAssoc(if a[0].SetupEntry? then [a[0].group] else [], SetupGroups(a[1..]), SetupGroups(b));
      SeqAssoc(if a[0].LdapEntry? then [a[0].region] else [], LdapRegions(a[1..]), LdapRegions(b));
      SeqAssoc(if a[0].AllEntry? then [a[0].envName] else [], AllEnvs(a[1..]), AllEnvs(b));
    }
  }

  lemma {:induction false} SetupEntriesProjections(envName: string, groups: seq<VmGroup>)
    ensures SetupGroups(SetupEntries(envName, groups)) == groups
    ensures LdapRegions(SetupEntries(envName, groups)) == []
    ensures AllEnvs(SetupEntries(envName, groups)) == []
  {
    if groups != [] {
      assert SetupEntries(envName, groups) == [SetupEntry(envName, groups[0])] + SetupEntries(envName, groups[1..]);
      SetupEntriesProjections(envName, groups[1..]);
    }
  }

  /** A region's plan: its LDAP job when replication is on, one setup job per group in order, one aggregate job when there are several groups. */
  lemma RegionPlanProjections(environment: string, ldapOn: bool, b: RegionBucket)
    ensures SetupGroups(RegionPlan(environment, ldapOn, b)) == b.groups
    ensures LdapRegions(RegionPlan(environment, ldapOn, b)) == if ldapOn then [b.region] else []
    ensures AllEnvs(RegionPlan(environment, ldapOn, b)) == if |b.groups| > 1 then [EnvName(environment, b.region)] else []
  {
    hide SetupGroups, LdapRegions, AllEnvs, SetupEntries;
    var envName := EnvName(environment, b.region);
    var l := if ldapOn then [LdapEntry(b.region)] else [];
    var se := SetupEntries(envName, b.groups);
    var a := if |b.groups| > 1 then [AllEntry(envName)] else [];
    ProjectionsAppend(l, se);
    ProjectionsAppend(l + se, a);
    SetupEntriesProjections(envName, b.groups);
    LdapPartProjections(ldapOn, b.region);
    AllPartProjections(|b.groups| > 1, envName);
  }

  /** The order inside a region's plan: the LDAP job first when replication is on, then the setup jobs in group order, then the aggregate job last. */
  lemma RegionPlanOrder(environment: string, ldapOn: bool, b: RegionBucket)
    ensures var p := RegionPlan(environment, ldapOn, b);
      var s := if ldapOn then 1 else 0;
      && |p| == s + |b.groups| + (if |b.groups| > 1 then 1 else 0)
      && (ldapOn ==> p[0] == LdapEntry(b.region))
      && p[s..s + |b.groups|] == SetupEntries(EnvName(environment, b.region), b.groups)
      && (|b.groups| > 1 ==> p[|p| - 1] == AllEntry(EnvName(environment, b.region)))
  {
  }

  lemma LdapPartProjections(ldapOn: bool, region: string)
    ensures var l := if ldapOn then [LdapEntry(region)] else [];
      SetupGroups(l) == [] && LdapRegions(l) == (if ldapOn then [region] else []) && AllEnvs(l) == []
  {
    var l := if ldapOn then [LdapEntry(region)] else [];
    if ldapOn { assert l[1..] == []; }
  }

  lemma AllPartProjections(several: bool, envName: string)
    ensures var a := if several then [AllEntry(envName)] else [];
      SetupGroups(a) == [] && LdapRegions(a) == [] && AllEnvs(a) == (if several then [envName] else [])
  {
    var a := if several then [AllEntry(envName)] else [];
    if several { assert a[1..] == []; }
  }

  function BucketRegions(bs: seq<RegionBucket>): seq<string>
  {
    seq(|bs|, k requires 0 <= k < |bs| => bs[k].region)
  }

  /** The composite names of the buckets with more than one group, in order. */
  function MultiGroupEnvs(environment: string, bs: seq<RegionBucket>): seq<string>
  {
    if bs == [] then []
    else MultiGroupEnvs(environment, bs[..|bs| - 1])
         + (if |bs[|bs| - 1].groups| > 1 then [EnvName(environment, bs[|bs| - 1].region)] else [])
  }

  lemma FlattenSnoc(bs: seq<RegionBucket>, b: RegionBucket)
    ensures Flatten(bs + [b]) == Flatten(bs) + b.groups
    decreases bs
  {
    if bs == [] {
      assert [b][1..] == [];
      assert b.groups + [] == b.groups;
    } else {
      assert (bs + [b])[1..] == bs[1..] + [b];
      FlattenSnoc(bs[1..], b);
      SeqAssoc(bs[0].groups, Flatten(bs[1..]), b.groups);
    }
  }

  lemma CiPlanLast(environment: string, ldapOn: bool, bs: seq<RegionBucket>)
    requires bs != []
    ensures CiPlan(environment, ldapOn, bs) == CiPlan(environment, ldapOn, bs[..|bs| - 1]) + RegionPlan(environment, ldapOn, bs[|bs| - 1])
  {
  }

  lemma {:induction false} CiPlanSetupGroups(environment: string, ldapOn: bool, bs: seq<RegionBucket>)
    ensures SetupGroups(CiPlan(environment, ldapOn, bs)) == Flatten(bs)
    decreases |bs|
  {
    hide RegionPlan;
    if bs != [] {
      var init := bs[..|bs| - 1];
      var last := bs[|bs| - 1];
      CiPlanSetupGroups(environment, ldapOn, init);
      CiPlanLast(environment, ldapOn, bs);
      ProjectionsAppend(CiPlan(environment, ldapOn, init), RegionPlan(environment, ldapOn, last));
      RegionPlanProjections(environment, ldapOn, last);
      assert bs == init + [last];
      FlattenSnoc(init, last);
    }
  }

  lemma {:induction false} CiPlanLdapRegions(environment: string, ldapOn: bool, bs: seq<RegionBucket>)
    ensures LdapRegions(CiPlan(environment, ldapOn, bs)) == if ldapOn then BucketRegions(bs) else []
    decreases |bs|
  {
    hide RegionPlan;
    if bs != [] {
      var init := bs[..|bs| - 1];
      var last := bs[|bs| - 1];
      CiPlanLdapRegions(environment, ldapOn, init);
      CiPlanLast(environment, ldapOn, bs);
      ProjectionsAppend(CiPlan(environment, ldapOn, init), RegionPlan(environment, ldapOn, last));
      RegionPlanProjections(environment, ldapOn, last);
      BucketRegionsLast(bs);
    }
  }

  lemma BucketRegionsLast(bs: seq<RegionBucket>)
    requires bs != []
    ensures BucketRegions(bs) == BucketRegions(bs[..|bs| - 1]) + [bs[|bs| - 1].region]
  {
    var init := bs[..|bs| - 1];
    assert forall k :: 0 <= k < |init| ==> BucketRegions(bs)[k] == BucketRegions(init)[k];
  }

  lemma {:induction false} CiPlanAllEnvs(environment: string, ldapOn: bool, bs: seq<RegionBucket>)
    ensures AllEnvs(CiPlan(environment, ldapOn, bs)) == MultiGroupEnvs(environment, bs)
    decreases |bs|
  {
    hide RegionPlan;
    if bs != [] {
      var init := bs[..|bs| - 1];
      var last := bs[|bs| - 1];
      CiPlanAllEnvs(environment, ldapOn, init);
      CiPlanLast(environment, ldapOn, bs);
      ProjectionsAppend(CiPlan(environment, ldapOn, init), RegionPlan(environment, ldapOn, last));
      RegionPlanProjections(environment, ldapOn, last);
    }
  }

  /** Across the document: one setup job per group of the buckets, one LDAP job per region when replication is on, one aggregate job per region with several groups. */
  lemma CiPlanProjections(environment: string, ldapOn: bool, bs: seq<RegionBucket>)
    ensures SetupGroups(CiPlan(environment, ldapOn, bs)) == Flatten(bs)
    ensures LdapRegions(CiPlan(environment, ldapOn, bs)) == if ldapOn then BucketRegions(bs) else []
    ensures AllEnvs(CiPlan(environment, ldapOn, bs)) == MultiGroupEnvs(environment, bs)
  {
    CiPlanSetupGroups(environment, ldapOn, bs);
    CiPlanLdapRegions(environment, ldapOn, bs);
    CiPlanAllEnvs(environment, ldapOn, bs);
  }

  /**
   * The CI document of a request has one setup job per VM group (as a multiset of groups),
   * LDAP jobs for exactly the regions in first-appearance order when replication is on and
   * none otherwise, and one aggregate job per region with several groups.
   */
  lemma CiPlanOfRequest(environment: string, ldapOn: bool, vmGroups: seq<VmGroup>)
    ensures var es := CiPlan(environment, ldapOn, Grouped(vmGroups));
      && multiset(SetupGroups(es)) == multiset(vmGroups)
      && |SetupGroups(es)| == |vmGroups|
      && LdapRegions(es) == (if ldapOn then Regions.Regions(vmGroups) else [])
      && AllEnvs(es) == MultiGroupEnvs(environment, Grouped(vmGroups))
  {
    var bs := Grouped(vmGroups);
    CiPlanProjections(environment, ldapOn, bs);
    GroupedIsPartition(vmGroups);
    GroupedEntries(vmGroups);
    assert BucketRegions(bs) == Regions.Regions(vmGroups);
  }

  /** A setup entry comes from a group of one of the buckets, an aggregate entry from a bucket with several groups. */
  predicate FromBuckets(environment: string, bs: seq<RegionBucket>, e: CiEntry)
  {
    && (e.SetupEntry? ==> exists k :: 0 <= k < |bs| && e.envName == EnvName(environment, bs[k].region) && e.group in bs[k].groups)
    && (e.AllEntry? ==> exists k :: 0 <= k < |bs| && e.envName == EnvName(environment, bs[k].region) && |bs[k].groups| > 1)
  }

  lemma RegionPlanOrigin(environment: string, ldapOn: bool, b: RegionBucket, e: CiEntry)
    requires e in RegionPlan(environment, ldapOn, b)
    ensures e.SetupEntry? ==> e.envName == EnvName(environment, b.region) && e.group in b.groups
    ensures e.AllEntry? ==> e.envName == EnvName(environment, b.region) && |b.groups| > 1
  {
    var envName := EnvName(environment, b.region);
    if e.SetupEntry? {
      assert e in SetupEntries(envName, b.groups);
      var j :| 0 <= j < |b.groups| && e == SetupEntry(envName, b.groups[j]);
    }
  }

  /** Widening the buckets by one keeps every origin. */
  lemma FromBucketsInit(environment: string, bs: seq<RegionBucket>, e: CiEntry)
    requires bs != [] && FromBuckets(environment, bs[..|bs| - 1], e)
    ensures FromBuckets(environment, bs, e)
  {
    var init := bs[..|bs| - 1];
    if e.SetupEntry? {
      var k :| 0 <= k < |init| && e.envName == EnvName(environment, init[k].region) && e.group in init[k].groups;
      assert bs[k] == init[k];
    }
    if e.AllEntry? {
      var k :| 0 <= k < |init| && e.envName == EnvName(environment, init[k].region) && |init[k].groups| > 1;
      assert bs[k] == init[k];
    }
  }

  lemma {:induction false} CiPlanFromBuckets(environment: string, ldapOn: bool, bs: seq<RegionBucket>)
    ensures forall e :: e in CiPlan(environment, ldapOn, bs) ==> FromBuckets(environment, bs, e)
    decreases |bs|
  {
    if bs != [] {
      var init := bs[..|bs| - 1];
      var n := |bs| - 1;
      CiPlanFromBuckets(environment, ldapOn, init);
      CiPlanLast(environment, ldapOn, bs);
      forall e | e in CiPlan(environment, ldapOn, bs)
        ensures FromBuckets(environment, bs, e)
      {
        if e in CiPlan(environment, ldapOn, init) {
          FromBucketsInit(environment, bs, e);
        } else {
          RegionPlanOrigin(environment, ldapOn, bs[n], e);
        }
      }
    }
  }

  /** Where each entry of the plan comes from: a setup job from a group of its bucket, an aggregate job from a bucket with several groups. */
  lemma CiPlanOrigins(environment: string, ldapOn: bool, bs: seq<RegionBucket>)
    ensures forall e :: e in CiPlan(environment, ldapOn, bs) && e.SetupEntry? ==>
      exists k :: 0 <= k < |bs| && e.envName == EnvName(environment, bs[k].region) && e.group in bs[k].groups
    ensures forall e :: e in CiPlan(environment, ldapOn, bs) && e.AllEntry? ==>
      exists k :: 0 <= k < |bs| && e.envName == EnvName(environment, bs[k].region) && |bs[k].groups| > 1
  {
    CiPlanFromBuckets(environment, ldapOn, bs);
  }

  /** Every setup and aggregate job of the document runs a playbook that generatePlaybooks writes. */
  lemma CiJobsRunWrittenPlaybooks(files: Files, environment: string, osPlatform: string, meta: Metadata,
                                  ldapOn: bool, vmGroups: seq<VmGroup>)
    ensures var bs := Grouped(vmGroups);
      forall e :: e in CiPlan(environment, ldapOn, bs) && !e.LdapEntry? ==>
        var vs := Render(environment, osPlatform, meta, e).variables;
        VarValue(vs, PlaybookName).Some?
        && PlaybookPath(VarValue(vs, PlaybookName).value + ".yml") in WritePlaybooks(files, environment, osPlatform, bs)
  {
    var bs := Grouped(vmGroups);
    CiPlanOrigins(environment, ldapOn, bs);
    forall e | e in CiPlan(environment, ldapOn, bs) && !e.LdapEntry?
      ensures var vs := Render(environment, osPlatform, meta, e).variables;
        VarValue(vs, PlaybookName).Some?
        && PlaybookPath(VarValue(vs, PlaybookName).value + ".yml") in WritePlaybooks(files, environment, osPlatform, bs)
    {
      if e.SetupEntry? {
        var k :| 0 <= k < |bs| && e.envName == EnvName(environment, bs[k].region) && e.group in bs[k].groups;
        SetupJobRunsGroupPlaybook(e.envName, osPlatform, e.group, meta);
        BucketWrittenLater(files, environment, osPlatform, bs, k, e.group);
      } else {
        var k :| 0 <= k < |bs| && e.envName == EnvName(environment, bs[k].region) && |bs[k].groups| > 1;
        AllSetupJobRunsAllPlaybook(e.envName, osPlatform, meta);
        AllPlaybookNamePath(e.envName);
        AggregateWrittenLater(files, environment, osPlatform, bs, k);
      }
    }
  }

  /** A failure of the LDAP scan names a scanned role whose requires_ldap lookup failed. */
  lemma {:induction false} LdapScanFailureKind(roles: seq<RoleId>, store: Store)
    ensures var r := LdapScanRoles(roles, store);
      r.Err? ==> exists k :: 0 <= k < |roles| && r.error == RequiresLdapQuery(roles[k]) && store.requiresLdap(roles[k]) == Failed
    decreases roles
  {
    if roles != [] && store.requiresLdap(roles[0]) != Failed && store.requiresLdap(roles[0]) != Found(true) {
      LdapScanFailureKind(roles[1..], store);
      var r := LdapScanRoles(roles, store);
      if r.Err? {
        var k :| 0 <= k < |roles[1..]| && r.error == RequiresLdapQuery(roles[1..][k]) && store.requiresLdap(roles[1..][k]) == Failed;
        assert roles[1..][k] == roles[k + 1];
      }
    } else if roles != [] && store.requiresLdap(roles[0]) == Failed {
      assert LdapScanRoles(roles, store).error == RequiresLdapQuery(roles[0]);
    }
  }
}
