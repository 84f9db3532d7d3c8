/** The request the generator receives and the stored rows it reads. */
module Model {
  import opened Wrappers

  /** A role ID or a group number, as the text its template-literal interpolation renders. */
  type RoleId = string

  /** One VM group of a generation request. Absent optional fields are `None`. */
  datatype VmGroup = VmGroup(
    groupNumber: string,
    region: Option<string>,
    hostnames: seq<string>,
    roles: seq<RoleId>,
    osPlatform: Option<string>)

  /** The application metadata copied into the CI jobs. */
  datatype Metadata = Metadata(
    mettaApplication: string,
    mettaComponent: string,
    shieldTeam: string,
    appContextSubscriptionName: string,
    appContextName: string,
    armSubscriptionId: string,
    sourcePath: Option<string>,
    targetIdentifier: Option<string>,
    assignmentGroup: Option<string>)

  /** The body of a template generation request. */
  datatype TemplateRequest = TemplateRequest(
    environment: string,
    osPlatform: string,
    vmGroups: seq<VmGroup>,
    meta: Metadata)

  /** A row of ansible_role_variables joined with its role's name. */
  datatype RoleVariableRow = RoleVariableRow(roleName: string, content: string)

  /** The outcome of one `db.get`: a row, no row, or a database error. */
  datatype Lookup<+T> = Found(row: T) | Missing | Failed

  /**
   * The stored configuration as the generator reads it, one lookup per query:
   *  - osConfig(os)              os_configurations.config_content for that os_platform
   *  - tmplFile(env)             tmpl_files.file_content for that environment
   *  - ciCommon                  gitlab_ci_configs.config_content of the row with config_type 'common'
   *  - requiresLdap(id)          ansible_roles.requires_ldap of that role
   *  - roleVariable(id, os)      the role variable of that role for that os_platform, with the role's name
   */
  datatype Store = Store(
    osConfig: string -> Lookup<string>,
    tmplFile: string -> Lookup<string>,
    ciCommon: Lookup<string>,
    requiresLdap: RoleId -> Lookup<bool>,
    roleVariable: (RoleId, string) -> Lookup<RoleVariableRow>)

  /** The query whose database error aborted a generation. */
  datatype Query =
    | OsConfigQuery(osPlatform: string)
    | TmplFileQuery(environment: string)
    | CiConfigQuery(configType: string)
    | RequiresLdapQuery(roleId: RoleId)
    | RoleVariableQuery(roleId: RoleId, osPlatform: string)

  /** A store none of whose lookups reports a database error. */
  ghost predicate NeverFails(store: Store)
  {
    && (forall os :: store.osConfig(os) != Failed)
    && (forall env :: store.tmplFile(env) != Failed)
    && store.ciCommon != Failed
    && (forall id :: store.requiresLdap(id) != Failed)
    && (forall id, os :: store.roleVariable(id, os) != Failed)
  }

  /** The generated tree: path (relative to the Ansible-Template directory) to file content. */
  type Files = map<string, string>

  /** The tree after a step that may abort: the files written so far and the query that failed, if any. */
  datatype Progress = Progress(files: Files, failure: Option<Query>)

  /** `fs.readFile` with its error swallowed: the content, or "" when the file does not exist. */
  function Existing(files: Files, path: string): string
  {
    if path in files then files[path] else ""
  }
}
