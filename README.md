# Ansible template generator — a Dafny model

This project models the part of the Ansible template service that turns a generation request
into a file tree. A request names an environment, an OS platform and a list of VM groups. Each
group has a group number, an optional region, its hostnames, its role IDs and an optional OS
platform. The request also carries the application metadata that goes into the CI jobs. The
steps, in order:

- `ansible/group_vars/all.yml` is written from the stored OS configuration, or from the built-in
  default for the platform.
- `ansible/roles/requirements.tmpl` is written from the stored file for the environment, or from
  the built-in default.
- One `hosts` file is written per composite environment (`env` or `env_region`). Each group's
  stanza is appended in input order.
- One playbook is written per group. A region with more than one group also gets an aggregate
  "all" playbook that imports the group playbooks.
- One group-vars file is written per group, from the stored role variables.
- `.gitlab-ci.yml` starts with the stored common block, or with nothing when no common block is
  stored. Then come the jobs of every region, in order of first appearance:
  - an LDAP replication job, when some role requires LDAP and both `sourcePath` and
    `targetIdentifier` are given;
  - one setup job per group;
  - an aggregate setup job, when the region has more than one group.
- The rule sets of the request-validation middleware are modelled, and so is the
  `POST /generate` route that validates, sanitizes, generates and answers.

Modules, one per concern of `backend/services/templateGenerator.js`:

| module | what it holds |
|---|---|
| `Wrappers` | `Option`, `Result`, and the JavaScript truthiness of an optional string |
| `Text` | `capitalize`, `split('_')[0]`, lines and their concatenation lemmas |
| `Model` | the request, the metadata, the stored rows and their lookups, the failure queries |
| `Naming` | composite environment, group, playbook, job and path names |
| `Regions` | `groupVMsByRegion` |
| `FileSystem` | the output tree as a class over a map from path to content |
| `Inventory` | `generateHostsFiles`, `generateGroupVars` |
| `Playbooks` | `generatePlaybookContent`, `generatePlaybooks` |
| `Pipeline` | `checkLdapRequirement`, the three job builders, `generateGitlabCIYml` |
| `Generator` | the built-in defaults, `generateAllYml`, `generateRequirementsTmpl`, `generateTemplate` |
| `Validation` | the rule sets of `backend/middleware/validation.js` and `validateRequest` |
| `Routes` | the `POST /generate` handler of `backend/routes/template.js` |

Each database read is a lookup that returns `Found(row)`, `Missing` or `Failed`. They are
collected in a `Store` value passed as a parameter. A failed read rejects the promise in the
source, and that aborts the whole generation. The model returns this as the `Query` that
failed, together with the files written up to that point.

Each step that writes files is a method on a `FileSystem.FileTree`. It is proved equal to a
specification function over the file map. Lemmas then prove what the source promises about
that function:
- ordering;
- iff-conditions;
- name consistency across files;
- append-only accumulation.

The job builders and the playbook builder append line by line, as the source does. They are
proved equal to the rendering of a structured `Job` value or line sequence, and the lemmas
about variables are stated over that value.

## Model

| member | source | states |
|---|---|---|
| `Wrappers.OrElse` | backend/services/templateGenerator.js:121 | `x \|\| d` on an optional string: the value when it is non-empty, otherwise the default |
| `Text.Capitalize` | backend/services/templateGenerator.js:460-462 | same length; the first character upper-cased and the rest unchanged |
| `Text.BeforeFirst` | backend/services/templateGenerator.js:397 | `split(c)[0]`: the longest prefix without `c`, followed in the input by `c` when shorter |
| `Text.BeforeFirstOfJoined` | backend/services/templateGenerator.js:397 | splitting `a + c + b` at the first `c` gives `a` back when `a` has no `c` |
| `Naming.AzureRegion` | backend/services/templateGenerator.js:363 | non-empty exactly for `cus` and `eus`, which map to `centralus` and `eastus2` |
| `Naming.ShieldEnvOfEnvName` | backend/services/templateGenerator.js:397 | SHIELD_ENV of a composite name is the environment whenever the environment has no `_` |
| `Naming.EnvNameInjective` | backend/services/templateGenerator.js:122 | for one environment, the composite name determines the region |
| `Naming.HostsPathInjective` | backend/services/templateGenerator.js:129 | distinct composite environments get distinct hosts files |
| `Regions.BucketsFor` | backend/services/templateGenerator.js:446-458 | one bucket per listed key, each holding the groups with that key in input order |
| `Regions.GroupVmsByRegion` | backend/services/templateGenerator.js:446-458 | the dictionary-building loop yields the buckets of `Grouped(vmGroups)` |
| `Regions.RegionsComplete` | backend/services/templateGenerator.js:449-453 | a key is a bucket exactly when some group has `region \|\| ''` equal to it |
| `Regions.RegionsDistinct` | backend/services/templateGenerator.js:451-453 | no key appears twice |
| `Regions.RegionsInFirstAppearanceOrder` | backend/services/templateGenerator.js:449-455 | an earlier key first appears before any group of a later key |
| `Regions.InRegionMembers` | backend/services/templateGenerator.js:454 | a bucket holds exactly the input groups with its key |
| `Regions.InRegionAbsent` | backend/services/templateGenerator.js:451 | a key no group has gets no groups |
| `Regions.GroupedIsPartition` | backend/services/templateGenerator.js:446-458 | the buckets together are a permutation of the input groups |
| `Regions.GroupedEntries` | backend/services/templateGenerator.js:446-458 | every bucket is non-empty and keeps input order; keys are distinct and in first-appearance order |
| `FileSystem.FileTree.constructor` | backend/services/templateGenerator.js:39-45 | the session directory starts empty |
| `FileSystem.FileTree.WriteFile` | backend/services/templateGenerator.js:143 | `writeFile` replaces the content at the path and changes nothing else |
| `FileSystem.FileTree.ReadFile` | backend/services/templateGenerator.js:133-137 | the content of an existing file, or nothing when the file does not exist |
| `Inventory.GenerateHostsFiles` | backend/services/templateGenerator.js:117-145 | the read-append-write loop leaves the tree equal to `WriteHosts` of the old tree |
| `Inventory.HostsContent` | backend/services/templateGenerator.js:130-143 | a hosts file ends holding its old content plus, in input order, the stanza of every group with that composite environment |
| `Inventory.HostsOnlyAppend` | backend/services/templateGenerator.js:142-143 | every existing file survives, and its old content is a prefix of its new content |
| `Inventory.HostsFilesWritten` | backend/services/templateGenerator.js:117-145 | the files are the old ones plus one hosts file per composite environment; the others are untouched |
| `Inventory.GroupVarsContent` | backend/services/templateGenerator.js:213-221 | a successfully built group-vars file starts with the fixed header |
| `Inventory.RoleBlocksMeaning` | backend/services/templateGenerator.js:215-221 | with no failed lookup, one block per role that has a row, in role order; otherwise the first failed lookup aborts |
| `Inventory.RoleBlocksFound` | backend/services/templateGenerator.js:215-221 | with no failed lookup, the blocks are those of the found rows, in role order |
| `Inventory.RoleBlocksFailure` | backend/services/templateGenerator.js:215-221 | the blocks fail exactly when some lookup fails, and then with the first failed lookup, every earlier one having succeeded |
| `Inventory.GroupVarsShape` | backend/services/templateGenerator.js:213-221 | the file is the header followed by the blocks of the found rows, looked up with `os_platform \|\| 'Linux'` |
| `Inventory.GenerateGroupVars` | backend/services/templateGenerator.js:201-225 | the loop leaves the tree and the failure equal to `WriteGroupVars` of the old tree |
| `Inventory.GroupVarsCompletes` | backend/services/templateGenerator.js:204-224 | the step completes exactly when every group's content can be built |
| `Inventory.GroupVarsUntouched` | backend/services/templateGenerator.js:210-223 | a path that is no group's group-vars file is left as it was |
| `Inventory.GroupVarsLastWriterWins` | backend/services/templateGenerator.js:223 | of two groups with the same group-vars file, the later one's content remains |
| `Inventory.GroupVarsFailureKind` | backend/services/templateGenerator.js:236-238 | the only failure of the step is a role-variable lookup |
| `Playbooks.PlaybookHeaderContent` | backend/services/templateGenerator.js:180-192 | the eight appended lines are the fixed playbook header |
| `Playbooks.GeneratePlaybookContent` | backend/services/templateGenerator.js:179-199 | the appended text is the header followed by one role line per role |
| `Playbooks.PlaybookRoleLinesOnly` | backend/services/templateGenerator.js:192-196 | a line is a `shared_roles` line exactly when it follows the eight header lines |
| `Playbooks.PlaybookBecome` | backend/services/templateGenerator.js:181-187 | `become_method: runas` appears exactly on Windows, and `become: yes` exactly otherwise |
| `Playbooks.PlaybookLinesShape` | backend/services/templateGenerator.js:185-196 | it targets the group; `vars_files` names the group-vars file; one `shared_roles/<os>/<role>` line per role, in order |
| `Playbooks.AllPlaybookContent` | backend/services/templateGenerator.js:168-172 | the aggregate text is the fixed header followed by one import line per group |
| `Playbooks.AppendImportLines` | backend/services/templateGenerator.js:169-172 | the loop appends one `- import_playbook:` line per group, in group order, and keeps what was there |
| `Playbooks.GeneratePlaybooks` | backend/services/templateGenerator.js:147-177 | the nested loops leave the tree equal to `WritePlaybooks` over the region buckets |
| `Playbooks.GroupPlaybooksFrame` | backend/services/templateGenerator.js:154-161 | exactly the group playbook files are added; every other file is unchanged |
| `Playbooks.GroupPlaybookContent` | backend/services/templateGenerator.js:154-161 | the last group writing a playbook path decides its content |
| `Playbooks.GroupPlaybookPathInjective` | backend/services/templateGenerator.js:155-157 | two groups of one composite environment share a playbook file exactly when their group numbers agree |
| `Playbooks.AllPlaybookPathDistinct` | backend/services/templateGenerator.js:165-166 | a region's aggregate playbook is never one of that region's group playbooks |
| `Playbooks.AggregateMeetsOtherRegion` | backend/services/templateGenerator.js:155-156 | names built by concatenation can collide across regions: region `group1`'s aggregate playbook in `dev` is the playbook of group `1_all` with no region |
| `Playbooks.RegionAggregate` | backend/services/templateGenerator.js:164-175 | the aggregate playbook is written exactly when the region has more than one group, with one import line per group |
| `Playbooks.ImportsNameWrittenPlaybooks` | backend/services/templateGenerator.js:169-172 | every import line names the group playbook written for that group, in group order |
| `Playbooks.PlaybooksGrow` | backend/services/templateGenerator.js:147-177 | no file disappears |
| `Playbooks.EveryGroupHasPlaybook` | backend/services/templateGenerator.js:150-161 | every input group has its playbook in the tree |
| `Playbooks.BucketWrittenLater` | backend/services/templateGenerator.js:150-161 | a group playbook written for one bucket is still there after later buckets |
| `Playbooks.AggregateWrittenLater` | backend/services/templateGenerator.js:164-175 | an aggregate playbook is still there after later buckets |
| `Playbooks.GroupPlaybookPathShaped` | backend/services/templateGenerator.js:156 | a group playbook path ends in `playbook.yml` |
| `Playbooks.AllPlaybookPathShaped` | backend/services/templateGenerator.js:165 | the aggregate playbook path ends in `playbook.yml` |
| `Playbooks.PlaybooksFrame` | backend/services/templateGenerator.js:147-177 | a path that does not end in `playbook.yml` is left as it was |
| `Playbooks.RegionFrame` | backend/services/templateGenerator.js:151-175 | one region's iteration leaves every path outside its group playbooks and aggregate as it was |
| `Playbooks.PlaybooksUntouched` | backend/services/templateGenerator.js:150-176 | a path no region writes keeps its content through the whole loop |
| `Playbooks.RegionFileSurvives` | backend/services/templateGenerator.js:150-176 | with the regions' paths apart, what a region writes at one of its paths is what the final tree holds there |
| `Playbooks.GroupPlaybookOf` | backend/services/templateGenerator.js:154-161 | a group's playbook holds that group's text when no different group of the region shares its number |
| `Playbooks.FinalGroupPlaybook` | backend/services/templateGenerator.js:150-176 | with the regions apart, each such group's playbook holds its text after all regions |
| `Playbooks.FinalAggregatePlaybook` | backend/services/templateGenerator.js:164-175 | with the regions apart, a region with several groups holds its aggregate text after all regions |
| `Pipeline.AppendSetupLines` | backend/services/templateGenerator.js:399-415 | the appended settings and variables are those of the setup-job value |
| `Pipeline.SetupVariablesValues` | backend/services/templateGenerator.js:404-410 | a setup job's SHIELD_ENV and PLAYBOOK_NAME are the values it was built with |
| `Pipeline.SetupVariablesAssignment` | backend/services/templateGenerator.js:413-415 | ASSIGNMENT_GROUP is present exactly when an assignment group is given and SHIELD_ENV is uat or prod |
| `Pipeline.GenerateSetupJob` | backend/services/templateGenerator.js:394-418 | the built text is the rendering of the setup job for the group |
| `Pipeline.GenerateAllSetupJob` | backend/services/templateGenerator.js:420-444 | the built text is the rendering of the aggregate setup job |
| `Pipeline.AppendLdapBaseVariables` | backend/services/templateGenerator.js:370-381 | the appended variables are the fixed variables of the LDAP job |
| `Pipeline.AppendReplicationVariables` | backend/services/templateGenerator.js:377-381 | the appended variables are the replication variables |
| `Pipeline.GenerateLdapReplicationJob` | backend/services/templateGenerator.js:360-392 | the built text is the rendering of the LDAP job for the region |
| `Pipeline.CheckLdapRequirement` | backend/services/templateGenerator.js:344-358 | the nested loop with early return yields `LdapScan` of the groups |
| `Pipeline.LdapScanAt` | backend/services/templateGenerator.js:347-354 | the first role whose lookup fails or says true decides the answer |
| `Pipeline.LdapScanNone` | backend/services/templateGenerator.js:357 | without any such role the answer is false; a missing role counts as false |
| `Pipeline.AllRolesMembers` | backend/services/templateGenerator.js:345-346 | the scan visits exactly the roles of all the groups |
| `Pipeline.LdapScanNeverFails` | backend/services/templateGenerator.js:344-358 | without database errors, the answer is true exactly when some role of some group requires LDAP |
| `Pipeline.LdapScanFailureKind` | backend/services/templateGenerator.js:348-349 | a failure is the lookup of one of the roles, and that lookup failed |
| `Pipeline.AppendRegionJobs` | backend/services/templateGenerator.js:272-315 | one region pass appends the LDAP, setup and aggregate jobs of that region, each followed by a newline |
| `Pipeline.GenerateGitlabCiYml` | backend/services/templateGenerator.js:243-320 | the tree and failure equal `CiStep`: the common block, two newlines, then the jobs of every region |
| `Pipeline.SetupJobRunsGroupPlaybook` | backend/services/templateGenerator.js:394-397 | a setup job's PLAYBOOK_NAME plus `.yml` is the group's playbook path, and SHIELD_ENV is the base environment |
| `Pipeline.AllSetupJobRunsAllPlaybook` | backend/services/templateGenerator.js:420-423 | the aggregate job runs the aggregate playbook under the base environment |
| `Pipeline.AllPlaybookNamePath` | backend/services/templateGenerator.js:165 | the aggregate job's playbook name is the aggregate playbook file without `.yml` |
| `Pipeline.SetupAssignmentGroup` | backend/services/templateGenerator.js:413-415 | ASSIGNMENT_GROUP is set exactly when an assignment group is given and SHIELD_ENV is uat or prod |
| `Pipeline.LdapJobIdentity` | backend/services/templateGenerator.js:361-374 | the LDAP job is named after the composite environment; its SHIELD_ENV is the raw environment |
| `Pipeline.LdapJobReplication` | backend/services/templateGenerator.js:362-381 | SOURCE_MOUNT is `ldap/<env>/us`; SOURCE_PATH and TARGET_IDENTIFIER are the request's values |
| `Pipeline.LdapJobRegion` | backend/services/templateGenerator.js:363-385 | APP_CONTEXT_REGION is present exactly for `cus` and `eus`, mapped to the Azure region name |
| `Pipeline.LdapJobAssignment` | backend/services/templateGenerator.js:387-389 | ASSIGNMENT_GROUP is set exactly when an assignment group is given and the raw environment is uat or prod |
| `Pipeline.RegionPlanProjections` | backend/services/templateGenerator.js:271-316 | a region contributes its groups' setup jobs, at most one LDAP job, and an aggregate job exactly when it has more than one group |
| `Pipeline.RegionPlanOrder` | backend/services/templateGenerator.js:274-315 | within a region the LDAP job, when on, comes first, then the setup jobs in group order, then the aggregate job last |
| `Pipeline.CiPlanProjections` | backend/services/templateGenerator.js:271-316 | over all regions: the setup jobs follow the flattened buckets; LDAP jobs exist for every region or none |
| `Pipeline.CiPlanOfRequest` | backend/services/templateGenerator.js:266-316 | the setup jobs cover the input groups as a permutation, and one LDAP job per region exactly when LDAP is on |
| `Pipeline.CiPlanOrigins` | backend/services/templateGenerator.js:271-316 | every setup or aggregate job belongs to a region bucket; an aggregate one only to a bucket of more than one group |
| `Pipeline.CiJobsRunWrittenPlaybooks` | backend/services/templateGenerator.js:289-315 | every setup and aggregate job names a playbook that `generatePlaybooks` wrote |
| `Generator.DefaultOsConfigChoice` | backend/services/templateGenerator.js:490-508 | a platform gets the sudo/ssh defaults if and only if it is exactly `Linux`; every other value, including `linux`, gets the WinRM defaults |
| `Generator.StoredOr` | backend/services/templateGenerator.js:86 | the stored row when there is one, otherwise the default |
| `Generator.GenerateAllYml` | backend/services/templateGenerator.js:81-97 | `all.yml` gets the stored config or the default; a failed read aborts |
| `Generator.GenerateRequirementsTmpl` | backend/services/templateGenerator.js:99-115 | `requirements.tmpl` gets the stored file or the default; a failed read aborts |
| `Generator.GenerateTemplate` | backend/services/templateGenerator.js:20-79 | a fresh tree whose files and failure equal the staged specification `Template` |
| `Generator.HostsPathApart` | backend/services/templateGenerator.js:129 | a hosts file is never all.yml, requirements.tmpl, the CI file or a playbook |
| `Generator.GroupVarsPathApart` | backend/services/templateGenerator.js:210 | a group-vars file is never all.yml, requirements.tmpl, the CI file or a hosts file |
| `Generator.FixedPathsApart` | backend/services/templateGenerator.js:87-105 | all.yml, requirements.tmpl and the CI file are distinct paths, and none is a playbook |
| `Generator.GroupVarsKeep` | backend/services/templateGenerator.js:201-225 | the group-vars step leaves all.yml, requirements.tmpl and every hosts file as they were |
| `Generator.GroupFilesFixed` | backend/services/templateGenerator.js:54-56 | the hosts, playbook and group-vars steps neither add nor change all.yml or requirements.tmpl |
| `Generator.GroupFilesHosts` | backend/services/templateGenerator.js:54-56 | after the three group steps, a hosts file that was not there before holds exactly the stanzas of its groups |
| `Generator.GroupFilesNoCi` | backend/services/templateGenerator.js:54-56 | the three group steps never write the CI file |
| `Generator.GroupFilesFailure` | backend/services/templateGenerator.js:54-56 | the group steps can only fail on a role-variable lookup, and never fail without database errors |
| `Generator.BaseFilesWritten` | backend/services/templateGenerator.js:47-51 | the first two steps succeed exactly when neither read fails; they then write exactly those two files, each stored or default |
| `Generator.VmFilesKeep` | backend/services/templateGenerator.js:53-56 | the group steps keep all.yml and requirements.tmpl, write no CI file, and leave each hosts file with its stanzas |
| `Generator.TemplateNeverFails` | backend/services/templateGenerator.js:20-79 | without database errors, generation always completes |
| `Generator.TemplateFailure` | backend/services/templateGenerator.js:47-72 | the OS-config failure happens exactly when that read fails, and leaves nothing written; the tmpl failure happens exactly when that read fails after the OS read succeeded, and leaves only all.yml; the CI file is missing exactly on failure |
| `Generator.TemplateSuccess` | backend/services/templateGenerator.js:20-79 | on success no read failed; the tree holds all.yml, requirements.tmpl and the CI document with their contents, and every hosts file holds its stanzas |
| `Generator.PlaybookPathsApart` | backend/services/templateGenerator.js:155-166 | for an environment the validation admits, no group or aggregate playbook path is a group-vars path (backend/services/templateGenerator.js:209-210) |
| `Generator.PlaybookReachesTemplate` | backend/services/templateGenerator.js:53-72 | a playbook that no group-vars file replaces is in the final tree as the playbook step wrote it |
| `Generator.TemplateGroupPlaybook` | backend/services/templateGenerator.js:53-56 | after a successful generation, every input group holds its own playbook under its composite environment, given an admitted environment, regions whose paths are apart, and no different group of its region with its number |
| `Generator.TemplateAggregatePlaybook` | backend/services/templateGenerator.js:53-56 | after a successful generation, every region with several groups holds its aggregate playbook importing them in order, given an admitted environment and regions whose paths are apart |
| `Generator.TemplateGroupVars` | backend/services/templateGenerator.js:56 | after a successful generation, a group's variables file holds its role blocks unless a later group writes the same file |
| `Validation.Check` | backend/middleware/validation.js:14-15 | a validator yields no error exactly when it passes, and otherwise its one message |
| `Validation.TrimStart` | backend/middleware/validation.js:13 | removes exactly the leading whitespace |
| `Validation.TrimEnd` | backend/middleware/validation.js:13 | removes exactly the trailing whitespace |
| `Validation.Trim` | backend/middleware/validation.js:13 | the value with its leading and trailing whitespace runs cut off: a slice of the value whose prefix and suffix are all whitespace; empty exactly for an all-whitespace value, otherwise starting and ending with non-whitespace |
| `Validation.TrimIdempotent` | backend/middleware/validation.js:13 | trimming twice is trimming once |
| `Validation.ValidatorLength` | backend/middleware/validation.js:16 | the length `isLength` counts is the number of code points minus the occurrences of U+FE0E and U+FE0F; so it never exceeds the string length and equals it without those selectors |
| `Validation.FirstLine` | backend/middleware/validation.js:35 | the longest prefix without a line terminator, which is what `.*` can reach |
| `Validation.RequiredValue` | backend/middleware/validation.js:120-123 | `trim().notEmpty()` fails exactly on an all-whitespace or absent value |
| `Validation.RequiredTrimmed` | backend/middleware/validation.js:44-47 | the same chain on a flat body field |
| `Validation.PlatformCheck` | backend/middleware/validation.js:108-110 | passes exactly for `Linux` and `Windows` |
| `Validation.PlatformErrors` | backend/middleware/validation.js:41-43 | passes exactly for `Linux` and `Windows` in a flat body |
| `Validation.ValidateRequest` | backend/middleware/validation.js:3-9 | calls `next` exactly when there are no errors; otherwise answers 400 with all of them |
| `Validation.UsernameErrors` | backend/middleware/validation.js:12-19 | no error exactly when the trimmed username has 3 to 50 characters, all letters, digits or `_` |
| `Validation.LoginMissingUsername` | backend/middleware/validation.js:12-19 | a missing username fails all three validators, in chain order |
| `Validation.LoginErrors` | backend/middleware/validation.js:11-26 | no error exactly when the username rule holds and the password has at least 6 characters |
| `Validation.ChangePasswordErrors` | backend/middleware/validation.js:28-38 | no error exactly when the old password is non-empty and the new one has at least 6 characters and passes the complexity pattern |
| `Validation.OsConfigErrors` | backend/middleware/validation.js:40-49 | no error exactly for a known platform and non-blank config content |
| `Validation.AnsibleRoleErrors` | backend/middleware/validation.js:51-66 | no error exactly for a non-blank role name of at most 100 characters, a known platform, and `requires_ldap` absent or boolean |
| `Validation.RoleVariableErrors` | backend/middleware/validation.js:68-80 | no error exactly for an integer role ID of at least 1, a known platform and non-blank content |
| `Validation.RoleIdAccepted` | backend/middleware/validation.js:69-71 | an accepted role ID has no minus sign; `0` and `-1` are refused; `1` and `+007` are accepted |
| `Validation.TmplFileErrors` | backend/middleware/validation.js:82-91 | no error exactly for dev, it, uat, prod or all and non-blank content |
| `Validation.GitlabCiErrors` | backend/middleware/validation.js:93-102 | no error exactly for common, environment or role and non-blank content |
| `Validation.WildcardErrors` | backend/middleware/validation.js:114-119 | no error exactly when every group's list is a non-empty array; every error points at a group whose list is not |
| `Validation.MetadataErrors` | backend/middleware/validation.js:120-143 | no error exactly when all six metadata fields are non-blank |
| `Validation.RequestShapeErrors` | backend/middleware/validation.js:105-119 | no error exactly for dev, it, uat or prod, a known platform, at least one group, and non-empty hostnames and roles arrays in every group |
| `Validation.GenerationErrors` | backend/middleware/validation.js:104-145 | no error exactly when the request is acceptable |
| `Validation.AllEnvironmentOnlyForTemplates` | backend/middleware/validation.js:105-107 | `all` is refused for generation, while the tmpl rules accept it |
| `Validation.TrimValueSame` | backend/middleware/validation.js:120-143 | trimming a sanitized value changes nothing more |
| `Validation.SanitizeKeepsVerdict` | backend/middleware/validation.js:120-143 | validating the sanitized body gives exactly the same errors |
| `Validation.UncheckedFields` | backend/middleware/validation.js:104-145 | sourcePath, targetIdentifier and assignmentGroup never change the verdict or the errors |
| `Routes.HandleGenerate` | backend/routes/template.js:8-26 | 400 with the validation errors exactly for an unacceptable body; otherwise the generation answer for the sanitized body |
| `Routes.Generate` | backend/routes/template.js:9-25 | a download of `Ansible-Template.zip` holding the generated tree when generation completes, otherwise 500 with `Failed to generate template` and the failed query |
| `Routes.AcceptedRequest` | backend/middleware/validation.js:104-145 | an accepted request reaches the generator with the properties listed below |
| `Routes.AcceptedShieldEnv` | backend/middleware/validation.js:105-107 | in an accepted request, SHIELD_ENV of every setup job is the requested environment, whatever the region |
| `Routes.AcceptedIsServed` | backend/routes/template.js:8-26 | with no database errors, every accepted request is answered with the download |

`Routes.AcceptedRequest` shows that an accepted request reaches the generator with:
- an environment from the list, without `_`;
- the platform `Linux` or `Windows`;
- at least one group, each with the hostnames and roles as sent, both non-empty;
- six trimmed, non-empty metadata fields.

## Left out

- Directories, the archive and cleanup are file-system and library effects:
  - `ensureTempDir`;
  - the `mkdir` calls;
  - `createZip`;
  - `cleanup` with `fs.rm` and `unlink`;
  - the five-second `setTimeout` after `res.download`.

  The tree is a map from paths to contents, relative to the `Ansible-Template` directory.
- The fresh `uuidv4` session ID is random and does not appear in any generated file, so it is
  not modelled. Neither is the temporary directory's location.
- Database access:
  - SQLite, the promise plumbing and the `db.get` callbacks are replaced by a `Store` of lookup
    functions.
  - A database error becomes `Failed`, and aborts the generation with the `Query` that failed.
  - The error's message text (the `details` of the 500 answer) is not modelled.
- Write errors from `fs.writeFile` are not modelled. Every write succeeds.
- The order of regions follows first appearance. `Object.entries` puts integer-like keys, such as
  a region named `"1"`, first in ascending order. The model assumes region names that are not
  integer-like.
- `Object.prototype` names used as region keys (such as `constructor`) are not modelled.
- Paths are joined as plain strings with `/`. `path.join` normalisation (`..`, double slashes) is
  not modelled.
- `Text.Capitalize` upper-cases ASCII letters only, where `toUpperCase` also maps other scripts.
- JSON values that are not strings are modelled by their text rendering. This covers group
  numbers, role IDs and the `requires_ldap` field.
- The generator sees hostnames and roles as arrays. A `vmGroups` value that is an object rather
  than an array is not modelled. The wildcard chains then have nothing to select.
- `becomeMethod` in `generatePlaybookContent` is computed but never used, so it is not modelled.
  So is the unused value captured from `generateHostsFiles`.
- Nothing is cleaned up when a generation fails. `generateTemplate`
  (backend/services/templateGenerator.js:20-79) has no `catch`, and the route
  (backend/routes/template.js:22-25) only answers 500. The model does the same: a failure leaves
  the partial tree as it is.
- `groupNumber` is only interpolated into names (backend/services/templateGenerator.js:139, 155,
  207), and no rule of backend/middleware/validation.js:104-145 checks it. The model takes it as
  text.
- Names are built by string concatenation, so two regions can produce the same file name. With
  environment `dev`, the aggregate playbook of region `group1` is `dev_group1_all_ansible_playbook.yml`.
  That is also the playbook of group number `1_all` in the group with no region. The source does
  not guard against this, and the model does not either: `Playbooks.AllPlaybookPathDistinct` holds
  only within one region, and the final-tree lemmas of `Generator` assume that no such collision
  occurs.
- `Generator.TemplateGroupPlaybook` and `Generator.TemplateAggregatePlaybook` assume an environment
  that the route's validation admits (`dev`, `it`, `uat` or `prod`), so that no playbook path can
  be a group-vars path. They also assume `Playbooks.RegionsApart`, that no two regions write the
  same path.
- `Generator.TemplateGroupPlaybook`: when two different groups of one region share a group number,
  the later one's playbook replaces the earlier one's. The lemma covers the groups that have no
  such twin; `Playbooks.GroupPlaybookContent` states the last-writer rule for one region.
- The other routes are not part of this model: the authentication, CRUD and frontend code, and
  `backend/config/database.js`.
- Express-validator is modelled only as far as these rule sets use it:
  - every validator of every chain runs;
  - a failed validator reports the message that follows it;
  - `trim()` sanitizes the value that later validators and the handler see.
- `Validation.ChangePasswordErrors`: the complexity pattern is modelled by its meaning on the first
  line of the password. This meaning comes from JavaScript regular-expression semantics, which
  are not themselves modelled.
