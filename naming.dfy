/** The naming rules shared by every generated file and job. */
module Naming {
  import opened Text

  /** The composite environment name: `environment` or `environment_region`. */
  function EnvName(environment: string, region: string): string
  {
    if region == "" then environment else environment + "_" + region
  }

  function GroupName(envName: string, groupNumber: string): string
  {
    envName + "_group" + groupNumber
  }

  function PlaybookFile(groupName: string): string
  {
    groupName + "_ansible_playbook.yml"
  }

  function AllPlaybookFile(envName: string): string
  {
    envName + "_all_ansible_playbook.yml"
  }

  function SetupJobName(envName: string, groupNumber: string, osPlatform: string): string
  {
    "Ansible_" + Capitalize(envName) + "_group" + groupNumber + "_Setup_" + osPlatform
  }

  function AllSetupJobName(envName: string, osPlatform: string): string
  {
    "Ansible_" + Capitalize(envName) + "_all_Setup_" + osPlatform
  }

  function LdapJobName(envName: string): string
  {
    envName + "-replicate-runtime-ldap-secret"
  }

  /** `envName.split('_')[0]`. */
  function ShieldEnvOf(envName: string): string
  {
    BeforeFirst(envName, '_')
  }

  /** The Azure region name a region code stands for; "" when there is none. */
  function AzureRegion(region: string): (r: string)
    ensures r != "" <==> region == "cus" || region == "eus"
    ensures region == "cus" ==> r == "centralus"
    ensures region == "eus" ==> r == "eastus2"
  {
    if region == "cus" then "centralus" else if region == "eus" then "eastus2" else ""
  }

  // Paths inside the Ansible-Template directory.

  const AllYmlPath: string := "ansible/group_vars/all.yml"
  const RequirementsPath: string := "ansible/roles/requirements.tmpl"
  const CiPath: string := ".gitlab-ci.yml"

  function HostsPath(envName: string): string
  {
    "ansible/inventories/" + envName + "/hosts"
  }

  function GroupVarsPath(envName: string, groupName: string): string
  {
    "ansible/inventories/" + envName + "/group_vars/" + groupName + ".yml"
  }

  function PlaybookPath(fileName: string): string
  {
    "ansible/" + fileName
  }

  /** The base environment is recovered from every composite name built on it. */
  lemma ShieldEnvOfEnvName(environment: string, region: string)
    requires '_' !in environment
    ensures ShieldEnvOf(EnvName(environment, region)) == environment
  {
    if region == "" {
      BeforeFirstOfJoined(environment, '_', "");
    } else {
      assert EnvName(environment, region) == environment + ['_'] + region;
      BeforeFirstOfJoined(environment, '_', region);
    }
  }

  /** Distinct regions give distinct composite names. */
  lemma EnvNameInjective(environment: string, r1: string, r2: string)
    requires EnvName(environment, r1) == EnvName(environment, r2)
    ensures r1 == r2
  {
    if r1 != "" && r2 != "" {
      var n := |environment| + 1;
      assert r1 == EnvName(environment, r1)[n..];
      assert r2 == EnvName(environment, r2)[n..];
    }
  }

  /** One hosts file per composite name: the path determines the name. */
  lemma HostsPathInjective(e1: string, e2: string)
    requires HostsPath(e1) == HostsPath(e2)
    ensures e1 == e2
  {
    var p := "ansible/inventories/";
    assert e1 == HostsPath(e1)[|p|..|HostsPath(e1)| - 6];
    assert e2 == HostsPath(e2)[|p|..|HostsPath(e2)| - 6];
  }
}
