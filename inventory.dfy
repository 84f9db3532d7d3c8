/** Inventory files: one hosts file per composite environment and one variables file per group. */
module Inventory {
  import opened Wrappers
  import opened Model
  import opened Text
  import opened Naming
  import opened Regions
  import opened FileSystem

  // ---------------------------------------------------------------- hosts

  /** The stanza a group adds to its environment's hosts file. */
  function HostsStanza(groupName: string, hostnames: seq<string>): string
  {
    "\n[" + groupName + "]\n" + Join(hostnames, "\n") + "\n"
  }

  /** The composite environment name of a group. */
  function GroupEnvName(environment: string, g: VmGroup): string
  {
    EnvName(environment, RegionKey(g))
  }

  function GroupStanza(environment: string, g: VmGroup): string
  {
    var envName := GroupEnvName(environment, g);
    HostsStanza(GroupName(envName, g.groupNumber), g.hostnames)
  }

  /** One iteration of generateHostsFiles: read the hosts file, append the stanza, write it back. */
  function AppendHosts(files: Files, environment: string, g: VmGroup): Files
  {
    var path := HostsPath(GroupEnvName(environment, g));
    files[path := Existing(files, path) + GroupStanza(environment, g)]
  }

  /** The tree after generateHostsFiles has processed `gs`, in input order. */
  function WriteHosts(files: Files, environment: string, gs: seq<VmGroup>): Files
    decreases gs
  {
    if gs == [] then files else WriteHosts(AppendHosts(files, environment, gs[0]), environment, gs[1..])
  }

  /** The stanzas of the groups of `gs` whose composite name is `envName`, in input order. */
  function StanzasFor(environment: string, gs: seq<VmGroup>, envName: string): string
  {
    if gs == [] then ""
    else (if GroupEnvName(environment, gs[0]) == envName then GroupStanza(environment, gs[0]) else "")
         + StanzasFor(environment, gs[1..], envName)
  }

  /** The hosts paths generateHostsFiles writes for `gs`. */
  function HostsPaths(environment: string, gs: seq<VmGroup>): set<string>
  {
    set g | g in gs :: HostsPath(GroupEnvName(environment, g))
  }

  /** generateHostsFiles. The loop visits the groups in raw input order, not by region. */
  method GenerateHostsFiles(tree: FileTree, environment: string, vmGroups: seq<VmGroup>)
    modifies tree
    ensures tree.files == WriteHosts(old(tree.files), environment, vmGroups)
  {
    for i := 0 to |vmGroups|
      invariant WriteHosts(old(tree.files), environment, vmGroups) == WriteHosts(tree.files, environment, vmGroups[i..])
    {
      var vmGroup := vmGroups[i];
      var envName := EnvName(environment, RegionKey(vmGroup));
      var hostsPath := HostsPath(envName);
      var hostsContent := "";
      var existing := tree.ReadFile(hostsPath);
      if existing.Some? {
        hostsContent := existing.value;
      }
      var groupName := GroupName(envName, vmGroup.groupNumber);
      var groupContent := HostsStanza(groupName, vmGroup.hostnames);
      hostsContent := hostsContent + groupContent;
      tree.WriteFile(hostsPath, hostsContent);
      assert vmGroups[i..][1..] == vmGroups[i + 1..];
    }
  }

  /** Each hosts file is what it held before followed by the stanzas of its groups, in input order. */
  lemma {:induction false} HostsContent(files: Files, environment: string, gs: seq<VmGroup>, envName: string)
    ensures Existing(WriteHosts(files, environment, gs), HostsPath(envName))
            == Existing(files, HostsPath(envName)) + StanzasFor(environment, gs, envName)
    decreases gs
  {
    hide GroupStanza;
    if gs != [] {
      var next := AppendHosts(files, environment, gs[0]);
      HostsContent(next, environment, gs[1..], envName);
      var rest := StanzasFor(environment, gs[1..], envName);
      if GroupEnvName(environment, gs[0]) == envName {
        assert Existing(next, HostsPath(envName)) == Existing(files, HostsPath(envName)) + GroupStanza(environment, gs[0]);
        AppendAssoc(Existing(files, HostsPath(envName)), GroupStanza(environment, gs[0]), rest);
      } else {
        if HostsPath(GroupEnvName(environment, gs[0])) == HostsPath(envName) {
          HostsPathInjective(GroupEnvName(environment, gs[0]), envName);
        }
        assert Existing(next, HostsPath(envName)) == Existing(files, HostsPath(envName));
        assert StanzasFor(environment, gs, envName) == "" + rest;
      }
    }
  }

  /** Writing hosts files only appends: no file disappears and no earlier content is changed. */
  lemma {:induction false} HostsOnlyAppend(files: Files, environment: string, gs: seq<VmGroup>)
    ensures forall p :: p in files ==> p in WriteHosts(files, environment, gs) && files[p] <= WriteHosts(files, environment, gs)[p]
    decreases gs
  {
    if gs != [] {
      var next := AppendHosts(files, environment, gs[0]);
      HostsOnlyAppend(next, environment, gs[1..]);
    }
  }

  /** generateHostsFiles writes exactly one hosts file per composite name and touches nothing else. */
  lemma {:induction false} HostsFilesWritten(files: Files, environment: string, gs: seq<VmGroup>)
    ensures WriteHosts(files, environment, gs).Keys == files.Keys + HostsPaths(environment, gs)
    ensures forall p :: p in files && p !in HostsPaths(environment, gs) ==> WriteHosts(files, environment, gs)[p] == files[p]
    decreases gs
  {
    if gs != [] {
      var next := AppendHosts(files, environment, gs[0]);
      HostsFilesWritten(next, environment, gs[1..]);
      assert HostsPaths(environment, gs) == {HostsPath(GroupEnvName(environment, gs[0]))} + HostsPaths(environment, gs[1..]) by {
        assert forall g :: g in gs <==> g == gs[0] || g in gs[1..];
      }
    } else {
      assert HostsPaths(environment, gs) == {};
    }
  }

  // ----------------------------------------------------------- group vars

  const GroupVarsHeader: string := "---\n# Ansible role variables\n\n"

  /** The block a role with a variable row contributes. */
  function RoleBlock(row: RoleVariableRow): string
  {
    "# Variables for role: " + row.roleName + "\n" + row.content + "\n\n"
  }

  /** The OS the role variables are looked up for: `vmGroup.os_platform || 'Linux'`. */
  function LookupOs(g: VmGroup): string
  {
    OrElse(g.osPlatform, "Linux")
  }

  /** `s` in front of the text of `r`, or the failure of `r`. */
  function Prefixed(s: string, r: Result<string, Query>): Result<string, Query>
  {
    match r
    case Ok(t) => Ok(s + t)
    case Err(q) => Err(q)
  }

  /** Proof helper: two prefixes in a row are one prefix (associativity under `Prefixed`). */
  lemma PrefixedTwice(a: string, b: string, r: Result<string, Query>)
    ensures Prefixed(a, Prefixed(b, r)) == Prefixed(a + b, r)
  {
    if r.Ok? {
      assert a + (b + r.value) == (a + b) + r.value;
    }
  }

  /** The role blocks of `roles`, in order, skipping roles without a row; the first failed lookup aborts. */
  function RoleBlocks(roles: seq<RoleId>, os: string, store: Store): Result<string, Query>
  {
    if roles == [] then Ok("")
    else
      match store.roleVariable(roles[0], os)
      case Failed => Err(RoleVariableQuery(roles[0], os))
      case Missing => RoleBlocks(roles[1..], os, store)
      case Found(row) => Prefixed(RoleBlock(row), RoleBlocks(roles[1..], os, store))
  }

  /** The content of a group's variables file. */
  function GroupVarsContent(g: VmGroup, store: Store): (r: Result<string, Query>)
    ensures r.Ok? ==> GroupVarsHeader <= r.value
  {
    Prefixed(GroupVarsHeader, RoleBlocks(g.roles, LookupOs(g), store))
  }

  /** Where a group's variables file lives. */
  function GroupVarsFile(environment: string, g: VmGroup): string
  {
    var envName := GroupEnvName(environment, g);
    GroupVarsPath(envName, GroupName(envName, g.groupNumber))
  }

  /** The tree after generateGroupVars has processed `gs`; a failed lookup stops it before the group's file is written. */
  function WriteGroupVars(files: Files, environment: string, gs: seq<VmGroup>, store: Store): Progress
    decreases gs
  {
    if gs == [] then Progress(files, None)
    else
      match GroupVarsContent(gs[0], store)
      case Err(q) => Progress(files, Some(q))
      case Ok(c) => WriteGroupVars(files[GroupVarsFile(environment, gs[0]) := c], environment, gs[1..], store)
  }

  /** generateGroupVars: for each group, in input order, look up each role's variables and write the file. */
  method GenerateGroupVars(tree: FileTree, environment: string, vmGroups: seq<VmGroup>, store: Store)
    returns (failure: Option<Query>)
    modifies tree
    ensures Progress(tree.files, failure) == WriteGroupVars(old(tree.files), environment, vmGroups, store)
  {
    failure := None;
    for i := 0 to |vmGroups|
      invariant WriteGroupVars(old(tree.files), environment, vmGroups, store)
                == WriteGroupVars(tree.files, environment, vmGroups[i..], store)
    {
      var vmGroup := vmGroups[i];
      var envName := EnvName(environment, RegionKey(vmGroup));
      var groupName := GroupName(envName, vmGroup.groupNumber);
      var groupVarFile := GroupVarsPath(envName, groupName);
      var os := OrElse(vmGroup.osPlatform, "Linux");
      var variableContent := GroupVarsHeader;
      assert vmGroup.roles[0..] == vmGroup.roles;
      ghost var before := tree.files;
      for k := 0 to |vmGroup.roles|
        invariant tree.files == before
        invariant GroupVarsContent(vmGroup, store) == Prefixed(variableContent, RoleBlocks(vmGroup.roles[k..], os, store))
      {
        var roleId := vmGroup.roles[k];
        RoleBlocksStep(vmGroup.roles, k, os, store);
        match store.roleVariable(roleId, os)
        case Failed =>
          failure := Some(RoleVariableQuery(roleId, os));
          WriteGroupVarsStep(tree.files, environment, vmGroups, i, store);
          return;
        case Missing =>
        case Found(roleVar) =>
          PrefixedTwice(variableContent, RoleBlock(roleVar), RoleBlocks(vmGroup.roles[k + 1..], os, store));
          ghost var expected := variableContent + RoleBlock(roleVar);
          variableContent := variableContent + "# Variables for role: " + roleVar.roleName + "\n";
          variableContent := variableContent + roleVar.content + "\n\n";
          assert variableContent == expected;
      }
      assert vmGroup.roles[|vmGroup.roles|..] == [];
      assert variableContent + "" == variableContent;
      assert GroupVarsContent(vmGroup, store) == Ok(variableContent);
      WriteGroupVarsStep(tree.files, environment, vmGroups, i, store);
      tree.WriteFile(groupVarFile, variableContent);
    }
    assert vmGroups[|vmGroups|..] == [];
  }

  lemma RoleBlocksStep(roles: seq<RoleId>, k: nat, os: string, store: Store)
    requires k < |roles|
    ensures var v := store.roleVariable(roles[k], os);
      RoleBlocks(roles[k..], os, store) ==
        if v.Failed? then Err(RoleVariableQuery(roles[k], os))
        else if v.Missing? then RoleBlocks(roles[k + 1..], os, store)
        else Prefixed(RoleBlock(v.row), RoleBlocks(roles[k + 1..], os, store))
  {
    assert roles[k..][1..] == roles[k + 1..];
  }

  lemma WriteGroupVarsStep(files: Files, environment: string, gs: seq<VmGroup>, i: nat, store: Store)
    requires i < |gs|
    ensures var c := GroupVarsContent(gs[i], store);
      WriteGroupVars(files, environment, gs[i..], store) ==
        if c.Err? then Progress(files, Some(c.error))
        else WriteGroupVars(files[GroupVarsFile(environment, gs[i]) := c.value], environment, gs[i + 1..], store)
  {
    assert gs[i..][1..] == gs[i + 1..];
  }

  /** The rows found for `roles`, in role order; roles without a row are skipped. */
  function FoundRows(roles: seq<RoleId>, os: string, store: Store): seq<RoleVariableRow>
  {
    if roles == [] then []
    else
      (match store.roleVariable(roles[0], os) case Found(row) => [row] case _ => [])
      + FoundRows(roles[1..], os, store)
  }

  /** The blocks of the rows, one after another. */
  function BlocksText(rows: seq<RoleVariableRow>): string
  {
    if rows == [] then "" else RoleBlock(rows[0]) + BlocksText(rows[1..])
  }

  /** Without a failed lookup the role blocks are the blocks of the rows found, in role order. */
  lemma {:induction false} RoleBlocksFound(roles: seq<RoleId>, os: string, store: Store)
    requires forall k :: 0 <= k < |roles| ==> store.roleVariable(roles[k], os) != Failed
    ensures RoleBlocks(roles, os, store) == Ok(BlocksText(FoundRows(roles, os, store)))
  {
    if roles != [] {
      var rest := roles[1..];
      assert forall k :: 0 <= k < |rest| ==> rest[k] == roles[k + 1];
      RoleBlocksFound(rest, os, store);
      var rows := FoundRows(rest, os, store);
      match store.roleVariable(roles[0], os)
      case Missing =>
        assert FoundRows(roles, os, store) == rows;
      case Found(row) =>
        assert FoundRows(roles, os, store) == [row] + rows;
        assert ([row] + rows)[1..] == rows;
    }
  }

  /** The role blocks fail exactly when some lookup fails, and then with the query of the first failed one. */
  lemma {:induction false} RoleBlocksFailure(roles: seq<RoleId>, os: string, store: Store)
    ensures RoleBlocks(roles, os, store).Err? <==> exists k :: 0 <= k < |roles| && store.roleVariable(roles[k], os) == Failed
    ensures RoleBlocks(roles, os, store).Err? ==>
      exists k :: 0 <= k < |roles| && store.roleVariable(roles[k], os) == Failed
               && RoleBlocks(roles, os, store).error == RoleVariableQuery(roles[k], os)
               && forall j :: 0 <= j < k ==> store.roleVariable(roles[j], os) != Failed
  {
    if roles != [] && store.roleVariable(roles[0], os) != Failed {
      var rest := roles[1..];
      RoleBlocksFailure(rest, os, store);
      assert forall k :: 0 < k < |roles| ==> roles[k] == rest[k - 1];
      var r := RoleBlocks(rest, os, store);
      assert RoleBlocks(roles, os, store).Err? == r.Err?;
      assert r.Err? ==> RoleBlocks(roles, os, store).error == r.error;
      if r.Err? {
        var k :| 0 <= k < |rest| && store.roleVariable(rest[k], os) == Failed
               && r.error == RoleVariableQuery(rest[k], os)
               && forall j :: 0 <= j < k ==> store.roleVariable(rest[j], os) != Failed;
        assert roles[k + 1] == rest[k];
      }
      if exists k :: 0 <= k < |roles| && store.roleVariable(roles[k], os) == Failed {
        var k :| 0 <= k < |roles| && store.roleVariable(roles[k], os) == Failed;
        assert store.roleVariable(rest[k - 1], os) == Failed;
      }
    }
  }

  /**
   * Without a failed lookup the role blocks are one block per role that has a row,
   * in role order; with one, the first failed lookup is reported.
   */
  lemma RoleBlocksMeaning(roles: seq<RoleId>, os: string, store: Store)
    ensures (forall k :: 0 <= k < |roles| ==> store.roleVariable(roles[k], os) != Failed)
            ==> RoleBlocks(roles, os, store) == Ok(BlocksText(FoundRows(roles, os, store)))
    ensures RoleBlocks(roles, os, store).Err? <==> exists k :: 0 <= k < |roles| && store.roleVariable(roles[k], os) == Failed
    ensures RoleBlocks(roles, os, store).Err? ==>
      exists k :: 0 <= k < |roles| && store.roleVariable(roles[k], os) == Failed
               && RoleBlocks(roles, os, store).error == RoleVariableQuery(roles[k], os)
               && forall j :: 0 <= j < k ==> store.roleVariable(roles[j], os) != Failed
  {
    if forall k :: 0 <= k < |roles| ==> store.roleVariable(roles[k], os) != Failed {
      RoleBlocksFound(roles, os, store);
    }
    RoleBlocksFailure(roles, os, store);
  }

  /** A group's variables file: the fixed header, then the blocks of the rows found for the group's own OS. */
  lemma GroupVarsShape(g: VmGroup, store: Store)
    requires forall k :: 0 <= k < |g.roles| ==> store.roleVariable(g.roles[k], LookupOs(g)) != Failed
    ensures GroupVarsContent(g, store) == Ok(GroupVarsHeader + BlocksText(FoundRows(g.roles, LookupOs(g), store)))
  {
    RoleBlocksMeaning(g.roles, LookupOs(g), store);
  }

  /** generateGroupVars completes exactly when every group's lookups succeed. */
  lemma {:induction false} GroupVarsCompletes(files: Files, environment: string, gs: seq<VmGroup>, store: Store)
    ensures WriteGroupVars(files, environment, gs, store).failure.None?
            <==> forall i :: 0 <= i < |gs| ==> GroupVarsContent(gs[i], store).Ok?
    decreases gs
  {
    if gs != [] {
      var c := GroupVarsContent(gs[0], store);
      if c.Ok? {
        GroupVarsCompletes(files[GroupVarsFile(environment, gs[0]) := c.value], environment, gs[1..], store);
        assert forall i :: 0 < i < |gs| ==> gs[i] == gs[1..][i - 1];
      }
    }
  }

  /** Paths no group of `gs` writes keep their content. */
  lemma {:induction false} GroupVarsUntouched(files: Files, environment: string, gs: seq<VmGroup>, store: Store, p: string)
    requires forall i :: 0 <= i < |gs| ==> GroupVarsFile(environment, gs[i]) != p
    ensures p in WriteGroupVars(files, environment, gs, store).files <==> p in files
    ensures p in files ==> WriteGroupVars(files, environment, gs, store).files[p] == files[p]
    decreases gs
  {
    if gs != [] {
      var c := GroupVarsContent(gs[0], store);
      if c.Ok? {
        assert forall i :: 0 <= i < |gs[1..]| ==> gs[1..][i] == gs[i + 1];
        GroupVarsUntouched(files[GroupVarsFile(environment, gs[0]) := c.value], environment, gs[1..], store, p);
      }
    }
  }

  /**
   * When it completes, each group's file holds that group's content, unless a later
   * group has the same file (same composite name and group number): the last one wins.
   */
  lemma {:induction false} GroupVarsLastWriterWins(files: Files, environment: string, gs: seq<VmGroup>, store: Store, i: nat)
    requires WriteGroupVars(files, environment, gs, store).failure.None?
    requires i < |gs|
    requires forall j :: i < j < |gs| ==> GroupVarsFile(environment, gs[j]) != GroupVarsFile(environment, gs[i])
    ensures GroupVarsContent(gs[i], store).Ok?
    ensures GroupVarsFile(environment, gs[i]) in WriteGroupVars(files, environment, gs, store).files
    ensures WriteGroupVars(files, environment, gs, store).files[GroupVarsFile(environment, gs[i])]
            == GroupVarsContent(gs[i], store).value
    decreases gs
  {
    hide GroupVarsContent, GroupVarsFile;
    var c := GroupVarsContent(gs[0], store);
    var next := files[GroupVarsFile(environment, gs[0]) := c.value];
    if i == 0 {
      assert forall j :: 0 <= j < |gs[1..]| ==> gs[1..][j] == gs[j + 1];
      GroupVarsUntouched(next, environment, gs[1..], store, GroupVarsFile(environment, gs[0]));
    } else {
      assert gs[1..][i - 1] == gs[i];
      GroupVarsLastWriterWins(next, environment, gs[1..], store, i - 1);
    }
  }

  /** A failure of the group-variable step is always a role-variable lookup. */
  lemma {:induction false} GroupVarsFailureKind(files: Files, environment: string, gs: seq<VmGroup>, store: Store)
    ensures var f := WriteGroupVars(files, environment, gs, store).failure;
      f.Some? ==> f.value.RoleVariableQuery?
    decreases gs
  {
    if gs != [] {
      var c := GroupVarsContent(gs[0], store);
      RoleBlocksMeaning(gs[0].roles, LookupOs(gs[0]), store);
      if c.Ok? {
        GroupVarsFailureKind(files[GroupVarsFile(environment, gs[0]) := c.value], environment, gs[1..], store);
      }
    }
  }
}
