/** Playbooks: one per VM group, plus an aggregate one per region with several groups. */
module Playbooks {
  import opened Model
  import opened Text
  import opened Naming
  import opened Regions
  import opened FileSystem

  /** The privilege-escalation line: Windows escalates with runas, every other platform with `become: yes`. */
  function BecomeConfig(osPlatform: string): string
  {
    if osPlatform == "Windows" then "  become_method: runas" else "  become: yes"
  }

  function RoleLine(osPlatform: string, role: RoleId): string
  {
    "    - shared_roles/" + osPlatform + "/" + role
  }

  /** The lines before the role list. */
  function PlaybookHeader(groupName: string, envName: string, osPlatform: string): seq<string>
  {
    [ "- hosts: " + groupName,
      "  gather_facts: true",
      BecomeConfig(osPlatform),
      "  strategy: free",
      "  vars_files:",
      "    - inventories/" + envName + "/group_vars/" + groupName + ".yml",
      "   ",
      "  roles:" ]
  }

  function RoleLines(osPlatform: string, roles: seq<RoleId>): seq<string>
  {
    seq(|roles|, i requires 0 <= i < |roles| => RoleLine(osPlatform, roles[i]))
  }

  /** The lines of a group playbook. */
  function PlaybookLines(groupName: string, envName: string, osPlatform: string, roles: seq<RoleId>): seq<string>
  {
    PlaybookHeader(groupName, envName, osPlatform) + RoleLines(osPlatform, roles)
  }

  /** A line that lists a shared role. */
  predicate IsRoleLine(line: string)
  {
    |line| >= 19 && line[..19] == "    - shared_roles/"
  }

  /** The eight fixed lines of generatePlaybookContent, appended one at a time. */
  method PlaybookHeaderContent(groupName: string, envName: string, osPlatform: string) returns (content: string)
    ensures content == Lines(PlaybookHeader(groupName, envName, osPlatform))
  {
    var becomeConfig := if osPlatform == "Windows" then "  become_method: runas" else "  become: yes";
    var hostsLine := "- hosts: " + groupName;
    var varsLine := "    - inventories/" + envName + "/group_vars/" + groupName + ".yml";
    ghost var ls: seq<string> := [];
    content := "";
    content := AppendLine(content, hostsLine, ls);
    ls := ls + [hostsLine];
    content := AppendLine(content, "  gather_facts: true", ls);
    ls := ls + ["  gather_facts: true"];
    content := AppendLine(content, becomeConfig, ls);
    ls := ls + [becomeConfig];
    content := AppendLine(content, "  strategy: free", ls);
    ls := ls + ["  strategy: free"];
    content := AppendLine(content, "  vars_files:", ls);
    ls := ls + ["  vars_files:"];
    content := AppendLine(content, varsLine, ls);
    ls := ls + [varsLine];
    content := AppendLine(content, "   ", ls);
    ls := ls + ["   "];
    content := AppendLine(content, "  roles:", ls);
    ls := ls + ["  roles:"];
    assert ls == PlaybookHeader(groupName, envName, osPlatform);
  }

  /** generatePlaybookContent: the fixed header, then one role line per role in order. */
  method GeneratePlaybookContent(groupName: string, envName: string, osPlatform: string, roles: seq<RoleId>)
    returns (content: string)
    ensures content == Lines(PlaybookLines(groupName, envName, osPlatform, roles))
  {
    content := PlaybookHeaderContent(groupName, envName, osPlatform);
    ghost var ls := PlaybookHeader(groupName, envName, osPlatform);
    assert ls + RoleLines(osPlatform, roles[..0]) == ls;
    for i := 0 to |roles|
      invariant content == Lines(ls + RoleLines(osPlatform, roles[..i]))
    {
      var line := "    - shared_roles/" + osPlatform + "/" + roles[i];
      RoleLinesSnoc(ls, osPlatform, roles, i);
      LinesSnoc(ls + RoleLines(osPlatform, roles[..i]), line);
      content := content + line + "\n";
    }
    assert roles[..|roles|] == roles;
  }

  lemma RoleLinesSnoc(ls: seq<string>, osPlatform: string, roles: seq<RoleId>, i: nat)
    requires i < |roles|
    ensures ls + RoleLines(osPlatform, roles[..i + 1])
         == (ls + RoleLines(osPlatform, roles[..i])) + ["    - shared_roles/" + osPlatform + "/" + roles[i]]
  {
    assert RoleLines(osPlatform, roles[..i + 1])
        == RoleLines(osPlatform, roles[..i]) + [RoleLine(osPlatform, roles[i])];
  }

  lemma NotRoleLine(line: string, k: nat)
    requires k < 19 && k < |line| && line[k] != "    - shared_roles/"[k]
    ensures !IsRoleLine(line)
  {
    if |line| >= 19 {
      assert line[..19][k] == line[k];
    }
  }

  /** Exactly the lines after the eight header lines list shared roles. */
  lemma PlaybookRoleLinesOnly(groupName: string, envName: string, osPlatform: string, roles: seq<RoleId>)
    ensures var ls := PlaybookLines(groupName, envName, osPlatform, roles);
      forall i :: 0 <= i < |ls| ==> (IsRoleLine(ls[i]) <==> i >= 8)
  {
    var ls := PlaybookLines(groupName, envName, osPlatform, roles);
    var h := PlaybookHeader(groupName, envName, osPlatform);
    forall i | 8 <= i < |ls| ensures IsRoleLine(ls[i]) {
      assert ls[i] == RoleLine(osPlatform, roles[i - 8]);
      assert ls[i][..19] == "    - shared_roles/";
    }
    forall i | 0 <= i < 8 ensures !IsRoleLine(ls[i]) {
      assert ls[i] == h[i];
      if i == 0 { NotRoleLine(ls[i], 0); }
      if i == 1 || i == 2 { NotRoleLine(ls[i], 2); }
      if i == 5 { NotRoleLine(ls[i], 6); }
    }
  }

  /** A group playbook escalates with runas exactly on Windows and with `become: yes` everywhere else. */
  lemma PlaybookBecome(groupName: string, envName: string, osPlatform: string, roles: seq<RoleId>)
    ensures var ls := PlaybookLines(groupName, envName, osPlatform, roles);
      && ("  become_method: runas" in ls <==> osPlatform == "Windows")
      && ("  become: yes" in ls <==> osPlatform != "Windows")
  {
    var ls := PlaybookLines(groupName, envName, osPlatform, roles);
    PlaybookRoleLinesOnly(groupName, envName, osPlatform, roles);
    NotRoleLine("  become_method: runas", 2);
    NotRoleLine("  become: yes", 2);
    assert ls[2] == BecomeConfig(osPlatform);
    forall i | 0 <= i < |ls| && i != 2 ensures ls[i] != "  become_method: runas" && ls[i] != "  become: yes" {
      if i < 8 {
        assert ls[i] == PlaybookHeader(groupName, envName, osPlatform)[i];
        if i == 0 {
          assert ls[i][0] == '-';
        } else if i == 5 {
          assert ls[i][4] == '-';
        }
      }
    }
  }

  /**
   * A group playbook targets its group, reads the group's variables file, and lists one
   * shared role per role of the group, in order.
   */
  lemma PlaybookLinesShape(groupName: string, envName: string, osPlatform: string, roles: seq<RoleId>)
    ensures var ls := PlaybookLines(groupName, envName, osPlatform, roles);
      && ls[0] == "- hosts: " + groupName
      && ls[5] == "    - " + GroupVarsPath(envName, groupName)[8..]
      && |ls| == 8 + |roles|
      && (forall i :: 0 <= i < |roles| ==> ls[8 + i] == "    - shared_roles/" + osPlatform + "/" + roles[i])
  {
    GroupVarsLine(envName, groupName);
  }

  lemma GroupVarsLine(envName: string, groupName: string)
    ensures "    - " + GroupVarsPath(envName, groupName)[8..] == "    - inventories/" + envName + "/group_vars/" + groupName + ".yml"
  {
    var tail := "inventories/" + envName + "/group_vars/" + groupName + ".yml";
    assert GroupVarsPath(envName, groupName) == "ansible/" + tail;
    assert ("ansible/" + tail)[8..] == tail;
  }

  // ------------------------------------------------------------ the files of a region

  function GroupPlaybookPath(envName: string, g: VmGroup): string
  {
    PlaybookPath(PlaybookFile(GroupName(envName, g.groupNumber)))
  }

  function GroupPlaybookText(envName: string, osPlatform: string, g: VmGroup): string
  {
    Lines(PlaybookLines(GroupName(envName, g.groupNumber), envName, osPlatform, g.roles))
  }

  /** The tree after the inner loop of generatePlaybooks has written the playbooks of `groups`. */
  function WriteGroupPlaybooks(files: Files, envName: string, osPlatform: string, groups: seq<VmGroup>): Files
    decreases groups
  {
    if groups == [] then files
    else WriteGroupPlaybooks(files[GroupPlaybookPath(envName, groups[0]) := GroupPlaybookText(envName, osPlatform, groups[0])],
                             envName, osPlatform, groups[1..])
  }

  const AllPlaybookHeader: string := "---\n# Main playbook that includes all VM group playbooks\n"

  function ImportLines(envName: string, groups: seq<VmGroup>): seq<string>
  {
    seq(|groups|, k requires 0 <= k < |groups| => "- import_playbook: " + PlaybookFile(GroupName(envName, groups[k].groupNumber)))
  }

  /** The aggregate playbook: the header, then one import per group, in order. */
  function AllPlaybookText(envName: string, groups: seq<VmGroup>): string
  {
    AllPlaybookHeader + Lines(ImportLines(envName, groups))
  }

  /** One iteration of the outer loop of generatePlaybooks. */
  function WriteRegionPlaybooks(files: Files, environment: string, osPlatform: string, b: RegionBucket): Files
  {
    var envName := EnvName(environment, b.region);
    var written := WriteGroupPlaybooks(files, envName, osPlatform, b.groups);
    if |b.groups| > 1 then written[PlaybookPath(AllPlaybookFile(envName)) := AllPlaybookText(envName, b.groups)]
    else written
  }

  /** The tree after generatePlaybooks has processed the buckets `bs`, in order. */
  function WritePlaybooks(files: Files, environment: string, osPlatform: string, bs: seq<RegionBucket>): Files
    decreases bs
  {
    if bs == [] then files
    else WritePlaybooks(WriteRegionPlaybooks(files, environment, osPlatform, bs[0]), environment, osPlatform, bs[1..])
  }

  /** The import lines of generatePlaybooks, appended to `prefix` one per group. */
  method AppendImportLines(prefix: string, envName: string, groups: seq<VmGroup>) returns (content: string)
    ensures content == prefix + Lines(ImportLines(envName, groups))
  {
    content := prefix;
    assert ImportLines(envName, groups[..0]) == [];
    assert Lines([]) == "";
    hide Lines;
    for j := 0 to |groups|
      invariant content == prefix + Lines(ImportLines(envName, groups[..j]))
    {
      var groupName := GroupName(envName, groups[j].groupNumber);
      var line := "- import_playbook: " + PlaybookFile(groupName);
      ImportLinesSnoc(envName, groups, j);
      LinesSnoc(ImportLines(envName, groups[..j]), line);
      AppendAssoc(prefix, Lines(ImportLines(envName, groups[..j])), line + "\n");
      content := content + (line + "\n");
    }
    assert groups[..|groups|] == groups;
  }

  lemma ImportLinesSnoc(envName: string, groups: seq<VmGroup>, j: nat)
    requires j < |groups|
    ensures ImportLines(envName, groups[..j + 1])
         == ImportLines(envName, groups[..j]) + ["- import_playbook: " + PlaybookFile(GroupName(envName, groups[j].groupNumber))]
  {
    var a := ImportLines(envName, groups[..j + 1]);
    var b := ImportLines(envName, groups[..j]) + ["- import_playbook: " + PlaybookFile(GroupName(envName, groups[j].groupNumber))];
    assert |a| == |b|;
    forall k | 0 <= k < |a| ensures a[k] == b[k] {
      assert groups[..j + 1][k] == groups[k];
    }
  }

  /** The aggregate playbook of generatePlaybooks: the fixed header, then the import lines. */
  method AllPlaybookContent(envName: string, groups: seq<VmGroup>) returns (allPlaybookContent: string)
    ensures allPlaybookContent == AllPlaybookText(envName, groups)
  {
    allPlaybookContent := AllPlaybookHeader;
    allPlaybookContent := AppendImportLines(allPlaybookContent, envName, groups);
  }

  /**
   * generatePlaybooks: group the VMs by region; per region, write each group's playbook and,
   * when the region has more than one group, the aggregate playbook importing them all.
   */
  method GeneratePlaybooks(tree: FileTree, environment: string, osPlatform: string, vmGroups: seq<VmGroup>)
    modifies tree
    ensures tree.files == WritePlaybooks(old(tree.files), environment, osPlatform, Grouped(vmGroups))
  {
    hide Lines, PlaybookLines, AllPlaybookText;
    var groupedByRegion := GroupVmsByRegion(vmGroups);
    for e := 0 to |groupedByRegion|
      invariant WritePlaybooks(old(tree.files), environment, osPlatform, groupedByRegion)
             == WritePlaybooks(tree.files, environment, osPlatform, groupedByRegion[e..])
    {
      var region := groupedByRegion[e].region;
      var groups := groupedByRegion[e].groups;
      var envName := EnvName(environment, region);
      ghost var before := tree.files;
      for j := 0 to |groups|
        invariant WriteGroupPlaybooks(before, envName, osPlatform, groups)
               == WriteGroupPlaybooks(tree.files, envName, osPlatform, groups[j..])
      {
        var group := groups[j];
        var groupName := GroupName(envName, group.groupNumber);
        var playbookName := PlaybookFile(groupName);
        var playbookContent := GeneratePlaybookContent(groupName, envName, osPlatform, group.roles);
        tree.WriteFile(PlaybookPath(playbookName), playbookContent);
        assert groups[j..][1..] == groups[j + 1..];
      }
      assert groups[|groups|..] == [];
      assert tree.files == WriteGroupPlaybooks(before, envName, osPlatform, groups);
      if |groups| > 1 {
        var allPlaybookContent := AllPlaybookContent(envName, groups);
        tree.WriteFile(PlaybookPath(AllPlaybookFile(envName)), allPlaybookContent);
      }
      assert tree.files == WriteRegionPlaybooks(before, environment, osPlatform, groupedByRegion[e]);
      assert groupedByRegion[e..][1..] == groupedByRegion[e + 1..];
    }
  }

  // ------------------------------------------------------------ properties

  function GroupPlaybookPaths(envName: string, groups: seq<VmGroup>): set<string>
  {
    set g | g in groups :: GroupPlaybookPath(envName, g)
  }

  /** The group playbooks add exactly one path per group and touch no other file. */
  lemma {:induction false} GroupPlaybooksFrame(files: Files, envName: string, osPlatform: string, groups: seq<VmGroup>)
    ensures WriteGroupPlaybooks(files, envName, osPlatform, groups).Keys == files.Keys + GroupPlaybookPaths(envName, groups)
    ensures forall p :: p in files && p !in GroupPlaybookPaths(envName, groups) ==>
      WriteGroupPlaybooks(files, envName, osPlatform, groups)[p] == files[p]
    decreases groups
  {
    hide GroupPlaybookText, GroupPlaybookPath;
    if groups != [] {
      var f := files[GroupPlaybookPath(envName, groups[0]) := GroupPlaybookText(envName, osPlatform, groups[0])];
      GroupPlaybooksFrame(f, envName, osPlatform, groups[1..]);
      assert GroupPlaybookPaths(envName, groups)
          == {GroupPlaybookPath(envName, groups[0])} + GroupPlaybookPaths(envName, groups[1..]) by {
        assert groups == [groups[0]] + groups[1..];
      }
    }
  }

  /**
   * A group's playbook holds that group's content unless a later group of the region
   * writes the same path (same group number): the last writer wins.
   */
  lemma {:induction false} GroupPlaybookContent(files: Files, envName: string, osPlatform: string, groups: seq<VmGroup>, k: nat)
    requires k < |groups|
    requires forall l :: k < l < |groups| ==> GroupPlaybookPath(envName, groups[l]) != GroupPlaybookPath(envName, groups[k])
    ensures var written := WriteGroupPlaybooks(files, envName, osPlatform, groups);
      GroupPlaybookPath(envName, groups[k]) in written
      && written[GroupPlaybookPath(envName, groups[k])] == GroupPlaybookText(envName, osPlatform, groups[k])
    decreases groups
  {
    var f := files[GroupPlaybookPath(envName, groups[0]) := GroupPlaybookText(envName, osPlatform, groups[0])];
    if k == 0 {
      GroupPlaybooksFrame(f, envName, osPlatform, groups[1..]);
      assert GroupPlaybookPath(envName, groups[0]) !in GroupPlaybookPaths(envName, groups[1..]);
    } else {
      GroupPlaybookContent(f, envName, osPlatform, groups[1..], k - 1);
    }
  }

  /** Group playbook paths differ exactly when group numbers do. */
  lemma GroupPlaybookPathInjective(envName: string, g: VmGroup, h: VmGroup)
    ensures GroupPlaybookPath(envName, g) == GroupPlaybookPath(envName, h) <==> g.groupNumber == h.groupNumber
  {
    var pre := "ansible/" + envName + "_group";
    var suf := "_ansible_playbook.yml";
    if GroupPlaybookPath(envName, g) == GroupPlaybookPath(envName, h) {
      assert GroupPlaybookPath(envName, g) == pre + g.groupNumber + suf;
      assert GroupPlaybookPath(envName, h) == pre + h.groupNumber + suf;
      assert g.groupNumber == GroupPlaybookPath(envName, g)[|pre|..|GroupPlaybookPath(envName, g)| - |suf|];
      assert h.groupNumber == GroupPlaybookPath(envName, h)[|pre|..|GroupPlaybookPath(envName, h)| - |suf|];
    }
  }

  /** The aggregate playbook of a region never shares a path with one of its group playbooks. */
  lemma AllPlaybookPathDistinct(envName: string, g: VmGroup)
    ensures PlaybookPath(AllPlaybookFile(envName)) != GroupPlaybookPath(envName, g)
  {
    var n := |"ansible/" + envName + "_"|;
    assert PlaybookPath(AllPlaybookFile(envName))[n] == 'a';
    assert GroupPlaybookPath(envName, g)[n] == 'g';
  }

  /**
   * Across regions the names can meet: in environment `dev`, the aggregate playbook of region
   * `group1` is the playbook of group number `1_all` in the group with no region.
   */
  lemma AggregateMeetsOtherRegion(g: VmGroup)
    requires g.groupNumber == "1_all"
    ensures PlaybookPath(AllPlaybookFile(EnvName("dev", "group1"))) == GroupPlaybookPath(EnvName("dev", ""), g)
  {
    hide PlaybookPath;
    var suffix := "_ansible_playbook.yml";
    assert "_all_ansible_playbook.yml" == "_all" + suffix;
    assert "1_all" == "1" + "_all";
    assert "group1" == "group" + "1";
    assert "_" + "group" == "_group";
    assert "dev" + "_" + ("group" + "1") + ("_all" + suffix) == "dev" + "_group" + ("1" + "_all") + suffix;
  }

  /**
   * In the files of a region, the aggregate playbook is present exactly when the region has
   * more than one group (or it was already there), and then imports every group playbook in order.
   */
  lemma RegionAggregate(files: Files, environment: string, osPlatform: string, b: RegionBucket)
    ensures var envName := EnvName(environment, b.region);
      var allPath := PlaybookPath(AllPlaybookFile(envName));
      var written := WriteRegionPlaybooks(files, environment, osPlatform, b);
      && (allPath in written <==> |b.groups| > 1 || allPath in files)
      && (|b.groups| > 1 ==> written[allPath] == AllPlaybookHeader + Lines(ImportLines(envName, b.groups)))
      && (|b.groups| <= 1 && allPath in files ==> written[allPath] == files[allPath])
  {
    var envName := EnvName(environment, b.region);
    var allPath := PlaybookPath(AllPlaybookFile(envName));
    GroupPlaybooksFrame(files, envName, osPlatform, b.groups);
    forall g | g in b.groups ensures allPath != GroupPlaybookPath(envName, g) {
      AllPlaybookPathDistinct(envName, g);
    }
  }

  /** Every import line of the aggregate playbook names a group playbook written in the same directory. */
  lemma ImportsNameWrittenPlaybooks(files: Files, environment: string, osPlatform: string, b: RegionBucket)
    ensures var envName := EnvName(environment, b.region);
      var written := WriteRegionPlaybooks(files, environment, osPlatform, b);
      var imports := ImportLines(envName, b.groups);
      && |imports| == |b.groups|
      && forall k :: 0 <= k < |imports| ==>
        var f := imports[k][|"- import_playbook: "|..];
        imports[k] == "- import_playbook: " + f && PlaybookPath(f) in written
        && f == PlaybookFile(GroupName(envName, b.groups[k].groupNumber))
  {
    var envName := EnvName(environment, b.region);
    GroupPlaybooksFrame(files, envName, osPlatform, b.groups);
    var imports := ImportLines(envName, b.groups);
    forall k | 0 <= k < |imports|
      ensures imports[k][|"- import_playbook: "|..] == PlaybookFile(GroupName(envName, b.groups[k].groupNumber))
    {
      var f := PlaybookFile(GroupName(envName, b.groups[k].groupNumber));
      assert imports[k] == "- import_playbook: " + f;
    }
    forall k | 0 <= k < |imports|
      ensures GroupPlaybookPath(envName, b.groups[k]) in GroupPlaybookPaths(envName, b.groups)
    {
      assert b.groups[k] in b.groups;
    }
  }

  /** The playbook run only adds files. */
  lemma {:induction false} PlaybooksGrow(files: Files, environment: string, osPlatform: string, bs: seq<RegionBucket>)
    ensures files.Keys <= WritePlaybooks(files, environment, osPlatform, bs).Keys
    decreases bs
  {
    if bs != [] {
      var envName := EnvName(environment, bs[0].region);
      GroupPlaybooksFrame(files, envName, osPlatform, bs[0].groups);
      PlaybooksGrow(WriteRegionPlaybooks(files, environment, osPlatform, bs[0]), environment, osPlatform, bs[1..]);
    }
  }

  /** Every VM group of the request gets a playbook named after its composite environment. */
  lemma EveryGroupHasPlaybook(files: Files, environment: string, osPlatform: string, vmGroups: seq<VmGroup>)
    ensures forall g :: g in vmGroups ==>
      GroupPlaybookPath(EnvName(environment, RegionKey(g)), g) in WritePlaybooks(files, environment, osPlatform, Grouped(vmGroups))
  {
    forall g | g in vmGroups
      ensures GroupPlaybookPath(EnvName(environment, RegionKey(g)), g) in WritePlaybooks(files, environment, osPlatform, Grouped(vmGroups))
    {
      GroupedEntries(vmGroups);
      RegionsComplete(vmGroups, RegionKey(g));
      var rs := Regions.Regions(vmGroups);
      var k :| 0 <= k < |rs| && rs[k] == RegionKey(g);
      InRegionMembers(vmGroups, RegionKey(g));
      BucketWrittenLater(files, environment, osPlatform, Grouped(vmGroups), k, g);
    }
  }

  /** A group of the k-th bucket has its playbook in the final tree. */
  lemma {:induction false} BucketWrittenLater(files: Files, environment: string, osPlatform: string, bs: seq<RegionBucket>, k: nat, g: VmGroup)
    requires k < |bs| && g in bs[k].groups
    ensures GroupPlaybookPath(EnvName(environment, bs[k].region), g) in WritePlaybooks(files, environment, osPlatform, bs)
    decreases bs
  {
    var next := WriteRegionPlaybooks(files, environment, osPlatform, bs[0]);
    if k == 0 {
      GroupPlaybooksFrame(files, EnvName(environment, bs[0].region), osPlatform, bs[0].groups);
      PlaybooksGrow(next, environment, osPlatform, bs[1..]);
    } else {
      BucketWrittenLater(next, environment, osPlatform, bs[1..], k - 1, g);
    }
  }

  /** The aggregate playbook of a k-th bucket with several groups is in the final tree. */
  lemma {:induction false} AggregateWrittenLater(files: Files, environment: string, osPlatform: string, bs: seq<RegionBucket>, k: nat)
    requires k < |bs| && |bs[k].groups| > 1
    ensures PlaybookPath(AllPlaybookFile(EnvName(environment, bs[k].region))) in WritePlaybooks(files, environment, osPlatform, bs)
    decreases bs
  {
    var next := WriteRegionPlaybooks(files, environment, osPlatform, bs[0]);
    if k == 0 {
      PlaybooksGrow(next, environment, osPlatform, bs[1..]);
    } else {
      AggregateWrittenLater(next, environment, osPlatform, bs[1..], k - 1);
    }
  }

  /** A path the playbook step may write: one ending in `playbook.yml`. */
  predicate PlaybookShaped(p: string)
  {
    |p| >= 12 && p[|p| - 12..] == "playbook.yml"
  }

  lemma EndsInPlaybook(s: string)
    ensures PlaybookShaped(s + "playbook.yml")
  {
    var p := s + "playbook.yml";
    assert p[|p| - 12..] == "playbook.yml";
  }

  lemma GroupPlaybookPathShaped(envName: string, g: VmGroup)
    ensures PlaybookShaped(GroupPlaybookPath(envName, g))
  {
    var gn := GroupName(envName, g.groupNumber);
    assert GroupPlaybookPath(envName, g) == ("ansible/" + gn + "_ansible_") + "playbook.yml";
    EndsInPlaybook("ansible/" + gn + "_ansible_");
  }

  lemma AllPlaybookPathShaped(envName: string)
    ensures PlaybookShaped(PlaybookPath(AllPlaybookFile(envName)))
  {
    assert PlaybookPath(AllPlaybookFile(envName)) == ("ansible/" + envName + "_all_ansible_") + "playbook.yml";
    EndsInPlaybook("ansible/" + envName + "_all_ansible_");
  }

  /** generatePlaybooks writes only paths ending in `playbook.yml`: every other file keeps its state. */
  lemma {:induction false} PlaybooksFrame(files: Files, environment: string, osPlatform: string, bs: seq<RegionBucket>, p: string)
    requires !PlaybookShaped(p)
    ensures p in WritePlaybooks(files, environment, osPlatform, bs) <==> p in files
    ensures p in files ==> WritePlaybooks(files, environment, osPlatform, bs)[p] == files[p]
    decreases bs
  {
    if bs != [] {
      var envName := EnvName(environment, bs[0].region);
      GroupPlaybooksFrame(files, envName, osPlatform, bs[0].groups);
      forall g | g in bs[0].groups ensures GroupPlaybookPath(envName, g) != p {
        GroupPlaybookPathShaped(envName, g);
      }
      AllPlaybookPathShaped(envName);
      PlaybooksFrame(WriteRegionPlaybooks(files, environment, osPlatform, bs[0]), environment, osPlatform, bs[1..], p);
    }
  }

  // ------------------------------------------------------------ the final playbooks

  /** The paths one iteration of the outer loop writes: its group playbooks and, with several groups, the aggregate. */
  function RegionPaths(environment: string, b: RegionBucket): set<string>
  {
    var envName := EnvName(environment, b.region);
    GroupPlaybookPaths(envName, b.groups) + (if |b.groups| > 1 then {PlaybookPath(AllPlaybookFile(envName))} else {})
  }

  /**
   * No two regions write the same path. Names are concatenated, so regions can meet
   * (see AggregateMeetsOtherRegion); the final-tree properties assume they do not.
   */
  predicate RegionsApart(environment: string, bs: seq<RegionBucket>)
  {
    forall k, l :: 0 <= k < l < |bs| ==> RegionPaths(environment, bs[k]) !! RegionPaths(environment, bs[l])
  }

  /** One iteration leaves every path outside its own as it was. */
  lemma RegionFrame(files: Files, environment: string, osPlatform: string, b: RegionBucket, p: string)
    requires p !in RegionPaths(environment, b)
    ensures p in WriteRegionPlaybooks(files, environment, osPlatform, b) <==> p in files
    ensures p in files ==> WriteRegionPlaybooks(files, environment, osPlatform, b)[p] == files[p]
  {
    GroupPlaybooksFrame(files, EnvName(environment, b.region), osPlatform, b.groups);
  }

  /** Buckets that do not write a path leave it as it was. */
  lemma {:induction false} PlaybooksUntouched(files: Files, environment: string, osPlatform: string, bs: seq<RegionBucket>, p: string)
    requires forall l :: 0 <= l < |bs| ==> p !in RegionPaths(environment, bs[l])
    requires p in files
    ensures p in WritePlaybooks(files, environment, osPlatform, bs)
    ensures WritePlaybooks(files, environment, osPlatform, bs)[p] == files[p]
    decreases bs
  {
    if bs != [] {
      RegionFrame(files, environment, osPlatform, bs[0], p);
      forall l | 0 <= l < |bs[1..]| ensures p !in RegionPaths(environment, bs[1..][l]) {
        assert bs[1..][l] == bs[l + 1];
      }
      PlaybooksUntouched(WriteRegionPlaybooks(files, environment, osPlatform, bs[0]), environment, osPlatform, bs[1..], p);
    }
  }

  /**
   * What the k-th bucket writes at one of its paths, whatever the tree before it, is what the
   * final tree holds there when the regions are apart.
   */
  lemma {:induction false} RegionFileSurvives(files: Files, environment: string, osPlatform: string, bs: seq<RegionBucket>,
                                             k: nat, p: string, c: string)
    requires k < |bs| && RegionsApart(environment, bs) && p in RegionPaths(environment, bs[k])
    requires forall f: Files :: p in WriteRegionPlaybooks(f, environment, osPlatform, bs[k])
                                && WriteRegionPlaybooks(f, environment, osPlatform, bs[k])[p] == c
    ensures p in WritePlaybooks(files, environment, osPlatform, bs)
    ensures WritePlaybooks(files, environment, osPlatform, bs)[p] == c
    decreases bs
  {
    var next := WriteRegionPlaybooks(files, environment, osPlatform, bs[0]);
    if k == 0 {
      assert p in next && next[p] == c;
      forall l | 0 <= l < |bs[1..]| ensures p !in RegionPaths(environment, bs[1..][l]) {
        assert bs[1..][l] == bs[l + 1];
        assert RegionPaths(environment, bs[0]) !! RegionPaths(environment, bs[l + 1]);
      }
      PlaybooksUntouched(next, environment, osPlatform, bs[1..], p);
    } else {
      forall k', l' | 0 <= k' < l' < |bs[1..]|
        ensures RegionPaths(environment, bs[1..][k']) !! RegionPaths(environment, bs[1..][l'])
      {
        assert bs[1..][k'] == bs[k' + 1] && bs[1..][l'] == bs[l' + 1];
      }
      assert bs[1..][k - 1] == bs[k];
      RegionFileSurvives(next, environment, osPlatform, bs[1..], k - 1, p, c);
    }
  }

  /** A group's playbook holds its own content when every group of the region with its number is that group. */
  lemma {:induction false} GroupPlaybookOf(files: Files, envName: string, osPlatform: string, groups: seq<VmGroup>, g: VmGroup)
    requires g in groups
    requires forall h :: h in groups && h.groupNumber == g.groupNumber ==> h == g
    ensures GroupPlaybookPath(envName, g) in WriteGroupPlaybooks(files, envName, osPlatform, groups)
    ensures WriteGroupPlaybooks(files, envName, osPlatform, groups)[GroupPlaybookPath(envName, g)]
            == GroupPlaybookText(envName, osPlatform, g)
    decreases groups
  {
    var f := files[GroupPlaybookPath(envName, groups[0]) := GroupPlaybookText(envName, osPlatform, groups[0])];
    if g in groups[1..] {
      GroupPlaybookOf(f, envName, osPlatform, groups[1..], g);
    } else {
      assert g == groups[0];
      GroupPlaybooksFrame(f, envName, osPlatform, groups[1..]);
      forall h | h in groups[1..] ensures GroupPlaybookPath(envName, h) != GroupPlaybookPath(envName, g) {
        GroupPlaybookPathInjective(envName, g, h);
      }
    }
  }

  /**
   * After generatePlaybooks, with the regions apart, a group of the k-th bucket whose number no
   * other group of the bucket has holds its own playbook.
   */
  lemma FinalGroupPlaybook(files: Files, environment: string, osPlatform: string, bs: seq<RegionBucket>, k: nat, g: VmGroup)
    requires RegionsApart(environment, bs) && k < |bs| && g in bs[k].groups
    requires forall h :: h in bs[k].groups && h.groupNumber == g.groupNumber ==> h == g
    ensures var envName := EnvName(environment, bs[k].region);
      && GroupPlaybookPath(envName, g) in WritePlaybooks(files, environment, osPlatform, bs)
      && WritePlaybooks(files, environment, osPlatform, bs)[GroupPlaybookPath(envName, g)]
         == GroupPlaybookText(envName, osPlatform, g)
  {
    var envName := EnvName(environment, bs[k].region);
    var p := GroupPlaybookPath(envName, g);
    var c := GroupPlaybookText(envName, osPlatform, g);
    forall f: Files ensures p in WriteRegionPlaybooks(f, environment, osPlatform, bs[k])
                            && WriteRegionPlaybooks(f, environment, osPlatform, bs[k])[p] == c
    {
      GroupPlaybookOf(f, envName, osPlatform, bs[k].groups, g);
      AllPlaybookPathDistinct(envName, g);
    }
    assert p in GroupPlaybookPaths(envName, bs[k].groups);
    RegionFileSurvives(files, environment, osPlatform, bs, k, p, c);
  }

  /** After generatePlaybooks, with the regions apart, a bucket with several groups holds its aggregate playbook. */
  lemma FinalAggregatePlaybook(files: Files, environment: string, osPlatform: string, bs: seq<RegionBucket>, k: nat)
    requires RegionsApart(environment, bs) && k < |bs| && |bs[k].groups| > 1
    ensures var envName := EnvName(environment, bs[k].region);
      && PlaybookPath(AllPlaybookFile(envName)) in WritePlaybooks(files, environment, osPlatform, bs)
      && WritePlaybooks(files, environment, osPlatform, bs)[PlaybookPath(AllPlaybookFile(envName))]
         == AllPlaybookText(envName, bs[k].groups)
  {
    var envName := EnvName(environment, bs[k].region);
    var p := PlaybookPath(AllPlaybookFile(envName));
    RegionFileSurvives(files, environment, osPlatform, bs, k, p, AllPlaybookText(envName, bs[k].groups));
  }
}
