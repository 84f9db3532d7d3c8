/**
 * The request rule sets of backend/middleware/validation.js. Express-validator runs every
 * validator of every chain, in declaration order, and reports one error per failed validator
 * with the message given by the `withMessage` that follows it.
 */
module Validation {
  import opened Wrappers

  // ------------------------------------------------------------ field values

  /** A flat JSON body: the text rendering of each field that is present. */
  type Body = map<string, string>

  function Get(body: Body, name: string): Option<string>
  {
    if name in body then Some(body[name]) else None
  }

  /** The validators see an absent field as the empty string. */
  function TextOf(v: Option<string>): string
  {
    if v.Some? then v.value else ""
  }

  /** Where a failed validator points: a body field, or a field of the i-th VM group (`vmGroups[i].name`). */
  datatype Param = Field(name: string) | GroupField(index: nat, name: string)

  datatype FieldError = FieldError(param: Param, msg: string)

  /** One validator of a chain: no error when it passes, its message when it fails. */
  function Check(p: Param, ok: bool, msg: string): (errs: seq<FieldError>)
    ensures errs == [] <==> ok
    ensures !ok ==> errs == [FieldError(p, msg)]
  {
    if ok then [] else [FieldError(p, msg)]
  }

  // ------------------------------------------------------------ trim

  /** The characters of the JavaScript `\s` class, which the `trim()` sanitizer strips. */
  predicate IsSpace(c: char)
  {
    || c == '\t' || c == '\n' || c == '\U{000B}' || c == '\U{000C}' || c == '\r' || c == ' '
    || c == '\U{00A0}' || c == '\U{1680}' || ('\U{2000}' <= c <= '\U{200A}')
    || c == '\U{2028}' || c == '\U{2029}' || c == '\U{202F}' || c == '\U{205F}'
    || c == '\U{3000}' || c == '\U{FEFF}'
  }

  predicate AllSpace(s: string)
  {
    forall k :: 0 <= k < |s| ==> IsSpace(s[k])
  }

  /** `ltrim`: the suffix left after the leading whitespace. */
  function TrimStart(s: string): (r: string)
    ensures |r| <= |s| && r == s[|s| - |r|..]
    ensures AllSpace(s[..|s| - |r|])
    ensures r == [] || !IsSpace(r[0])
    decreases |s|
  {
    if |s| > 0 && IsSpace(s[0]) then
      var r := TrimStart(s[1..]);
      assert s[..|s| - |r|] == [s[0]] + s[1..][..|s[1..]| - |r|];
      r
    else s
  }

  /** `rtrim`: the prefix left after the trailing whitespace. */
  function TrimEnd(s: string): (r: string)
    ensures |r| <= |s| && r == s[..|r|]
    ensures AllSpace(s[|r|..])
    ensures r == [] || !IsSpace(r[|r| - 1])
    decreases |s|
  {
    if |s| > 0 && IsSpace(s[|s| - 1]) then
      var r := TrimEnd(s[..|s| - 1]);
      assert s[|r|..] == s[..|s| - 1][|r|..] + [s[|s| - 1]];
      r
    else s
  }

  /** The `trim()` sanitizer: both ends stripped of whitespace, the middle untouched. */
  function Trim(s: string): (r: string)
    ensures r == [] <==> AllSpace(s)
    ensures r != [] ==> !IsSpace(r[0]) && !IsSpace(r[|r| - 1])
    ensures exists i, j :: 0 <= i <= j <= |s| && r == s[i..j] && AllSpace(s[..i]) && AllSpace(s[j..])
  {
    var t := TrimStart(s);
    var r := TrimEnd(t);
    TrimParts(s, t, r);
    TrimInfix(s, t, r);
    r
  }

  lemma TrimParts(s: string, t: string, r: string)
    requires t == TrimStart(s) && r == TrimEnd(t)
    ensures r == [] <==> AllSpace(s)
    ensures r != [] ==> !IsSpace(r[0]) && !IsSpace(r[|r| - 1])
  {
    if r == [] {
      TrimAllSpace(s, t);
    } else {
      TrimEnds(s, t, r);
    }
  }

  /** Nothing is left exactly when both strips together removed the whole value. */
  lemma TrimAllSpace(s: string, t: string)
    requires t == TrimStart(s) && TrimEnd(t) == []
    ensures AllSpace(s)
  {
    hide IsSpace, TrimStart, TrimEnd;
    var i := |s| - |t|;
    assert t[0..] == t;
    AllSpaceAppend(s[..i], t);
    assert s[..i] + t == s;
  }

  /** What is left starts where the leading whitespace ends, so it starts with a non-space. */
  lemma TrimEnds(s: string, t: string, r: string)
    requires t == TrimStart(s) && r == TrimEnd(t) && r != []
    ensures !AllSpace(s) && !IsSpace(r[0]) && !IsSpace(r[|r| - 1])
  {
    hide IsSpace, TrimStart, TrimEnd;
    var i := |s| - |t|;
    assert r[0] == t[0] && s[i] == t[0];
    assert !IsSpace(s[i]);
  }

  /** What is left is the part of the value between the two whitespace runs. */
  lemma TrimInfix(s: string, t: string, r: string)
    requires t == TrimStart(s) && r == TrimEnd(t)
    ensures exists i, j :: 0 <= i <= j <= |s| && r == s[i..j] && AllSpace(s[..i]) && AllSpace(s[j..])
  {
    hide IsSpace, TrimStart, TrimEnd, AllSpace;
    TrimCuts(s, t, r);
    SliceBetween(s, t, r);
  }

  /** Proof helper: the two strips as cuts, a suffix of `s` and then a prefix of it, each cutting off whitespace only. */
  lemma TrimCuts(s: string, t: string, r: string)
    requires t == TrimStart(s) && r == TrimEnd(t)
    ensures |t| <= |s| && t == s[|s| - |t|..] && AllSpace(s[..|s| - |t|])
    ensures |r| <= |t| && r == t[..|r|] && AllSpace(t[|r|..])
  {
    hide IsSpace, TrimStart, TrimEnd, AllSpace;
  }

  /** Proof helper: a prefix `r` of a suffix `t` of `s` is a slice of `s`, with what was cut off on either side. */
  lemma SliceBetween(s: string, t: string, r: string)
    requires |t| <= |s| && t == s[|s| - |t|..] && AllSpace(s[..|s| - |t|])
    requires |r| <= |t| && r == t[..|r|] && AllSpace(t[|r|..])
    ensures exists i, j :: 0 <= i <= j <= |s| && r == s[i..j] && AllSpace(s[..i]) && AllSpace(s[j..])
  {
    hide AllSpace;
    var i := |s| - |t|;
    var j := i + |r|;
    assert s[i..j] == t[..|r|];
    assert s[j..] == t[|r|..];
  }

  lemma AllSpaceAppend(a: string, b: string)
    ensures AllSpace(a + b) <==> AllSpace(a) && AllSpace(b)
  {
    if AllSpace(a) && AllSpace(b) {
      forall k | 0 <= k < |a + b| ensures IsSpace((a + b)[k]) {
        if k < |a| { assert (a + b)[k] == a[k]; } else { assert (a + b)[k] == b[k - |a|]; }
      }
    }
    if AllSpace(a + b) {
      forall k | 0 <= k < |a| ensures IsSpace(a[k]) { assert (a + b)[k] == a[k]; }
      forall k | 0 <= k < |b| ensures IsSpace(b[k]) { assert (a + b)[|a| + k] == b[k]; }
    }
  }

  lemma TrimIdempotent(s: string)
    ensures Trim(Trim(s)) == Trim(s)
  {
    var r := Trim(s);
    if r != [] {
      assert TrimStart(r) == r;
      assert TrimEnd(r) == r;
    }
  }

  // ------------------------------------------------------------ the validators

  /** The length isLength measures: code points, without the emoji presentation selectors U+FE0E and U+FE0F. */
  function ValidatorLength(s: string): (n: nat)
    ensures n == |s| - multiset(s)['\U{FE0E}'] - multiset(s)['\U{FE0F}']
    ensures n <= |s|
    ensures (forall k :: 0 <= k < |s| ==> s[k] != '\U{FE0E}' && s[k] != '\U{FE0F}') ==> n == |s|
  {
    if s == [] then 0
    else
      assert s == [s[0]] + s[1..];
      ValidatorLength(s[1..]) + (if s[0] == '\U{FE0E}' || s[0] == '\U{FE0F}' then 0 else 1)
  }

  /** notEmpty: the (sanitized) text is not the empty string. */
  predicate NotEmpty(s: string)
  {
    s != ""
  }

  /** isIn: the text is one of the listed values. */
  predicate IsIn(s: string, values: seq<string>)
  {
    s in values
  }

  predicate WordChar(c: char)
  {
    ('a' <= c <= 'z') || ('A' <= c <= 'Z') || ('0' <= c <= '9') || c == '_'
  }

  /** matches(/^[a-zA-Z0-9_]+$/). */
  predicate IsWord(s: string)
  {
    |s| > 0 && forall k :: 0 <= k < |s| ==> WordChar(s[k])
  }

  predicate IsDigit(c: char)
  {
    '0' <= c <= '9'
  }

  predicate AllDigits(s: string)
  {
    forall k :: 0 <= k < |s| ==> IsDigit(s[k])
  }

  /** The value of a string of decimal digits. */
  function DigitsValue(s: string): (n: nat)
    requires AllDigits(s)
    decreases |s|
  {
    if s == [] then 0 else DigitsValue(s[..|s| - 1]) * 10 + (s[|s| - 1] as int - '0' as int)
  }

  /** The signed value of `[-+]?[0-9]+`. */
  function IntValue(s: string): int
    requires |s| > 0 && ((s[0] == '-' || s[0] == '+') ==> |s| > 1)
    requires AllDigits(if s[0] == '-' || s[0] == '+' then s[1..] else s)
  {
    if s[0] == '-' then -(DigitsValue(s[1..]) as int)
    else if s[0] == '+' then DigitsValue(s[1..])
    else DigitsValue(s)
  }

  /** isInt({ min: m }): an optional sign and decimal digits (leading zeros allowed) whose value is at least m. */
  predicate IsIntAtLeast(s: string, m: int)
  {
    && |s| > 0
    && ((s[0] == '-' || s[0] == '+') ==> |s| > 1)
    && AllDigits(if s[0] == '-' || s[0] == '+' then s[1..] else s)
    && IntValue(s) >= m
  }

  /** isBoolean in its strict form. */
  predicate IsBooleanText(s: string)
  {
    s == "true" || s == "false" || s == "1" || s == "0"
  }

  predicate IsLineTerminator(c: char)
  {
    c == '\n' || c == '\r' || c == '\U{2028}' || c == '\U{2029}'
  }

  /** The text before the first line terminator: what `.*` can reach from the start. */
  function FirstLine(s: string): (r: string)
    ensures r <= s
    ensures forall k :: 0 <= k < |r| ==> !IsLineTerminator(r[k])
    ensures |r| < |s| ==> IsLineTerminator(s[|r|])
  {
    if s == [] || IsLineTerminator(s[0]) then "" else [s[0]] + FirstLine(s[1..])
  }

  predicate IsSpecial(c: char)
  {
    c == '@' || c == '$' || c == '!' || c == '%' || c == '*' || c == '?' || c == '&'
  }

  /**
   * matches(/^(?=.*[a-z])(?=.*[A-Z])(?=.*\d)(?=.*[@$!%*?&])[A-Za-z\d@$!%*?&]/): the four
   * lookaheads each find their class on the first line, and the first character is in the
   * allowed class. The pattern has no end anchor, so the rest of the text is unconstrained.
   */
  predicate IsComplexPassword(s: string)
  {
    var line := FirstLine(s);
    && (exists k :: 0 <= k < |line| && 'a' <= line[k] <= 'z')
    && (exists k :: 0 <= k < |line| && 'A' <= line[k] <= 'Z')
    && (exists k :: 0 <= k < |line| && IsDigit(line[k]))
    && (exists k :: 0 <= k < |line| && IsSpecial(line[k]))
    && |s| > 0 && (('a' <= s[0] <= 'z') || ('A' <= s[0] <= 'Z') || IsDigit(s[0]) || IsSpecial(s[0]))
  }

  /** A chain `trim().notEmpty()` with one message: it fails exactly on a value made only of whitespace. */
  function RequiredValue(p: Param, v: Option<string>, msg: string): (errs: seq<FieldError>)
    ensures errs == [] <==> !AllSpace(TextOf(v))
  {
    Check(p, NotEmpty(Trim(TextOf(v))), msg)
  }

  function RequiredTrimmed(body: Body, name: string, msg: string): (errs: seq<FieldError>)
    ensures errs == [] <==> !AllSpace(TextOf(Get(body, name)))
  {
    RequiredValue(Field(name), Get(body, name), msg)
  }

  const Platforms: seq<string> := ["Linux", "Windows"]
  const PlatformMsg: string := "OS Platform must be Linux or Windows"

  // The messages of the other validators, as their withMessage gives them.
  const UsernameRequired: string := "Username is required"
  const UsernameLength: string := "Username must be between 3 and 50 characters"
  const UsernameChars: string := "Username can only contain letters, numbers, and underscores"
  const PasswordRequired: string := "Password is required"
  const PasswordLength: string := "Password must be at least 6 characters"
  const OldPasswordRequired: string := "Old password is required"
  const NewPasswordRequired: string := "New password is required"
  const NewPasswordLength: string := "New password must be at least 6 characters"
  const PasswordComplexity: string := "Password must contain uppercase, lowercase, number, and special character"
  const ConfigContentRequired: string := "Configuration content is required"
  const RoleNameRequired: string := "Role name is required"
  const RoleNameLength: string := "Role name must not exceed 100 characters"
  const RequiresLdapBoolean: string := "requires_ldap must be a boolean"
  const RoleIdRequired: string := "Valid role ID is required"
  const VariableContentRequired: string := "Variable content is required"
  const TmplEnvironmentMsg: string := "Environment must be dev, it, uat, prod, or all"
  const FileContentRequired: string := "File content is required"
  const ConfigTypeMsg: string := "Config type must be common, environment, or role"
  const GenerationEnvironmentMsg: string := "Environment must be dev, it, uat, or prod"
  const VmGroupsRequired: string := "At least one VM group is required"
  const HostnamesRequired: string := "At least one hostname is required per VM group"
  const RolesRequired: string := "At least one role is required per VM group"

  /** A chain `isIn(['Linux', 'Windows'])` on `os_platform`. */
  function PlatformCheck(v: Option<string>): (errs: seq<FieldError>)
    ensures errs == [] <==> v in {Some("Linux"), Some("Windows")}
  {
    Check(Field("os_platform"), IsIn(TextOf(v), Platforms), PlatformMsg)
  }

  function PlatformErrors(body: Body): (errs: seq<FieldError>)
    ensures errs == [] <==> Get(body, "os_platform") in {Some("Linux"), Some("Windows")}
  {
    PlatformCheck(Get(body, "os_platform"))
  }

  // ------------------------------------------------------------ validateRequest

  datatype Outcome = Next | Rejected(status: int, errors: seq<FieldError>)

  /** validateRequest: answer 400 with every error when there is one, otherwise hand over to the route. */
  function ValidateRequest(errors: seq<FieldError>): (o: Outcome)
    ensures o.Next? <==> errors == []
    ensures o.Rejected? ==> o.status == 400 && o.errors == errors && |o.errors| > 0
  {
    if errors == [] then Next else Rejected(400, errors)
  }

  // ------------------------------------------------------------ the flat rule sets

  /** The username and password a login request must carry. */
  predicate LoginAcceptable(body: Body)
  {
    var username := Trim(TextOf(Get(body, "username")));
    var password := TextOf(Get(body, "password"));
    && 3 <= |username| <= 50 && (forall k :: 0 <= k < |username| ==> WordChar(username[k]))
    && ValidatorLength(password) >= 6
  }

  /** The username chain of loginValidation: trimmed, then three validators. */
  function UsernameErrors(body: Body): (errs: seq<FieldError>)
    ensures errs == [] <==>
      var username := Trim(TextOf(Get(body, "username")));
      3 <= |username| <= 50 && forall k :: 0 <= k < |username| ==> WordChar(username[k])
  {
    var username := Trim(TextOf(Get(body, "username")));
    UsernameChecks(username);
    Check(Field("username"), NotEmpty(username), UsernameRequired)
    + Check(Field("username"), 3 <= ValidatorLength(username) <= 50, UsernameLength)
    + Check(Field("username"), IsWord(username), UsernameChars)
  }

  /** loginValidation. */
  function LoginErrors(body: Body): (errs: seq<FieldError>)
    ensures errs == [] <==> LoginAcceptable(body)
  {
    var password := TextOf(Get(body, "password"));
    UsernameErrors(body)
    + Check(Field("password"), NotEmpty(password), PasswordRequired)
    + Check(Field("password"), ValidatorLength(password) >= 6, PasswordLength)
  }

  /** The three username validators pass together exactly for 3 to 50 word characters. */
  lemma UsernameChecks(username: string)
    ensures (Check(Field("username"), NotEmpty(username), UsernameRequired)
      + Check(Field("username"), 3 <= ValidatorLength(username) <= 50, UsernameLength)
      + Check(Field("username"), IsWord(username), UsernameChars) == []) <==>
      3 <= |username| <= 50 && forall k :: 0 <= k < |username| ==> WordChar(username[k])
  {
    hide Trim;
    var a := Check(Field("username"), NotEmpty(username), UsernameRequired);
    var b := Check(Field("username"), 3 <= ValidatorLength(username) <= 50, UsernameLength);
    var c := Check(Field("username"), IsWord(username), UsernameChars);
    assert |a + b + c| == |a| + |b| + |c|;
    if IsWord(username) {
      assert forall k :: 0 <= k < |username| ==> username[k] != '\U{FE0E}' && username[k] != '\U{FE0F}';
    }
  }

  /** A login request without a username fails all three of its validators, in chain order. */
  lemma LoginMissingUsername(body: Body)
    requires "username" !in body
    ensures UsernameErrors(body) == [
      FieldError(Field("username"), UsernameRequired),
      FieldError(Field("username"), UsernameLength),
      FieldError(Field("username"), UsernameChars)]
  {
    var username := Trim(TextOf(Get(body, "username")));
    assert TextOf(Get(body, "username")) == "";
    UsernameChain(body, username);
    EmptyUsernameChain(username);
  }

  /** Proof helper: the username chain, one validator after the other. */
  lemma UsernameChain(body: Body, username: string)
    requires username == Trim(TextOf(Get(body, "username")))
    ensures UsernameErrors(body) == Check(Field("username"), NotEmpty(username), UsernameRequired)
      + Check(Field("username"), 3 <= ValidatorLength(username) <= 50, UsernameLength)
      + Check(Field("username"), IsWord(username), UsernameChars)
  {
    hide Trim, ValidatorLength, IsWord, NotEmpty, Check;
  }

  /** Proof helper: on the empty text every validator of the username chain fails. */
  lemma EmptyUsernameChain(username: string)
    requires username == ""
    ensures Check(Field("username"), NotEmpty(username), UsernameRequired)
      + Check(Field("username"), 3 <= ValidatorLength(username) <= 50, UsernameLength)
      + Check(Field("username"), IsWord(username), UsernameChars) == [
        FieldError(Field("username"), UsernameRequired),
        FieldError(Field("username"), UsernameLength),
        FieldError(Field("username"), UsernameChars)]
  {
    assert !NotEmpty(username) && ValidatorLength(username) == 0 && !IsWord(username);
  }

  predicate ChangePasswordAcceptable(body: Body)
  {
    var newPassword := TextOf(Get(body, "newPassword"));
    && TextOf(Get(body, "oldPassword")) != ""
    && ValidatorLength(newPassword) >= 6
    && IsComplexPassword(newPassword)
  }

  /** changePasswordValidation: the new password is not trimmed. */
  function ChangePasswordErrors(body: Body): (errs: seq<FieldError>)
    ensures errs == [] <==> ChangePasswordAcceptable(body)
  {
    var newPassword := TextOf(Get(body, "newPassword"));
    Check(Field("oldPassword"), NotEmpty(TextOf(Get(body, "oldPassword"))), OldPasswordRequired)
    + Check(Field("newPassword"), NotEmpty(newPassword), NewPasswordRequired)
    + Check(Field("newPassword"), ValidatorLength(newPassword) >= 6, NewPasswordLength)
    + Check(Field("newPassword"), IsComplexPassword(newPassword),
            PasswordComplexity)
  }

  /** osConfigValidation. */
  function OsConfigErrors(body: Body): (errs: seq<FieldError>)
    ensures errs == [] <==>
      Get(body, "os_platform") in {Some("Linux"), Some("Windows")} && !AllSpace(TextOf(Get(body, "config_content")))
  {
    PlatformErrors(body)
    + RequiredTrimmed(body, "config_content", ConfigContentRequired)
  }

  /** ansibleRoleValidation. */
  function AnsibleRoleErrors(body: Body): (errs: seq<FieldError>)
    ensures errs == [] <==>
      && !AllSpace(TextOf(Get(body, "role_name")))
      && ValidatorLength(Trim(TextOf(Get(body, "role_name")))) <= 100
      && Get(body, "os_platform") in {Some("Linux"), Some("Windows")}
      && ("requires_ldap" in body ==> body["requires_ldap"] in {"true", "false", "1", "0"})
  {
    var roleName := Trim(TextOf(Get(body, "role_name")));
    var requiresLdap := Get(body, "requires_ldap");
    AnsibleRoleChecks(body, roleName, requiresLdap);
    Check(Field("role_name"), NotEmpty(roleName), RoleNameRequired)
    + Check(Field("role_name"), ValidatorLength(roleName) <= 100, RoleNameLength)
    + PlatformErrors(body)
    + Check(Field("requires_ldap"), requiresLdap.None? || IsBooleanText(requiresLdap.value), RequiresLdapBoolean)
  }

  /** The four validators of ansibleRoleValidation pass together exactly when each field is acceptable. */
  lemma AnsibleRoleChecks(body: Body, roleName: string, requiresLdap: Option<string>)
    requires roleName == Trim(TextOf(Get(body, "role_name")))
    requires requiresLdap == Get(body, "requires_ldap")
    ensures (Check(Field("role_name"), NotEmpty(roleName), RoleNameRequired)
      + Check(Field("role_name"), ValidatorLength(roleName) <= 100, RoleNameLength)
      + PlatformErrors(body)
      + Check(Field("requires_ldap"), requiresLdap.None? || IsBooleanText(requiresLdap.value), RequiresLdapBoolean) == []) <==>
      && !AllSpace(TextOf(Get(body, "role_name")))
      && ValidatorLength(Trim(TextOf(Get(body, "role_name")))) <= 100
      && Get(body, "os_platform") in {Some("Linux"), Some("Windows")}
      && ("requires_ldap" in body ==> body["requires_ldap"] in {"true", "false", "1", "0"})
  {
    var a := Check(Field("role_name"), NotEmpty(roleName), RoleNameRequired);
    var b := Check(Field("role_name"), ValidatorLength(roleName) <= 100, RoleNameLength);
    var c := PlatformErrors(body);
    var d := Check(Field("requires_ldap"), requiresLdap.None? || IsBooleanText(requiresLdap.value), RequiresLdapBoolean);
    RoleNameCheck(body, roleName);
    RequiresLdapCheck(body, requiresLdap);
    hide ValidatorLength, PlatformErrors, AllSpace, Trim, IsBooleanText, Check, NotEmpty, TextOf, Get;
    NoErrorsOfFour(a, b, c, d);
  }

  /** Proof helper: four error lists together are empty exactly when each of them is. */
  lemma NoErrorsOfFour(a: seq<FieldError>, b: seq<FieldError>, c: seq<FieldError>, d: seq<FieldError>)
    ensures a + b + c + d == [] <==> a == [] && b == [] && c == [] && d == []
  {
    assert |a + b + c + d| == |a| + |b| + |c| + |d|;
  }

  /** The trimmed role name passes notEmpty exactly when the raw value is not all whitespace. */
  lemma RoleNameCheck(body: Body, roleName: string)
    requires roleName == Trim(TextOf(Get(body, "role_name")))
    ensures NotEmpty(roleName) <==> !AllSpace(TextOf(Get(body, "role_name")))
  {
  }

  /** The `requires_ldap` validator passes exactly when the field is absent or one of the boolean texts. */
  lemma RequiresLdapCheck(body: Body, requiresLdap: Option<string>)
    requires requiresLdap == Get(body, "requires_ldap")
    ensures (requiresLdap.None? || IsBooleanText(requiresLdap.value))
            <==> ("requires_ldap" in body ==> body["requires_ldap"] in {"true", "false", "1", "0"})
  {
  }

  /** roleVariableValidation. */
  function RoleVariableErrors(body: Body): (errs: seq<FieldError>)
    ensures errs == [] <==>
      && IsIntAtLeast(TextOf(Get(body, "role_id")), 1)
      && Get(body, "os_platform") in {Some("Linux"), Some("Windows")}
      && !AllSpace(TextOf(Get(body, "variable_content")))
  {
    Check(Field("role_id"), IsIntAtLeast(TextOf(Get(body, "role_id")), 1), RoleIdRequired)
    + PlatformErrors(body)
    + RequiredTrimmed(body, "variable_content", VariableContentRequired)
  }

  /** A role ID is accepted exactly when it is a decimal integer of value at least 1: digits alone, or after a sign. */
  lemma RoleIdAccepted(s: string)
    ensures IsIntAtLeast(s, 1) ==> s[0] != '-' && (s[0] == '+' ==> DigitsValue(s[1..]) >= 1)
    ensures IsIntAtLeast("0", 1) == false && IsIntAtLeast("-1", 1) == false
    ensures IsIntAtLeast("1", 1) && IsIntAtLeast("+007", 1)
  {
    assert DigitsValue("007") == 7 by {
      assert "007"[..2] == "00" && "00"[..1] == "0" && "0"[..0] == "";
    }
    assert "+007"[1..] == "007";
    assert "-1"[1..] == "1";
    assert "1"[..0] == "";
  }

  const TmplEnvironments: seq<string> := ["dev", "it", "uat", "prod", "all"]

  /** tmplFileValidation: `all` is an environment for requirements templates. */
  function TmplFileErrors(body: Body): (errs: seq<FieldError>)
    ensures errs == [] <==>
      TextOf(Get(body, "environment")) in {"dev", "it", "uat", "prod", "all"} && !AllSpace(TextOf(Get(body, "file_content")))
  {
    Check(Field("environment"), IsIn(TextOf(Get(body, "environment")), TmplEnvironments),
          TmplEnvironmentMsg)
    + RequiredTrimmed(body, "file_content", FileContentRequired)
  }

  /** gitlabCIValidation. */
  function GitlabCiErrors(body: Body): (errs: seq<FieldError>)
    ensures errs == [] <==>
      TextOf(Get(body, "config_type")) in {"common", "environment", "role"} && !AllSpace(TextOf(Get(body, "config_content")))
  {
    Check(Field("config_type"), IsIn(TextOf(Get(body, "config_type")), ["common", "environment", "role"]),
          ConfigTypeMsg)
    + RequiredTrimmed(body, "config_content", ConfigContentRequired)
  }

  // ------------------------------------------------------------ templateGenerationValidation

  /**
   * One element of `vmGroups`. `hostnames` and `roles` are None when they are absent or not
   * arrays; `groupNumber` is the text its interpolation renders.
   */
  datatype GroupBody = GroupBody(
    groupNumber: string,
    region: Option<string>,
    hostnames: Option<seq<string>>,
    roles: Option<seq<string>>,
    osPlatform: Option<string>)

  /** A generation request as the route receives it; `vmGroups` is None when it is not an array. */
  datatype GenerationBody = GenerationBody(
    environment: Option<string>,
    osPlatform: Option<string>,
    vmGroups: Option<seq<GroupBody>>,
    mettaApplication: Option<string>,
    mettaComponent: Option<string>,
    shieldTeam: Option<string>,
    appContextSubscriptionName: Option<string>,
    appContextName: Option<string>,
    armSubscriptionId: Option<string>,
    sourcePath: Option<string>,
    targetIdentifier: Option<string>,
    assignmentGroup: Option<string>)

  /** isArray({ min: 1 }). */
  predicate NonEmptyArray(a: Option<seq<string>>)
  {
    a.Some? && |a.value| >= 1
  }

  datatype GroupList = Hostnames | Roles

  function ListName(f: GroupList): string
  {
    match f
    case Hostnames => "hostnames"
    case Roles => "roles"
  }

  function ListOf(g: GroupBody, f: GroupList): Option<seq<string>>
  {
    match f
    case Hostnames => g.hostnames
    case Roles => g.roles
  }

  /** A wildcard chain `vmGroups.*.<list>` with isArray({ min: 1 }): one check per group, in index order. */
  function WildcardErrors(gs: seq<GroupBody>, f: GroupList, msg: string): (errs: seq<FieldError>)
    ensures errs == [] <==> forall i :: 0 <= i < |gs| ==> NonEmptyArray(ListOf(gs[i], f))
    ensures forall e :: e in errs ==>
      e.param.GroupField? && e.param.index < |gs| && e.param.name == ListName(f) && e.msg == msg
      && !NonEmptyArray(ListOf(gs[e.param.index], f))
    decreases |gs|
  {
    if gs == [] then []
    else
      var last := |gs| - 1;
      var init := gs[..last];
      assert forall i :: 0 <= i < last ==> init[i] == gs[i];
      WildcardErrors(init, f, msg)
      + Check(GroupField(last, ListName(f)), NonEmptyArray(ListOf(gs[last], f)), msg)
  }

  const GenerationEnvironments: seq<string> := ["dev", "it", "uat", "prod"]

  /** The six metadata chains, each `trim().notEmpty()`. */
  function MetadataErrors(b: GenerationBody): (errs: seq<FieldError>)
    ensures errs == [] <==> MetadataFilled(b)
  {
    RequiredValue(Field("mettaApplication"), b.mettaApplication, "METTA_APPLICATION is required")
    + RequiredValue(Field("mettaComponent"), b.mettaComponent, "METTA_COMPONENT is required")
    + RequiredValue(Field("shieldTeam"), b.shieldTeam, "SHIELD_TEAM is required")
    + RequiredValue(Field("appContextSubscriptionName"), b.appContextSubscriptionName, "APP_CONTEXT_SUBSCRIPTION_NAME is required")
    + RequiredValue(Field("appContextName"), b.appContextName, "APP_CONTEXT_NAME is required")
    + RequiredValue(Field("armSubscriptionId"), b.armSubscriptionId, "ARM_SUBSCRIPTION_ID is required")
  }

  /** Each of the six metadata fields holds something besides whitespace. */
  predicate MetadataFilled(b: GenerationBody)
  {
    && !AllSpace(TextOf(b.mettaApplication)) && !AllSpace(TextOf(b.mettaComponent))
    && !AllSpace(TextOf(b.shieldTeam)) && !AllSpace(TextOf(b.appContextSubscriptionName))
    && !AllSpace(TextOf(b.appContextName)) && !AllSpace(TextOf(b.armSubscriptionId))
  }

  /** What a generation request must satisfy. */
  predicate GenerationAcceptable(b: GenerationBody)
  {
    && TextOf(b.environment) in GenerationEnvironments
    && b.osPlatform in {Some("Linux"), Some("Windows")}
    && b.vmGroups.Some? && |b.vmGroups.value| >= 1
    && (forall i :: 0 <= i < |b.vmGroups.value| ==>
          NonEmptyArray(b.vmGroups.value[i].hostnames) && NonEmptyArray(b.vmGroups.value[i].roles))
    && MetadataFilled(b)
  }

  /** The chains on environment, os_platform and vmGroups, in declaration order. */
  function RequestShapeErrors(environment: Option<string>, osPlatform: Option<string>, vmGroups: Option<seq<GroupBody>>)
    : (errs: seq<FieldError>)
    ensures errs == [] <==>
      && TextOf(environment) in GenerationEnvironments
      && osPlatform in {Some("Linux"), Some("Windows")}
      && vmGroups.Some? && |vmGroups.value| >= 1
      && forall i :: 0 <= i < |vmGroups.value| ==>
           NonEmptyArray(vmGroups.value[i].hostnames) && NonEmptyArray(vmGroups.value[i].roles)
  {
    var gs := if vmGroups.Some? then vmGroups.value else [];
    var hostErrs := WildcardErrors(gs, Hostnames, HostnamesRequired);
    var roleErrs := WildcardErrors(gs, Roles, RolesRequired);
    assert hostErrs == [] <==> forall i :: 0 <= i < |gs| ==> NonEmptyArray(gs[i].hostnames);
    assert roleErrs == [] <==> forall i :: 0 <= i < |gs| ==> NonEmptyArray(gs[i].roles);
    Check(Field("environment"), IsIn(TextOf(environment), GenerationEnvironments), GenerationEnvironmentMsg)
    + PlatformCheck(osPlatform)
    + Check(Field("vmGroups"), vmGroups.Some? && |vmGroups.value| >= 1, VmGroupsRequired)
    + hostErrs
    + roleErrs
  }

  /** templateGenerationValidation. The wildcard chains select nothing when `vmGroups` is not an array. */
  function GenerationErrors(b: GenerationBody): (errs: seq<FieldError>)
    ensures errs == [] <==> GenerationAcceptable(b)
  {
    RequestShapeErrors(b.environment, b.osPlatform, b.vmGroups) + MetadataErrors(b)
  }

  /** `all` is a template-file environment but not a generation environment. */
  lemma AllEnvironmentOnlyForTemplates(b: GenerationBody, t: Body)
    requires b.environment == Some("all") && Get(t, "environment") == Some("all")
    ensures GenerationErrors(b) != []
    ensures TmplFileErrors(t) == RequiredTrimmed(t, "file_content", FileContentRequired)
  {
    assert "all"[0] == 'a';
    assert "all" !in GenerationEnvironments;
    assert "all" in TmplEnvironments;
  }

  /** The `trim()` sanitizers rewrite the six metadata fields of the body the route then reads. */
  function Sanitize(b: GenerationBody): GenerationBody
  {
    b.(mettaApplication := TrimValue(b.mettaApplication),
       mettaComponent := TrimValue(b.mettaComponent),
       shieldTeam := TrimValue(b.shieldTeam),
       appContextSubscriptionName := TrimValue(b.appContextSubscriptionName),
       appContextName := TrimValue(b.appContextName),
       armSubscriptionId := TrimValue(b.armSubscriptionId))
  }

  function TrimValue(v: Option<string>): Option<string>
  {
    if v.Some? then Some(Trim(v.value)) else None
  }

  lemma TrimValueSame(v: Option<string>)
    ensures Trim(TextOf(TrimValue(v))) == Trim(TextOf(v))
  {
    if v.Some? {
      TrimIdempotent(v.value);
    }
  }

  /** Validating the sanitized body gives the same verdict: the validators already saw the trimmed values. */
  lemma SanitizeKeepsVerdict(b: GenerationBody)
    ensures GenerationErrors(Sanitize(b)) == GenerationErrors(b)
  {
    TrimValueSame(b.mettaApplication);
    TrimValueSame(b.mettaComponent);
    TrimValueSame(b.shieldTeam);
    TrimValueSame(b.appContextSubscriptionName);
    TrimValueSame(b.appContextName);
    TrimValueSame(b.armSubscriptionId);
    assert MetadataErrors(Sanitize(b)) == MetadataErrors(b);
  }

  /** sourcePath, targetIdentifier and assignmentGroup carry no validator: whatever they hold, the errors are the same. */
  lemma UncheckedFields(b: GenerationBody, sourcePath: Option<string>, targetIdentifier: Option<string>,
                        assignmentGroup: Option<string>)
    ensures GenerationErrors(b.(sourcePath := sourcePath, targetIdentifier := targetIdentifier,
                                 assignmentGroup := assignmentGroup))
         == GenerationErrors(b)
  {
    var c := b.(sourcePath := sourcePath, targetIdentifier := targetIdentifier, assignmentGroup := assignmentGroup);
    assert MetadataErrors(c) == MetadataErrors(b);
  }
}
