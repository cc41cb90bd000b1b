/**
 * The resource names iam/snippets.js builds by concatenation before each
 * remote call, with parsers that recover the parts, so that "this call
 * targets that role / that service account" can be stated exactly.
 */
module ResourceNames {
  import opened Wrappers

  const ProjectsPrefix: string := "projects/"
  const RolesSegment: string := "/roles/"
  const ServiceAccountsPrefix: string := "projects/-/serviceAccounts/"

  /** `'projects/' + project`: the parent used to create and list roles and service accounts. */
  function ProjectName(project: string): (r: string)
    ensures |r| == |ProjectsPrefix| + |project|
    ensures r[..|ProjectsPrefix|] == ProjectsPrefix && r[|ProjectsPrefix|..] == project
  {
    ProjectsPrefix + project
  }

  /** `'projects/' + project + '/roles/' + name`: a custom role of a project. */
  function RoleName(project: string, name: string): string
  {
    ProjectsPrefix + project + RolesSegment + name
  }

  /** `'projects/-/serviceAccounts/' + email`: a service account, any project. */
  function ServiceAccountName(email: string): string
  {
    ServiceAccountsPrefix + email
  }

  /** The length of the longest prefix of `s` without a '/'. */
  function SlashIndex(s: string): (k: nat)
    ensures k <= |s|
    ensures forall j :: 0 <= j < k ==> s[j] != '/'
    ensures k < |s| ==> s[k] == '/'
  {
    if |s| == 0 || s[0] == '/' then 0 else 1 + SlashIndex(s[1..])
  }

  /** The project and role id of a role name; the project ends at the first '/'. */
  function ParseRoleName(s: string): (r: Option<(string, string)>)
    ensures r.Some? ==> '/' !in r.value.0 && RoleName(r.value.0, r.value.1) == s
  {
    var n := |ProjectsPrefix|;
    if |s| < n || s[..n] != ProjectsPrefix then None
    else
      var rest := s[n..];
      var k := SlashIndex(rest);
      var tail := rest[k..];
      if |tail| < |RolesSegment| || tail[..|RolesSegment|] != RolesSegment then None
      else
        var project, name := rest[..k], tail[|RolesSegment|..];
        assert '/' !in project by {
          forall j | 0 <= j < |project| ensures project[j] != '/' { assert project[j] == rest[j]; }
        }
        assert rest == project + RolesSegment + name;
        Some((project, name))
  }

  /** The email of a service-account name. */
  function ParseServiceAccountName(s: string): (r: Option<string>)
    ensures r.Some? ==> ServiceAccountName(r.value) == s
  {
    var n := |ServiceAccountsPrefix|;
    if |s| < n || s[..n] != ServiceAccountsPrefix then None
    else
      assert s == s[..n] + s[n..];
      Some(s[n..])
  }

  /** A role name gives back its project and role id, as long as the project
      holds no '/' (project ids never do). */
  lemma RoleNameRoundTrip(project: string, name: string)
    requires '/' !in project
    ensures ParseRoleName(RoleName(project, name)) == Some((project, name))
  {
    var s := RoleName(project, name);
    var n := |ProjectsPrefix|;
    assert s[..n] == ProjectsPrefix;
    var rest := s[n..];
    assert rest == project + RolesSegment + name;
    var k := SlashIndex(rest);
    assert rest[|project|] == '/';
    assert k == |project|;
    assert rest[..k] == project;
    var tail := rest[k..];
    assert tail == RolesSegment + name;
    assert tail[..|RolesSegment|] == RolesSegment;
    assert tail[|RolesSegment|..] == name;
  }

  /** Distinct roles get distinct names. */
  lemma RoleNameInjective(p1: string, n1: string, p2: string, n2: string)
    requires '/' !in p1 && '/' !in p2
    requires RoleName(p1, n1) == RoleName(p2, n2)
    ensures p1 == p2 && n1 == n2
  {
    RoleNameRoundTrip(p1, n1);
    RoleNameRoundTrip(p2, n2);
  }

  /** Without the restriction on projects, two roles can share a name. */
  lemma RoleNameAmbiguousWithSlash()
    ensures RoleName("p/roles/a", "b") == RoleName("p", "a/roles/b")
  {
  }

  /** A role name starts with its project's name and a '/'. */
  lemma RoleNameUnderProject(project: string, name: string)
    ensures RoleName(project, name) == ProjectName(project) + "/roles/" + name
  {
  }

  /** A service-account name gives back its email, for every email. */
  lemma ServiceAccountNameRoundTrip(email: string)
    ensures ParseServiceAccountName(ServiceAccountName(email)) == Some(email)
  {
    var s := ServiceAccountName(email);
    assert s[..|ServiceAccountsPrefix|] == ServiceAccountsPrefix;
    assert s[|ServiceAccountsPrefix|..] == email;
  }

  /** Distinct emails get distinct names. */
  lemma ServiceAccountNameInjective(e1: string, e2: string)
    requires ServiceAccountName(e1) == ServiceAccountName(e2)
    ensures e1 == e2
  {
    ServiceAccountNameRoundTrip(e1);
    ServiceAccountNameRoundTrip(e2);
  }
}
