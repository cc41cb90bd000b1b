/**
 * The requests `editRole`, `disableRole` and `deleteRole` of iam/snippets.js
 * send for a custom role: which resource they name and which fields of the
 * role the patch body sets. The calls themselves are remote.
 */
module Roles {
  import opened Wrappers
  import opened ResourceNames

  /** A roles.patch body: `None` for a field the request leaves out. */
  datatype RolePatch = RolePatch(
    title: Option<string>,
    description: Option<string>,
    includedPermissions: Option<seq<string>>,
    stage: Option<string>)

  datatype RoleCall = Patch(name: string, body: RolePatch) | Delete(name: string)

  const Disabled: string := "DISABLED"

  /** The role a role name designates, for projects without a '/'. */
  predicate Designates(resource: string, name: string, project: string)
  {
    '/' !in project ==> ParseRoleName(resource) == Some((project, name))
  }

  /** `RoleName(project, name)`, with the fact that it designates that role. */
  function TargetRole(name: string, project: string): (r: string)
    ensures Designates(r, name, project)
  {
    assert Designates(RoleName(project, name), name, project) by {
      if '/' !in project { RoleNameRoundTrip(project, name); }
    }
    RoleName(project, name)
  }

  /** `editRole`: patches all four fields at once. */
  function EditRoleCall(name: string, project: string, title: string, description: string,
                        permissions: seq<string>, stage: string): (c: RoleCall)
    ensures c.Patch? && c.body.title == Some(title) && c.body.description == Some(description)
    ensures c.Patch? && c.body.includedPermissions == Some(permissions) && c.body.stage == Some(stage)
    ensures Designates(c.name, name, project)
  {
    Patch(TargetRole(name, project), RolePatch(Some(title), Some(description), Some(permissions), Some(stage)))
  }

  /** `disableRole`: a patch that sets the stage to DISABLED and nothing else. */
  function DisableRoleCall(name: string, project: string): (c: RoleCall)
    ensures c.Patch? && c.body.stage == Some(Disabled)
    ensures c.Patch? && c.body.title.None? && c.body.description.None? && c.body.includedPermissions.None?
    ensures Designates(c.name, name, project)
  {
    Patch(TargetRole(name, project), RolePatch(None, None, None, Some(Disabled)))
  }

  /** `deleteRole`. */
  function DeleteRoleCall(name: string, project: string): (c: RoleCall)
    ensures c.Delete? && Designates(c.name, name, project)
  {
    Delete(TargetRole(name, project))
  }

  /** The three calls for one role name the same resource, whatever the
      project: exactly `'projects/' + project + '/roles/' + name`. */
  lemma RoleCallsShareResource(name: string, project: string, title: string, description: string,
                               permissions: seq<string>, stage: string)
    ensures EditRoleCall(name, project, title, description, permissions, stage).name
              == DisableRoleCall(name, project).name
              == DeleteRoleCall(name, project).name
              == "projects/" + project + "/roles/" + name
  {
  }

  /** Calls for different roles of slash-free projects name different resources. */
  lemma RoleCallsDistinguishRoles(n1: string, p1: string, n2: string, p2: string)
    requires '/' !in p1 && '/' !in p2
    requires (n1, p1) != (n2, p2)
    ensures DisableRoleCall(n1, p1).name != DisableRoleCall(n2, p2).name
    ensures DeleteRoleCall(n1, p1).name != DeleteRoleCall(n2, p2).name
  {
    if RoleName(p1, n1) == RoleName(p2, n2) {
      RoleNameInjective(p1, n1, p2, n2);
    }
  }
}
