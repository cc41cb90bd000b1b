# IAM snippets: policy editing and resource names, in Dafny

This project models the local logic of the Node.js IAM samples in
`iam/snippets.js`. Everything else in those samples is a single call to the
`googleapis` client.

- **Policy editing.** `addMember` finds the first binding of a policy whose
  role matches and pushes a member onto it. `addBinding` pushes a new
  one-member binding onto the policy. Both change the fetched policy object
  in place and return that same object.
  - `IamPolicy` (policy.dfy) states the two edits on values. `FindRole`,
    `WithMember` and `WithBinding` are the edits; the lemmas give their
    properties.
  - `PolicyEditor` (policy_editor.dfy) is the in-place version: a `Policy`
    class whose `bindings` field the `AddMember` and `AddBinding` methods
    reassign. Each method's contract ties the new state to the value-level
    edit.
- **Resource names.** These are the strings built before the remote calls:
  - `'projects/' + project + '/roles/' + name` for roles;
  - `'projects/-/serviceAccounts/' + email` for service accounts.

  `ResourceNames` pairs the role and service-account builders with a parser
  and proves the round trip and injectivity. The project parent builder,
  `ProjectName`, has no parser. `Roles` and `ServiceAccounts` state which
  resource each request names. `ServiceAccounts` also models the one local
  edit in `renameServiceAccount`, which overwrites `displayName` on the
  fetched record.

Facts about the code that the model keeps:
- `addMember` is not idempotent. It appends even when the member is already
  present (`WithMemberNotIdempotent`).
- `addBinding` makes no duplicate-role check and raises no error
  (`WithBindingDuplicatesRole`).
- Neither editor copies the policy. Both mutate the object they receive and
  return it.
- `addMember` on a role no binding has throws: `find` gives `undefined`, and
  the code then reads `members` from it. This happens before any change, and
  no new binding is created. The model represents it as an
  `Err(NoBindingForRole(role))` result with the policy left as it was, not as
  a precondition.
- `editRole` sends `stage` and `permissions` unchecked, and
  `renameServiceAccount` makes one get and one update with no retry.

`PolicyEditor.GrantViewerThenEditor` is a usage check of the `AddMember` and
`AddBinding` contracts on one small policy. It has no counterpart in the
source.

## Model

| member | source | states |
|---|---|---|
| IamPolicy.FindRole | iam/snippets.js:36 | `find` gives a binding exactly when some binding has the role, and then the first one in list order. |
| IamPolicy.WithMember | iam/snippets.js:35-40 | Fails with NoBindingForRole exactly when no binding has the role. Otherwise only the first binding with the role changes: its members gain `member` at the end. Length, order and every other binding stay the same. |
| IamPolicy.WithBinding | iam/snippets.js:44-52 | The result is the old bindings unchanged, followed by one binding `{role, [member]}` with no condition. |
| IamPolicy.WithMemberCountsOneMore | iam/snippets.js:37 | When the role is bound, `addMember` raises the total number of member entries by exactly one. |
| IamPolicy.WithBindingCountsOneMore | iam/snippets.js:45-49 | `addBinding` raises the total number of member entries by exactly one. |
| IamPolicy.WithMemberDoesNotDeduplicate | iam/snippets.js:37 | The target binding lists `member` exactly once more than before, even if it already listed it. |
| IamPolicy.WithMemberNotIdempotent | iam/snippets.js:37 | Adding the same member twice gives a different policy than adding it once. |
| IamPolicy.FindRoleSameRoles | iam/snippets.js:36 | `find` depends only on the sequence of roles. |
| IamPolicy.WithMemberKeepsRoles | iam/snippets.js:36-37 | After `addMember`, a lookup of any role finds the same binding index as before. |
| IamPolicy.WithMemberGrants | iam/snippets.js:35-40 | After `addMember`, a member holds a role exactly when it held it before or it is the granted (role, member) pair. |
| IamPolicy.WithBindingGrants | iam/snippets.js:44-52 | After `addBinding`, a member holds a role exactly when it held it before or it is the granted (role, member) pair. |
| IamPolicy.WithBindingDuplicatesRole | iam/snippets.js:35-52 | On a policy that already has the role, `addBinding` leaves two bindings with that role. A later `addMember` edits the older binding and leaves the new one as created. |
| IamPolicy.WithBindingThenMember | iam/snippets.js:35-52 | On a policy without the role, `addBinding` and then `addMember` for that role give one new binding with both members, in order. |
| PolicyEditor.AddMember | iam/snippets.js:35-40 | Changes only `bindings`, to the result of WithMember. On success it returns the same policy object; on failure it returns the error and the bindings are unchanged. `etag` and `version` stay the same. |
| PolicyEditor.AddBinding | iam/snippets.js:44-52 | Changes only `bindings`, to the result of WithBinding, and returns the same policy object. `etag` and `version` stay the same. |
| ResourceNames.ProjectName | iam/snippets.js:97 | The parent name is `projects/` followed by the project id, unchanged. |
| ResourceNames.ParseRoleName | iam/snippets.js:117 | Any name the parser accepts is exactly the role name built from the parsed project (which has no '/') and role id. |
| ResourceNames.RoleNameRoundTrip | iam/snippets.js:117 | For a project with no '/', parsing a built role name gives back the same project and role id. |
| ResourceNames.RoleNameInjective | iam/snippets.js:117 | For projects with no '/', two different (project, role id) pairs never build the same name. |
| ResourceNames.RoleNameAmbiguousWithSlash | iam/snippets.js:117 | If the project may contain '/', two different roles can build the same name. |
| ResourceNames.RoleNameUnderProject | iam/snippets.js:117 | A role name is its project's parent name followed by `/roles/` and the role id. |
| ResourceNames.ParseServiceAccountName | iam/snippets.js:210 | Any name the parser accepts is exactly the service-account name built from the parsed email. |
| ResourceNames.ServiceAccountNameRoundTrip | iam/snippets.js:210 | For every email, parsing the built service-account name gives back the email. |
| ResourceNames.ServiceAccountNameInjective | iam/snippets.js:210 | Two different emails never build the same service-account name. |
| Roles.TargetRole | iam/snippets.js:117 | The role resource name names role `name` of `project` whenever the project has no '/'. |
| Roles.EditRoleCall | iam/snippets.js:115-124 | `editRole` patches the role it names and sets all four fields: title, description, permissions and stage. |
| Roles.DisableRoleCall | iam/snippets.js:132-138 | `disableRole` patches the role it names and sets only the stage, to DISABLED. |
| Roles.DeleteRoleCall | iam/snippets.js:156-159 | `deleteRole` is a delete of the role it names. |
| Roles.RoleCallsShareResource | iam/snippets.js:115-159 | The edit, disable and delete requests for one role name the same resource, exactly `projects/<project>/roles/<name>`. |
| Roles.RoleCallsDistinguishRoles | iam/snippets.js:132-159 | For projects with no '/', the disable and delete requests for different roles name different resources. |
| ServiceAccounts.RenameServiceAccount | iam/snippets.js:208-222 | The resource the rename fetches and updates names the account with this email. The fetched record's `displayName` becomes the new name; every other field stays the same. |
| ServiceAccounts.DeleteAccountCall | iam/snippets.js:231-234 | `deleteServiceAccount` deletes the account with this email. |
| ServiceAccounts.CreateKeyCall | iam/snippets.js:240-243 | `createKey` creates a key on the account with this email. |
| ServiceAccounts.ListKeysCall | iam/snippets.js:251-254 | `listKeys` lists the keys of the account with this email. |
| ServiceAccounts.AccountCallsShareResource | iam/snippets.js:210-253 | The delete, create-key and list-keys requests for one email name the same resource, exactly `projects/-/serviceAccounts/<email>`. |
| ServiceAccounts.AccountCallsDistinguishAccounts | iam/snippets.js:231-243 | The delete and create-key requests for different emails name different accounts. |

## Left out

- Every `googleapis` call is left out. That covers the IAM-policy get and set; the role, service-account and key create, get, update, list and delete calls; and `queryGrantableRoles` and `queryTestablePermissions`. These are remote, and their behaviour is not in this code. The record `get` returns is a parameter of `RenameServiceAccount`.
- `main` and the module-level `auth`, `iamService` and `crmService` handles are left out. They only acquire credentials and build the clients.
- `iam/quickstart.js` is not part of this model. It makes one remote `roles.list()` call and prints the result.
- `async`/`await` and all `console.log` output are left out. The editors are modelled as synchronous, and a thrown error becomes an `Err` result.
- `undeleteRole` is left out. It reads `project` and `name`, which are never bound, so it has no coherent resource name to model.
- A policy with no `bindings` field, or a binding with no `members` field, is not modelled. In both cases the JavaScript throws. The model assumes both fields are present.
- Binding objects are values inside the policy's `bindings` sequence. If a caller holds a binding object elsewhere, it would see `members.push` in the source. The model does not capture that aliasing.
- Policy fields other than `bindings`, `etag` and `version` are not modelled. Service-account fields other than `name`, `email`, `displayName` and `description` are not modelled either. Neither editor touches them.
- Roles are matched with JavaScript's `==` on strings. Non-string role values are not modelled.
- The `condition` of a binding is carried as an opaque value. The source's `find` ignores it, and so does the model.
- The code has no etag-based retry, condition-aware matching, member deduplication or duplicate-binding error, so the model has none either.
- The `'projects/' + project` parents of `createRole`, `listRoles`, `createServiceAccount` and `listServiceAccounts` are modelled only through `ProjectName`. `deleteKey` passes its key name through unchanged, so nothing is modelled for it.
