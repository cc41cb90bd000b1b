/**
 * `addMember` and `addBinding` of iam/snippets.js as they run: on the policy
 * object returned by getIamPolicy, changing its `bindings` in place and
 * returning that same object.
 */
module PolicyEditor {
  import opened Wrappers
  import opened IamPolicy

  /** A fetched policy. `etag` and `version` are opaque to the editors. */
  class Policy {
    var bindings: seq<Binding>
    var etag: string
    var version: int

    constructor (bindings: seq<Binding>, etag: string, version: int)
      ensures this.bindings == bindings && this.etag == etag && this.version == version
    {
      this.bindings := bindings;
      this.etag := etag;
      this.version := version;
    }
  }

  /** Pushes `member` onto the first binding for `role` and returns the policy
      given; with no such binding it fails and the policy is as it was. */
  method AddMember(policy: Policy, role: string, member: string) returns (r: Result<Policy, EditError>)
    modifies policy`bindings
    ensures match WithMember(old(policy.bindings), role, member)
            case Ok(edited) => r == Ok(policy) && policy.bindings == edited
            case Err(e) => r == Err(e) && policy.bindings == old(policy.bindings)
    ensures policy.etag == old(policy.etag) && policy.version == old(policy.version)
  {
    var found := FindRole(policy.bindings, role);
    match found {
      case None =>
        r := Err(NoBindingForRole(role));
      case Some(i) =>
        var binding := policy.bindings[i];
        policy.bindings := policy.bindings[i := binding.(members := binding.members + [member])];
        r := Ok(policy);
    }
  }

  /** Pushes a new binding of `role` to `[member]` onto the policy's bindings
      and returns the policy given. */
  method AddBinding(policy: Policy, role: string, member: string) returns (r: Policy)
    modifies policy`bindings
    ensures r == policy
    ensures policy.bindings == WithBinding(old(policy.bindings), role, member)
    ensures policy.etag == old(policy.etag) && policy.version == old(policy.version)
  {
    var binding := Binding(role, [member], None);
    policy.bindings := policy.bindings + [binding];
    r := policy;
  }

  /** A caller's view: grant a viewer to a second user, then add an editor
      binding, on one policy object. */
  method GrantViewerThenEditor()
  {
    var viewer := Binding("roles/viewer", ["user:a@x.com"], None);
    var policy := new Policy([viewer], "E1", 1);
    assert FindRole([viewer], "roles/viewer") == Some(0);
    var granted := Binding("roles/viewer", ["user:a@x.com", "user:b@x.com"], None);
    assert viewer.(members := viewer.members + ["user:b@x.com"]) == granted;
    assert [viewer][0 := granted] == [granted];
    assert WithMember([viewer], "roles/viewer", "user:b@x.com")
      == Ok([granted]);
    var r := AddMember(policy, "roles/viewer", "user:b@x.com");
    assert r == Ok(policy);
    assert policy.bindings == [granted];
    assert policy.etag == "E1";
    var s := AddBinding(policy, "roles/editor", "user:c@x.com");
    assert s == policy;
    assert policy.bindings[1] == Binding("roles/editor", ["user:c@x.com"], None);
    var t := AddMember(policy, "roles/owner", "user:d@x.com");
    assert t == Err(NoBindingForRole("roles/owner"));
    assert |policy.bindings| == 2;
  }
}
