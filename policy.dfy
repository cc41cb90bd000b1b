/**
 * The bindings of an IAM policy as values, and the two edits iam/snippets.js
 * makes to them: `addMember` pushes a member onto the first binding with a
 * role, `addBinding` pushes a fresh one-member binding onto the list.
 * PolicyEditor applies these to a policy object in place.
 */
module IamPolicy {
  import opened Wrappers

  /** A role granted to a list of members. `condition` is carried through
      untouched: neither editor reads or writes it. */
  datatype Binding = Binding(role: string, members: seq<string>, condition: Option<string>)

  /** Why `addMember` fails: no binding has the role, so `find` gives
      undefined and reading `members` from it throws. */
  datatype EditError = NoBindingForRole(role: string)

  predicate HasRole(bindings: seq<Binding>, role: string)
  {
    exists i :: 0 <= i < |bindings| && bindings[i].role == role
  }

  /** `bindings.find(x => x.role == role)`, as the index of the binding found. */
  function FindRole(bindings: seq<Binding>, role: string): (r: Option<nat>)
    ensures r.Some? <==> HasRole(bindings, role)
    ensures r.Some? ==> r.value < |bindings| && bindings[r.value].role == role
    ensures r.Some? ==> forall j :: 0 <= j < r.value ==> bindings[j].role != role
  {
    if |bindings| == 0 then None
    else if bindings[0].role == role then Some(0)
    else
      match FindRole(bindings[1..], role)
      case None =>
        assert forall i :: 1 <= i < |bindings| ==> bindings[i] == bindings[1..][i - 1];
        None
      case Some(k) => Some(k + 1)
  }

  /** `after` is `before` with `member` pushed onto the members of binding `i`
      and nothing else different. */
  predicate AppendedAt(before: seq<Binding>, after: seq<Binding>, i: nat, member: string)
  {
    |after| == |before| && i < |before| &&
    after[i] == before[i].(members := before[i].members + [member]) &&
    forall j :: 0 <= j < |before| && j != i ==> after[j] == before[j]
  }

  /** The bindings after `addMember(policy, role, member)`. */
  function WithMember(bindings: seq<Binding>, role: string, member: string): (r: Result<seq<Binding>, EditError>)
    ensures r.Err? <==> !HasRole(bindings, role)
    ensures r.Err? ==> r.error == NoBindingForRole(role)
    ensures r.Ok? ==> exists i :: FindRole(bindings, role) == Some(i) && AppendedAt(bindings, r.value, i, member)
  {
    match FindRole(bindings, role)
    case None => Err(NoBindingForRole(role))
    case Some(i) =>
      var b := bindings[i];
      Ok(bindings[i := b.(members := b.members + [member])])
  }

  /** The binding `addBinding` creates: the role and the one member, no condition. */
  function NewBinding(role: string, member: string): Binding
  {
    Binding(role, [member], None)
  }

  /** The bindings after `addBinding(policy, role, member)`. */
  function WithBinding(bindings: seq<Binding>, role: string, member: string): (r: seq<Binding>)
    ensures |r| == |bindings| + 1 && r[..|bindings|] == bindings
    ensures r[|bindings|] == NewBinding(role, member)
  {
    bindings + [NewBinding(role, member)]
  }

  /** True when some binding for `role` lists `member`: the member holds the role. */
  predicate Grants(bindings: seq<Binding>, role: string, member: string)
  {
    exists i :: 0 <= i < |bindings| && bindings[i].role == role && member in bindings[i].members
  }

  /** The number of entries over all member lists, duplicates included. */
  function MemberCount(bindings: seq<Binding>): nat
  {
    if |bindings| == 0 then 0 else |bindings[0].members| + MemberCount(bindings[1..])
  }

  lemma {:induction false} MemberCountAppend(bindings: seq<Binding>, b: Binding)
    ensures MemberCount(bindings + [b]) == MemberCount(bindings) + |b.members|
  {
    if |bindings| > 0 {
      assert (bindings + [b])[1..] == bindings[1..] + [b];
      MemberCountAppend(bindings[1..], b);
    }
  }

  lemma {:induction false} MemberCountUpdate(bindings: seq<Binding>, i: nat, b: Binding)
    requires i < |bindings|
    ensures MemberCount(bindings[i := b]) == MemberCount(bindings) - |bindings[i].members| + |b.members|
  {
    if i > 0 {
      assert bindings[i := b][1..] == bindings[1..][i - 1 := b];
      MemberCountUpdate(bindings[1..], i - 1, b);
    }
  }

  /** `addMember` adds exactly one member entry to the policy as a whole. */
  lemma {:induction false} WithMemberCountsOneMore(bindings: seq<Binding>, role: string, member: string)
    requires HasRole(bindings, role)
    ensures WithMember(bindings, role, member).Ok?
    ensures MemberCount(WithMember(bindings, role, member).value) == MemberCount(bindings) + 1
  {
    var i := FindRole(bindings, role).value;
    var b := bindings[i];
    MemberCountUpdate(bindings, i, b.(members := b.members + [member]));
  }

  /** `addBinding` adds exactly one member entry to the policy as a whole. */
  lemma {:induction false} WithBindingCountsOneMore(bindings: seq<Binding>, role: string, member: string)
    ensures MemberCount(WithBinding(bindings, role, member)) == MemberCount(bindings) + 1
  {
    MemberCountAppend(bindings, NewBinding(role, member));
  }

  /** `addMember` does not check for an existing entry: the member is listed
      once more in the target binding even when it is already there. */
  lemma WithMemberDoesNotDeduplicate(bindings: seq<Binding>, role: string, member: string)
    requires HasRole(bindings, role)
    ensures var i := FindRole(bindings, role).value;
            WithMember(bindings, role, member).Ok? &&
            multiset(WithMember(bindings, role, member).value[i].members)[member]
              == multiset(bindings[i].members)[member] + 1
  {
  }

  /** Hence `addMember` is not idempotent, whatever the policy. */
  lemma WithMemberNotIdempotent(bindings: seq<Binding>, role: string, member: string)
    requires HasRole(bindings, role)
    ensures WithMember(bindings, role, member).Ok?
    ensures var once := WithMember(bindings, role, member).value;
            WithMember(once, role, member).Ok? && WithMember(once, role, member).value != once
  {
    var once := WithMember(bindings, role, member).value;
    WithMemberCountsOneMore(bindings, role, member);
    WithMemberCountsOneMore(once, role, member);
  }

  /** Only the roles of the bindings matter to `find`. */
  lemma FindRoleSameRoles(a: seq<Binding>, b: seq<Binding>, role: string)
    requires |a| == |b|
    requires forall i :: 0 <= i < |a| ==> a[i].role == b[i].role
    ensures FindRole(a, role) == FindRole(b, role)
  {
    if FindRole(a, role).Some? {
      assert b[FindRole(a, role).value].role == role;
    }
    if FindRole(b, role).Some? {
      assert a[FindRole(b, role).value].role == role;
    }
  }

  /** `addMember` keeps every role in place, so any later `find` gives the same
      binding as before; in particular adding twice pushes onto one binding. */
  lemma WithMemberKeepsRoles(bindings: seq<Binding>, role: string, member: string, other: string)
    requires HasRole(bindings, role)
    ensures WithMember(bindings, role, member).Ok?
    ensures FindRole(WithMember(bindings, role, member).value, other) == FindRole(bindings, other)
  {
    FindRoleSameRoles(bindings, WithMember(bindings, role, member).value, other);
  }

  /** `addMember` grants `role` to `member` and no other grant appears or goes. */
  lemma WithMemberGrants(bindings: seq<Binding>, role: string, member: string, r: string, m: string)
    requires HasRole(bindings, role)
    ensures WithMember(bindings, role, member).Ok?
    ensures Grants(WithMember(bindings, role, member).value, r, m) <==> Grants(bindings, r, m) || (r == role && m == member)
  {
    var after := WithMember(bindings, role, member).value;
    var i := FindRole(bindings, role).value;
    assert AppendedAt(bindings, after, i, member);
    if Grants(bindings, r, m) {
      var j :| 0 <= j < |bindings| && bindings[j].role == r && m in bindings[j].members;
      assert after[j].role == r && m in after[j].members;
    }
    if r == role && m == member {
      assert after[i].members[|after[i].members| - 1] == member;
    }
    if Grants(after, r, m) {
      var j :| 0 <= j < |after| && after[j].role == r && m in after[j].members;
      if j != i || m != member {
        assert m in bindings[j].members;
      }
    }
  }

  /** `addBinding` grants `role` to `member` and no other grant appears or goes. */
  lemma WithBindingGrants(bindings: seq<Binding>, role: string, member: string, r: string, m: string)
    ensures Grants(WithBinding(bindings, role, member), r, m) <==> Grants(bindings, r, m) || (r == role && m == member)
  {
    var after := WithBinding(bindings, role, member);
    if Grants(bindings, r, m) {
      var j :| 0 <= j < |bindings| && bindings[j].role == r && m in bindings[j].members;
      assert after[j] == bindings[j];
    }
    if r == role && m == member {
      assert after[|bindings|].members[0] == member;
    }
    if Grants(after, r, m) {
      var j :| 0 <= j < |after| && after[j].role == r && m in after[j].members;
      if j < |bindings| {
        assert after[j] == bindings[j];
      }
    }
  }

  /** `addBinding` makes no duplicate-role check: on a policy that already
      has the role, two bindings carry it afterwards, and a later `addMember`
      for that role edits the older binding and leaves the new one as created. */
  lemma WithBindingDuplicatesRole(bindings: seq<Binding>, role: string, first: string, second: string)
    requires HasRole(bindings, role)
    ensures var added := WithBinding(bindings, role, first);
            var i := FindRole(bindings, role).value;
            i < |bindings| && added[i].role == role && added[|bindings|].role == role &&
            FindRole(added, role) == Some(i) &&
            WithMember(added, role, second).Ok? &&
            WithMember(added, role, second).value[i].members == bindings[i].members + [second] &&
            WithMember(added, role, second).value[|bindings|] == NewBinding(role, first)
  {
    var added := WithBinding(bindings, role, first);
    var i := FindRole(bindings, role).value;
    assert forall j :: 0 <= j < |bindings| ==> added[j] == bindings[j];
  }

  /** On a policy without the role, `addBinding` followed by `addMember` for
      that role grows the new binding. */
  lemma WithBindingThenMember(bindings: seq<Binding>, role: string, first: string, second: string)
    requires !HasRole(bindings, role)
    ensures WithMember(WithBinding(bindings, role, first), role, second)
              == Ok(bindings + [Binding(role, [first, second], None)])
  {
    var added := WithBinding(bindings, role, first);
    assert forall j :: 0 <= j < |bindings| ==> added[j] == bindings[j];
    assert FindRole(added, role) == Some(|bindings|);
    var b := added[|bindings|];
    assert b.(members := b.members + [second]) == Binding(role, [first, second], None);
    assert added[|bindings| := Binding(role, [first, second], None)] == bindings + [Binding(role, [first, second], None)];
  }
}
