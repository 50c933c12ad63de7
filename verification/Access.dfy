/** Resolving a subject's permissions under a policy, and the stable text of the result. */
module Access {
  import opened Prelude
  import opened TextOrder
  import opened Json
  import opened JsonParser
  import opened CanonicalJson

  datatype Subject = Subject(principalId: Text, roles: seq<Text>, entitlements: seq<Text>)

  /** A policy; the lists a policy leaves out are empty. */
  datatype Policy = Policy(version: Text, defaults: seq<Text>, roles: map<Text, seq<Text>>, entitlements: map<Text, seq<Text>>)

  datatype Context = Context(
    principalId: Text, policyVersion: Text, roles: seq<Text>, entitlements: seq<Text>, permissions: seq<Text>)

  datatype Resolution = Resolution(context: Context, unknownRoles: seq<Text>, unknownEntitlements: seq<Text>)

  datatype AccessError = EmptyName

  predicate IsBlank(s: Text) {
    forall i | 0 <= i < |s| :: IsWhiteSpace(s[i])
  }

  // ---------------------------------------------------------------- what is granted

  /** Some name in `names` is known to `assignments` and is assigned `permission`. */
  predicate AssignedBy(names: seq<Text>, assignments: map<Text, seq<Text>>, permission: Text) {
    exists i | 0 <= i < |names| :: names[i] in assignments && permission in assignments[names[i]]
  }

  /** A permission is granted by default, by a role the policy knows, or by an entitlement it knows. */
  predicate Grants(s: Subject, p: Policy, permission: Text) {
    permission in p.defaults || AssignedBy(s.roles, p.roles, permission) || AssignedBy(s.entitlements, p.entitlements, permission)
  }

  ghost function Granted(s: Subject, p: Policy): (g: set<Text>)
    ensures forall permission :: permission in g <==> Grants(s, p, permission)
  {
    Elements(p.defaults) +
    (set i, permission | 0 <= i < |s.roles| && s.roles[i] in p.roles && permission in p.roles[s.roles[i]] :: permission) +
    (set i, permission | 0 <= i < |s.entitlements| && s.entitlements[i] in p.entitlements
                         && permission in p.entitlements[s.entitlements[i]] :: permission)
  }

  /** The context `resolveAccess` returns. */
  ghost function ContextOf(s: Subject, p: Policy): Context {
    Context(s.principalId, p.version, Sorted(Elements(s.roles)), Sorted(Elements(s.entitlements)), Sorted(Granted(s, p)))
  }

  // ---------------------------------------------------------------- resolveAccessInternal

  /** One of its two loops: what the sorted names add to the permissions granted so far, and which of them are unknown. */
  method Collect(names: seq<Text>, assignments: map<Text, seq<Text>>, before: seq<Text>)
    returns (granted: seq<Text>, unknown: seq<Text>)
    requires StrictlySorted(names)
    ensures forall permission :: permission in granted <==> permission in before || AssignedBy(names, assignments, permission)
    ensures StrictlySorted(unknown) && Elements(unknown) == Elements(names) - assignments.Keys
  {
    granted, unknown := before, [];
    for i := 0 to |names|
      invariant forall permission :: permission in granted <==> permission in before || AssignedBy(names[..i], assignments, permission)
      invariant StrictlySorted(unknown) && Elements(unknown) == Elements(names[..i]) - assignments.Keys
    {
      var name := names[i];
      OneMore(names, i, assignments);
      if name !in assignments {
        AppendUnknown(unknown, names, i);
        unknown := unknown + [name];
        continue;
      }
      granted := granted + assignments[name];
    }
    assert names[..|names|] == names;
  }

  lemma OneMore(names: seq<Text>, i: nat, assignments: map<Text, seq<Text>>)
    requires i < |names|
    ensures Elements(names[..i + 1]) == Elements(names[..i]) + {names[i]}
    ensures forall permission :: AssignedBy(names[..i + 1], assignments, permission) <==>
              AssignedBy(names[..i], assignments, permission) || (names[i] in assignments && permission in assignments[names[i]])
  {
    var a, b := names[..i + 1], names[..i];
    assert a == b + [names[i]];
    forall permission
      ensures AssignedBy(a, assignments, permission) <==>
              AssignedBy(b, assignments, permission) || (names[i] in assignments && permission in assignments[names[i]])
    {
      if AssignedBy(b, assignments, permission) {
        var j :| 0 <= j < |b| && b[j] in assignments && permission in assignments[b[j]];
        assert a[j] == b[j];
      }
      if names[i] in assignments && permission in assignments[names[i]] {
        assert a[i] == names[i];
      }
    }
  }

  lemma AppendUnknown(unknown: seq<Text>, names: seq<Text>, i: nat)
    requires i < |names| && StrictlySorted(names) && StrictlySorted(unknown) && Elements(unknown) <= Elements(names[..i])
    ensures StrictlySorted(unknown + [names[i]]) && Elements(unknown + [names[i]]) == Elements(unknown) + {names[i]}
  {
    forall j | 0 <= j < |unknown| ensures Less(unknown[j], names[i]) {
      assert unknown[j] in Elements(unknown);
      var k :| 0 <= k < i && names[..i][k] == unknown[j];
      assert names[k] == unknown[j];
    }
    assert forall y :: y in unknown + [names[i]] <==> y in unknown || y == names[i];
  }

  method ResolveAccess(s: Subject, p: Policy) returns (r: Result<Resolution, AccessError>)
    ensures r.Err? <==> IsBlank(s.principalId) || IsBlank(p.version)
    ensures r.Ok? ==> r.value.context == ContextOf(s, p)
    ensures r.Ok? ==> var ps := r.value.context.permissions;
                      && (forall permission :: permission in ps <==> Grants(s, p, permission))
                      && (forall i, j | 0 <= i < j < |ps| :: Precedes(ps[i], ps[j]))
    ensures r.Ok? ==> StrictlySorted(r.value.unknownRoles) && Elements(r.value.unknownRoles) == Elements(s.roles) - p.roles.Keys
    ensures r.Ok? ==> StrictlySorted(r.value.unknownEntitlements)
                      && Elements(r.value.unknownEntitlements) == Elements(s.entitlements) - p.entitlements.Keys
  {
    if IsBlank(s.principalId) || IsBlank(p.version) {
      return Err(EmptyName);
    }
    var roles := UniqueSorted(s.roles);
    var entitlements := UniqueSorted(s.entitlements);
    var granted, unknownRoles := Collect(roles, p.roles, p.defaults);
    ghost var byRoles := granted;
    var unknownEntitlements;
    granted, unknownEntitlements := Collect(entitlements, p.entitlements, granted);
    var permissions := UniqueSorted(granted);
    SameNamesAssign(s.roles, roles, p.roles);
    SameNamesAssign(s.entitlements, entitlements, p.entitlements);
    assert Elements(granted) == Granted(s, p);
    SortedByPosition(Granted(s, p));
    return Ok(Resolution(Context(s.principalId, p.version, roles, entitlements, permissions), unknownRoles, unknownEntitlements));
  }

  lemma SameNamesAssign(a: seq<Text>, b: seq<Text>, assignments: map<Text, seq<Text>>)
    requires Elements(a) == Elements(b)
    ensures forall permission :: AssignedBy(a, assignments, permission) <==> AssignedBy(b, assignments, permission)
  {
    forall permission ensures AssignedBy(a, assignments, permission) <==> AssignedBy(b, assignments, permission) {
      if AssignedBy(a, assignments, permission) {
        AssignedWithin(a, b, assignments, permission);
      }
      if AssignedBy(b, assignments, permission) {
        AssignedWithin(b, a, assignments, permission);
      }
    }
  }

  lemma AssignedWithin(a: seq<Text>, b: seq<Text>, assignments: map<Text, seq<Text>>, permission: Text)
    requires Elements(a) <= Elements(b) && AssignedBy(a, assignments, permission)
    ensures AssignedBy(b, assignments, permission)
  {
    var i :| 0 <= i < |a| && a[i] in assignments && permission in assignments[a[i]];
    assert a[i] in Elements(a);
    var j :| 0 <= j < |b| && b[j] == a[i];
  }

  // ---------------------------------------------------------------- what the context depends on

  /** The permissions are exactly those granted, each once, and in the order of their units. */
  lemma PermissionsAreExactlyGranted(s: Subject, p: Policy)
    ensures var ps := ContextOf(s, p).permissions;
            && (forall permission :: permission in ps <==> Grants(s, p, permission))
            && (forall i, j | 0 <= i < j < |ps| :: Precedes(ps[i], ps[j]))
  {
    SortedByPosition(Granted(s, p));
  }

  predicate SameSubject(s: Subject, t: Subject) {
    s.principalId == t.principalId && Elements(s.roles) == Elements(t.roles) && Elements(s.entitlements) == Elements(t.entitlements)
  }

  predicate SameAssignments(m: map<Text, seq<Text>>, n: map<Text, seq<Text>>) {
    m.Keys == n.Keys && forall name | name in m :: Elements(m[name]) == Elements(n[name])
  }

  predicate SamePolicy(p: Policy, q: Policy) {
    && p.version == q.version && Elements(p.defaults) == Elements(q.defaults)
    && SameAssignments(p.roles, q.roles) && SameAssignments(p.entitlements, q.entitlements)
  }

  lemma ReorderedAssignments(names: seq<Text>, m: map<Text, seq<Text>>, n: map<Text, seq<Text>>, permission: Text)
    requires SameAssignments(m, n) && AssignedBy(names, m, permission)
    ensures AssignedBy(names, n, permission)
  {
    var i :| 0 <= i < |names| && names[i] in m && permission in m[names[i]];
    assert permission in Elements(m[names[i]]);
  }

  lemma SameGrants(s: Subject, t: Subject, p: Policy, q: Policy, permission: Text)
    requires SameSubject(s, t) && SamePolicy(p, q) && Grants(s, p, permission)
    ensures Grants(t, q, permission)
  {
    if permission in p.defaults {
      assert permission in Elements(p.defaults);
    } else if AssignedBy(s.roles, p.roles, permission) {
      AssignedWithin(s.roles, t.roles, p.roles, permission);
      ReorderedAssignments(t.roles, p.roles, q.roles, permission);
    } else {
      AssignedWithin(s.entitlements, t.entitlements, p.entitlements, permission);
      ReorderedAssignments(t.entitlements, p.entitlements, q.entitlements, permission);
    }
  }

  /** Reordering or repeating anything in a subject's or a policy's lists changes neither the context nor its text. */
  lemma OrderAndRepetitionAreImmaterial(s: Subject, t: Subject, p: Policy, q: Policy)
    requires SameSubject(s, t) && SamePolicy(p, q)
    ensures ContextOf(s, p) == ContextOf(t, q) && SerializedContext(ContextOf(s, p)) == SerializedContext(ContextOf(t, q))
  {
    forall permission ensures permission in Granted(s, p) <==> permission in Granted(t, q) {
      if permission in Granted(s, p) {
        SameGrants(s, t, p, q, permission);
      }
      if permission in Granted(t, q) {
        SameGrants(t, s, q, p, permission);
      }
    }
    assert Granted(s, p) == Granted(t, q);
  }

  /** Names the policy does not know never change the permissions, wherever they are added. */
  lemma UnknownNamesGrantNothing(s: Subject, t: Subject, p: Policy)
    requires Elements(s.roles) <= Elements(t.roles) && Elements(t.roles) - Elements(s.roles) !! p.roles.Keys
    requires Elements(s.entitlements) <= Elements(t.entitlements)
    requires Elements(t.entitlements) - Elements(s.entitlements) !! p.entitlements.Keys
    ensures ContextOf(s, p).permissions == ContextOf(t, p).permissions
  {
    forall permission ensures Grants(s, p, permission) <==> Grants(t, p, permission) {
      KnownNamesDecide(s.roles, t.roles, p.roles, permission);
      KnownNamesDecide(s.entitlements, t.entitlements, p.entitlements, permission);
    }
    assert Granted(s, p) == Granted(t, p);
  }

  lemma KnownNamesDecide(a: seq<Text>, b: seq<Text>, assignments: map<Text, seq<Text>>, permission: Text)
    requires Elements(a) <= Elements(b) && Elements(b) - Elements(a) !! assignments.Keys
    ensures AssignedBy(a, assignments, permission) <==> AssignedBy(b, assignments, permission)
  {
    if AssignedBy(a, assignments, permission) {
      AssignedWithin(a, b, assignments, permission);
    }
    if AssignedBy(b, assignments, permission) {
      var i :| 0 <= i < |b| && b[i] in assignments && permission in assignments[b[i]];
      assert b[i] in Elements(b);
      assert b[i] in Elements(a);
      var j :| 0 <= j < |a| && a[j] == b[i];
    }
  }

  // ---------------------------------------------------------------- serializeAccessContext

  const PRINCIPAL_ID: Text := Ascii("principalId")
  const POLICY_VERSION: Text := Ascii("policyVersion")
  const ROLES: Text := Ascii("roles")
  const ENTITLEMENTS: Text := Ascii("entitlements")
  const PERMISSIONS: Text := Ascii("permissions")

  /** The order in which the fields are written. */
  const CONTEXT_FIELDS: seq<Text> := [PRINCIPAL_ID, POLICY_VERSION, ROLES, ENTITLEMENTS, PERMISSIONS]

  lemma FieldCodes()
    ensures |PRINCIPAL_ID| == 11 && |POLICY_VERSION| == 13 && |ROLES| == 5 && |ENTITLEMENTS| == 12 && |PERMISSIONS| == 11
    ensures PRINCIPAL_ID[1] == 0x72 && PERMISSIONS[1] == 0x65
  {
  }

  lemma FieldsDistinct()
    ensures NoRepeats(CONTEXT_FIELDS)
  {
    FieldCodes();
  }

  lemma StringsInjective(a: seq<Text>, b: seq<Text>)
    ensures Strings(a) == Strings(b) <==> a == b
  {
    if Strings(a) == Strings(b) {
      assert |a| == |b|;
      assert forall i | 0 <= i < |a| :: Strings(a)[i] == Strings(b)[i];
    }
  }

  function ContextValue(c: Context): Value {
    Obj(map[
      PRINCIPAL_ID := Str(c.principalId), POLICY_VERSION := Str(c.policyVersion), ROLES := Arr(Strings(c.roles)),
      ENTITLEMENTS := Arr(Strings(c.entitlements)), PERMISSIONS := Arr(Strings(c.permissions))
    ])
  }

  lemma ContextFields(c: Context)
    ensures var m := ContextValue(c).members;
            && m.Keys == Elements(CONTEXT_FIELDS)
            && m[PRINCIPAL_ID] == Str(c.principalId) && m[POLICY_VERSION] == Str(c.policyVersion)
            && m[ROLES] == Arr(Strings(c.roles)) && m[ENTITLEMENTS] == Arr(Strings(c.entitlements))
            && m[PERMISSIONS] == Arr(Strings(c.permissions))
  {
    FieldCodes();
    var m := ContextValue(c).members;
    assert forall name :: name in m <==> name in CONTEXT_FIELDS;
  }

  lemma ContextPrintable(c: Context)
    ensures Integral(ContextValue(c)) && Lists(ContextValue(c), CONTEXT_FIELDS)
  {
    ContextFields(c);
    FieldsDistinct();
    StringsIntegral(c.roles);
    StringsIntegral(c.entitlements);
    StringsIntegral(c.permissions);
    var m := ContextValue(c).members;
    assert ContextValue(c).Obj?;
    hide ContextValue, Strings, NoRepeats;
    forall i | 0 <= i < |CONTEXT_FIELDS| ensures CONTEXT_FIELDS[i] in m {
      assert CONTEXT_FIELDS[i] in Elements(CONTEXT_FIELDS);
    }
    forall name | name in m ensures Integral(m[name]) {
      assert name in CONTEXT_FIELDS;
    }
  }

  ghost function SerializedContext(c: Context): Text {
    ContextPrintable(c);
    Stringified(ContextValue(c), CONTEXT_FIELDS)
  }

  /** The text of a context is strict JSON for it, and tells every two contexts apart. */
  lemma SerializationIsFaithful(c: Context, d: Context)
    ensures ParseValue(SerializedContext(c)) == Ok(ContextValue(c))
    ensures SerializedContext(c) == SerializedContext(d) <==> c == d
  {
    ContextPrintable(c);
    ContextPrintable(d);
    ContextFields(c);
    ContextFields(d);
    ParsingUndoesStringifying(ContextValue(c), CONTEXT_FIELDS);
    ParsingUndoesStringifying(ContextValue(d), CONTEXT_FIELDS);
    StringsInjective(c.roles, d.roles);
    StringsInjective(c.entitlements, d.entitlements);
    StringsInjective(c.permissions, d.permissions);
    hide Strings, ContextValue, Integral, Lists, Stringified, ParseValue;
  }
}
