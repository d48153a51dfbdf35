/** Field permissions of entity types, their inheritance along dotted names, and overrides. */
module Permissions {
  import opened Wrappers

  datatype Permission = NoAccess | ReadOnly | WriteOnly | ReadWrite

  predicate CanRead(p: Permission) {
    p == ReadOnly || p == ReadWrite
  }

  predicate CanWrite(p: Permission) {
    p == WriteOnly || p == ReadWrite
  }

  function ParsePermission(text: string): Option<Permission> {
    if text == "none" then Some(NoAccess)
    else if text == "read-only" then Some(ReadOnly)
    else if text == "write-only" then Some(WriteOnly)
    else if text == "read-write" then Some(ReadWrite)
    else None
  }

  datatype EntityType = EntityType(businessIdField: string, permissions: map<string, Permission>)

  /** What a node instance may set for one entity type. */
  datatype Overrides = Fields(values: map<string, string>) | NotAMapping

  // ----- Inheritance -----

  /** The name up to `k` is the name itself or one of its dotted ancestors. */
  predicate IsCut(field: string, k: nat)
    requires k <= |field|
  {
    k == |field| || field[k] == '.'
  }

  /** The last declared ancestor among those shorter than `k`. */
  function BaseUpTo(declared: map<string, Permission>, field: string, k: nat): Permission
    requires k <= |field| + 1
  {
    if k == 0 then ReadWrite
    else if IsCut(field, k - 1) && field[..k - 1] in declared then declared[field[..k - 1]]
    else BaseUpTo(declared, field, k - 1)
  }

  function BasePermission(t: EntityType, field: string): Permission {
    BaseUpTo(t.permissions, field, |field| + 1)
  }

  /** `_override_permission` */
  function OverridePermission(overrides: map<string, string>, field: string): Option<Permission> {
    if field in overrides then ParsePermission(overrides[field]) else None
  }

  function PermissionFor(t: EntityType, field: string, overrides: map<string, string>): Permission {
    var o := OverridePermission(overrides, field);
    if o.Some? then o.value else BasePermission(t, field)
  }

  /** `field_permission`: a variable updated along the dotted ancestors. */
  method FieldPermission(t: EntityType, field: string, overrides: map<string, string>) returns (permission: Permission)
    ensures permission == PermissionFor(t, field, overrides)
  {
    permission := ReadWrite;
    for k := 0 to |field| + 1
      invariant permission == BaseUpTo(t.permissions, field, k)
    {
      if k == |field| || field[k] == '.' {
        var key := field[..k];
        if key in t.permissions {
          permission := t.permissions[key];
        }
      }
    }
    var o := OverridePermission(overrides, field);
    if o.Some? {
      permission := o.value;
    }
  }

  /** The longest declared ancestor decides; without one, everything is allowed. */
  lemma {:induction false} LongestDeclaredDecides(declared: map<string, Permission>, field: string, n: nat, k: nat)
    requires n <= |field| + 1 && k <= n
    requires forall j: nat :: k <= j < n && IsCut(field, j) ==> field[..j] !in declared
    ensures k > 0 && IsCut(field, k - 1) && field[..k - 1] in declared ==>
        BaseUpTo(declared, field, n) == declared[field[..k - 1]]
    ensures k == 0 ==> BaseUpTo(declared, field, n) == ReadWrite
    decreases n
  {
    if k < n {
      LongestDeclaredDecides(declared, field, n - 1, k);
    }
  }

  lemma {:induction false} SameAncestors(declared: map<string, Permission>, parent: string, rest: string, k: nat)
    requires k <= |parent| + 1
    ensures BaseUpTo(declared, parent + "." + rest, k) == BaseUpTo(declared, parent, k)
  {
    if k > 0 {
      var field := parent + "." + rest;
      assert field[..k - 1] == parent[..k - 1];
      SameAncestors(declared, parent, rest, k - 1);
    }
  }

  lemma {:induction false} NothingDeclaredBetween(declared: map<string, Permission>, field: string, k: nat, n: nat)
    requires k <= n <= |field| + 1
    requires forall j: nat :: k <= j < n && IsCut(field, j) ==> field[..j] !in declared
    ensures BaseUpTo(declared, field, n) == BaseUpTo(declared, field, k)
    decreases n
  {
    if k < n {
      NothingDeclaredBetween(declared, field, k, n - 1);
    }
  }

  /** A nested field with no declaration of its own below the parent has the parent's permission. */
  lemma ChildInherits(t: EntityType, parent: string, rest: string)
    requires var field := parent + "." + rest;
      forall j: nat :: |parent| < j <= |field| && IsCut(field, j) ==> field[..j] !in t.permissions
    ensures BasePermission(t, parent + "." + rest) == BasePermission(t, parent)
  {
    var field := parent + "." + rest;
    NothingDeclaredBetween(t.permissions, field, |parent| + 1, |field| + 1);
    SameAncestors(t.permissions, parent, rest, |parent| + 1);
  }

  // ----- Validating overrides -----

  /** `_ALLOWED_PERMISSION_OVERRIDES` */
  function AllowedOverrides(base: Permission): set<Permission> {
    match base
    case NoAccess => {NoAccess, ReadOnly, WriteOnly, ReadWrite}
    case ReadOnly => {ReadOnly, ReadWrite}
    case WriteOnly => {WriteOnly, ReadWrite}
    case ReadWrite => {ReadWrite}
  }

  datatype OverrideError = UnknownType(typ: string) | FieldsNotAMapping(typ: string) | InvalidValue(typ: string,
      field: string) | Downgrade(typ: string, field: string)

  predicate FieldAccepted(t: EntityType, field: string, value: string) {
    ParsePermission(value).Some? && ParsePermission(value).value in AllowedOverrides(BasePermission(t, field))
  }

  predicate TypeAccepted(types: map<string, EntityType>, typ: string, o: Overrides) {
    typ in types && o.Fields? && forall field {:trigger field in o.values} ::
        field in o.values ==> FieldAccepted(types[typ], field, o.values[field])
  }

  /** The error is one that the overrides really have. */
  predicate Justified(types: map<string, EntityType>, overrides: map<string, Overrides>, e: OverrideError) {
    e.typ in overrides &&
    match e
    case UnknownType(typ) => typ !in types
    case FieldsNotAMapping(typ) => typ in types && overrides[typ].NotAMapping?
    case InvalidValue(typ, field) => typ in types && overrides[typ].Fields? && field in overrides[typ].values
        && ParsePermission(overrides[typ].values[field]).None?
    case Downgrade(typ, field) =>
      && typ in types && overrides[typ].Fields? && field in overrides[typ].values
      && ParsePermission(overrides[typ].values[field]).Some?
          && !FieldAccepted(types[typ], field, overrides[typ].values[field])
  }

  /** `validate_permission_overrides` */
  method ValidatePermissionOverrides(types: map<string, EntityType>, overrides: map<string, Overrides>)
      returns (error: Option<OverrideError>)
    ensures error.None? <==> forall typ {:trigger typ in overrides} ::
        typ in overrides ==> TypeAccepted(types, typ, overrides[typ])
    ensures error.Some? ==> Justified(types, overrides, error.value)
  {
    var todo := overrides.Keys;
    while todo != {}
      invariant todo <= overrides.Keys
      invariant forall typ {:trigger typ in overrides} ::
          typ in overrides && typ !in todo ==> TypeAccepted(types, typ, overrides[typ])
    {
      var typ :| typ in todo;
      todo := todo - {typ};
      if typ !in types {
        return Some(UnknownType(typ));
      }
      if overrides[typ].NotAMapping? {
        return Some(FieldsNotAMapping(typ));
      }
      var bad := ValidateFields(types[typ], overrides[typ].values);
      if bad.Some? {
        return Some(if ParsePermission(overrides[typ].values[bad.value]).None? then InvalidValue(typ, bad.value)
            else Downgrade(typ, bad.value));
      }
    }
    return None;
  }

  method ValidateFields(t: EntityType, values: map<string, string>) returns (bad: Option<string>)
    ensures bad.None? <==> forall field {:trigger field in values} ::
        field in values ==> FieldAccepted(t, field, values[field])
    ensures bad.Some? ==> bad.value in values && !FieldAccepted(t, bad.value, values[bad.value])
  {
    var todo := values.Keys;
    while todo != {}
      invariant todo <= values.Keys
      invariant forall field {:trigger field in values} ::
          field in values && field !in todo ==> FieldAccepted(t, field, values[field])
    {
      var field :| field in todo;
      todo := todo - {field};
      var value := ParsePermission(values[field]);
      if value.None? {
        return Some(field);
      }
      var base := FieldPermission(t, field, map[]);
      if value.value !in AllowedOverrides(base) {
        return Some(field);
      }
    }
    return None;
  }

  predicate AtLeast(p: Permission, q: Permission) {
    (CanRead(q) ==> CanRead(p)) && (CanWrite(q) ==> CanWrite(p))
  }

  /**
   Overrides of a known type are accepted exactly if they are permissions and take no capability away from any
   field.
   */
  lemma AcceptedExactlyWithoutDowngrade(types: map<string, EntityType>, typ: string, values: map<string, string>)
    requires typ in types
    ensures TypeAccepted(types, typ, Fields(values)) <==>
              && (forall field {:trigger field in values} :: field in values ==> ParsePermission(values[field]).Some?)
              && (forall field {:trigger PermissionFor(types[typ], field, values)} ::
                  AtLeast(PermissionFor(types[typ], field, values), BasePermission(types[typ], field)))
  {
    var t := types[typ];
    forall field | field in values && ParsePermission(values[field]).Some?
      ensures FieldAccepted(t, field, values[field])
          <==> AtLeast(PermissionFor(t, field, values), BasePermission(t, field))
    {
    }
    if TypeAccepted(types, typ, Fields(values)) {
      forall field ensures AtLeast(PermissionFor(t, field, values), BasePermission(t, field)) {
        assert field in Fields(values).values ==> FieldAccepted(t, field, values[field]);
      }
    }
  }
}
