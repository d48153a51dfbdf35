/** Saving entities under field permissions, and the reading and writing that nodes do on them. */
module EntityStore {
  import opened Wrappers
  import opened DagModels
  import opened Permissions

  datatype Entity = Entity(id: string, typ: string, attributes: map<string, Value>)

  // ----- One save, field by field -----

  function Lookup(attributes: map<string, Value>, field: string): Option<Value> {
    if field in attributes then Some(attributes[field]) else None
  }

  /** What becomes of one field when `submitted` is saved over `current`. */
  function FieldAfter(p: Permission, current: Option<Value>, submitted: Option<Value>): Option<Value> {
    if submitted.None? then (if CanRead(p) && CanWrite(p) then None else current)
    else if CanWrite(p) then submitted
    else current
  }

  ghost predicate IsSaved(t: EntityType, overrides: map<string, string>, current: map<string, Value>,
      submitted: map<string, Value>, saved: map<string, Value>) {
    forall field {:trigger Lookup(saved, field)} ::
      Lookup(saved, field) == FieldAfter(PermissionFor(t, field, overrides), Lookup(current, field),
          Lookup(submitted, field))
  }

  lemma SavedIsUnique(t: EntityType, overrides: map<string, string>, current: map<string, Value>,
      submitted: map<string, Value>, a: map<string, Value>, b: map<string, Value>)
    requires IsSaved(t, overrides, current, submitted, a) && IsSaved(t, overrides, current, submitted, b)
    ensures a == b
  {
    forall field ensures (field in a <==> field in b) && (field in a ==> a[field] == b[field]) {
      assert Lookup(a, field) == Lookup(b, field);
    }
  }

  function Writable(t: EntityType, overrides: map<string, string>, current: map<string, Value>,
      submitted: map<string, Value>): (saved: map<string, Value>)
    ensures IsSaved(t, overrides, current, submitted, saved)
  {
    map field | field in current.Keys + submitted.Keys
                && FieldAfter(PermissionFor(t, field, overrides), Lookup(current, field),
                    Lookup(submitted, field)).Some?
      :: FieldAfter(PermissionFor(t, field, overrides), Lookup(current, field), Lookup(submitted, field)).value
  }

  /** `_writable_attributes` */
  method WritableAttributes(t: EntityType, overrides: map<string, string>, current: map<string, Value>,
      submitted: map<string, Value>) returns (values: map<string, Value>)
    ensures values == Writable(t, overrides, current, submitted)
  {
    values := current;
    var todo := current.Keys + submitted.Keys;
    while todo != {}
      invariant todo <= current.Keys + submitted.Keys
      invariant forall field {:trigger Lookup(values, field)} ::
                  Lookup(values, field) == if field in todo then Lookup(current, field)
                                           else FieldAfter(PermissionFor(t, field, overrides), Lookup(current, field),
                                               Lookup(submitted, field))
    {
      var field :| field in todo;
      todo := todo - {field};
      ghost var before := values;
      var permission := FieldPermission(t, field, overrides);
      if field !in submitted {
        if CanRead(permission) && CanWrite(permission) {
          values := values - {field};
        }
      } else if CanWrite(permission) {
        values := values[field := submitted[field]];
      }
      forall other ensures other != field ==> Lookup(values, other) == Lookup(before, other) {
      }
    }
    SavedIsUnique(t, overrides, current, submitted, values, Writable(t, overrides, current, submitted));
  }

  /** The attributes that `get_entity` shows. */
  function Readable(t: EntityType, overrides: map<string, string>, attributes: map<string, Value>): map<string, Value> {
    map field | field in attributes && CanRead(PermissionFor(t, field, overrides)) :: attributes[field]
  }

  /** Fields a node may not write are never changed by a save. */
  lemma UnwritableFieldsStay(t: EntityType, overrides: map<string, string>, current: map<string, Value>,
      submitted: map<string, Value>, field: string)
    requires !CanWrite(PermissionFor(t, field, overrides))
    ensures Lookup(Writable(t, overrides, current, submitted), field) == Lookup(current, field)
  {
    assert IsSaved(t, overrides, current, submitted, Writable(t, overrides, current, submitted));
  }

  /** Saving the same thing twice is saving it once. */
  lemma SavingIsIdempotent(t: EntityType, overrides: map<string, string>, current: map<string, Value>,
      submitted: map<string, Value>)
    ensures var saved := Writable(t, overrides, current, submitted);
      Writable(t, overrides, saved, submitted) == saved
  {
    var saved := Writable(t, overrides, current, submitted);
    var again := Writable(t, overrides, saved, submitted);
    forall field ensures (field in again <==> field in saved) && (field in again ==> again[field] == saved[field]) {
      assert Lookup(again, field) == FieldAfter(PermissionFor(t, field, overrides), Lookup(saved, field),
          Lookup(submitted, field));
      assert Lookup(saved, field) == FieldAfter(PermissionFor(t, field, overrides), Lookup(current, field),
          Lookup(submitted, field));
    }
  }

  /** The two agree on every field that can be both read and written, except possibly one. */
  ghost predicate AgreeExcept(t: EntityType, overrides: map<string, string>, a: map<string, Value>,
      b: map<string, Value>, except: set<string>) {
    forall field {:trigger Lookup(a, field)} ::
        field !in except && PermissionFor(t, field, overrides) == ReadWrite ==> Lookup(a, field) == Lookup(b, field)
  }

  lemma ReadableField(t: EntityType, overrides: map<string, string>, seen: map<string, Value>, field: string)
    ensures Lookup(Readable(t, overrides, seen), field)
        == if CanRead(PermissionFor(t, field, overrides)) then Lookup(seen, field) else None
  {
  }

  /**
   Writing one field back into what was read of `seen`, over what is stored as `current`, changes that
   field and no other exactly if the two agree on the other fields that can be read and written.
   */
  lemma WriteChangesOneField(t: EntityType, overrides: map<string, string>, current: map<string, Value>,
      seen: map<string, Value>, field: string, value: Value)
    requires CanWrite(PermissionFor(t, field, overrides))
    ensures Writable(t, overrides, current, Readable(t, overrides, seen)[field := value]) == current[field := value]
            <==> AgreeExcept(t, overrides, current, seen, {field})
  {
    var submitted := Readable(t, overrides, seen)[field := value];
    var saved, expected := Writable(t, overrides, current, submitted), current[field := value];
    forall f ensures Lookup(saved, f) == Lookup(expected, f)
        <==> f == field || PermissionFor(t, f, overrides) != ReadWrite || Lookup(current, f) == Lookup(seen, f) {
      ReadableField(t, overrides, seen, f);
      assert Lookup(saved, f) == FieldAfter(PermissionFor(t, f, overrides), Lookup(current, f), Lookup(submitted, f));
    }
    if AgreeExcept(t, overrides, current, seen, {field}) {
      forall f ensures (f in saved <==> f in expected) && (f in saved ==> saved[f] == expected[f]) {
        assert Lookup(saved, f) == Lookup(expected, f);
      }
    }
  }

  /**
   Saving what was read, unmodified, changes nothing exactly if what was read agrees with what is stored on the
   fields that can be read and written.
   */
  lemma UnmodifiedSaveChangesNothing(t: EntityType, overrides: map<string, string>, current: map<string, Value>,
      seen: map<string, Value>)
    ensures Writable(t, overrides, current, Readable(t, overrides, seen)) == current
        <==> AgreeExcept(t, overrides, current, seen, {})
  {
    var submitted := Readable(t, overrides, seen);
    var saved := Writable(t, overrides, current, submitted);
    forall f ensures Lookup(saved, f) == Lookup(current, f)
        <==> PermissionFor(t, f, overrides) != ReadWrite || Lookup(current, f) == Lookup(seen, f) {
      ReadableField(t, overrides, seen, f);
      assert Lookup(saved, f) == FieldAfter(PermissionFor(t, f, overrides), Lookup(current, f), Lookup(submitted, f));
    }
    if AgreeExcept(t, overrides, current, seen, {}) {
      forall f ensures (f in saved <==> f in current) && (f in saved ==> saved[f] == current[f]) {
        assert Lookup(saved, f) == Lookup(current, f);
      }
    }
  }
}
