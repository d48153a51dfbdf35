/** `EntityStore.resolve` and `save` over their three tiers, and what a node context does with them. */
module NodeAccess {
  import opened Wrappers
  import opened DagModels
  import opened Lexing
  import opened Parsing
  import opened Permissions
  import opened EntityStore

  /** The entity types, JSON validity for trigger conditions, and the validity of the configured entities as a whole. */
  datatype Rules = Rules(types: map<string, EntityType>, json: Json, valid: seq<Entity> -> bool)

  /** `files` are the configured entities; `cache` is the copy made for the run of this store, if there is one. */
  datatype Store = Store(files: seq<Entity>, memory: seq<Entity>, database: seq<Entity>, cache: map<string, Entity>)

  datatype StoreError = NotFound | TypeChanged | UnknownEntityType | BadCondition | InvalidConfiguration

  type Overridden = map<string, Overrides>

  function All(s: Store): seq<Entity> {
    s.files + s.memory + s.database
  }

  /** The overrides that apply to a type; anything that is not a mapping counts for nothing. */
  function OverridesFor(permissions: Overridden, typ: string): map<string, string> {
    if typ in permissions && permissions[typ].Fields? then permissions[typ].values else map[]
  }

  // ----- Finding -----

  /** The first entity with the id, or the length of the list. */
  function IndexOf(all: seq<Entity>, id: string): (i: nat)
    ensures i <= |all| && (i < |all| ==> all[i].id == id)
    ensures forall j :: 0 <= j < i ==> all[j].id != id
  {
    if all == [] then 0
    else if all[0].id == id then 0
    else
      assert forall j :: 0 < j < |all| ==> all[j] == all[1..][j - 1];
      1 + IndexOf(all[1..], id)
  }

  /** `entity_ref`, where the entity has a business id. */
  function RefOf(types: map<string, EntityType>, e: Entity): Option<string> {
    if e.typ !in types then None
    else
      var field := types[e.typ].businessIdField;
      var value := if field in e.attributes then e.attributes[field] else Null;
      if value.Text? && value.s != "" then Some(e.typ + ":" + value.s)
      else if field == "id" then Some(e.typ + ":" + e.id)
      else None
  }

  predicate Matches(types: map<string, EntityType>, e: Entity, ref: string) {
    ref == e.id || RefOf(types, e) == Some(ref)
  }

  /** The first match among the entities that are not hidden by an earlier one with the same id. */
  function FirstMatch(types: map<string, EntityType>, all: seq<Entity>, ref: string, i: nat): (found: nat)
    requires i <= |all|
    ensures i <= found <= |all|
    ensures found < |all| ==> Matches(types, all[found], ref) && IndexOf(all, all[found].id) == found
    decreases |all| - i
  {
    if i == |all| then i
    else if IndexOf(all, all[i].id) == i && Matches(types, all[i], ref) then i
    else FirstMatch(types, all, ref, i + 1)
  }

  /** `resolve` */
  function Resolve(rules: Rules, s: Store, ref: string): Option<Entity> {
    if ref in s.cache then Some(s.cache[ref])
    else
      var i := FirstMatch(rules.types, All(s), ref, 0);
      if i < |All(s)| then Some(All(s)[i]) else None
  }

  // ----- Saving -----

  /** `_validate_entity_semantics` */
  predicate ConditionOk(json: Json, e: Entity) {
    e.typ == "trigger" && "wait_for" in e.attributes && e.attributes["wait_for"].Text? ==>
        ParseText(json, e.attributes["wait_for"].s).Ok?
  }

  /** The store with the entity at position `i` of its tiers replaced. */
  function Replace(s: Store, i: nat, e: Entity): Store
    requires i < |All(s)|
  {
    if i < |s.files| then s.(files := s.files[i := e])
    else if i < |s.files| + |s.memory| then s.(memory := s.memory[i - |s.files| := e])
    else s.(database := s.database[i - |s.files| - |s.memory| := e])
  }

  /** What a save over `current` stores. */
  function SavedEntity(rules: Rules, current: Entity, e: Entity, permissions: Overridden): Entity
    requires current.typ in rules.types
  {
    e.(attributes := Writable(rules.types[current.typ], OverridesFor(permissions, current.typ), current.attributes,
        e.attributes))
  }

  /** Why a save is refused, if it is. */
  function Objection(rules: Rules, s: Store, e: Entity, permissions: Overridden): Option<StoreError> {
    var i := IndexOf(All(s), e.id);
    if i == |All(s)| then Some(NotFound)
    else
      var current := All(s)[i];
      if current.typ != e.typ then Some(TypeChanged)
      else if current.typ !in rules.types then Some(UnknownEntityType)
      else
        var saved := SavedEntity(rules, current, e, permissions);
        if !ConditionOk(rules.json, saved) then Some(BadCondition)
        else if i < |s.files| && !rules.valid(s.files[i := saved]) then Some(InvalidConfiguration)
        else None
  }

  /** `save`, when nothing objects. */
  function SaveIn(rules: Rules, s: Store, e: Entity, permissions: Overridden): Store
    requires Objection(rules, s, e, permissions).None?
  {
    var i := IndexOf(All(s), e.id);
    Replace(s, i, SavedEntity(rules, All(s)[i], e, permissions))
  }

  class NodeContext {
    const rules: Rules
    const permissions: Overridden
    var files: seq<Entity>
    var memory: seq<Entity>
    var database: seq<Entity>
    var cache: map<string, Entity>

    function View(): Store
      reads this
    {
      Store(files, memory, database, cache)
    }

    constructor (rules: Rules, permissions: Overridden, s: Store)
      ensures this.rules == rules && this.permissions == permissions && View() == s
    {
      this.rules, this.permissions := rules, permissions;
      files, memory, database, cache := s.files, s.memory, s.database, s.cache;
    }

    /** `NodeContext.get_entity` */
    method GetEntity(ref: string) returns (r: Result<Entity, StoreError>)
      ensures r == Shown(rules, permissions, View(), ref)
    {
      var e := Resolve(rules, View(), ref);
      if e.None? {
        return Err(NotFound);
      }
      if e.value.typ !in rules.types {
        return Err(UnknownEntityType);
      }
      return Ok(e.value.(attributes := Readable(rules.types[e.value.typ], OverridesFor(permissions, e.value.typ),
          e.value.attributes)));
    }

    /** `EntityStore.save`: an entity that is refused leaves the store as it was. */
    method Save(e: Entity) returns (r: Result<Entity, StoreError>)
      modifies this
      ensures r.Err? <==> Objection(rules, old(View()), e, permissions).Some?
      ensures r.Err? ==> View() == old(View()) && Some(r.error) == Objection(rules, old(View()), e, permissions)
      ensures r.Ok? ==> View() == SaveIn(rules, old(View()), e, permissions)
    {
      var i := IndexOf(All(View()), e.id);
      if i == |All(View())| {
        return Err(NotFound);
      }
      var current := All(View())[i];
      if current.typ != e.typ {
        return Err(TypeChanged);
      }
      if current.typ !in rules.types {
        return Err(UnknownEntityType);
      }
      var attributes := WritableAttributes(rules.types[current.typ], OverridesFor(permissions, current.typ),
          current.attributes, e.attributes);
      var saved := e.(attributes := attributes);
      if !ConditionOk(rules.json, saved) {
        return Err(BadCondition);
      }
      if i < |files| {
        var before := files;
        files := files[i := saved];
        if !rules.valid(files) {
          files := before;
          return Err(InvalidConfiguration);
        }
      } else if i < |files| + |memory| {
        memory := memory[i - |files| := saved];
      } else {
        database := database[i - |files| - |memory| := saved];
      }
      return Ok(saved);
    }

    /** `NodeContext.write_entity_field`: true if the field was written. */
    method WriteEntityField(ref: string, field: string, value: Value) returns (r: Result<bool, StoreError>)
      modifies this
      ensures r == WriteResult(rules, permissions, old(View()), ref, field, value)
      ensures View() == if r == Ok(true) then SaveIn(rules, old(View()),
          Submitted(rules, permissions, old(View()), ref, field, value), permissions) else old(View())
    {
      var shown := GetEntity(ref);
      if shown.Err? {
        return Err(shown.error);
      }
      var e := shown.value;
      var permission := FieldPermission(rules.types[e.typ], field, OverridesFor(permissions, e.typ));
      if !CanWrite(permission) {
        return Ok(false);
      }
      var saved := Save(e.(attributes := e.attributes[field := value]));
      if saved.Err? {
        return Err(saved.error);
      }
      return Ok(true);
    }
  }

  /** What `get_entity` returns. */
  function Shown(rules: Rules, permissions: Overridden, s: Store, ref: string): (r: Result<Entity, StoreError>)
    ensures r.Ok? ==> r.value.typ in rules.types
  {
    var e := Resolve(rules, s, ref);
    if e.None? then Err(NotFound)
    else if e.value.typ !in rules.types then Err(UnknownEntityType)
    else Ok(e.value.(attributes := Readable(rules.types[e.value.typ], OverridesFor(permissions, e.value.typ),
        e.value.attributes)))
  }

  /** What `write_entity_field` hands to `save`. */
  function Submitted(rules: Rules, permissions: Overridden, s: Store, ref: string, field: string, value: Value): Entity
    requires Shown(rules, permissions, s, ref).Ok?
  {
    var e := Shown(rules, permissions, s, ref).value;
    e.(attributes := e.attributes[field := value])
  }

  function WriteResult(rules: Rules, permissions: Overridden, s: Store, ref: string, field: string,
      value: Value): (r: Result<bool, StoreError>)
    ensures r == Ok(true) ==>
        Shown(rules, permissions, s, ref).Ok?
        && Objection(rules, s, Submitted(rules, permissions, s, ref, field, value), permissions).None?
  {
    var shown := Shown(rules, permissions, s, ref);
    if shown.Err? then Err(shown.error)
    else if !CanWrite(PermissionFor(rules.types[shown.value.typ], field,
        OverridesFor(permissions, shown.value.typ))) then Ok(false)
    else
      var objection := Objection(rules, s, Submitted(rules, permissions, s, ref, field, value), permissions);
      if objection.Some? then Err(objection.value) else Ok(true)
  }

  // ----- What the store looks like afterwards -----

  /** The attributes stored under an id. */
  function Stored(s: Store, id: string): Option<map<string, Value>> {
    var i := IndexOf(All(s), id);
    if i < |All(s)| then Some(All(s)[i].attributes) else None
  }

  lemma ReplacePosition(s: Store, i: nat, e: Entity)
    requires i < |All(s)|
    ensures All(Replace(s, i, e)) == All(s)[i := e] && Replace(s, i, e).cache == s.cache
  {
  }

  lemma {:induction false} IndexUnchanged(all: seq<Entity>, i: nat, e: Entity, id: string)
    requires i < |all| && e.id == all[i].id
    ensures IndexOf(all[i := e], id) == IndexOf(all, id)
  {
    var changed := all[i := e];
    if all[0].id != id && |all| > 1 && i > 0 {
      assert changed[1..] == all[1..][i - 1 := e];
      IndexUnchanged(all[1..], i - 1, e, id);
    } else if all[0].id != id {
      assert changed[1..] == all[1..];
    }
  }

  /** A save changes the entity with that id and no other. */
  lemma SaveChangesOneEntity(rules: Rules, s: Store, e: Entity, permissions: Overridden, id: string)
    requires Objection(rules, s, e, permissions).None?
    ensures var s' := SaveIn(rules, s, e, permissions);
      && Stored(s, e.id).Some?
      && Stored(s', id) == if id != e.id then Stored(s, id)
           else Some(Writable(rules.types[e.typ], OverridesFor(permissions, e.typ), Stored(s, e.id).value,
               e.attributes))
  {
    var i := IndexOf(All(s), e.id);
    var saved := SavedEntity(rules, All(s)[i], e, permissions);
    ReplacePosition(s, i, saved);
    IndexUnchanged(All(s), i, saved, id);
  }

  /** An entity that is not read from the run's copy is read as it is stored under its id. */
  lemma ResolvedIsStored(rules: Rules, s: Store, ref: string)
    requires ref !in s.cache && Resolve(rules, s, ref).Some?
    ensures var e := Resolve(rules, s, ref).value;
      Stored(s, e.id) == Some(e.attributes) && All(s)[IndexOf(All(s), e.id)] == e
  {
  }

  // ----- Reading and writing back -----

  /** Saving what `get_entity` returned changes nothing, if it was not read from the run's copy. */
  lemma WriteBackChangesNothing(rules: Rules, permissions: Overridden, s: Store, ref: string, id: string)
    requires ref !in s.cache && Shown(rules, permissions, s, ref).Ok?
    requires Objection(rules, s, Shown(rules, permissions, s, ref).value, permissions).None?
    ensures Stored(SaveIn(rules, s, Shown(rules, permissions, s, ref).value, permissions), id) == Stored(s, id)
  {
    var e, shown := Resolve(rules, s, ref).value, Shown(rules, permissions, s, ref).value;
    ResolvedIsStored(rules, s, ref);
    SaveChangesOneEntity(rules, s, shown, permissions, id);
    UnmodifiedSaveChangesNothing(rules.types[e.typ], OverridesFor(permissions, e.typ), e.attributes, e.attributes);
  }

  /**
   A field write that succeeds stores exactly that field of exactly that entity if and only if what was
   read agrees with what is stored on the other fields that can be read and written. Without a copy
   made for the run it always does.
   */
  lemma FieldWriteIsExact(rules: Rules, permissions: Overridden, s: Store, ref: string, field: string, value: Value)
    requires WriteResult(rules, permissions, s, ref, field, value) == Ok(true)
    ensures var e := Resolve(rules, s, ref).value;
      var s' := SaveIn(rules, s, Submitted(rules, permissions, s, ref, field, value), permissions);
      var t, overrides := rules.types[e.typ], OverridesFor(permissions, e.typ);
      && Stored(s, e.id).Some?
      && (Stored(s', e.id) == Some(Stored(s, e.id).value[field := value])
          <==> AgreeExcept(t, overrides, Stored(s, e.id).value, e.attributes, {field}))
      && (ref !in s.cache ==> Stored(s', e.id) == Some(Stored(s, e.id).value[field := value]))
      && (forall id :: id != e.id ==> Stored(s', id) == Stored(s, id))
  {
    var e, submitted := Resolve(rules, s, ref).value, Submitted(rules, permissions, s, ref, field, value);
    SaveChangesOneEntity(rules, s, submitted, permissions, e.id);
    WriteChangesOneField(rules.types[e.typ], OverridesFor(permissions, e.typ), Stored(s, e.id).value, e.attributes,
        field, value);
    if ref !in s.cache {
      ResolvedIsStored(rules, s, ref);
    }
    forall id | id != e.id ensures Stored(SaveIn(rules, s, submitted, permissions), id) == Stored(s, id) {
      SaveChangesOneEntity(rules, s, submitted, permissions, id);
    }
  }

  /** A save cannot touch what its permissions do not let the node write. */
  lemma SaveRespectsPermissions(rules: Rules, s: Store, e: Entity, permissions: Overridden, field: string)
    requires Objection(rules, s, e, permissions).None?
        && !CanWrite(PermissionFor(rules.types[e.typ], field, OverridesFor(permissions, e.typ)))
    ensures Stored(s, e.id).Some? && Stored(SaveIn(rules, s, e, permissions), e.id).Some?
    ensures Lookup(Stored(SaveIn(rules, s, e, permissions), e.id).value, field) == Lookup(Stored(s, e.id).value, field)
  {
    SaveChangesOneEntity(rules, s, e, permissions, e.id);
    UnwritableFieldsStay(rules.types[e.typ], OverridesFor(permissions, e.typ), Stored(s, e.id).value, e.attributes,
        field);
  }

  // ----- A stale copy -----

  function OpenRules(json: Json): Rules {
    Rules(map["stock" := EntityType("id", map[])], json, (es: seq<Entity>) => true)
  }

  /** A store with one entity, of which the run has the copy `e` while `current` is stored. */
  function OneEntity(e: Entity, current: map<string, Value>): Store {
    Store([Entity(e.id, "stock", current)], [], [], map[e.id := e])
  }

  /**
   With a copy made for the run, the second of two field writes undoes the first: the copy is read
   again, still without the first write, and all its readable fields are saved.
   */
  lemma StaleCopyUndoesWrite(json: Json)
    ensures var rules := OpenRules(json);
      var e := Entity("x", "stock", map["a" := Num(0), "b" := Num(0)]);
      var s := OneEntity(e, e.attributes);
      && WriteResult(rules, map[], s, "x", "a", Num(1)) == Ok(true)
      && var s1 := SaveIn(rules, s, Submitted(rules, map[], s, "x", "a", Num(1)), map[]);
      && Stored(s1, "x") == Some(map["a" := Num(1), "b" := Num(0)])
      && WriteResult(rules, map[], s1, "x", "b", Num(1)) == Ok(true)
      && Stored(SaveIn(rules, s1, Submitted(rules, map[], s1, "x", "b", Num(1)), map[]), "x")
          == Some(map["a" := Num(0), "b" := Num(1)])
  {
    var e := Entity("x", "stock", map["a" := Num(0), "b" := Num(0)]);
    var first, second := map["a" := Num(1), "b" := Num(0)], map["a" := Num(0), "b" := Num(1)];
    assert first == e.attributes["a" := Num(1)] && second == e.attributes["b" := Num(1)];
    StaleStep(json, e, e.attributes, "a", first);
    StaleStep(json, e, first, "b", second);
  }

  /**
   One field write of a node that reads the copy `e` while `current` is stored, everything being readable and
   writable.
   */
  lemma StaleStep(json: Json, e: Entity, current: map<string, Value>, field: string, expected: map<string, Value>)
    requires e.typ == "stock" && current.Keys == e.attributes.Keys && expected == e.attributes[field := Num(1)]
    ensures var rules, s := OpenRules(json), OneEntity(e, current);
      && WriteResult(rules, map[], s, e.id, field, Num(1)) == Ok(true)
      && SaveIn(rules, s, Submitted(rules, map[], s, e.id, field, Num(1)), map[]) == OneEntity(e, expected)
      && Stored(OneEntity(e, expected), e.id) == Some(expected)
  {
    StaleSubmission(json, e, current, field, expected);
    StaleSave(json, e, current, expected);
  }

  /** What is submitted comes from the copy. */
  lemma StaleSubmission(json: Json, e: Entity, current: map<string, Value>, field: string, expected: map<string, Value>)
    requires e.typ == "stock" && current.Keys == e.attributes.Keys && expected == e.attributes[field := Num(1)]
    ensures var rules, s := OpenRules(json), OneEntity(e, current);
      && WriteResult(rules, map[], s, e.id, field, Num(1)) == Ok(true)
      && Submitted(rules, map[], s, e.id, field, Num(1)) == Entity(e.id, "stock", expected)
  {
    var t := OpenRules(json).types["stock"];
    EverythingAllowed(t);
    assert Readable(t, map[], e.attributes) == e.attributes;
    assert All(OneEntity(e, current)) == [Entity(e.id, "stock", current)];
  }

  /** And replaces what is stored. */
  lemma StaleSave(json: Json, e: Entity, current: map<string, Value>, expected: map<string, Value>)
    requires e.typ == "stock" && current.Keys <= expected.Keys
    ensures SaveIn(OpenRules(json), OneEntity(e, current), Entity(e.id, "stock", expected), map[])
        == OneEntity(e, expected)
    ensures Stored(OneEntity(e, expected), e.id) == Some(expected)
  {
    var t := OpenRules(json).types["stock"];
    EverythingAllowed(t);
    assert All(OneEntity(e, current)) == [Entity(e.id, "stock", current)];
    assert All(OneEntity(e, expected)) == [Entity(e.id, "stock", expected)];
    assert Writable(t, map[], current, expected) == expected;
  }

  lemma EverythingAllowed(t: EntityType)
    requires t.permissions == map[]
    ensures forall f {:trigger PermissionFor(t, f, map[])} :: PermissionFor(t, f, map[]) == ReadWrite
  {
    forall f ensures PermissionFor(t, f, map[]) == ReadWrite {
      LongestDeclaredDecides(t.permissions, f, |f| + 1, 0);
    }
  }
}
