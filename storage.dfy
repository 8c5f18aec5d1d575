/** The schema-backed storage library: a table of addressable cells, one
    store per origin mapping schema fields to cells, a typed accessor over a
    store, origin resolution and whole-state export/import. The browser's
    `localStorage` is replaced by an explicitly constructed `Registry`. */
module Storage {
  import opened Wrappers
  import opened JsValues

  /** A cell address. */
  type Id = string

  /** Field name to declared type tag ('string', 'number', anything else is corrupt). */
  type Schema = map<string, string>

  /** A cell record `{type, data, parent}`; `owner` is the source's `type`. */
  datatype Cell = Cell(owner: string, data: Value, parent: Option<Id>)

  /** The exceptions the library throws. `MissingSchema` is the TypeError
      raised when a never-seen origin is retrieved without a schema. */
  datatype StorageError =
    | InvalidOrigin
    | InvalidProperty
    | SchemaError
    | UpdateFailed
    | MissingSchema

  // ---------------------------------------------------------------------
  // Origin resolution

  /** The value of an object's own `storageKey` property. */
  datatype KeySlot =
    | KeyString(key: string)
    | KeyFunction(produce: () -> string)
    | KeyOther

  /** The shapes `retrieveStorage` distinguishes by `typeof`. */
  datatype OriginSource =
    | Literal(key: string)
    | Producer(produce: () -> string)
    | Keyed(storageKey: Option<KeySlot>)   // an object; None when it has no own storageKey
    | OtherValue                           // number, boolean, undefined

  /** The origin named by `src`, or InvalidOrigin when the shape is not
      understood or the key it yields is empty (falsy). */
  function ResolveOrigin(src: OriginSource): (r: Result<string, StorageError>)
    ensures r.Failure? ==> r.error == InvalidOrigin
    ensures r.Success? ==> r.value != ""
    ensures src.Literal? ==> r == (if src.key == "" then Failure(InvalidOrigin) else Success(src.key))
    ensures src.Producer? ==>
              r == (if src.produce() == "" then Failure(InvalidOrigin) else Success(src.produce()))
    ensures src.Keyed? && src.storageKey.Some? && src.storageKey.value.KeyString? ==>
              var k := src.storageKey.value.key;
              r == (if k == "" then Failure(InvalidOrigin) else Success(k))
    ensures src.Keyed? && src.storageKey.Some? && src.storageKey.value.KeyFunction? ==>
              var k := src.storageKey.value.produce();
              r == (if k == "" then Failure(InvalidOrigin) else Success(k))
    ensures src.Keyed? && (src.storageKey.None? || src.storageKey.value.KeyOther?) ==> r.Failure?
    ensures src.OtherValue? ==> r.Failure?
  {
    var origin: Option<string> :=
      match src
      case Literal(k) => Some(k)
      case Producer(f) => Some(f())
      case Keyed(Some(KeyString(k))) => Some(k)
      case Keyed(Some(KeyFunction(f))) => Some(f())
      case Keyed(_) => None
      case OtherValue => None;
    if origin.Some? && origin.value != "" then Success(origin.value) else Failure(InvalidOrigin)
  }

  // ---------------------------------------------------------------------
  // Fresh addresses

  ghost function MaxLength(used: set<Id>): (n: nat)
    ensures forall id | id in used :: |id| <= n
    decreases used
  {
    if used == {} then 0
    else
      var id :| id in used;
      var rest := MaxLength(used - {id});
      if |id| > rest then |id| else rest
  }

  /** Whatever addresses are in use, an unused one exists, so the retry loop
      that draws random addresses can end. */
  lemma FreshIdExists(used: set<Id>)
    ensures exists id: Id :: id !in used
  {
    var id := seq(MaxLength(used) + 1, _ => 'z');
    assert id !in used;
  }

  // ---------------------------------------------------------------------
  // Type coercion of the set trap

  /** The value stored for a write of `val` to a field declared `declared`;
      None when the declared type is not understood. */
  function Coerce(declared: string, val: Value): (r: Option<Value>)
    ensures r.Some? <==> declared == "string" || declared == "number"
    ensures declared == "string" ==> r.Some? && r.value.Str?
    ensures declared == "number" ==> r.Some? && r.value.Num?
    ensures declared == "string" && val.Str? ==> r == Some(val)
    ensures declared == "number" && val.Num? ==> r == Some(val)
    ensures declared == "string" && val.Num? ==> ParseInt(r.value.s) == Some(val.n)
    ensures declared == "number" && val.Str? ==>
              r == Some(Num(if ParseInt(val.s).Some? then ParseInt(val.s).value else 0))
  {
    if declared == "string" then Some(Str(ToJsString(val)))
    else if declared == "number" then Some(Num(ToJsNumber(val)))
    else None
  }

  // ---------------------------------------------------------------------
  // Migration, stated on values

  /** Addresses of the fields that `fieldMap` gained over `oldSchema`. */
  function AddedIds(oldSchema: Schema, fieldMap: map<string, Id>): set<Id>
  {
    set k | k in fieldMap && k !in oldSchema :: fieldMap[k]
  }

  lemma AddedIdsInsert(oldSchema: Schema, fieldMap: map<string, Id>, key: string, id: Id)
    requires key !in fieldMap && key !in oldSchema
    ensures AddedIds(oldSchema, fieldMap[key := id]) == AddedIds(oldSchema, fieldMap) + {id}
  {
    var grown := fieldMap[key := id];
    assert grown[key] == id;
    forall x | x in AddedIds(oldSchema, fieldMap)
      ensures x in AddedIds(oldSchema, grown)
    {
      var k :| k in fieldMap && k !in oldSchema && fieldMap[k] == x;
      assert grown[k] == x;
    }
  }

  /** What the second pass of a migration has done so far: `newMap` extends
      `kept` with fields outside `oldSchema`, each at its own address that was
      unused in `oldUids` and now holds a fresh cell with ''. */
  ghost predicate Grown(oldSchema: Schema, kept: map<string, Id>, oldUids: map<Id, Cell>,
                        newMap: map<string, Id>, uids: map<Id, Cell>, owner: string)
  {
    && (forall k | k in kept :: k in newMap && newMap[k] == kept[k])
    && (forall k | k in newMap && k !in oldSchema :: newMap[k] !in oldUids && newMap[k] in uids)
    && (forall k, k' | k in newMap && k' in newMap && k !in oldSchema && k' !in oldSchema && k != k' ::
          newMap[k] != newMap[k'])
    && uids.Keys == oldUids.Keys + AddedIds(oldSchema, newMap)
    && (forall id | id in uids :: uids[id] == if id in oldUids then oldUids[id] else Cell(owner, Str(""), None))
  }

  lemma GrownStep(oldSchema: Schema, kept: map<string, Id>, oldUids: map<Id, Cell>,
                  newMap: map<string, Id>, uids: map<Id, Cell>, owner: string, key: string, id: Id)
    requires Grown(oldSchema, kept, oldUids, newMap, uids, owner)
    requires kept.Keys <= oldSchema.Keys
    requires key !in newMap && key !in oldSchema && id !in uids
    ensures Grown(oldSchema, kept, oldUids, newMap[key := id], uids[id := Cell(owner, Str(""), None)], owner)
  {
    AddedIdsInsert(oldSchema, newMap, key, id);
  }

  /** Addresses of the fields of `oldMap` outside the field names `kept`. */
  function DroppedIds(oldMap: map<string, Id>, kept: set<string>): set<Id>
  {
    set k | k in oldMap && k !in kept :: oldMap[k]
  }

  /** The effect of `updateStorageSchema`, from a store `(oldSchema, oldMap)`
      and cell table `uids` to a store `(newSchema, newMap)` and cell table
      `uids'`. */
  ghost predicate Migration(oldSchema: Schema, oldMap: map<string, Id>, newSchema: Schema,
                            newMap: map<string, Id>, uids: map<Id, Cell>, uids': map<Id, Cell>,
                            owner: string)
  {
    // the field map covers exactly the new schema
    && newMap.Keys == newSchema.Keys
    // retained fields keep their address
    && (forall k | k in newSchema && k in oldSchema && k in oldMap :: newMap[k] == oldMap[k])
    // added fields get addresses unused before the migration, pairwise distinct
    && (forall k | k in newSchema && k !in oldSchema :: newMap[k] !in uids)
    && (forall k, k' | k in newMap && k' in newMap && k !in oldSchema && k' !in oldSchema && k != k' ::
          newMap[k] != newMap[k'])
    // cells: the added ones are created holding '', then the dropped ones are deleted
    && uids'.Keys == (uids.Keys + AddedIds(oldSchema, newMap)) - DroppedIds(oldMap, newSchema.Keys)
    && (forall id | id in uids' :: uids'[id] == if id in uids then uids[id] else Cell(owner, Str(""), None))
  }

  ghost predicate IdsLive(fieldMap: map<string, Id>, uids: map<Id, Cell>)
  {
    forall k | k in fieldMap :: fieldMap[k] in uids
  }

  ghost predicate NoAliasing(fieldMap: map<string, Id>)
  {
    forall k, k' | k in fieldMap && k' in fieldMap && k != k' :: fieldMap[k] != fieldMap[k']
  }

  /** Every field of every store addresses a live cell, and no cell backs two
      fields, in one store or across stores. */
  ghost predicate ConsistentMaps(fieldMaps: map<string, map<string, Id>>, uids: map<Id, Cell>)
  {
    && (forall o | o in fieldMaps :: IdsLive(fieldMaps[o], uids) && NoAliasing(fieldMaps[o]))
    && (forall o, o' | o in fieldMaps && o' in fieldMaps && o != o' ::
          fieldMaps[o].Values !! fieldMaps[o'].Values)
  }

  /** The migrated store's own addresses are live and unshared. */
  lemma MigratedMapSound(oldSchema: Schema, oldMap: map<string, Id>, newSchema: Schema,
                         newMap: map<string, Id>, uids: map<Id, Cell>, uids': map<Id, Cell>,
                         owner: string)
    requires IdsLive(oldMap, uids) && NoAliasing(oldMap)
    requires oldMap.Keys == oldSchema.Keys
    requires Migration(oldSchema, oldMap, newSchema, newMap, uids, uids', owner)
    ensures IdsLive(newMap, uids') && NoAliasing(newMap)
  {
    var added := AddedIds(oldSchema, newMap);
    var dropped := DroppedIds(oldMap, newSchema.Keys);
    forall k | k in newMap
      ensures newMap[k] in uids'
    {
      if k in oldSchema {
        assert newMap[k] == oldMap[k] && oldMap[k] in uids;
        forall k' | k' in oldMap && k' !in newSchema
          ensures oldMap[k'] != newMap[k]
        {
          assert k' != k;
        }
        assert newMap[k] !in dropped;
      } else {
        assert newMap[k] in added;
        assert newMap[k] !in uids;
        assert newMap[k] !in dropped;
      }
    }
    forall k, k' | k in newMap && k' in newMap && k != k'
      ensures newMap[k] != newMap[k']
    {
      if k in oldSchema && k' in oldSchema {
        assert newMap[k] == oldMap[k] && newMap[k'] == oldMap[k'];
      } else if k in oldSchema {
        assert newMap[k] in uids && newMap[k'] !in uids;
      } else if k' in oldSchema {
        assert newMap[k'] in uids && newMap[k] !in uids;
      }
    }
  }

  /** A field in both schemas keeps its cell and that cell's record, and a
      field only in the new schema reads `''`: what was written before a
      migration can still be read after it. */
  lemma MigratedFieldValue(oldSchema: Schema, oldMap: map<string, Id>, newSchema: Schema,
                           newMap: map<string, Id>, uids: map<Id, Cell>, uids': map<Id, Cell>,
                           owner: string, k: string)
    requires IdsLive(oldMap, uids) && NoAliasing(oldMap)
    requires oldMap.Keys == oldSchema.Keys
    requires Migration(oldSchema, oldMap, newSchema, newMap, uids, uids', owner)
    requires k in newSchema
    ensures k in newMap && newMap[k] in uids'
    ensures k in oldSchema ==> newMap[k] == oldMap[k] && uids'[newMap[k]] == uids[oldMap[k]]
    ensures k !in oldSchema ==> uids'[newMap[k]] == Cell(owner, Str(""), None)
  {
    if k in oldSchema {
      forall k' | k' in oldMap && k' !in newSchema
        ensures oldMap[k'] != newMap[k]
      {
        assert k' != k;
      }
      assert newMap[k] !in DroppedIds(oldMap, newSchema.Keys);
    } else {
      assert newMap[k] in AddedIds(oldSchema, newMap);
      assert newMap[k] !in uids;
      assert newMap[k] !in DroppedIds(oldMap, newSchema.Keys);
    }
  }

  /** A store sharing no address with the migrated one keeps live addresses
      and still shares none. */
  lemma OtherMapUnaffected(other: map<string, Id>, oldSchema: Schema, oldMap: map<string, Id>,
                           newSchema: Schema, newMap: map<string, Id>, uids: map<Id, Cell>,
                           uids': map<Id, Cell>, owner: string)
    requires IdsLive(other, uids) && other.Values !! oldMap.Values
    requires oldMap.Keys == oldSchema.Keys
    requires Migration(oldSchema, oldMap, newSchema, newMap, uids, uids', owner)
    ensures IdsLive(other, uids') && other.Values !! newMap.Values
  {
    forall k | k in other
      ensures other[k] in uids' && other[k] !in newMap.Values
    {
      var id := other[k];
      assert id in uids && id in other.Values;
      assert id !in DroppedIds(oldMap, newSchema.Keys);
      forall k' | k' in newMap
        ensures newMap[k'] != id
      {
        if k' in oldSchema {
          assert newMap[k'] in oldMap.Values;
        } else {
          assert newMap[k'] !in uids;
        }
      }
    }
  }

  /** Migrating one store (existing or new and empty) keeps every address live
      and unshared. */
  lemma MigrationKeepsConsistent(fieldMaps: map<string, map<string, Id>>, uids: map<Id, Cell>,
                                 origin: string, oldSchema: Schema, oldMap: map<string, Id>,
                                 newSchema: Schema, newMap: map<string, Id>, uids': map<Id, Cell>,
                                 owner: string)
    requires ConsistentMaps(fieldMaps, uids)
    requires oldMap.Keys == oldSchema.Keys
    requires origin in fieldMaps ==> fieldMaps[origin] == oldMap
    requires origin !in fieldMaps ==> oldMap == map[]
    requires Migration(oldSchema, oldMap, newSchema, newMap, uids, uids', owner)
    ensures ConsistentMaps(fieldMaps[origin := newMap], uids')
  {
    MigratedMapSound(oldSchema, oldMap, newSchema, newMap, uids, uids', owner);
    var result := fieldMaps[origin := newMap];
    forall o | o in result && o != origin
      ensures result[o] == fieldMaps[o]
      ensures IdsLive(result[o], uids') && NoAliasing(result[o])
      ensures result[o].Values !! newMap.Values
    {
      assert IdsLive(fieldMaps[o], uids) && NoAliasing(fieldMaps[o]);
      assert fieldMaps[o].Values !! oldMap.Values;
      OtherMapUnaffected(fieldMaps[o], oldSchema, oldMap, newSchema, newMap, uids, uids', owner);
    }
    forall o, o' | o in result && o' in result && o != o'
      ensures result[o].Values !! result[o'].Values
    {
      if o != origin && o' != origin {
        assert fieldMaps[o].Values !! fieldMaps[o'].Values;
      }
    }
  }


  // ---------------------------------------------------------------------
  // Snapshots (export format)

  /** A store as it appears in an exported blob. */
  datatype StoreData = StoreData(origin: string, schema: Schema, fieldMap: map<string, Id>)

  /** A parsed export blob; a section is None when the blob lacks it. */
  datatype Blob = Blob(roots: Option<map<string, StoreData>>, uids: Option<map<Id, Cell>>)

  /** The shape an exported blob has: each store filed under its own origin,
      with a field map covering exactly its schema. */
  ghost predicate BlobWellFormed(roots: map<string, StoreData>)
  {
    forall o | o in roots :: roots[o].origin == o && roots[o].fieldMap.Keys == roots[o].schema.Keys
  }

  // ---------------------------------------------------------------------
  // Stores

  /** The per-origin store `{origin, schema, map}`. */
  class Store {
    const origin: string
    var schema: Schema
    var fieldMap: map<string, Id>

    constructor (origin: string)
      ensures this.origin == origin && schema == map[] && fieldMap == map[]
    {
      this.origin := origin;
      schema := map[];
      fieldMap := map[];
    }

    /** A store rebuilt from an imported blob. */
    constructor FromData(d: StoreData)
      ensures Data() == d
    {
      origin := d.origin;
      schema := d.schema;
      fieldMap := d.fieldMap;
    }

    /** The central invariant: the field map covers exactly the schema. */
    ghost predicate Congruent()
      reads this
    {
      fieldMap.Keys == schema.Keys
    }

    function Data(): StoreData
      reads this
    {
      StoreData(origin, schema, fieldMap)
    }
  }

  // ---------------------------------------------------------------------
  // The registry: the two process-wide tables

  class Registry {
    var roots: map<string, Store>
    var uids: map<Id, Cell>

    constructor ()
      ensures roots == map[] && uids == map[]
      ensures Valid() && Consistent()
    {
      roots := map[];
      uids := map[];
    }

    /** Every store is filed under its own origin (so each origin has its
        own store object) and is congruent. */
    ghost predicate Valid()
      reads this, roots.Values
    {
      forall o | o in roots :: roots[o].origin == o && roots[o].Congruent()
    }

    ghost function FieldMaps(): map<string, map<string, Id>>
      reads this, roots.Values
    {
      map o | o in roots :: roots[o].fieldMap
    }

    /** Valid, and every field backed by its own live cell. */
    ghost predicate Consistent()
      reads this, roots.Values
    {
      Valid() && ConsistentMaps(FieldMaps(), uids)
    }

    /** `isUID`: whether the cell table has an entry for `id`. */
    predicate IsUID(id: Id): (live: bool)
      reads this
      ensures live <==> id in uids.Keys
    {
      id in uids
    }

    /** `readUID`: the data of a live cell, None (undefined) otherwise. */
    function ReadUID(id: Id): (r: Option<Value>)
      reads this
      ensures r.Some? <==> IsUID(id)
      ensures r.Some? ==> r.value == uids[id].data
    {
      if IsUID(id) then Some(uids[id].data) else None
    }

    /** `createUID`: a new cell at an unused address; None, with nothing
        changed, when a parent is given that is not live. */
    method CreateUID(owner: string, val: Value, parent: Option<Id>) returns (r: Option<Id>)
      modifies this
      ensures roots == old(roots)
      ensures r.None? <==> parent.Some? && !old(IsUID(parent.value))
      ensures r.None? ==> uids == old(uids)
      ensures r.Some? ==> r.value !in old(uids) && uids == old(uids)[r.value := Cell(owner, val, parent)]
      ensures r.Some? ==> ReadUID(r.value) == Some(val)
    {
      if parent.Some? && !IsUID(parent.value) {
        return None;
      }
      FreshIdExists(uids.Keys);
      var id :| id !in uids;
      uids := uids[id := Cell(owner, val, parent)];
      r := Some(id);
    }

    /** `updateUID`: overwrite the data of a live cell; false otherwise. */
    method UpdateUID(id: Id, val: Value) returns (ok: bool)
      modifies this
      ensures roots == old(roots)
      ensures ok <==> old(IsUID(id))
      ensures !ok ==> uids == old(uids)
      ensures ok ==> uids == old(uids)[id := old(uids)[id].(data := val)]
      ensures ok ==> ReadUID(id) == Some(val)
    {
      if !IsUID(id) {
        return false;
      }
      uids := uids[id := uids[id].(data := val)];
      ok := true;
    }

    /** `deleteUID`: remove a live cell; false otherwise. */
    method DeleteUID(id: Id) returns (ok: bool)
      modifies this
      ensures roots == old(roots)
      ensures ok <==> old(IsUID(id))
      ensures uids == old(uids) - {id}
      ensures ReadUID(id) == None
    {
      if !IsUID(id) {
        return false;
      }
      uids := uids - {id};
      ok := true;
    }

    /** `setStringUID`: store the string form of `val`. */
    method SetStringUID(id: Id, val: Value) returns (ok: bool)
      modifies this
      ensures roots == old(roots)
      ensures ok <==> old(IsUID(id))
      ensures !ok ==> uids == old(uids)
      ensures ok ==> uids == old(uids)[id := old(uids)[id].(data := Str(ToJsString(val)))]
    {
      ok := UpdateUID(id, Str(ToJsString(val)));
    }

    /** `setNumberUID`: store `val` coerced to a number. */
    method SetNumberUID(id: Id, val: Value) returns (ok: bool)
      modifies this
      ensures roots == old(roots)
      ensures ok <==> old(IsUID(id))
      ensures !ok ==> uids == old(uids)
      ensures ok ==> uids == old(uids)[id := old(uids)[id].(data := Num(ToJsNumber(val)))]
    {
      ok := UpdateUID(id, Num(ToJsNumber(val)));
    }

    /** First pass of `updateStorageSchema`: the fields of the old schema
        that the new schema keeps, with their old addresses. */
    method RetainedFields(oldSchema: Schema, oldMap: map<string, Id>, newSchema: Schema)
      returns (kept: map<string, Id>)
      requires oldMap.Keys == oldSchema.Keys
      ensures kept.Keys == oldSchema.Keys * newSchema.Keys
      ensures forall k | k in kept :: kept[k] == oldMap[k]
    {
      kept := map[];
      var todo := oldSchema.Keys;
      while todo != {}
        invariant todo <= oldSchema.Keys
        invariant kept.Keys == (oldSchema.Keys - todo) * newSchema.Keys
        invariant forall k | k in kept :: kept[k] == oldMap[k]
        decreases todo
      {
        var key :| key in todo;
        if key in newSchema {
          kept := kept[key := oldMap[key]];
        }
        todo := todo - {key};
      }
    }

    /** Second pass of `updateStorageSchema`: every field of the new schema
        that the old one lacks gets a fresh cell holding ''. */
    method AddedFields(owner: string, oldSchema: Schema, newSchema: Schema, kept: map<string, Id>)
      returns (newMap: map<string, Id>)
      requires kept.Keys == oldSchema.Keys * newSchema.Keys
      modifies this
      ensures roots == old(roots)
      ensures newMap.Keys == newSchema.Keys
      ensures forall k | k in kept :: newMap[k] == kept[k]
      ensures forall k | k in newMap && k !in oldSchema :: newMap[k] !in old(uids)
      ensures forall k, k' | k in newMap && k' in newMap && k !in oldSchema && k' !in oldSchema && k != k' ::
                newMap[k] != newMap[k']
      ensures uids.Keys == old(uids).Keys + AddedIds(oldSchema, newMap)
      ensures forall id | id in uids :: uids[id] == if id in old(uids) then old(uids)[id] else Cell(owner, Str(""), None)
    {
      newMap := kept;
      var todo := newSchema.Keys;
      while todo != {}
        invariant todo <= newSchema.Keys
        invariant roots == old(roots)
        invariant forall k :: k in newMap <==> k in kept || (k in newSchema && k !in todo)
        invariant Grown(oldSchema, kept, old(uids), newMap, uids, owner)
        decreases todo
      {
        var key :| key in todo;
        if key !in oldSchema {
          ghost var before := uids;
          var id := CreateUID(owner, Str(""), None);
          GrownStep(oldSchema, kept, old(uids), newMap, before, owner, key, id.value);
          newMap := newMap[key := id.value];
        }
        todo := todo - {key};
      }
    }

    /** Third pass of `updateStorageSchema`: the cell of every old field
        missing from the new map is deleted; a cell already gone is ignored. */
    method DroppedFields(oldMap: map<string, Id>, newMap: map<string, Id>)
      modifies this
      ensures roots == old(roots)
      ensures uids.Keys == old(uids).Keys - DroppedIds(oldMap, newMap.Keys)
      ensures forall id | id in uids :: uids[id] == old(uids)[id]
    {
      var todo := oldMap.Keys;
      while todo != {}
        invariant todo <= oldMap.Keys
        invariant roots == old(roots)
        invariant uids.Keys == old(uids).Keys - DroppedIds(oldMap - todo, newMap.Keys)
        invariant forall id | id in uids :: uids[id] == old(uids)[id]
        decreases todo
      {
        var key :| key in todo;
        if key !in newMap {
          var _ := DeleteUID(oldMap[key]);
        }
        todo := todo - {key};
      }
      assert oldMap - todo == oldMap;
    }

    /** `updateStorageSchema`: migrate `store` to `newSchema` by a three-way
        diff of its old schema against the new one. */
    method UpdateStorageSchema(store: Store, newSchema: Schema)
      requires store.Congruent()
      modifies this, store
      ensures roots == old(roots)
      ensures store.schema == newSchema && store.Congruent()
      ensures Migration(old(store.schema), old(store.fieldMap), newSchema, store.fieldMap,
                        old(uids), uids, store.origin)
    {
      var kept := RetainedFields(store.schema, store.fieldMap, newSchema);
      var newMap := AddedFields(store.origin, store.schema, newSchema, kept);
      DroppedFields(store.fieldMap, newMap);
      store.schema := newSchema;
      store.fieldMap := newMap;
    }

    /** `createStorage`: a new store for `origin`, migrated from the empty
        schema to `schema`. */
    method CreateStorage(origin: string, schema: Schema) returns (store: Store)
      modifies this
      ensures fresh(store) && store.origin == origin
      ensures roots == old(roots)
      ensures store.schema == schema && store.Congruent()
      ensures Migration(map[], map[], schema, store.fieldMap, old(uids), uids, origin)
    {
      store := new Store(origin);
      UpdateStorageSchema(store, schema);
    }

    /** The first-retrieval branch of `retrieveStorage`: register a new store
        for an origin that has none. */
    method AddStore(origin: string, schema: Schema) returns (store: Store)
      requires Valid() && origin !in roots
      modifies this
      ensures Valid()
      ensures old(Consistent()) ==> Consistent()
      ensures fresh(store) && store.origin == origin && store.schema == schema
      ensures roots == old(roots)[origin := store]
      ensures Migration(map[], map[], schema, store.fieldMap, old(uids), uids, origin)
    {
      ghost var before := FieldMaps();
      store := CreateStorage(origin, schema);
      roots := roots[origin := store];
      assert FieldMaps() == before[origin := store.fieldMap];
      if old(Consistent()) {
        assert ConsistentMaps(FieldMaps(), uids) by {
          MigrationKeepsConsistent(before, old(uids), origin, map[], map[], schema,
                                   store.fieldMap, uids, origin);
        }
      }
    }

    /** The re-retrieval branch of `retrieveStorage` when a schema is given:
        migrate the origin's existing store in place. */
    method MigrateStore(origin: string, schema: Schema)
      requires Valid() && origin in roots
      modifies this, roots[origin]
      ensures Valid()
      ensures old(Consistent()) ==> Consistent()
      ensures roots == old(roots) && roots[origin].schema == schema
      ensures Migration(old(roots[origin].schema), old(roots[origin].fieldMap), schema,
                        roots[origin].fieldMap, old(uids), uids, origin)
    {
      ghost var before, oldUids, wasConsistent := FieldMaps(), uids, Consistent();
      var store := roots[origin];
      ghost var oldSchema, oldMap := store.schema, store.fieldMap;
      assert before[origin] == oldMap && oldMap.Keys == oldSchema.Keys;
      assert wasConsistent ==> ConsistentMaps(before, oldUids);
      UpdateStorageSchema(store, schema);
      ghost var after := FieldMaps();
      ghost var expected := before[origin := store.fieldMap];
      assert Valid() by {
        forall o | o in roots && o != origin
          ensures roots[o].Congruent()
        {
          assert roots[o] != store;
        }
      }
      assert after == expected by {
        forall o | o in roots && o != origin
          ensures roots[o].fieldMap == before[o]
        {
          assert roots[o] != store;
        }
        assert forall k :: k in after <==> k in expected;
        assert forall o | o in after :: after[o] == expected[o];
      }
      if wasConsistent {
        assert ConsistentMaps(after, uids) by {
          MigrationKeepsConsistent(before, oldUids, origin, oldSchema, oldMap, schema,
                                   store.fieldMap, uids, store.origin);
        }
      }
    }

    /** `retrieveStorage`: resolve the origin, create its store if it has
        none, re-migrate an existing store only when a schema is supplied,
        and return a fresh accessor over it. */
    method RetrieveStorage(src: OriginSource, schema: Option<Schema>) returns (r: Result<Accessor, StorageError>)
      requires Valid()
      modifies this, roots.Values
      ensures Valid()
      ensures old(Consistent()) ==> Consistent()
      ensures ResolveOrigin(src).Failure? ==> r == Failure(InvalidOrigin)
      ensures ResolveOrigin(src).Success? ==>
                (r.Failure? <==> ResolveOrigin(src).value !in old(roots) && schema.None?)
      ensures r.Failure? ==> r.error.InvalidOrigin? || r.error.MissingSchema?
      ensures r.Failure? ==> roots == old(roots) && uids == old(uids) && unchanged(roots.Values)
      ensures r.Success? ==>
                var origin := ResolveOrigin(src).value;
                && roots.Keys == old(roots).Keys + {origin}
                && fresh(r.value) && r.value.registry == this && r.value.store == roots[origin]
                && (forall o | o in old(roots) && o != origin :: roots[o] == old(roots[o]))
                && (origin in old(roots) ==> roots[origin] == old(roots[origin]))
                && (origin !in old(roots) ==> fresh(roots[origin]) && roots[origin].origin == origin)
                && (schema.Some? ==> roots[origin].schema == schema.value)
                && (schema.None? ==> uids == old(uids) && unchanged(roots.Values))
      ensures r.Success? && schema.Some? ==>
                var origin := ResolveOrigin(src).value;
                var seen := origin in old(roots);
                Migration(if seen then old(roots[origin].schema) else map[],
                          if seen then old(roots[origin].fieldMap) else map[],
                          schema.value, roots[origin].fieldMap, old(uids), uids, origin)
      ensures r.Success? ==>
                forall o | o in old(roots) && o != ResolveOrigin(src).value :: unchanged(roots[o])
    {
      var resolved := ResolveOrigin(src);
      if resolved.Failure? {
        return Failure(InvalidOrigin);
      }
      var origin := resolved.value;
      if origin !in roots {
        if schema.None? {
          return Failure(MissingSchema);
        }
        var _ := AddStore(origin, schema.value);
      } else if schema.Some? {
        MigrateStore(origin, schema.value);
      }
      var accessor := new Accessor(this, roots[origin]);
      r := Success(accessor);
    }

    /** `exportStorage`: a snapshot of both tables. */
    function ExportStorage(): (b: Blob)
      reads this, roots.Values
      ensures b.roots.Some? && b.uids.Some?
      ensures b.roots.value.Keys == roots.Keys && b.uids.value == uids
      ensures forall o | o in roots :: b.roots.value[o] == roots[o].Data()
      ensures Valid() ==> BlobWellFormed(b.roots.value)
    {
      Blob(Some(map o | o in roots :: roots[o].Data()), Some(uids))
    }

    /** `importStorage`: replace both tables by a blob's, as fresh objects;
        false, with nothing changed, when the blob lacks either section. */
    method ImportStorage(blob: Blob) returns (ok: bool)
      requires blob.roots.Some? ==> BlobWellFormed(blob.roots.value)
      modifies this
      ensures ok <==> blob.roots.Some? && blob.uids.Some?
      ensures !ok ==> roots == old(roots) && uids == old(uids)
      ensures ok ==> Valid()
      ensures ok ==> ExportStorage() == blob
      ensures ok ==> forall o | o in roots :: fresh(roots[o])
    {
      if blob.roots.None? || blob.uids.None? {
        return false;
      }
      var data := blob.roots.value;
      var stores: map<string, Store> := map[];
      var todo := data.Keys;
      while todo != {}
        invariant todo <= data.Keys
        invariant stores.Keys == data.Keys - todo
        invariant forall o | o in stores :: fresh(stores[o]) && stores[o].Data() == data[o]
        decreases todo
      {
        var o :| o in todo;
        var store := new Store.FromData(data[o]);
        stores := stores[o := store];
        todo := todo - {o};
      }
      roots := stores;
      uids := blob.uids.value;
      assert ExportStorage().roots.value == data;
      ok := true;
    }

    /** `importStorage(exportStorage())`: importing a valid registry's own
        snapshot is accepted and restores every store's origin, schema and
        map and the cell table. */
    method RestoreSnapshot() returns (ok: bool)
      requires Valid()
      modifies this
      ensures ok && Valid()
      ensures uids == old(uids) && roots.Keys == old(roots).Keys
      ensures forall o | o in roots :: roots[o].Data() == old(roots[o].Data())
    {
      var snapshot := ExportStorage();
      ok := ImportStorage(snapshot);
      assert ExportStorage() == snapshot;
    }
  }

  // ---------------------------------------------------------------------
  // The typed accessor (the proxy's get and set traps)

  class Accessor {
    const registry: Registry
    const store: Store

    constructor (registry: Registry, store: Store)
      ensures this.registry == registry && this.store == store
    {
      this.registry := registry;
      this.store := store;
    }

    /** The get trap: InvalidProperty for a name outside the schema,
        otherwise what `readUID` gives for the field's address. */
    function Get(prop: string): (r: Result<Option<Value>, StorageError>)
      reads this, registry, store
      ensures r.Failure? <==> prop !in store.schema
      ensures r.Failure? ==> r.error == InvalidProperty
      ensures r.Success? && prop in store.fieldMap ==> r.value == registry.ReadUID(store.fieldMap[prop])
      ensures r.Success? && prop !in store.fieldMap ==> r.value == None
    {
      if prop !in store.schema then Failure(InvalidProperty)
      else if prop in store.fieldMap then Success(registry.ReadUID(store.fieldMap[prop]))
      else Success(None)
    }

    /** The set trap: validate the name, coerce by the declared type, write
        through to the cell. Every failure leaves the cells unchanged. */
    method Set(prop: string, val: Value) returns (r: Outcome<StorageError>)
      modifies registry
      ensures registry.roots == old(registry.roots)
      ensures prop !in store.schema ==> r == Fail(InvalidProperty)
      ensures prop in store.schema && Coerce(store.schema[prop], val).None? ==> r == Fail(SchemaError)
      ensures prop in store.schema && Coerce(store.schema[prop], val).Some? ==>
                (r.Pass? <==> prop in store.fieldMap && old(registry.IsUID(store.fieldMap[prop])))
      ensures r.Fail? ==> registry.uids == old(registry.uids)
      ensures r.Fail? && prop in store.schema && Coerce(store.schema[prop], val).Some? ==> r.error == UpdateFailed
      ensures r.Pass? ==>
                var id := store.fieldMap[prop];
                var stored := Coerce(store.schema[prop], val).value;
                && registry.uids == old(registry.uids)[id := old(registry.uids)[id].(data := stored)]
                && Get(prop) == Success(Some(stored))
    {
      if prop !in store.schema {
        return Fail(InvalidProperty);
      }
      var declared := store.schema[prop];
      if declared != "string" && declared != "number" {
        return Fail(SchemaError);
      }
      if prop !in store.fieldMap {
        // The address is undefined, which no cell has.
        return Fail(UpdateFailed);
      }
      var id := store.fieldMap[prop];
      var ok: bool;
      if declared == "string" {
        ok := registry.SetStringUID(id, val);
      } else {
        ok := registry.SetNumberUID(id, val);
      }
      r := if ok then Pass else Fail(UpdateFailed);
    }
  }
}
