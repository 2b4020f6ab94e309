/**
 * The resolver's result record and the JavaScript `Map` of reference schemas it
 * holds. The map is an object, so two records (or a record and the resolver)
 * can share one map and see each other's updates.
 */
module ResolvedSchemas {
  import opened Json

  /** A `Map<string, any>` of schema documents keyed by identifier (`RefSchemasMap`). */
  class SchemaMap {
    var entries: map<string, Json>

    /** `new Map()` */
    constructor ()
      ensures entries == map[]
    {
      entries := map[];
    }

    /** `new Map(other)`: a separate map with the same entries. */
    constructor Copy(other: SchemaMap)
      ensures entries == other.entries
    {
      entries := other.entries;
    }

    /** `has` */
    predicate Has(key: string)
      reads this
    {
      key in entries
    }

    /** `set`: adds or overwrites one entry. */
    method Set(key: string, value: Json)
      modifies this
      ensures entries == old(entries)[key := value]
    {
      entries := entries[key := value];
    }

    /** `delete`: removes one entry if present. */
    method Delete(key: string)
      modifies this
      ensures entries == old(entries) - {key}
    {
      entries := entries - {key};
    }
  }

  /** The value a `ResolvedSchema` stands for: its main document and its ref documents. */
  datatype ResolvedValue = ResolvedValue(mainSchema: Json, refSchemas: map<string, Json>)

  /**
   * `ResolvedSchema`: the main schema is fixed at construction; the ref map is
   * the very map object passed in (not a copy), and may be updated later.
   */
  class ResolvedSchema {
    const mainSchema: Json
    var refSchemas: SchemaMap

    /** `new ResolvedSchema(mainSchema, refSchemas)`: stores the given map object itself. */
    constructor (mainSchema: Json, refSchemas: SchemaMap)
      ensures this.mainSchema == mainSchema && this.refSchemas == refSchemas
    {
      this.mainSchema := mainSchema;
      this.refSchemas := refSchemas;
    }

    /** `new ResolvedSchema(mainSchema)`: the omitted map defaults to a new, empty one. */
    constructor OnlyMain(mainSchema: Json)
      ensures this.mainSchema == mainSchema
      ensures fresh(refSchemas) && refSchemas.entries == map[]
    {
      this.mainSchema := mainSchema;
      this.refSchemas := new SchemaMap();
    }

    /** The current value of the record. */
    function Value(): ResolvedValue
      reads this, refSchemas
    {
      ResolvedValue(mainSchema, refSchemas.entries)
    }
  }
}
