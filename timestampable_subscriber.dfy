/**
 * The metadata subscriber: when the ORM loads the mapping of an entity class
 * that implements the Timestampable contract, it registers the
 * `updateTimestamps` callback for pre-persist and pre-update and maps every
 * timestamp property that is not mapped yet as a nullable date-time column.
 *
 * The database platform is an input (`isPostgreSqlPlatform`) instead of a
 * query through the entity manager's connection.
 */
module TimestampableSubscriber {
  import opened Wrappers
  import Doctrine

  /** Name of the entity method registered as lifecycle callback. */
  const UpdateTimestamps := "updateTimestamps"
  /** Column type used on PostgreSQL: a timestamp with time zone. */
  const DateTimeTzType := "datetimetz"
  /** Column type used on every other platform. */
  const DateTimeType := "datetime"

  /** The events the subscriber listens to: the metadata load event only. */
  function GetSubscribedEvents(): (events: seq<Doctrine.Event>)
    ensures |events| == 1
    ensures forall e :: e in events <==> e == Doctrine.Event.LoadClassMetadata
  {
    [Doctrine.Event.LoadClassMetadata]
  }

  /** Column type of a newly mapped timestamp field. */
  function GetFieldType(isPostgreSqlPlatform: bool): (fieldType: string)
    ensures fieldType == DateTimeTzType <==> isPostgreSqlPlatform
    ensures fieldType == DateTimeType <==> !isPostgreSqlPlatform
  {
    if isPostgreSqlPlatform then DateTimeTzType else DateTimeType
  }

  /**
   * The created-at names followed by the updated-at names, each list in its
   * own order; a name that occurs in both lists occurs twice.
   */
  function MergeProperties(createdAt: seq<string>, updatedAt: seq<string>): (properties: seq<string>)
    ensures |properties| == |createdAt| + |updatedAt|
    ensures forall i :: 0 <= i < |createdAt| ==> properties[i] == createdAt[i]
    ensures forall i :: 0 <= i < |updatedAt| ==> properties[|createdAt| + i] == updatedAt[i]
  {
    createdAt + updatedAt
  }

  /** The merged timestamp property list of a reflected class. */
  function TimestampProperties(refl: Doctrine.ReflectionClass): seq<string>
  {
    MergeProperties(refl.createdAtProperties, refl.updatedAtProperties)
  }

  /**
   * Whether loading the metadata changes anything: the class is built, it is
   * Timestampable, and it names at least one timestamp property.
   */
  predicate Registers(reflClass: Option<Doctrine.ReflectionClass>)
  {
    reflClass.Some? && reflClass.value.isTimestampable && TimestampProperties(reflClass.value) != []
  }

  /** The mapping given to a timestamp field that is not mapped yet. */
  function TimestampMapping(fieldName: string, fieldType: string): Doctrine.FieldMapping
  {
    Doctrine.FieldMapping(fieldName, fieldType, true)
  }

  /**
   * The field table after the mapping loop has visited `properties` in order,
   * mapping each name that is not yet a field.
   */
  function MapMissing(fields: map<string, Doctrine.FieldMapping>, properties: seq<string>, fieldType: string)
    : map<string, Doctrine.FieldMapping>
    decreases |properties|
  {
    if properties == [] then fields
    else
      var before := MapMissing(fields, properties[..|properties| - 1], fieldType);
      var field := properties[|properties| - 1];
      if field in before then before else before[field := TimestampMapping(field, fieldType)]
  }

  /**
   * The mapping loop maps exactly the listed names that were not fields, as
   * nullable timestamp fields, and keeps every existing mapping.
   */
  lemma {:induction false} MapMissingAt(fields: map<string, Doctrine.FieldMapping>,
                                        properties: seq<string>, fieldType: string, field: string)
    ensures field in MapMissing(fields, properties, fieldType) <==> field in fields || field in properties
    ensures field in fields ==> MapMissing(fields, properties, fieldType)[field] == fields[field]
    ensures field !in fields && field in properties ==>
              MapMissing(fields, properties, fieldType)[field] == TimestampMapping(field, fieldType)
    decreases |properties|
  {
    if properties != [] {
      var init := properties[..|properties| - 1];
      assert properties == init + [properties[|properties| - 1]];
      MapMissingAt(fields, init, fieldType, field);
    }
  }

  /** The mapping loop changes nothing when every listed name is already a field. */
  lemma {:induction false} MapMissingIdleWhenAllMapped(fields: map<string, Doctrine.FieldMapping>,
                                                       properties: seq<string>, fieldType: string)
    requires forall p :: p in properties ==> p in fields
    ensures MapMissing(fields, properties, fieldType) == fields
    decreases |properties|
  {
    if properties != [] {
      var init := properties[..|properties| - 1];
      assert properties == init + [properties[|properties| - 1]];
      MapMissingIdleWhenAllMapped(fields, init, fieldType);
    }
  }

  /** The field table once the metadata load event has been handled. */
  function FieldsAfterLoad(reflClass: Option<Doctrine.ReflectionClass>,
                           fields: map<string, Doctrine.FieldMapping>,
                           isPostgreSqlPlatform: bool): map<string, Doctrine.FieldMapping>
  {
    if Registers(reflClass)
    then MapMissing(fields, TimestampProperties(reflClass.value), GetFieldType(isPostgreSqlPlatform))
    else fields
  }

  /** The lifecycle callbacks once the metadata load event has been handled. */
  function CallbacksAfterLoad(reflClass: Option<Doctrine.ReflectionClass>,
                              callbacks: seq<Doctrine.Callback>): seq<Doctrine.Callback>
  {
    if Registers(reflClass)
    then callbacks + [Doctrine.Callback(UpdateTimestamps, Doctrine.Event.PrePersist),
                      Doctrine.Callback(UpdateTimestamps, Doctrine.Event.PreUpdate)]
    else callbacks
  }

  /** After the load, every timestamp property of a registering class is a mapped field. */
  lemma LoadMapsEveryProperty(reflClass: Option<Doctrine.ReflectionClass>,
                              fields: map<string, Doctrine.FieldMapping>, isPostgreSqlPlatform: bool)
    requires Registers(reflClass)
    ensures forall p :: p in TimestampProperties(reflClass.value) ==>
              p in FieldsAfterLoad(reflClass, fields, isPostgreSqlPlatform)
  {
    var properties, fieldType := TimestampProperties(reflClass.value), GetFieldType(isPostgreSqlPlatform);
    forall p | p in properties ensures p in MapMissing(fields, properties, fieldType) {
      MapMissingAt(fields, properties, fieldType, p);
    }
  }

  /** The load never overwrites or removes a field that was already mapped. */
  lemma LoadKeepsExistingMappings(reflClass: Option<Doctrine.ReflectionClass>,
                                  fields: map<string, Doctrine.FieldMapping>, isPostgreSqlPlatform: bool)
    ensures forall f :: f in fields ==>
              f in FieldsAfterLoad(reflClass, fields, isPostgreSqlPlatform)
              && FieldsAfterLoad(reflClass, fields, isPostgreSqlPlatform)[f] == fields[f]
  {
    if Registers(reflClass) {
      var properties, fieldType := TimestampProperties(reflClass.value), GetFieldType(isPostgreSqlPlatform);
      forall f | f in fields
        ensures f in MapMissing(fields, properties, fieldType)
                && MapMissing(fields, properties, fieldType)[f] == fields[f]
      {
        MapMissingAt(fields, properties, fieldType, f);
      }
    }
  }

  /**
   * Every field the load adds is a timestamp property of a registering
   * class, mapped as a nullable `datetimetz` column on PostgreSQL and a
   * nullable `datetime` column otherwise.
   */
  lemma LoadAddsOnlyNullableTimestampFields(reflClass: Option<Doctrine.ReflectionClass>,
                                            fields: map<string, Doctrine.FieldMapping>,
                                            isPostgreSqlPlatform: bool)
    ensures forall f :: f in FieldsAfterLoad(reflClass, fields, isPostgreSqlPlatform) && f !in fields ==>
              && Registers(reflClass)
              && f in TimestampProperties(reflClass.value)
              && FieldsAfterLoad(reflClass, fields, isPostgreSqlPlatform)[f].fieldName == f
              && FieldsAfterLoad(reflClass, fields, isPostgreSqlPlatform)[f].nullable
              && (FieldsAfterLoad(reflClass, fields, isPostgreSqlPlatform)[f].fieldType == DateTimeTzType
                  <==> isPostgreSqlPlatform)
              && (FieldsAfterLoad(reflClass, fields, isPostgreSqlPlatform)[f].fieldType == DateTimeType
                  <==> !isPostgreSqlPlatform)
  {
    if Registers(reflClass) {
      var properties, fieldType := TimestampProperties(reflClass.value), GetFieldType(isPostgreSqlPlatform);
      forall f | f in MapMissing(fields, properties, fieldType) && f !in fields
        ensures f in properties && MapMissing(fields, properties, fieldType)[f] == TimestampMapping(f, fieldType)
      {
        MapMissingAt(fields, properties, fieldType, f);
      }
    }
  }

  /**
   * Handling the load event a second time maps no further field, whatever
   * platform it reports the second time.
   */
  lemma SecondLoadMapsNothingNew(reflClass: Option<Doctrine.ReflectionClass>,
                                 fields: map<string, Doctrine.FieldMapping>,
                                 firstOnPostgreSql: bool, secondOnPostgreSql: bool)
    ensures FieldsAfterLoad(reflClass, FieldsAfterLoad(reflClass, fields, firstOnPostgreSql), secondOnPostgreSql)
         == FieldsAfterLoad(reflClass, fields, firstOnPostgreSql)
  {
    if Registers(reflClass) {
      var properties := TimestampProperties(reflClass.value);
      LoadMapsEveryProperty(reflClass, fields, firstOnPostgreSql);
      MapMissingIdleWhenAllMapped(FieldsAfterLoad(reflClass, fields, firstOnPostgreSql), properties,
                                  GetFieldType(secondOnPostgreSql));
    }
  }

  /**
   * Handles the metadata load event for one entity class, updating its
   * metadata in place.
   */
  method LoadClassMetadata(metadata: Doctrine.ClassMetadata, isPostgreSqlPlatform: bool)
    modifies metadata`fieldMappings, metadata`lifecycleCallbacks
    ensures metadata.fieldMappings
         == FieldsAfterLoad(metadata.reflClass, old(metadata.fieldMappings), isPostgreSqlPlatform)
    ensures metadata.lifecycleCallbacks
         == CallbacksAfterLoad(metadata.reflClass, old(metadata.lifecycleCallbacks))
  {
    if metadata.reflClass.None? {
      // the class has not been fully built yet
      return;
    }
    var refl := metadata.reflClass.value;
    if !refl.isTimestampable {
      return;
    }
    var properties := MergeProperties(refl.createdAtProperties, refl.updatedAtProperties);
    if properties == [] {
      return;
    }

    ghost var fields, fieldType := metadata.fieldMappings, GetFieldType(isPostgreSqlPlatform);
    assert FieldsAfterLoad(metadata.reflClass, fields, isPostgreSqlPlatform)
        == MapMissing(fields, properties, fieldType);

    metadata.AddLifecycleCallback(UpdateTimestamps, Doctrine.Event.PrePersist);
    metadata.AddLifecycleCallback(UpdateTimestamps, Doctrine.Event.PreUpdate);
    ghost var callbacks := metadata.lifecycleCallbacks;

    for i := 0 to |properties|
      invariant metadata.fieldMappings == MapMissing(fields, properties[..i], fieldType)
      invariant metadata.lifecycleCallbacks == callbacks
    {
      var field := properties[i];
      assert properties[..i + 1][..i] == properties[..i];
      var mapped := metadata.HasField(field);
      if !mapped {
        metadata.MapField(TimestampMapping(field, GetFieldType(isPostgreSqlPlatform)));
      }
    }
    assert properties[..|properties|] == properties;
  }
}
