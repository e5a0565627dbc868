/**
 * The slice of the ORM that the Timestampable subscriber talks to: lifecycle
 * event names, field mappings, lifecycle callbacks, and the class metadata
 * object that is handed to the subscriber while an entity class is loaded.
 * Only the table-like behaviour the subscriber relies on is modelled.
 */
module Doctrine {
  import opened Wrappers

  /** The ORM lifecycle events this package refers to. */
  datatype Event = LoadClassMetadata | PrePersist | PreUpdate

  /** One entry of the field-mapping table: the array passed to `mapField`. */
  datatype FieldMapping = FieldMapping(fieldName: string, fieldType: string, nullable: bool)

  /** A lifecycle callback: the entity method to call when `event` fires. */
  datatype Callback = Callback(methodName: string, event: Event)

  /**
   * What the subscriber learns about an entity class through reflection:
   * whether it implements the Timestampable contract, and what its
   * static `getCreatedAtProperties` / `getUpdatedAtProperties` return
   * (the values of those arrays, in order).
   */
  datatype ReflectionClass = ReflectionClass(
    isTimestampable: bool,
    createdAtProperties: seq<string>,
    updatedAtProperties: seq<string>)

  /**
   * The mapping metadata of one entity class. `reflClass` is `None` while the
   * class has not been fully built.
   */
  class ClassMetadata {
    var reflClass: Option<ReflectionClass>
    var fieldMappings: map<string, FieldMapping>
    var lifecycleCallbacks: seq<Callback>

    constructor (reflClass: Option<ReflectionClass>, fieldMappings: map<string, FieldMapping>,
                 lifecycleCallbacks: seq<Callback>)
      ensures this.reflClass == reflClass
      ensures this.fieldMappings == fieldMappings
      ensures this.lifecycleCallbacks == lifecycleCallbacks
    {
      this.reflClass := reflClass;
      this.fieldMappings := fieldMappings;
      this.lifecycleCallbacks := lifecycleCallbacks;
    }

    /** Registers `callback` to run on `event`, after the callbacks already registered. */
    method AddLifecycleCallback(callback: string, event: Event)
      modifies this`lifecycleCallbacks
      ensures lifecycleCallbacks == old(lifecycleCallbacks) + [Callback(callback, event)]
    {
      lifecycleCallbacks := lifecycleCallbacks + [Callback(callback, event)];
    }

    /** Whether a field of that name is already mapped. */
    method HasField(fieldName: string) returns (mapped: bool)
      ensures mapped <==> fieldName in fieldMappings
    {
      mapped := fieldName in fieldMappings;
    }

    /** Adds `mapping` to the field table under its field name. */
    method MapField(mapping: FieldMapping)
      modifies this`fieldMappings
      ensures fieldMappings == old(fieldMappings)[mapping.fieldName := mapping]
    {
      fieldMappings := fieldMappings[mapping.fieldName := mapping];
    }
  }
}
