# Timestampable behaviour for an ORM, modelled in Dafny

This project models the Timestampable behaviour of a Doctrine ORM extension. An entity class
opts in by implementing the Timestampable contract. It then gets two kinds of timestamp
properties. On every persist and update, a "created at" property is written only while it is
null, which is normally on the first persist. An "updated at" property is rewritten every time.
A name listed both as created-at and as updated-at is rewritten every time too.

Two pieces of logic are modelled:

- `TimestampableSubscriber` (`timestampable_subscriber.dfy`) handles the ORM's class-metadata
  load event. If the class is fully built, is Timestampable and names at least one timestamp
  property, the handler does two things. It registers the `updateTimestamps` callback for
  `prePersist` and then for `preUpdate`. It also maps every listed property that is not yet a
  field as a nullable column: `datetimetz` on PostgreSQL and `datetime` on any other platform.
  `LoadClassMetadata` updates a `Doctrine.ClassMetadata` object in place. Its postcondition
  ties the new field table and callback list to two specification functions,
  `FieldsAfterLoad` and `CallbacksAfterLoad`. The lemmas state the properties of those
  functions.
- `TimestampableMethods` (`timestampable_methods.dfy`) is the mixin. It provides the default
  property lists, the current-time helper and `UpdateTimestamps`. That method is on an
  `Entity` class whose properties are a map from name to `Option<DateTime>`. It computes the
  timestamp once and then runs two loops. The first sets each created-at property that is
  null. The second overwrites each updated-at property. Its postcondition ties the new
  properties to `Stamped`, and the lemmas state what `Stamped` does to each property.

`doctrine.dfy` models the small part of the ORM that the subscriber uses: event names, field
mappings, callbacks, reflection data and a class-metadata table. `wrappers.dfy` holds
`Option` and `Result`.

The code merges the two property lists without deduplication: a name in both lists appears
twice. A name repeated in the merged list is mapped only once, because
the second time the ORM already reports it as a field.

## Model

| member | source | states |
|---|---|---|
| TimestampableSubscriber.GetSubscribedEvents | src/EventSubscriber/TimestampableSubscriber.php:66-69 | the subscriber listens to exactly one event, the class-metadata load event |
| TimestampableSubscriber.GetFieldType | src/EventSubscriber/TimestampableSubscriber.php:71-74 | the column type is `datetimetz` exactly when the platform is PostgreSQL and `datetime` exactly when it is not |
| TimestampableSubscriber.MergeProperties | src/EventSubscriber/TimestampableSubscriber.php:42 | the merged list has the created-at names, then the updated-at names, each in order, and nothing else (no deduplication) |
| TimestampableSubscriber.MapMissingAt | src/EventSubscriber/TimestampableSubscriber.php:52-60 | after the mapping loop a name is a field iff it was a field or is listed. An existing mapping is kept. A listed name that was not a field gets a nullable mapping of the platform's type |
| TimestampableSubscriber.MapMissingIdleWhenAllMapped | src/EventSubscriber/TimestampableSubscriber.php:53 | when every listed name is already a field, the mapping loop leaves the table unchanged |
| TimestampableSubscriber.LoadMapsEveryProperty | src/EventSubscriber/TimestampableSubscriber.php:52-60 | after loading a registering class, every name in the merged list is a mapped field |
| TimestampableSubscriber.LoadKeepsExistingMappings | src/EventSubscriber/TimestampableSubscriber.php:53 | a field that was already mapped keeps its original mapping and is never removed, in every branch |
| TimestampableSubscriber.LoadAddsOnlyNullableTimestampFields | src/EventSubscriber/TimestampableSubscriber.php:52-60 | every field the load adds is a listed timestamp property of a registering class, named after itself, nullable, and typed `datetimetz` iff the platform is PostgreSQL, `datetime` otherwise |
| TimestampableSubscriber.SecondLoadMapsNothingNew | src/EventSubscriber/TimestampableSubscriber.php:52-60 | handling the load event again maps no further field and changes no mapping, even if the platform differs |
| TimestampableSubscriber.LoadClassMetadata | src/EventSubscriber/TimestampableSubscriber.php:27-61 | the field table and callback list become `FieldsAfterLoad` and `CallbacksAfterLoad` of the old ones. Nothing changes when reflection is missing, the class is not Timestampable or the merged list is empty. Otherwise `updateTimestamps` is appended for `prePersist` and then `preUpdate`, and missing fields are mapped |
| Doctrine.ClassMetadata.AddLifecycleCallback | src/EventSubscriber/TimestampableSubscriber.php:49-50 | the callback is appended after those already registered; the field table is not touched |
| Doctrine.ClassMetadata.HasField | src/EventSubscriber/TimestampableSubscriber.php:53 | true exactly when the name is in the field table |
| Doctrine.ClassMetadata.MapField | src/EventSubscriber/TimestampableSubscriber.php:54-58 | the mapping is stored under its field name; callbacks are not touched |
| TimestampableMethods.GetCreatedAtProperties | src/Model/Timestampable/TimestampableMethodsTrait.php:60-63 | the default created-at list is `["createdAt"]` |
| TimestampableMethods.GetUpdatedAtProperties | src/Model/Timestampable/TimestampableMethodsTrait.php:70-73 | the default updated-at list is `["updatedAt"]` |
| TimestampableMethods.GetCurrentDateTime | src/Model/Timestampable/TimestampableMethodsTrait.php:41-53 | fails with `ShouldNotHappenException` exactly when parsing the clock reading failed; otherwise keeps the instant in the default time zone |
| TimestampableMethods.StampCreatedAt | src/Model/Timestampable/TimestampableMethodsTrait.php:23-28 | after the created-at loop, a property holds `now` iff it is listed and was null; otherwise it keeps its value. Only listed names become set |
| TimestampableMethods.StampUpdatedAt | src/Model/Timestampable/TimestampableMethodsTrait.php:30-33 | after the updated-at loop, every listed property holds `now` and every other property keeps its value. Only listed names become set |
| TimestampableMethods.StampedAt | src/Model/Timestampable/TimestampableMethodsTrait.php:19-34 | after a call, a property holds `now` iff it is updated-at or is a created-at property that was null; otherwise it holds its old value. Only listed names become set |
| TimestampableMethods.StampSetsNullCreatedAt | src/Model/Timestampable/TimestampableMethodsTrait.php:24-28 | a created-at property that was null holds the timestamp afterwards |
| TimestampableMethods.StampKeepsSetCreatedAt | src/Model/Timestampable/TimestampableMethodsTrait.php:25 | a created-at property that was set and is not also updated-at keeps its value (first write wins) |
| TimestampableMethods.StampOverwritesUpdatedAt | src/Model/Timestampable/TimestampableMethodsTrait.php:30-33 | every updated-at property holds the timestamp afterwards, whatever it held, also when it is created-at too |
| TimestampableMethods.StampLeavesOtherPropertiesAlone | src/Model/Timestampable/TimestampableMethodsTrait.php:19-34 | a property named in neither list keeps its value and stays set or unset as it was |
| TimestampableMethods.StampWritesOneTimestamp | src/Model/Timestampable/TimestampableMethodsTrait.php:21 | every property either keeps its old value or holds the one timestamp of the call |
| TimestampableMethods.SecondStampKeepsCreatedAt | src/Model/Timestampable/TimestampableMethodsTrait.php:25-27 | a second call leaves every created-at-only property as the first call left it |
| TimestampableMethods.DefaultListsStampTwice | src/Model/Timestampable/TimestampableMethodsTrait.php:19-34 | with the default lists and `createdAt` unset, the first call sets both properties to its timestamp. A second call keeps `createdAt` and moves `updatedAt` to the new timestamp |
| TimestampableMethods.Entity.UpdateTimestamps | src/Model/Timestampable/TimestampableMethodsTrait.php:19-34 | when computing the time throws, nothing is written and the exception propagates. Otherwise the properties become `Stamped` of the old ones with that single timestamp, and the call succeeds |

## Left out

- Reading the wall clock (`microtime`), formatting it with `sprintf('%.6F')`, and how `DateTime::createFromFormat` parses it. `GetCurrentDateTime` takes the parse result as an input (`None` when parsing failed) and the default time zone as a string.
- Platform detection through the entity manager's connection (src/EventSubscriber/TimestampableSubscriber.php:76-82). The platform is the boolean input `isPostgreSqlPlatform`, assumed to be the same for the whole load.
- The constructor that injects the entity manager (src/EventSubscriber/TimestampableSubscriber.php:22-25). It only stores the dependency used for platform detection.
- PHP runtime dispatch. `is_a` becomes the `isTimestampable` flag of the reflection data. `call_user_func` and `static::` calls become the property lists carried by the reflection data and by the entity. Dynamic `$this->{$prop}` access becomes a map lookup and update.
- A property name the entity does not declare. It reads as `null` and is then created as a dynamic property. PHP's warnings and deprecations on that path are not modelled, and neither is the error raised by reading an uninitialised typed property.
- Aliasing of the timestamp object. The source writes one shared `DateTime` instance to every stamped property, so a later mutation through one property would show in all of them. The model stores immutable values.
- The ORM's internals behind `addLifecycleCallback`, `hasField` and `mapField`, such as embedded classes, column naming and its own checks. They are modelled as plain table operations.
- Duplicate callbacks: handling the load event twice appends the callback pair twice in this model. Whether the ORM ignores a duplicate callback depends on ORM code that is not part of this model, so no "no duplicate callbacks" property is stated.
