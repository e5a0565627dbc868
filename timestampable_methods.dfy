/**
 * The Timestampable behaviour mixed into an entity: the default timestamp
 * property names, the current-time helper, and `updateTimestamps`, the
 * lifecycle callback that stamps one timestamp onto the entity's created-at
 * and updated-at properties.
 *
 * The entity's properties are a map from property name to `Option<DateTime>`;
 * a name missing from the map reads as `null`, as an undeclared property does.
 */
module TimestampableMethods {
  import opened Wrappers

  /** A point in time: microseconds since the Unix epoch and the time zone it is expressed in. */
  datatype DateTime = DateTime(unixMicroseconds: int, timezone: string)

  /** The one exception the behaviour throws. */
  datatype Exception = ShouldNotHappenException

  /** Default created-at property names. */
  function GetCreatedAtProperties(): (properties: seq<string>)
    ensures properties == ["createdAt"]
  {
    ["createdAt"]
  }

  /** Default updated-at property names. */
  function GetUpdatedAtProperties(): (properties: seq<string>)
    ensures properties == ["updatedAt"]
  {
    ["updatedAt"]
  }

  /**
   * The current time, given what parsing the clock reading produced
   * (`None` when parsing failed) and the process's default time zone: it
   * throws when parsing failed and otherwise keeps the instant and moves it
   * to the default time zone.
   */
  function GetCurrentDateTime(clockReading: Option<int>, defaultTimezone: string)
    : (r: Result<DateTime, Exception>)
    ensures r.Failure? <==> clockReading.None?
    ensures r.Failure? ==> r.error == ShouldNotHappenException
    ensures r.Success? ==> r.value.unixMicroseconds == clockReading.value
    ensures r.Success? ==> r.value.timezone == defaultTimezone
  {
    match clockReading
    case None => Failure(ShouldNotHappenException)
    case Some(micros) => Success(DateTime(micros, defaultTimezone))
  }

  /** Reads a property; a name that is not set reads as `null`. */
  function Read(properties: map<string, Option<DateTime>>, name: string): Option<DateTime>
  {
    if name in properties then properties[name] else None
  }

  /** The properties after the created-at loop has visited `names` in order. */
  function StampCreated(properties: map<string, Option<DateTime>>, names: seq<string>, now: DateTime)
    : map<string, Option<DateTime>>
    decreases |names|
  {
    if names == [] then properties
    else
      var before := StampCreated(properties, names[..|names| - 1], now);
      var name := names[|names| - 1];
      if Read(before, name) == None then before[name := Some(now)] else before
  }

  /** The properties after the updated-at loop has visited `names` in order. */
  function StampUpdated(properties: map<string, Option<DateTime>>, names: seq<string>, now: DateTime)
    : map<string, Option<DateTime>>
    decreases |names|
  {
    if names == [] then properties
    else StampUpdated(properties, names[..|names| - 1], now)[names[|names| - 1] := Some(now)]
  }

  /** The properties after a successful `updateTimestamps` stamped with `now`. */
  function Stamped(properties: map<string, Option<DateTime>>, createdAt: seq<string>,
                   updatedAt: seq<string>, now: DateTime): map<string, Option<DateTime>>
  {
    StampUpdated(StampCreated(properties, createdAt, now), updatedAt, now)
  }

  /** The created-at loop sets exactly the listed names that were null, and no others. */
  lemma {:induction false} StampCreatedAt(properties: map<string, Option<DateTime>>,
                                          names: seq<string>, now: DateTime, name: string)
    ensures name in StampCreated(properties, names, now) <==> name in properties || name in names
    ensures Read(StampCreated(properties, names, now), name)
         == if name in names && Read(properties, name) == None then Some(now) else Read(properties, name)
    decreases |names|
  {
    if names != [] {
      var init := names[..|names| - 1];
      assert names == init + [names[|names| - 1]];
      StampCreatedAt(properties, init, now, name);
    }
  }

  /** The updated-at loop sets every listed name, and no others. */
  lemma {:induction false} StampUpdatedAt(properties: map<string, Option<DateTime>>,
                                          names: seq<string>, now: DateTime, name: string)
    ensures name in StampUpdated(properties, names, now) <==> name in properties || name in names
    ensures Read(StampUpdated(properties, names, now), name)
         == if name in names then Some(now) else Read(properties, name)
    decreases |names|
  {
    if names != [] {
      var init := names[..|names| - 1];
      assert names == init + [names[|names| - 1]];
      StampUpdatedAt(properties, init, now, name);
    }
  }

  /**
   * What one property holds after stamping: `now` if it is an updated-at
   * property, or a created-at property that was null; its previous value
   * otherwise. Only listed names become set.
   */
  lemma StampedAt(properties: map<string, Option<DateTime>>, createdAt: seq<string>,
                  updatedAt: seq<string>, now: DateTime, name: string)
    ensures Read(Stamped(properties, createdAt, updatedAt, now), name)
         == if name in updatedAt || (name in createdAt && Read(properties, name) == None)
            then Some(now)
            else Read(properties, name)
    ensures name in Stamped(properties, createdAt, updatedAt, now)
        <==> name in properties || name in createdAt || name in updatedAt
  {
    StampCreatedAt(properties, createdAt, now, name);
    StampUpdatedAt(StampCreated(properties, createdAt, now), updatedAt, now, name);
  }

  /** A created-at property that was null holds the timestamp afterwards. */
  lemma StampSetsNullCreatedAt(properties: map<string, Option<DateTime>>, createdAt: seq<string>,
                               updatedAt: seq<string>, now: DateTime, name: string)
    requires name in createdAt && Read(properties, name) == None
    ensures Read(Stamped(properties, createdAt, updatedAt, now), name) == Some(now)
  {
    StampedAt(properties, createdAt, updatedAt, now, name);
  }

  /** A created-at property that was set, and is not also updated-at, keeps its value. */
  lemma StampKeepsSetCreatedAt(properties: map<string, Option<DateTime>>, createdAt: seq<string>,
                               updatedAt: seq<string>, now: DateTime, name: string)
    requires name in createdAt && name !in updatedAt && Read(properties, name) != None
    ensures Read(Stamped(properties, createdAt, updatedAt, now), name) == Read(properties, name)
  {
    StampedAt(properties, createdAt, updatedAt, now, name);
  }

  /** Every updated-at property holds the timestamp afterwards, whatever it held before. */
  lemma StampOverwritesUpdatedAt(properties: map<string, Option<DateTime>>, createdAt: seq<string>,
                                 updatedAt: seq<string>, now: DateTime, name: string)
    requires name in updatedAt
    ensures Read(Stamped(properties, createdAt, updatedAt, now), name) == Some(now)
  {
    StampedAt(properties, createdAt, updatedAt, now, name);
  }

  /** A property named in neither list is left exactly as it was, set or not. */
  lemma StampLeavesOtherPropertiesAlone(properties: map<string, Option<DateTime>>, createdAt: seq<string>,
                                        updatedAt: seq<string>, now: DateTime, name: string)
    requires name !in createdAt && name !in updatedAt
    ensures name in Stamped(properties, createdAt, updatedAt, now) <==> name in properties
    ensures name in properties ==> Stamped(properties, createdAt, updatedAt, now)[name] == properties[name]
  {
    StampedAt(properties, createdAt, updatedAt, now, name);
  }

  /** Every property the call writes receives the same timestamp. */
  lemma StampWritesOneTimestamp(properties: map<string, Option<DateTime>>, createdAt: seq<string>,
                                updatedAt: seq<string>, now: DateTime)
    ensures forall name :: name in Stamped(properties, createdAt, updatedAt, now) ==>
              Stamped(properties, createdAt, updatedAt, now)[name] == Some(now)
              || (name in properties && Stamped(properties, createdAt, updatedAt, now)[name] == properties[name])
  {
    forall name | name in Stamped(properties, createdAt, updatedAt, now)
      ensures Stamped(properties, createdAt, updatedAt, now)[name] == Some(now)
              || (name in properties && Stamped(properties, createdAt, updatedAt, now)[name] == properties[name])
    {
      StampedAt(properties, createdAt, updatedAt, now, name);
    }
  }

  /**
   * A second call leaves every created-at property that is not also an
   * updated-at property as the first call left it.
   */
  lemma SecondStampKeepsCreatedAt(properties: map<string, Option<DateTime>>, createdAt: seq<string>,
                                  updatedAt: seq<string>, first: DateTime, second: DateTime, name: string)
    requires name in createdAt && name !in updatedAt
    ensures Read(Stamped(Stamped(properties, createdAt, updatedAt, first), createdAt, updatedAt, second), name)
         == Read(Stamped(properties, createdAt, updatedAt, first), name)
  {
    var once := Stamped(properties, createdAt, updatedAt, first);
    StampedAt(properties, createdAt, updatedAt, first, name);
    StampedAt(once, createdAt, updatedAt, second, name);
  }

  /**
   * With the default lists and `createdAt` unset, the first call stamps both
   * properties with its timestamp; a second call keeps `createdAt` and moves
   * `updatedAt` to the second timestamp.
   */
  lemma DefaultListsStampTwice(properties: map<string, Option<DateTime>>, first: DateTime, second: DateTime)
    requires Read(properties, "createdAt") == None
    ensures var once := Stamped(properties, GetCreatedAtProperties(), GetUpdatedAtProperties(), first);
            var twice := Stamped(once, GetCreatedAtProperties(), GetUpdatedAtProperties(), second);
            && Read(once, "createdAt") == Some(first) && Read(once, "updatedAt") == Some(first)
            && Read(twice, "createdAt") == Some(first) && Read(twice, "updatedAt") == Some(second)
  {
    var createdAt, updatedAt := GetCreatedAtProperties(), GetUpdatedAtProperties();
    var once := Stamped(properties, createdAt, updatedAt, first);
    StampedAt(properties, createdAt, updatedAt, first, "createdAt");
    StampedAt(properties, createdAt, updatedAt, first, "updatedAt");
    StampedAt(once, createdAt, updatedAt, second, "createdAt");
    StampedAt(once, createdAt, updatedAt, second, "updatedAt");
  }

  /**
   * An entity using the behaviour. The two lists are what the entity class's
   * static `getCreatedAtProperties` / `getUpdatedAtProperties` return; the
   * `Default` constructor keeps the behaviour's defaults.
   */
  class Entity {
    const createdAtProperties: seq<string>
    const updatedAtProperties: seq<string>
    var properties: map<string, Option<DateTime>>

    constructor (createdAtProperties: seq<string>, updatedAtProperties: seq<string>,
                 properties: map<string, Option<DateTime>>)
      ensures this.createdAtProperties == createdAtProperties
      ensures this.updatedAtProperties == updatedAtProperties
      ensures this.properties == properties
    {
      this.createdAtProperties := createdAtProperties;
      this.updatedAtProperties := updatedAtProperties;
      this.properties := properties;
    }

    constructor Default(properties: map<string, Option<DateTime>>)
      ensures createdAtProperties == GetCreatedAtProperties()
      ensures updatedAtProperties == GetUpdatedAtProperties()
      ensures this.properties == properties
    {
      createdAtProperties := GetCreatedAtProperties();
      updatedAtProperties := GetUpdatedAtProperties();
      this.properties := properties;
    }

    /**
     * Stamps the current time onto the entity: the time is computed once;
     * if that throws, nothing is written; otherwise null created-at
     * properties and all updated-at properties receive it.
     */
    method UpdateTimestamps(clockReading: Option<int>, defaultTimezone: string) returns (outcome: Result<(), Exception>)
      modifies this`properties
      ensures match GetCurrentDateTime(clockReading, defaultTimezone)
              case Failure(e) => outcome == Failure(e) && properties == old(properties)
              case Success(now) =>
                outcome == Success(())
                && properties == Stamped(old(properties), createdAtProperties, updatedAtProperties, now)
    {
      var dateTime := GetCurrentDateTime(clockReading, defaultTimezone);
      if dateTime.Failure? {
        return Failure(dateTime.error);
      }
      var now := dateTime.value;

      for i := 0 to |createdAtProperties|
        invariant properties == StampCreated(old(properties), createdAtProperties[..i], now)
      {
        var name := createdAtProperties[i];
        assert createdAtProperties[..i + 1][..i] == createdAtProperties[..i];
        if Read(properties, name) == None {
          properties := properties[name := Some(now)];
        }
      }
      assert createdAtProperties[..|createdAtProperties|] == createdAtProperties;

      ghost var created := properties;
      for i := 0 to |updatedAtProperties|
        invariant properties == StampUpdated(created, updatedAtProperties[..i], now)
      {
        var name := updatedAtProperties[i];
        assert updatedAtProperties[..i + 1][..i] == updatedAtProperties[..i];
        properties := properties[name := Some(now)];
      }
      assert updatedAtProperties[..|updatedAtProperties|] == updatedAtProperties;
      outcome := Success(());
    }
  }
}
