/**
  The process-wide record of which stores are public, that is, whose files may
  be reachable outside the repository's own access control. Each driver's flag
  is read from configuration on its first query and kept for the rest of the
  process, whatever the configuration later says.
 */
module PublicStore {
  import opened StorageTypes
  import opened JavaLang

  /**
    The configured flag of a driver: its "public" property, read as a Java
    boolean. A null driver id is spelled "null" in the property name.
   */
  function ConfiguredPublic(driverId: Option<string>, config: Config): (isPublic: bool)
    ensures var key := DriverProperty(JavaString(driverId), "public");
      isPublic <==> key in config && TrueIgnoringCase(config[key])
  {
    ParseBoolean(GetProperty(config, DriverProperty(JavaString(driverId), "public")))
  }

  /** The one cache of a process (a static map of the storage handle class); null is a valid key. */
  class DriverPublicAccessMap {
    var flags: map<Option<string>, bool>

    constructor ()
      ensures flags == map[]
    {
      flags := map[];
    }

    /**
      Whether the store is public. The first query for a driver reads and caches
      its configured flag; later queries answer from the cache. No other driver's
      entry ever changes.
     */
    method IsPublicStore(driverId: Option<string>, config: Config) returns (isPublic: bool)
      modifies this
      ensures driverId in flags && isPublic == flags[driverId]
      ensures driverId in old(flags) ==> flags == old(flags)
      ensures driverId !in old(flags) ==> flags == old(flags)[driverId := ConfiguredPublic(driverId, config)]
      ensures forall d :: d != driverId ==> (d in flags <==> d in old(flags)) && (d in flags ==> flags[d] == old(flags)[d])
    {
      if driverId !in flags {
        flags := flags[driverId := ConfiguredPublic(driverId, config)];
      }
      isPublic := flags[driverId];
    }
  }

  /**
    Two queries for the same driver agree even when the configuration changed
    in between: the first answer is frozen for the process lifetime.
   */
  method QueryTwice(cache: DriverPublicAccessMap, driverId: Option<string>, before: Config, after: Config)
    returns (first: bool, second: bool)
    modifies cache
    ensures first == second
    ensures driverId !in old(cache.flags) ==> first == ConfiguredPublic(driverId, before)
  {
    first := cache.IsPublicStore(driverId, before);
    second := cache.IsPublicStore(driverId, after);
  }
}
