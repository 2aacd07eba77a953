/** CreativeExperiencesManager: the per-ad-unit store of decoded settings. */
module Manager {
  import opened Wrappers
  import opened ExperienceSettings

  class CreativeExperiencesManager {
    /** The backing store, keyed by ad-unit identifier. */
    var store: map<string, CreativeExperienceSettings>

    constructor ()
      ensures store == map[]
    {
      store := map[];
    }

    /** cache(settings:for:): the last write for an ad unit wins; other ad units are untouched. */
    method Cache(settings: CreativeExperienceSettings, adUnitId: string)
      modifies this
      ensures store == old(store)[adUnitId := settings]
    {
      store := store[adUnitId := settings];
    }

    /** cachedSettings(for:): nothing cached is an absence, not an error. */
    method CachedSettings(adUnitId: string) returns (r: Option<CreativeExperienceSettings>)
      ensures r.Some? <==> adUnitId in store
      ensures r.Some? ==> r.value == store[adUnitId]
    {
      if adUnitId in store {
        r := Some(store[adUnitId]);
      } else {
        r := None;
      }
    }

    /** Evicts everything, as the backing cache's "remove all" does. */
    method RemoveAllCachedSettings()
      modifies this
      ensures store == map[]
    {
      store := map[];
    }
  }

  /**
   * The manager tests in one run: after eviction nothing is found; a cached
   * value is found again; a second cache for the same ad unit replaces it.
   */
  method OverwriteScenario(m: CreativeExperiencesManager, adUnitId: string,
                           first: CreativeExperienceSettings, second: CreativeExperienceSettings)
    returns (initially: Option<CreativeExperienceSettings>, before: Option<CreativeExperienceSettings>,
             after: Option<CreativeExperienceSettings>)
    modifies m
    ensures initially == None
    ensures before == Some(first) && after == Some(second)
    ensures m.store == map[adUnitId := second]
  {
    m.RemoveAllCachedSettings();
    initially := m.CachedSettings(adUnitId);
    m.Cache(first, adUnitId);
    before := m.CachedSettings(adUnitId);
    m.Cache(second, adUnitId);
    after := m.CachedSettings(adUnitId);
  }
}
