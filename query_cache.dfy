/**
 * The request cache the hooks talk to. Only its `invalidateQueries` entry
 * point is modelled, as a log of the keys whose invalidation was requested;
 * refetching, deduplication and subscriptions belong to the cache library.
 */
module QueryCache {

  /** The query keys the core uses: `['dailyTasks']`, `['projects']` and
      `[api.settings.get.path]`. */
  datatype QueryKey = DailyTasks | Projects | SettingsGet

  class QueryClient {
    /** Every key passed to `invalidateQueries`, oldest first. */
    ghost var invalidated: seq<QueryKey>

    constructor ()
      ensures invalidated == []
    {
      invalidated := [];
    }

    /** `queryClient.invalidateQueries({ queryKey: [key] })` */
    method InvalidateQueries(key: QueryKey)
      modifies this
      ensures invalidated == old(invalidated) + [key]
    {
      invalidated := invalidated + [key];
    }
  }
}
