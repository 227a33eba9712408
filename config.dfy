/** The worker's tunables, with the values sw.js fixes. */
module Config {

  const CacheVersion: string := "v1.0.2"

  /** Every cache this application ever creates is named with this prefix. */
  const FamilyPrefix: string := "school-schedule-"

  /** The shell cache of a generation, `school-schedule-${version}`. */
  function ShellCacheName(version: string): string { FamilyPrefix + version }

  /** The dynamic cache of a generation, `school-schedule-dynamic-${version}`. */
  function DynamicCacheName(version: string): string { FamilyPrefix + "dynamic-" + version }

  const CacheName: string := ShellCacheName(CacheVersion)
  const CacheNameDynamic: string := DynamicCacheName(CacheVersion)

  const MaxDynamicCacheSize: nat := 50

  /** The API endpoint; also the key the sync handler writes under. */
  const ApiPath: string := "/functions/api/events"

  /** Cross-origin hosts whose requests are still intercepted. */
  const CdnHosts: seq<string> := ["cdn.tailwindcss.com", "fonts.googleapis.com", "fonts.gstatic.com"]

  const SyncTag: string := "sync-events"

  const SkipWaiting: string := "SKIP_WAITING"
  const CacheUrls: string := "CACHE_URLS"
  const ClearCache: string := "CLEAR_CACHE"
}
