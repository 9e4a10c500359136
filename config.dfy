/** The configuration service: environment settings by name; a missing name reads as `undefined`. */
module Config {
  import opened Wrappers

  type Settings = map<string, string>

  function Get(settings: Settings, key: string): (r: Option<string>)
    ensures r.Some? <==> key in settings
    ensures r.Some? ==> r.value == settings[key]
  {
    if key in settings then Some(settings[key]) else None
  }
}
