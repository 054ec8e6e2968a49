/**
 * The application settings, reduced to what the command initializer sees:
 * a lookup from a dotted key path to a string, `null` when the key is unset.
 * How the settings are loaded is not part of this model.
 */
module AppSettings {
  import opened Wrappers

  const DefaultRegionKey := "defaults.region"
  const StsEndpointKey := "services.sts.endpoint"
  const StsVersionKey := "services.sts.version"

  datatype Settings = Settings(entries: map<string, string>) {
    function Get(path: string): Option<string> {
      if path in entries then Some(entries[path]) else None
    }
  }
}
