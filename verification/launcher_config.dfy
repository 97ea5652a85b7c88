/** The parts of the launcher configuration and of the host environment that the wizard
    and the downloader read. The configuration store itself is not part of this model. */
module LauncherConfig {
  import opened Wrappers

  /** An entry of `downloads.resources`. */
  datatype Resource = Resource(url: string, destination: string)

  /** Contents of a provisioned JSON file; how `JSON.stringify` lays it out is not modelled. */
  datatype JsonValue = JsonValue(text: string)

  datatype Downloads = Downloads(
    resources: seq<Resource>,
    engines: seq<string>,
    games: seq<string>,      // an absent list is the empty list
    maps: seq<string>)

  datatype LaunchSettings = LaunchSettings(
    enginePath: Option<string>,   // `launch.engine_path`
    engine: Option<string>,       // `launch.engine`
    startArgs: seq<string>)       // `launch.start_args`

  datatype Config = Config(
    noDownloads: bool,                                 // `no_downloads`
    configUrl: Option<string>,                         // `config_url`
    downloads: Downloads,
    jsonFiles: seq<(string, Option<JsonValue>)>,       // `json_files` entries in order; None is `null`
    launch: LaunchSettings,
    autoStart: bool,                                   // `auto_start`
    disableLauncherUpdateDialog: bool)                 // `disable_launcher_update_dialog`

  /** Facts about the host read while the steps are generated: whether `config.json`
      exists under the write path, whether the application is packaged, and whether the
      launcher update was disabled on the command line. */
  datatype Environment = Environment(
    configJsonExists: bool,
    isPackaged: bool,
    launcherUpdateDisabled: bool)
}
