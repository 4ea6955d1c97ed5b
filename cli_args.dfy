/**
 * The command-line options as the builder and the renderer see them: one
 * switch per optional line, the show-all switch, and the art override.
 * Parsing the flags themselves is not modelled.
 */
module CliArgs {

  import opened Wrappers
  import opened IconArtCatalog

  datatype Cli = Cli(
    showDistro: bool,
    showDesktopEnv: bool,
    showDeviceName: bool,
    showArchitecture: bool,
    showUptime: bool,
    showPackages: bool,
    showMotherboard: bool,
    showMotherboardManufacturer: bool,
    showCpu: bool,
    showCpuVendor: bool,
    showCpuFrequency: bool,
    showCpuUsage: bool,
    showGpu: bool,
    showMemory: bool,
    showSwap: bool,
    showIp: bool,
    showAll: bool,
    iconArt: Option<IconArt>)
}
