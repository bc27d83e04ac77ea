/** The Rust backend's requirement checks (src-tauri/src/lib.rs). The facts it asks
    the host about (the `os_info` report, the build target, the Steam lookup) are
    inputs. */
module Backend {
  import opened Wrappers

  type Path = string

  /** Steam application ids are `u32`. */
  type AppId = n: nat | n < 0x1_0000_0000

  const Mw3AppId: AppId := 115300
  const Bo2AppId: AppId := 202970
  const Bo2MpAppId: AppId := 202990
  const Bo1AppId: AppId := 42700
  const Bo1MpAppId: AppId := 42710
  const WawAppId: AppId := 10090

  /** One checked requirement. */
  datatype RequirementState = Met | NotMet(message: string)

  /** The snapshot `get_requirements` returns. */
  datatype Requirements = Requirements(
    allMet: bool,
    operatingSystem: RequirementState,
    architecture: RequirementState,
    steam: RequirementState,
    mw3Path: Option<Path>,
    bo2Path: Option<Path>,
    bo2MpPath: Option<Path>,
    bo1Path: Option<Path>,
    bo1MpPath: Option<Path>,
    wawPath: Option<Path>)

  /** `iter().all(|x| x == Met)` over a list of states. */
  function AllMet(states: seq<RequirementState>): (r: bool)
    ensures r <==> forall i :: 0 <= i < |states| ==> states[i] == Met
  {
    if states == [] then true else states[0] == Met && AllMet(states[1..])
  }

  /** `Requirements::new`: the overall flag is the conjunction of the three checks;
      every argument is stored as given, `steam_installed` in the `steam` field. */
  function NewRequirements(
    operatingSystem: RequirementState,
    architecture: RequirementState,
    steamInstalled: RequirementState,
    mw3Path: Option<Path>,
    bo2Path: Option<Path>,
    bo2MpPath: Option<Path>,
    bo1Path: Option<Path>,
    bo1MpPath: Option<Path>,
    wawPath: Option<Path>): (r: Requirements)
    ensures r.allMet <==> operatingSystem == Met && architecture == Met && steamInstalled == Met
    ensures r.operatingSystem == operatingSystem && r.architecture == architecture
    ensures r.steam == steamInstalled
    ensures r.mw3Path == mw3Path && r.bo2Path == bo2Path && r.bo2MpPath == bo2MpPath
    ensures r.bo1Path == bo1Path && r.bo1MpPath == bo1MpPath && r.wawPath == wawPath
  {
    var states := [operatingSystem, architecture, steamInstalled];
    assert states[0] == operatingSystem && states[1] == architecture && states[2] == steamInstalled;
    Requirements(AllMet(states), operatingSystem, architecture, steamInstalled,
                 mw3Path, bo2Path, bo2MpPath, bo1Path, bo1MpPath, wawPath)
  }

  /** The game paths play no part in the overall flag. */
  lemma PathsDoNotAffectAllMet(
    os: RequirementState, arch: RequirementState, steam: RequirementState,
    p1: Option<Path>, p2: Option<Path>, p3: Option<Path>,
    p4: Option<Path>, p5: Option<Path>, p6: Option<Path>,
    q1: Option<Path>, q2: Option<Path>, q3: Option<Path>,
    q4: Option<Path>, q5: Option<Path>, q6: Option<Path>)
    ensures NewRequirements(os, arch, steam, p1, p2, p3, p4, p5, p6).allMet
         == NewRequirements(os, arch, steam, q1, q2, q3, q4, q5, q6).allMet
  {
  }

  /** The build targets selected by `#[cfg(target_os)]`. */
  datatype OsType = Linux | MacOS | Windows

  /** `get_operating_system_type`: the literal naming the build target. */
  function GetOperatingSystemType(target: OsType): (r: string)
    ensures r == "Linux" || r == "MacOS" || r == "Windows"
    ensures r == "Linux" <==> target == Linux
  {
    match target
    case Linux => "Linux"
    case MacOS => "MacOS"
    case Windows => "Windows"
  }

  /** Different build targets are reported under different names. */
  lemma OperatingSystemTypeInjective(a: OsType, b: OsType)
    ensures GetOperatingSystemType(a) == GetOperatingSystemType(b) ==> a == b
  {
  }

  /** The variant of `os_info::Type` the host reports: the generic `Linux`
      variant, or any other variant (another system or a named distribution). */
  datatype OsInfoType = LinuxType | OtherType(name: string)

  /** What `os_info::get()` reports. */
  datatype OsInfo = OsInfo(osType: OsInfoType, architecture: Option<string>)

  /** A Steam application as `find_app` reports it. */
  datatype App = App(launcherPath: Option<Path>)

  /** A located Steam installation; `findApp` is its (fallible) application lookup. */
  datatype SteamDir = SteamDir(findApp: AppId -> Result<Option<App>, string>)

  const OsMessagePrefix := "The current operating system ("
  const OsMessageSuffix := ") is not supported - <u>Linux is required</u>. If you're using Windows, please use the <a tabindex=\"9999\" target=\"_blank\" href=\"https://plutonium.pw/\">Plutonium Launcher</a> instead."
  const ArchMessagePrefix := "The current operating system architecture ("
  const ArchMessageSuffix := ") is not supported. The only supported architecture is x86_64 (the standard for Intel and AMD CPUs)."
  const SteamMessage := "Steam is not installed or could not be found. If you are sure Steam is installed, please make sure that it has been ran at least once."

  /** `format!` with one placeholder: the prefix, then the name, then the suffix. */
  function Formatted(prefix: string, name: string, suffix: string): (r: string)
    ensures |r| == |prefix| + |name| + |suffix|
    ensures r[..|prefix|] == prefix
    ensures r[|prefix|..|prefix| + |name|] == name
    ensures r[|prefix| + |name|..] == suffix
  {
    prefix + name + suffix
  }

  /** The text between a known prefix and suffix, when the message has that form. */
  function NameIn(message: string, prefix: string, suffix: string): (r: Option<string>)
    ensures r.Some? ==> Formatted(prefix, r.value, suffix) == message
  {
    if |prefix| + |suffix| <= |message| && message[..|prefix|] == prefix
       && message[|message| - |suffix|..] == suffix
    then
      var name := message[|prefix|..|message| - |suffix|];
      assert message == message[..|prefix|] + name + message[|message| - |suffix|..];
      Some(name)
    else None
  }

  /** The placeholder's value can be read back from a formatted message. */
  lemma NameInFormatted(prefix: string, name: string, suffix: string)
    ensures NameIn(Formatted(prefix, name, suffix), prefix, suffix) == Some(name)
  {
  }

  /** The operating-system check: met exactly for the generic Linux type; the
      message names the build target. */
  function OperatingSystemRequirement(osType: OsInfoType, osName: string): (r: RequirementState)
    ensures r == Met <==> osType == LinuxType
    ensures r.NotMet? ==> NameIn(r.message, OsMessagePrefix, OsMessageSuffix) == Some(osName)
  {
    if osType == LinuxType then Met
    else
      NameInFormatted(OsMessagePrefix, osName, OsMessageSuffix);
      NotMet(Formatted(OsMessagePrefix, osName, OsMessageSuffix))
  }

  /** The architecture check: met exactly for `Some("x86_64")`; the message names
      the architecture, or "unknown" when there is none. */
  function ArchitectureRequirement(architecture: Option<string>): (r: RequirementState)
    ensures r == Met <==> architecture == Some("x86_64")
    ensures r.NotMet? ==> NameIn(r.message, ArchMessagePrefix, ArchMessageSuffix)
                          == Some(architecture.GetOr("unknown"))
  {
    if architecture == Some("x86_64") then Met
    else
      var arch := architecture.GetOr("unknown");
      NameInFormatted(ArchMessagePrefix, arch, ArchMessageSuffix);
      NotMet(Formatted(ArchMessagePrefix, arch, ArchMessageSuffix))
  }

  /** The Steam check: met exactly when a Steam directory was located. */
  function SteamRequirement(steamDir: Option<SteamDir>): (r: RequirementState)
    ensures r == Met <==> steamDir.Some?
    ensures r.NotMet? ==> r.message == SteamMessage
  {
    if steamDir.Some? then Met else NotMet(SteamMessage)
  }

  /** `get_app_path`: the launcher path of an application, if Steam is located,
      the lookup succeeds and finds the application, and it has a launcher path. */
  function GetAppPath(steamDir: Option<SteamDir>, appId: AppId): (r: Option<Path>)
    ensures steamDir.None? ==> r.None?
    ensures steamDir.Some? && steamDir.value.findApp(appId).Failure? ==> r.None?
    ensures steamDir.Some? && steamDir.value.findApp(appId) == Success(None) ==> r.None?
    ensures steamDir.Some? && steamDir.value.findApp(appId).Success?
            && steamDir.value.findApp(appId).value.Some?
            ==> r == steamDir.value.findApp(appId).value.value.launcherPath
  {
    match steamDir
    case None => None
    case Some(dir) =>
      match dir.findApp(appId)
      case Failure(_) => None
      case Success(None) => None
      case Success(Some(app)) => app.launcherPath
  }

  /** `get_requirements`: the three checks and the six game paths. */
  function GetRequirements(info: OsInfo, target: OsType, steamDir: Option<SteamDir>): (r: Requirements)
    ensures r.allMet <==> info.osType == LinuxType && info.architecture == Some("x86_64") && steamDir.Some?
    ensures r.operatingSystem == OperatingSystemRequirement(info.osType, GetOperatingSystemType(target))
    ensures r.architecture == ArchitectureRequirement(info.architecture)
    ensures r.steam == SteamRequirement(steamDir)
    ensures r.mw3Path == GetAppPath(steamDir, Mw3AppId) && r.bo2Path == GetAppPath(steamDir, Bo2AppId)
    ensures r.bo2MpPath == GetAppPath(steamDir, Bo2MpAppId) && r.bo1Path == GetAppPath(steamDir, Bo1AppId)
    ensures r.bo1MpPath == GetAppPath(steamDir, Bo1MpAppId) && r.wawPath == GetAppPath(steamDir, WawAppId)
    ensures steamDir.None? ==> !r.allMet && r.steam == NotMet(SteamMessage)
    ensures steamDir.None? ==> r.mw3Path.None? && r.bo2Path.None? && r.bo2MpPath.None?
                               && r.bo1Path.None? && r.bo1MpPath.None? && r.wawPath.None?
  {
    NewRequirements(
      OperatingSystemRequirement(info.osType, GetOperatingSystemType(target)),
      ArchitectureRequirement(info.architecture),
      SteamRequirement(steamDir),
      GetAppPath(steamDir, Mw3AppId),
      GetAppPath(steamDir, Bo2AppId),
      GetAppPath(steamDir, Bo2MpAppId),
      GetAppPath(steamDir, Bo1AppId),
      GetAppPath(steamDir, Bo1MpAppId),
      GetAppPath(steamDir, WawAppId))
  }

  /** The operating-system check compares the `os_info` type with its generic
      Linux variant, while the message names the build target: on a Linux build
      where `os_info` reports any other variant, the check fails and the message
      says that "Linux" is not supported. */
  lemma LinuxBuildWithOtherOsInfoType(info: OsInfo, steamDir: Option<SteamDir>)
    requires info.osType != LinuxType
    ensures GetRequirements(info, Linux, steamDir).operatingSystem
            == NotMet(Formatted(OsMessagePrefix, "Linux", OsMessageSuffix))
    ensures !GetRequirements(info, Linux, steamDir).allMet
  {
  }

  /** `is_setup`: the setup check is not implemented and always answers false. */
  function IsSetup(): (r: bool)
    ensures !r
  {
    false
  }

  /** The facts the backend reads from its host. */
  datatype Host = Host(target: OsType, info: OsInfo, steamDir: Option<SteamDir>)
}
