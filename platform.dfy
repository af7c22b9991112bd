/**
 * `get_system_string` of src/utils.py, which names the platform from the
 * text of `sys.platform`, and the choice of `Config.get_conf_filepath`
 * among the three places a configuration file may be.
 */
module Platform {
  import opened Text

  const LinuxName: string := "Linux"
  const BsdName: string := "BSD"
  const MacName: string := "MacOS"
  const OtherName: string := "Other"

  /** The name of the platform: the first of the three substrings found decides. */
  function SystemString(platform: string): (r: string)
    ensures r in {LinuxName, BsdName, MacName, OtherName}
  {
    if Contains(platform, "linux") then LinuxName
    else if Contains(platform, "bsd") then BsdName
    else if Contains(platform, "darwin") then MacName
    else OtherName
  }

  /** `linux` anywhere wins over any other substring. */
  lemma LinuxWins(platform: string, j: nat)
    requires OccursAt(platform, "linux", j)
    ensures SystemString(platform) == LinuxName
  {
    ContainsIsOccurrence(platform, "linux");
  }

  lemma BsdWithoutLinux(platform: string, j: nat)
    requires forall i: nat :: !OccursAt(platform, "linux", i)
    requires OccursAt(platform, "bsd", j)
    ensures SystemString(platform) == BsdName
  {
    ContainsIsOccurrence(platform, "linux");
    ContainsIsOccurrence(platform, "bsd");
  }

  lemma DarwinAlone(platform: string, j: nat)
    requires forall i: nat :: !OccursAt(platform, "linux", i) && !OccursAt(platform, "bsd", i)
    requires OccursAt(platform, "darwin", j)
    ensures SystemString(platform) == MacName
  {
    ContainsIsOccurrence(platform, "linux");
    ContainsIsOccurrence(platform, "bsd");
    ContainsIsOccurrence(platform, "darwin");
  }

  /** Without any of the three substrings the platform is `Other`, and only then. */
  lemma OtherwiseOther(platform: string)
    ensures SystemString(platform) == OtherName <==>
              forall i: nat :: !OccursAt(platform, "linux", i) && !OccursAt(platform, "bsd", i)
                               && !OccursAt(platform, "darwin", i)
  {
    ContainsIsOccurrence(platform, "linux");
    ContainsIsOccurrence(platform, "bsd");
    ContainsIsOccurrence(platform, "darwin");
  }

  /** The places `get_conf_filepath` looks at, in the order it looks. */
  datatype ConfFile = GivenFile | BsdFile | OtherPlatformsFile

  /** Whether a place holds a file, as `Path.exists` reports it. */
  datatype Probe = Probe(given: bool, bsd: bool, otherPlatforms: bool)

  predicate Exists(p: Probe, f: ConfFile) {
    match f
    case GivenFile => p.given
    case BsdFile => p.bsd
    case OtherPlatformsFile => p.otherPlatforms
  }

  /**
   * `get_conf_filepath`: the given path if it exists, else the BSD path on
   * BSD or the other platforms' path elsewhere, if that one exists; `None`
   * where the method falls off its end.
   */
  function ConfFilePath(p: Probe, system: string): (r: Option<ConfFile>)
    ensures r.Some? ==> Exists(p, r.value)
  {
    if p.given then Some(GivenFile)
    else if system == BsdName && p.bsd then Some(BsdFile)
    else if system != BsdName && p.otherPlatforms then Some(OtherPlatformsFile)
    else None
  }

  /** The given path is preferred whenever it exists. */
  lemma GivenFirst(p: Probe, system: string)
    requires p.given
    ensures ConfFilePath(p, system) == Some(GivenFile)
  {
  }

  /** Each platform has one fallback: the BSD path is never chosen elsewhere, nor the other one on BSD. */
  lemma OneFallbackPerPlatform(p: Probe, system: string)
    ensures ConfFilePath(p, system) == Some(BsdFile) ==> system == BsdName
    ensures ConfFilePath(p, system) == Some(OtherPlatformsFile) ==> system != BsdName
  {
  }

  /** No file is found exactly when neither the given path nor the platform's fallback exists. */
  lemma NothingFound(p: Probe, system: string)
    ensures ConfFilePath(p, system).None? <==>
              !p.given && !Exists(p, if system == BsdName then BsdFile else OtherPlatformsFile)
  {
  }
}
