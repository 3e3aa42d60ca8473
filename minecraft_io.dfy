/**
 * The game jar paths and the data version lookup of `io/minecraft.rs`.
 * The existence of files and the contents of a jar's `version.json` are inputs.
 */
module MinecraftIo {
  import opened Wrappers
  import Shared

  type Path = Shared.Path

  /** The Display text of a side, as used in jar file names. */
  function SideText(side: Shared.Side): (s: string)
    ensures s == "client" <==> side == Shared.Side.Client
    ensures s == "server" <==> side == Shared.Side.Server
  {
    match side
    case Client => "client"
    case Server => "server"
  }

  /** `game_jar::get_path`: the jar `{version}_{side}.jar` inside the jars directory. */
  function JarPath(side: Shared.Side, version: string, jars: Path): (p: Path)
    ensures |p| == |jars| + 1 && p[..|jars|] == jars
    ensures p[|jars|] == version + "_" + SideText(side) + ".jar"
  {
    jars + [version + "_" + SideText(side) + ".jar"]
  }

  /** The client and the server jar of one version are different files. */
  lemma JarPathsDistinct(version: string, jars: Path)
    ensures JarPath(Shared.Side.Client, version, jars) != JarPath(Shared.Side.Server, version, jars)
  {
    var c := JarPath(Shared.Side.Client, version, jars)[|jars|];
    var s := JarPath(Shared.Side.Server, version, jars)[|jars|];
    assert c[|version| + 1] == 'c' && s[|version| + 1] == 's';
  }

  /** The jar a later lookup may use: the client jar, else the server jar, if either exists. */
  function ExistingJar(version: string, jars: Path, existing: set<Path>): (r: Result<Path, string>)
    ensures r.Ok? <==> JarPath(Shared.Side.Client, version, jars) in existing || JarPath(Shared.Side.Server, version, jars) in existing
    ensures r.Ok? ==> r.value in existing && exists side :: r.value == JarPath(side, version, jars)
    ensures JarPath(Shared.Side.Client, version, jars) in existing ==> r == Ok(JarPath(Shared.Side.Client, version, jars))
  {
    if JarPath(Shared.Side.Client, version, jars) in existing then Ok(JarPath(Shared.Side.Client, version, jars))
    else if JarPath(Shared.Side.Server, version, jars) in existing then Ok(JarPath(Shared.Side.Server, version, jars))
    else Err("An existing game jar for this Minecraft version does not exist")
  }

  /** `game_jar::get_existing_path`: the path is reassigned to the server jar when the client jar is missing. */
  method GetExistingPath(version: string, jars: Path, existing: set<Path>) returns (r: Result<Path, string>)
    ensures r == ExistingJar(version, jars, existing)
  {
    var path := JarPath(Shared.Side.Client, version, jars);
    if path !in existing {
      path := JarPath(Shared.Side.Server, version, jars);
    }
    if path !in existing {
      return Err("An existing game jar for this Minecraft version does not exist");
    }
    return Ok(path);
  }

  /**
   * `game_jar::extract_version_json`: the data version read from the existing jar.
   * `read` stands for opening the jar and parsing its `version.json`.
   */
  function ExtractVersionJson(version: string, jars: Path, existing: set<Path>, read: Path -> Result<int, string>): (r: Result<int, string>)
    ensures ExistingJar(version, jars, existing).Err? ==> r.Err?
    ensures ExistingJar(version, jars, existing).Ok? ==> r == read(ExistingJar(version, jars, existing).value)
  {
    match ExistingJar(version, jars, existing)
    case Err(e) => Err(e)
    case Ok(path) => read(path)
  }

  /**
   * `get_data_version` with `extract_version_json_optional`: versions after 18w47b
   * (`after18w47b`) read the jar; older ones use the table.
   */
  function DataVersion(version: string, after18w47b: bool, jars: Path, existing: set<Path>, read: Path -> Result<int, string>): (r: Result<Option<int>, string>)
    ensures !after18w47b ==> r == Ok(OldDataVersion(version))
    ensures after18w47b ==> (r.Ok? <==> ExtractVersionJson(version, jars, existing, read).Ok?)
    ensures after18w47b && r.Ok? ==> r.value == Some(ExtractVersionJson(version, jars, existing, read).value)
  {
    if after18w47b then
      match ExtractVersionJson(version, jars, existing, read)
      case Err(e) => Err(e)
      case Ok(v) => Ok(Some(v))
    else
      Ok(OldDataVersion(version))
  }

  /** Without a jar a newer version has no data version, and an older one never needs the jar. */
  lemma DataVersionNeedsJarOnlyWhenNew(version: string, after18w47b: bool, jars: Path, existing: set<Path>, read: Path -> Result<int, string>)
    ensures DataVersion(version, after18w47b, jars, existing, read).Err? ==> after18w47b
    ensures after18w47b && ExistingJar(version, jars, existing).Err? ==> DataVersion(version, after18w47b, jars, existing, read).Err?
    ensures !after18w47b ==> DataVersion(version, after18w47b, jars, {}, read) == DataVersion(version, after18w47b, jars, existing, read)
  {
  }

  /** The part of a version the table is split by: its first four characters. */
  function Bucket(version: string): (b: string)
    ensures |b| == if |version| < 4 then |version| else 4
    ensures b <= version
  {
    if |version| < 4 then version else version[..4]
  }

  /**
   * `get_old_data_version`: the data versions of the releases before 18w47b, which keep it
   * outside `version.json`. Versions before 15w32a have none. The source's single match is
   * split by `Bucket`; every key sits in the part named by its own first characters, in the
   * source's order.
   */
  function OldDataVersion(version: string): (r: Option<int>)
    ensures r.Some? ==> 100 <= r.value <= 3570
  {
    match Bucket(version)
    case "23w3" => Prefix23w3(version)
    case "1.20" => Prefix1_20(version)
    case "23w1" => Prefix23w1(version)
    case "1.19" => Prefix1_19(version)
    case "23w0" => Prefix23w0(version)
    case "22w4" => Prefix22w4(version)
    case "22w2" => Prefix22w2(version)
    case "22w1" => Prefix22w1(version)
    case "Deep" => PrefixDeep(version)
    case "1.18" => Prefix1_18(version)
    case "22w0" => Prefix22w0(version)
    case "21w4" => Prefix21w4(version)
    case "21w3" => Prefix21w3(version)
    case "1.17" => Prefix1_17(version)
    case "21w2" => Prefix21w2(version)
    case "21w1" => Prefix21w1(version)
    case "21w0" => Prefix21w0(version)
    case "20w5" => Prefix20w5(version)
    case "20w4" => Prefix20w4(version)
    case "Comb" => PrefixComb(version)
    case "1.16" => Prefix1_16(version)
    case "20w3" => Prefix20w3(version)
    case "20w2" => Prefix20w2(version)
    case "20w1" => Prefix20w1(version)
    case "20w0" => Prefix20w0(version)
    case "Snap" => PrefixSnap(version)
    case "1.15" => Prefix1_15(version)
    case "19w4" => Prefix19w4(version)
    case "19w3" => Prefix19w3(version)
    case "1.14" => Prefix1_14(version)
    case "19w1" => Prefix19w1(version)
    case "19w0" => Prefix19w0(version)
    case "18w5" => Prefix18w5(version)
    case "18w4" => Prefix18w4(version)
    case "1.13" => Prefix1_13(version)
    case "18w3" => Prefix18w3(version)
    case "18w2" => Prefix18w2(version)
    case "18w1" => Prefix18w1(version)
    case "18w0" => Prefix18w0(version)
    case "17w5" => Prefix17w5(version)
    case "17w4" => Prefix17w4(version)
    case "1.12" => Prefix1_12(version)
    case "17w3" => Prefix17w3(version)
    case "17w1" => Prefix17w1(version)
    case "17w0" => Prefix17w0(version)
    case "1.11" => Prefix1_11(version)
    case "16w5" => Prefix16w5(version)
    case "16w4" => Prefix16w4(version)
    case "16w3" => Prefix16w3(version)
    case "1.10" => Prefix1_10(version)
    case "16w2" => Prefix16w2(version)
    case "1.9." => Prefix1_9_(version)
    case "16w1" => Prefix16w1(version)
    case "1.9" => Prefix1_9(version)
    case "1.9-" => Prefix1_9m(version)
    case "16w0" => Prefix16w0(version)
    case "15w5" => Prefix15w5(version)
    case "15w4" => Prefix15w4(version)
    case "15w3" => Prefix15w3(version)
    case _ => None
  }

  /** The entries of `get_old_data_version` whose version starts with `23w3`. */
  function Prefix23w3(version: string): (r: Option<int>)
    ensures r.Some? ==> 100 <= r.value <= 3570
  {
    match version
    case "23w33a" => Some(3570)
    case "23w32a" => Some(3569)
    case "23w31a" => Some(3467)
    case _ => None
  }

  /** The entries of `get_old_data_version` whose version starts with `1.20`. */
  function Prefix1_20(version: string): (r: Option<int>)
    ensures r.Some? ==> 100 <= r.value <= 3570
  {
    match version
    case "1.20.1" => Some(3465)
    case "1.20.1 Release Candidate 1" => Some(3464)
    case "1.20" => Some(3463)
    case "1.20 Release Candidate 1" => Some(3462)
    case "1.20 Pre-release 7" => Some(3461)
    case "1.20 Pre-release 6" => Some(3460)
    case "1.20 Pre-release 5" => Some(3458)
    case "1.20 Pre-release 4" => Some(3457)
    case "1.20 Pre-release 3" => Some(3456)
    case "1.20 Pre-release 2" => Some(3455)
    case "1.20 Pre-release 1" => Some(3454)
    case _ => None
  }

  /** The entries of `get_old_data_version` whose version starts with `23w1`. */
  function Prefix23w1(version: string): (r: Option<int>)
    ensures r.Some? ==> 100 <= r.value <= 3570
  {
    match version
    case "23w18a" => Some(3453)
    case "23w17a" => Some(3452)
    case "23w16a" => Some(3449)
    case "23w14a" => Some(3445)
    case "23w13a" => Some(3443)
    case "23w12a" => Some(3442)
    case _ => None
  }

  /** The entries of `get_old_data_version` whose version starts with `1.19`. */
  function Prefix1_19(version: string): (r: Option<int>)
    ensures r.Some? ==> 100 <= r.value <= 3570
  {
    match version
    case "1.19.4" => Some(3337)
    case "1.19.4 Release Candidate 3" => Some(3336)
    case "1.19.4 Release Candidate 2" => Some(3335)
    case "1.19.4 Release Candidate 1" => Some(3334)
    case "1.19.4 Pre-release 4" => Some(3333)
    case "1.19.4 Pre-release 3" => Some(3332)
    case "1.19.4 Pre-release 2" => Some(3331)
    case "1.19.4 Pre-release 1" => Some(3330)
    case "1.19.3" => Some(3218)
    case "1.19.3 Release Candidate 3" => Some(3217)
    case "1.19.3 Release Candidate 2" => Some(3216)
    case "1.19.3 Release Candidate 1" => Some(3215)
    case "1.19.3 Pre-release 3" => Some(3213)
    case "1.19.3 Pre-release 2" => Some(3212)
    case "1.19.3 Pre-release 1" => Some(3211)
    case "1.19.2" => Some(3120)
    case "1.19.2 Release Candidate 2" => Some(3119)
    case "1.19.2 Release Candidate 1" => Some(3118)
    case "1.19.1" => Some(3117)
    case "1.19.1 Release Candidate 3" => Some(3116)
    case "1.19.1 Release Candidate 2" => Some(3115)
    case "1.19.1 Pre-release 6" => Some(3114)
    case "1.19.1 Pre-release 5" => Some(3113)
    case "1.19.1 Pre-release 4" => Some(3112)
    case "1.19.1 Pre-release 3" => Some(3111)
    case "1.19.1 Pre-release 2" => Some(3110)
    case "1.19.1 Release Candidate 1" => Some(3109)
    case "1.19.1 Pre-release 1" => Some(3107)
    case "1.19" => Some(3105)
    case "1.19 Release Candidate 2" => Some(3104)
    case "1.19 Release Candidate 1" => Some(3103)
    case "1.19 Pre-release 5" => Some(3102)
    case "1.19 Pre-release 4" => Some(3101)
    case "1.19 Pre-release 3" => Some(3100)
    case "1.19 Pre-release 2" => Some(3099)
    case "1.19 Pre-release 1" => Some(3098)
    case _ => None
  }

  /** The entries of `get_old_data_version` whose version starts with `23w0`. */
  function Prefix23w0(version: string): (r: Option<int>)
    ensures r.Some? ==> 100 <= r.value <= 3570
  {
    match version
    case "23w07a" => Some(3329)
    case "23w06a" => Some(3326)
    case "23w05a" => Some(3323)
    case "23w04a" => Some(3321)
    case "23w03a" => Some(3320)
    case _ => None
  }

  /** The entries of `get_old_data_version` whose version starts with `22w4`. */
  function Prefix22w4(version: string): (r: Option<int>)
    ensures r.Some? ==> 100 <= r.value <= 3570
  {
    match version
    case "22w46a" => Some(3210)
    case "22w45a" => Some(3208)
    case "22w44a" => Some(3207)
    case "22w43a" => Some(3206)
    case "22w42a" => Some(3205)
    case _ => None
  }

  /** The entries of `get_old_data_version` whose version starts with `22w2`. */
  function Prefix22w2(version: string): (r: Option<int>)
    ensures r.Some? ==> 100 <= r.value <= 3570
  {
    match version
    case "22w24a" => Some(3106)
    case _ => None
  }

  /** The entries of `get_old_data_version` whose version starts with `22w1`. */
  function Prefix22w1(version: string): (r: Option<int>)
    ensures r.Some? ==> 100 <= r.value <= 3570
  {
    match version
    case "22w19a" => Some(3096)
    case "22w18a" => Some(3095)
    case "22w17a" => Some(3093)
    case "22w16b" => Some(3092)
    case "22w16a" => Some(3091)
    case "22w15a" => Some(3089)
    case "22w14a" => Some(3088)
    case "22w13a" => Some(3085)
    case "22w12a" => Some(3082)
    case "22w11a" => Some(3080)
    case _ => None
  }

  /** The entries of `get_old_data_version` whose version starts with `Deep`. */
  function PrefixDeep(version: string): (r: Option<int>)
    ensures r.Some? ==> 100 <= r.value <= 3570
  {
    match version
    case "Deep Dark Experimental Snapshot 1" => Some(3066)
    case _ => None
  }

  /** The entries of `get_old_data_version` whose version starts with `1.18`. */
  function Prefix1_18(version: string): (r: Option<int>)
    ensures r.Some? ==> 100 <= r.value <= 3570
  {
    match version
    case "1.18.2" => Some(2975)
    case "1.18.2 Release Candidate 1" => Some(2974)
    case "1.18.2 Pre-release 3" => Some(2973)
    case "1.18.2 Pre-release 2" => Some(2972)
    case "1.18.2 Pre-release 1" => Some(2971)
    case "1.18.1" => Some(2865)
    case "1.18.1 Release Candidate 3" => Some(2864)
    case "1.18.1 Release Candidate 2" => Some(2863)
    case "1.18.1 Release Candidate 1" => Some(2862)
    case "1.18.1 Pre-release 1" => Some(2861)
    case "1.18" => Some(2860)
    case "1.18 Release Candidate 4" => Some(2859)
    case "1.18 Release Candidate 3" => Some(2858)
    case "1.18 Release Candidate 2" => Some(2857)
    case "1.18 Release Candidate 1" => Some(2856)
    case "1.18 Pre-release 8" => Some(2855)
    case "1.18 Pre-release 7" => Some(2854)
    case "1.18 Pre-release 6" => Some(2853)
    case "1.18 Pre-release 5" => Some(2851)
    case "1.18 Pre-release 4" => Some(2850)
    case "1.18 Pre-release 3" => Some(2849)
    case "1.18 Pre-release 2" => Some(2848)
    case "1.18 Pre-release 1" => Some(2847)
    case "1.18 experimental snapshot 7" => Some(2831)
    case "1.18 experimental snapshot 6" => Some(2830)
    case "1.18 experimental snapshot 5" => Some(2829)
    case "1.18 experimental snapshot 4" => Some(2828)
    case "1.18 experimental snapshot 3" => Some(2827)
    case "1.18 experimental snapshot 2" => Some(2826)
    case "1.18 Experimental Snapshot 1" => Some(2825)
    case _ => None
  }

  /** The entries of `get_old_data_version` whose version starts with `22w0`. */
  function Prefix22w0(version: string): (r: Option<int>)
    ensures r.Some? ==> 100 <= r.value <= 3570
  {
    match version
    case "22w07a" => Some(2969)
    case "22w06a" => Some(2968)
    case "22w05a" => Some(2967)
    case "22w03a" => Some(2966)
    case _ => None
  }

  /** The entries of `get_old_data_version` whose version starts with `21w4`. */
  function Prefix21w4(version: string): (r: Option<int>)
    ensures r.Some? ==> 100 <= r.value <= 3570
  {
    match version
    case "21w44a" => Some(2845)
    case "21w43a" => Some(2844)
    case "21w42a" => Some(2840)
    case "21w41a" => Some(2839)
    case "21w40a" => Some(2838)
    case _ => None
  }

  /** The entries of `get_old_data_version` whose version starts with `21w3`. */
  function Prefix21w3(version: string): (r: Option<int>)
    ensures r.Some? ==> 100 <= r.value <= 3570
  {
    match version
    case "21w39a" => Some(2836)
    case "21w38a" => Some(2835)
    case "21w37a" => Some(2834)
    case _ => None
  }

  /** The entries of `get_old_data_version` whose version starts with `1.17`. */
  function Prefix1_17(version: string): (r: Option<int>)
    ensures r.Some? ==> 100 <= r.value <= 3570
  {
    match version
    case "1.17.1" => Some(2730)
    case "1.17.1 Release Candidate 2" => Some(2729)
    case "1.17.1 Release Candidate 1" => Some(2728)
    case "1.17.1 Pre-release 3" => Some(2727)
    case "1.17.1 Pre-release 2" => Some(2726)
    case "1.17.1 Pre-release 1" => Some(2725)
    case "1.17" => Some(2724)
    case "1.17 Release Candidate 2" => Some(2723)
    case "1.17 Release Candidate 1" => Some(2722)
    case "1.17 Pre-release 5" => Some(2721)
    case "1.17 Pre-release 4" => Some(2720)
    case "1.17 Pre-release 3" => Some(2719)
    case "1.17 Pre-release 2" => Some(2718)
    case "1.17 Pre-release 1" => Some(2716)
    case _ => None
  }

  /** The entries of `get_old_data_version` whose version starts with `21w2`. */
  function Prefix21w2(version: string): (r: Option<int>)
    ensures r.Some? ==> 100 <= r.value <= 3570
  {
    match version
    case "21w20a" => Some(2715)
    case _ => None
  }

  /** The entries of `get_old_data_version` whose version starts with `21w1`. */
  function Prefix21w1(version: string): (r: Option<int>)
    ensures r.Some? ==> 100 <= r.value <= 3570
  {
    match version
    case "21w19a" => Some(2714)
    case "21w18a" => Some(2713)
    case "21w17a" => Some(2712)
    case "21w16a" => Some(2711)
    case "21w15a" => Some(2709)
    case "21w14a" => Some(2706)
    case "21w13a" => Some(2705)
    case "21w11a" => Some(2703)
    case "21w10a" => Some(2699)
    case _ => None
  }

  /** The entries of `get_old_data_version` whose version starts with `21w0`. */
  function Prefix21w0(version: string): (r: Option<int>)
    ensures r.Some? ==> 100 <= r.value <= 3570
  {
    match version
    case "21w08b" => Some(2698)
    case "21w08a" => Some(2697)
    case "21w07a" => Some(2695)
    case "21w06a" => Some(2694)
    case "21w05b" => Some(2692)
    case "21w05a" => Some(2690)
    case "21w03a" => Some(2689)
    case _ => None
  }

  /** The entries of `get_old_data_version` whose version starts with `20w5`. */
  function Prefix20w5(version: string): (r: Option<int>)
    ensures r.Some? ==> 100 <= r.value <= 3570
  {
    match version
    case "20w51a" => Some(2687)
    case _ => None
  }

  /** The entries of `get_old_data_version` whose version starts with `20w4`. */
  function Prefix20w4(version: string): (r: Option<int>)
    ensures r.Some? ==> 100 <= r.value <= 3570
  {
    match version
    case "20w49a" => Some(2685)
    case "20w48a" => Some(2683)
    case "20w46a" => Some(2682)
    case "20w45a" => Some(2681)
    case _ => None
  }

  /** The entries of `get_old_data_version` whose version starts with `Comb`. */
  function PrefixComb(version: string): (r: Option<int>)
    ensures r.Some? ==> 100 <= r.value <= 3570
  {
    match version
    case "Combat Test 8c" => Some(2707)
    case "Combat Test 8b" => Some(2706)
    case "Combat Test 8" => Some(2705)
    case "Combat Test 7c" => Some(2704)
    case "Combat Test 7b" => Some(2703)
    case "Combat Test 7" => Some(2702)
    case "Combat Test 6" => Some(2701)
    case "Combat Test 5" => Some(2321)
    case "Combat Test 4" => Some(2320)
    case "Combat Test 3" => Some(2069)
    case "Combat Test 2" => Some(2068)
    case _ => None
  }

  /** The entries of `get_old_data_version` whose version starts with `1.16`. */
  function Prefix1_16(version: string): (r: Option<int>)
    ensures r.Some? ==> 100 <= r.value <= 3570
  {
    match version
    case "1.16.5" => Some(2586)
    case "1.16.5 Release Candidate 1" => Some(2585)
    case "1.16.4" => Some(2584)
    case "1.16.4 Release Candidate 1" => Some(2583)
    case "1.16.4 Pre-release 2" => Some(2582)
    case "1.16.4 Pre-release 1" => Some(2581)
    case "1.16.3" => Some(2580)
    case "1.16.3 Release Candidate 1" => Some(2579)
    case "1.16.2" => Some(2578)
    case "1.16.2 Release Candidate 2" => Some(2577)
    case "1.16.2 Release Candidate 1" => Some(2576)
    case "1.16.2 Pre-release 3" => Some(2575)
    case "1.16.2 Pre-release 2" => Some(2574)
    case "1.16.2 Pre-release 1" => Some(2573)
    case "1.16.1" => Some(2567)
    case "1.16" => Some(2566)
    case "1.16 Release Candidate 1" => Some(2565)
    case "1.16 Pre-release 8" => Some(2564)
    case "1.16 Pre-release 7" => Some(2563)
    case "1.16 Pre-release 6" => Some(2562)
    case "1.16 Pre-release 5" => Some(2561)
    case "1.16 Pre-release 4" => Some(2560)
    case "1.16 Pre-release 3" => Some(2559)
    case "1.16 Pre-release 2" => Some(2557)
    case "1.16 Pre-release 1" => Some(2556)
    case _ => None
  }

  /** The entries of `get_old_data_version` whose version starts with `20w3`. */
  function Prefix20w3(version: string): (r: Option<int>)
    ensures r.Some? ==> 100 <= r.value <= 3570
  {
    match version
    case "20w30a" => Some(2572)
    case _ => None
  }

  /** The entries of `get_old_data_version` whose version starts with `20w2`. */
  function Prefix20w2(version: string): (r: Option<int>)
    ensures r.Some? ==> 100 <= r.value <= 3570
  {
    match version
    case "20w29a" => Some(2571)
    case "20w28a" => Some(2570)
    case "20w27a" => Some(2569)
    case "20w22a" => Some(2555)
    case "20w21a" => Some(2554)
    case "20w20b" => Some(2537)
    case "20w20a" => Some(2536)
    case _ => None
  }

  /** The entries of `get_old_data_version` whose version starts with `20w1`. */
  function Prefix20w1(version: string): (r: Option<int>)
    ensures r.Some? ==> 100 <= r.value <= 3570
  {
    match version
    case "20w19a" => Some(2534)
    case "20w18a" => Some(2532)
    case "20w17a" => Some(2529)
    case "20w16a" => Some(2526)
    case "20w15a" => Some(2525)
    case "20w14a" => Some(2524)
    case "20w13b" => Some(2521)
    case "20w13a" => Some(2520)
    case "20w12a" => Some(2515)
    case "20w11a" => Some(2513)
    case "20w10a" => Some(2512)
    case _ => None
  }

  /** The entries of `get_old_data_version` whose version starts with `20w0`. */
  function Prefix20w0(version: string): (r: Option<int>)
    ensures r.Some? ==> 100 <= r.value <= 3570
  {
    match version
    case "20w09a" => Some(2510)
    case "20w08a" => Some(2507)
    case "20w07a" => Some(2506)
    case _ => None
  }

  /** The entries of `get_old_data_version` whose version starts with `Snap`. */
  function PrefixSnap(version: string): (r: Option<int>)
    ensures r.Some? ==> 100 <= r.value <= 3570
  {
    match version
    case "Snapshot 20w06a" => Some(2504)
    case _ => None
  }

  /** The entries of `get_old_data_version` whose version starts with `1.15`. */
  function Prefix1_15(version: string): (r: Option<int>)
    ensures r.Some? ==> 100 <= r.value <= 3570
  {
    match version
    case "1.15.2" => Some(2230)
    case "1.15.2 Pre-release 2" => Some(2229)
    case "1.15.2 Pre-Release 1" => Some(2228)
    case "1.15.1" => Some(2227)
    case "1.15.1 Pre-release 1" => Some(2226)
    case "1.15" => Some(2225)
    case "1.15 Pre-release 7" => Some(2224)
    case "1.15 Pre-release 6" => Some(2223)
    case "1.15 Pre-release 5" => Some(2222)
    case "1.15 Pre-release 4" => Some(2221)
    case "1.15 Pre-release 3" => Some(2220)
    case "1.15 Pre-Release 2" => Some(2219)
    case "1.15 Pre-release 1" => Some(2218)
    case _ => None
  }

  /** The entries of `get_old_data_version` whose version starts with `19w4`. */
  function Prefix19w4(version: string): (r: Option<int>)
    ensures r.Some? ==> 100 <= r.value <= 3570
  {
    match version
    case "19w46b" => Some(2217)
    case "19w46a" => Some(2216)
    case "19w45b" => Some(2215)
    case "19w45a" => Some(2214)
    case "19w44a" => Some(2213)
    case "19w42a" => Some(2212)
    case "19w41a" => Some(2210)
    case "19w40a" => Some(2208)
    case _ => None
  }

  /** The entries of `get_old_data_version` whose version starts with `19w3`. */
  function Prefix19w3(version: string): (r: Option<int>)
    ensures r.Some? ==> 100 <= r.value <= 3570
  {
    match version
    case "19w39a" => Some(2207)
    case "19w38b" => Some(2206)
    case "19w38a" => Some(2205)
    case "19w37a" => Some(2204)
    case "19w36a" => Some(2203)
    case "19w35a" => Some(2201)
    case "19w34a" => Some(2200)
    case _ => None
  }

  /** The entries of `get_old_data_version` whose version starts with `1.14`. */
  function Prefix1_14(version: string): (r: Option<int>)
    ensures r.Some? ==> 100 <= r.value <= 3570
  {
    match version
    case "1.14.3 - Combat Test" => Some(2067)
    case "1.14.4" => Some(1976)
    case "1.14.4 Pre-Release 7" => Some(1975)
    case "1.14.4 Pre-Release 6" => Some(1974)
    case "1.14.4 Pre-Release 5" => Some(1973)
    case "1.14.4 Pre-Release 4" => Some(1972)
    case "1.14.4 Pre-Release 3" => Some(1971)
    case "1.14.4 Pre-Release 2" => Some(1970)
    case "1.14.4 Pre-Release 1" => Some(1969)
    case "1.14.3" => Some(1968)
    case "1.14.3 Pre-Release 4" => Some(1967)
    case "1.14.3 Pre-Release 3" => Some(1966)
    case "1.14.3 Pre-Release 2" => Some(1965)
    case "1.14.3 Pre-Release 1" => Some(1964)
    case "1.14.2" => Some(1963)
    case "1.14.2 Pre-Release 4" => Some(1962)
    case "1.14.2 Pre-Release 3" => Some(1960)
    case "1.14.2 Pre-Release 2" => Some(1959)
    case "1.14.2 Pre-Release 1" => Some(1958)
    case "1.14.1" => Some(1957)
    case "1.14.1 Pre-Release 2" => Some(1956)
    case "1.14.1 Pre-Release 1" => Some(1955)
    case "1.14" => Some(1952)
    case "1.14 Pre-Release 5" => Some(1951)
    case "1.14 Pre-Release 4" => Some(1950)
    case "1.14 Pre-Release 3" => Some(1949)
    case "1.14 Pre-Release 2" => Some(1948)
    case "1.14 Pre-Release 1" => Some(1947)
    case _ => None
  }

  /** The entries of `get_old_data_version` whose version starts with `19w1`. */
  function Prefix19w1(version: string): (r: Option<int>)
    ensures r.Some? ==> 100 <= r.value <= 3570
  {
    match version
    case "19w14b" => Some(1945)
    case "19w14a" => Some(1944)
    case "19w13b" => Some(1943)
    case "19w13a" => Some(1942)
    case "19w12b" => Some(1941)
    case "19w12a" => Some(1940)
    case "19w11b" => Some(1938)
    case "19w11a" => Some(1937)
    case _ => None
  }

  /** The entries of `get_old_data_version` whose version starts with `19w0`. */
  function Prefix19w0(version: string): (r: Option<int>)
    ensures r.Some? ==> 100 <= r.value <= 3570
  {
    match version
    case "19w09a" => Some(1935)
    case "19w08b" => Some(1934)
    case "19w08a" => Some(1933)
    case "19w07a" => Some(1932)
    case "19w06a" => Some(1931)
    case "19w05a" => Some(1930)
    case "19w04b" => Some(1927)
    case "19w04a" => Some(1926)
    case "19w03c" => Some(1924)
    case "19w03b" => Some(1923)
    case "19w03a" => Some(1922)
    case "19w02a" => Some(1921)
    case _ => None
  }

  /** The entries of `get_old_data_version` whose version starts with `18w5`. */
  function Prefix18w5(version: string): (r: Option<int>)
    ensures r.Some? ==> 100 <= r.value <= 3570
  {
    match version
    case "18w50a" => Some(1919)
    case _ => None
  }

  /** The entries of `get_old_data_version` whose version starts with `18w4`. */
  function Prefix18w4(version: string): (r: Option<int>)
    ensures r.Some? ==> 100 <= r.value <= 3570
  {
    match version
    case "18w49a" => Some(1916)
    case "18w48b" => Some(1915)
    case "18w48a" => Some(1914)
    case "18w47b" => Some(1913)
    case "18w47a" => Some(1912)
    case "18w46a" => Some(1910)
    case "18w45a" => Some(1908)
    case "18w44a" => Some(1907)
    case "18w43c" => Some(1903)
    case "18w43b" => Some(1902)
    case "18w43a" => Some(1901)
    case _ => None
  }

  /** The entries of `get_old_data_version` whose version starts with `1.13`. */
  function Prefix1_13(version: string): (r: Option<int>)
    ensures r.Some? ==> 100 <= r.value <= 3570
  {
    match version
    case "1.13.2" => Some(1631)
    case "1.13.2-pre2" => Some(1630)
    case "1.13.2-pre1" => Some(1629)
    case "1.13.1" => Some(1628)
    case "1.13.1-pre2" => Some(1627)
    case "1.13.1-pre1" => Some(1626)
    case "1.13" => Some(1519)
    case "1.13-pre10" => Some(1518)
    case "1.13-pre9" => Some(1517)
    case "1.13-pre8" => Some(1516)
    case "1.13-pre7" => Some(1513)
    case "1.13-pre6" => Some(1512)
    case "1.13-pre5" => Some(1511)
    case "1.13-pre4" => Some(1504)
    case "1.13-pre3" => Some(1503)
    case "1.13-pre2" => Some(1502)
    case "1.13-pre1" => Some(1501)
    case _ => None
  }

  /** The entries of `get_old_data_version` whose version starts with `18w3`. */
  function Prefix18w3(version: string): (r: Option<int>)
    ensures r.Some? ==> 100 <= r.value <= 3570
  {
    match version
    case "18w33a" => Some(1625)
    case "18w32a" => Some(1623)
    case "18w31a" => Some(1622)
    case "18w30b" => Some(1621)
    case "18w30a" => Some(1620)
    case _ => None
  }

  /** The entries of `get_old_data_version` whose version starts with `18w2`. */
  function Prefix18w2(version: string): (r: Option<int>)
    ensures r.Some? ==> 100 <= r.value <= 3570
  {
    match version
    case "18w22c" => Some(1499)
    case "18w22b" => Some(1498)
    case "18w22a" => Some(1497)
    case "18w21b" => Some(1496)
    case "18w21a" => Some(1495)
    case "18w20c" => Some(1493)
    case "18w20b" => Some(1491)
    case "18w20a" => Some(1489)
    case _ => None
  }

  /** The entries of `get_old_data_version` whose version starts with `18w1`. */
  function Prefix18w1(version: string): (r: Option<int>)
    ensures r.Some? ==> 100 <= r.value <= 3570
  {
    match version
    case "18w19b" => Some(1485)
    case "18w19a" => Some(1484)
    case "18w16a" => Some(1483)
    case "18w15a" => Some(1482)
    case "18w14b" => Some(1481)
    case "18w14a" => Some(1479)
    case "18w11a" => Some(1478)
    case "18w10d" => Some(1477)
    case "18w10c" => Some(1476)
    case "18w10b" => Some(1474)
    case "18w10a" => Some(1473)
    case _ => None
  }

  /** The entries of `get_old_data_version` whose version starts with `18w0`. */
  function Prefix18w0(version: string): (r: Option<int>)
    ensures r.Some? ==> 100 <= r.value <= 3570
  {
    match version
    case "18w09a" => Some(1472)
    case "18w08b" => Some(1471)
    case "18w08a" => Some(1470)
    case "18w07c" => Some(1469)
    case "18w07b" => Some(1468)
    case "18w07a" => Some(1467)
    case "18w06a" => Some(1466)
    case "18w05a" => Some(1464)
    case "18w03b" => Some(1463)
    case "18w03a" => Some(1462)
    case "18w02a" => Some(1461)
    case "18w01a" => Some(1459)
    case _ => None
  }

  /** The entries of `get_old_data_version` whose version starts with `17w5`. */
  function Prefix17w5(version: string): (r: Option<int>)
    ensures r.Some? ==> 100 <= r.value <= 3570
  {
    match version
    case "17w50a" => Some(1457)
    case _ => None
  }

  /** The entries of `get_old_data_version` whose version starts with `17w4`. */
  function Prefix17w4(version: string): (r: Option<int>)
    ensures r.Some? ==> 100 <= r.value <= 3570
  {
    match version
    case "17w49b" => Some(1455)
    case "17w49a" => Some(1454)
    case "17w48a" => Some(1453)
    case "17w47b" => Some(1452)
    case "17w47a" => Some(1451)
    case "17w46a" => Some(1449)
    case "17w45b" => Some(1448)
    case "17w45a" => Some(1447)
    case "17w43b" => Some(1445)
    case "17w43a" => Some(1444)
    case _ => None
  }

  /** The entries of `get_old_data_version` whose version starts with `1.12`. */
  function Prefix1_12(version: string): (r: Option<int>)
    ensures r.Some? ==> 100 <= r.value <= 3570
  {
    match version
    case "1.12.2" => Some(1343)
    case "1.12.2-pre2" => Some(1342)
    case "1.12.2-pre1" => Some(1341)
    case "1.12.1" => Some(1241)
    case "1.12.1-pre1" => Some(1240)
    case "1.12" => Some(1139)
    case "1.12-pre7" => Some(1138)
    case "1.12-pre6" => Some(1137)
    case "1.12-pre5" => Some(1136)
    case "1.12-pre4" => Some(1135)
    case "1.12-pre3" => Some(1134)
    case "1.12-pre2" => Some(1133)
    case "1.12-pre1" => Some(1132)
    case _ => None
  }

  /** The entries of `get_old_data_version` whose version starts with `17w3`. */
  function Prefix17w3(version: string): (r: Option<int>)
    ensures r.Some? ==> 100 <= r.value <= 3570
  {
    match version
    case "17w31a" => Some(1239)
    case _ => None
  }

  /** The entries of `get_old_data_version` whose version starts with `17w1`. */
  function Prefix17w1(version: string): (r: Option<int>)
    ensures r.Some? ==> 100 <= r.value <= 3570
  {
    match version
    case "17w18b" => Some(1131)
    case "17w18a" => Some(1130)
    case "17w17b" => Some(1129)
    case "17w17a" => Some(1128)
    case "17w16b" => Some(1127)
    case "17w16a" => Some(1126)
    case "17w15a" => Some(1125)
    case "17w14a" => Some(1124)
    case "17w13b" => Some(1123)
    case "17w13a" => Some(1122)
    case _ => None
  }

  /** The entries of `get_old_data_version` whose version starts with `17w0`. */
  function Prefix17w0(version: string): (r: Option<int>)
    ensures r.Some? ==> 100 <= r.value <= 3570
  {
    match version
    case "17w06a" => Some(1022)
    case _ => None
  }

  /** The entries of `get_old_data_version` whose version starts with `1.11`. */
  function Prefix1_11(version: string): (r: Option<int>)
    ensures r.Some? ==> 100 <= r.value <= 3570
  {
    match version
    case "1.11.2" => Some(922)
    case "1.11.1" => Some(921)
    case "1.11" => Some(819)
    case "1.11-pre1" => Some(818)
    case _ => None
  }

  /** The entries of `get_old_data_version` whose version starts with `16w5`. */
  function Prefix16w5(version: string): (r: Option<int>)
    ensures r.Some? ==> 100 <= r.value <= 3570
  {
    match version
    case "16w50a" => Some(920)
    case _ => None
  }

  /** The entries of `get_old_data_version` whose version starts with `16w4`. */
  function Prefix16w4(version: string): (r: Option<int>)
    ensures r.Some? ==> 100 <= r.value <= 3570
  {
    match version
    case "16w44a" => Some(817)
    case "16w43a" => Some(816)
    case "16w42a" => Some(815)
    case "16w41a" => Some(814)
    case "16w40a" => Some(813)
    case _ => None
  }

  /** The entries of `get_old_data_version` whose version starts with `16w3`. */
  function Prefix16w3(version: string): (r: Option<int>)
    ensures r.Some? ==> 100 <= r.value <= 3570
  {
    match version
    case "16w39c" => Some(812)
    case "16w39b" => Some(811)
    case "16w39a" => Some(809)
    case "16w38a" => Some(807)
    case "16w36a" => Some(805)
    case "16w35a" => Some(803)
    case "16w33a" => Some(802)
    case "16w32b" => Some(801)
    case "16w32a" => Some(800)
    case _ => None
  }

  /** The entries of `get_old_data_version` whose version starts with `1.10`. */
  function Prefix1_10(version: string): (r: Option<int>)
    ensures r.Some? ==> 100 <= r.value <= 3570
  {
    match version
    case "1.10.2" => Some(512)
    case "1.10.1" => Some(511)
    case "1.10" => Some(510)
    case "1.10-pre2" => Some(507)
    case "1.10-pre1" => Some(506)
    case _ => None
  }

  /** The entries of `get_old_data_version` whose version starts with `16w2`. */
  function Prefix16w2(version: string): (r: Option<int>)
    ensures r.Some? ==> 100 <= r.value <= 3570
  {
    match version
    case "16w21b" => Some(504)
    case "16w21a" => Some(503)
    case "16w20a" => Some(501)
    case _ => None
  }

  /** The entries of `get_old_data_version` whose version starts with `1.9.`. */
  function Prefix1_9_(version: string): (r: Option<int>)
    ensures r.Some? ==> 100 <= r.value <= 3570
  {
    match version
    case "1.9.4" => Some(184)
    case "1.9.3" => Some(183)
    case "1.9.3-pre3" => Some(182)
    case "1.9.3-pre2" => Some(181)
    case "1.9.3-pre1" => Some(180)
    case "1.9.2" => Some(176)
    case "1.9.1" => Some(175)
    case "1.9.1-pre3" => Some(172)
    case "1.9.1-pre2" => Some(171)
    case "1.9.1-pre1" => Some(170)
    case _ => None
  }

  /** The entries of `get_old_data_version` whose version starts with `16w1`. */
  function Prefix16w1(version: string): (r: Option<int>)
    ensures r.Some? ==> 100 <= r.value <= 3570
  {
    match version
    case "16w15b" => Some(179)
    case "16w15a" => Some(178)
    case "16w14a" => Some(177)
    case _ => None
  }

  /** The entries of `get_old_data_version` whose version starts with `1.9`. */
  function Prefix1_9(version: string): (r: Option<int>)
    ensures r.Some? ==> 100 <= r.value <= 3570
  {
    match version
    case "1.9" => Some(169)
    case _ => None
  }

  /** The entries of `get_old_data_version` whose version starts with `1.9-`. */
  function Prefix1_9m(version: string): (r: Option<int>)
    ensures r.Some? ==> 100 <= r.value <= 3570
  {
    match version
    case "1.9-pre4" => Some(168)
    case "1.9-pre3" => Some(167)
    case "1.9-pre2" => Some(165)
    case "1.9-pre1" => Some(164)
    case _ => None
  }

  /** The entries of `get_old_data_version` whose version starts with `16w0`. */
  function Prefix16w0(version: string): (r: Option<int>)
    ensures r.Some? ==> 100 <= r.value <= 3570
  {
    match version
    case "16w07b" => Some(163)
    case "16w07a" => Some(162)
    case "16w06a" => Some(161)
    case "16w05b" => Some(160)
    case "16w05a" => Some(159)
    case "16w04a" => Some(158)
    case "16w03a" => Some(157)
    case "16w02a" => Some(156)
    case _ => None
  }

  /** The entries of `get_old_data_version` whose version starts with `15w5`. */
  function Prefix15w5(version: string): (r: Option<int>)
    ensures r.Some? ==> 100 <= r.value <= 3570
  {
    match version
    case "15w51b" => Some(155)
    case "15w51a" => Some(154)
    case "15w50a" => Some(153)
    case _ => None
  }

  /** The entries of `get_old_data_version` whose version starts with `15w4`. */
  function Prefix15w4(version: string): (r: Option<int>)
    ensures r.Some? ==> 100 <= r.value <= 3570
  {
    match version
    case "15w49b" => Some(152)
    case "15w49a" => Some(151)
    case "15w47c" => Some(150)
    case "15w47b" => Some(149)
    case "15w47a" => Some(148)
    case "15w46a" => Some(146)
    case "15w45a" => Some(145)
    case "15w44b" => Some(143)
    case "15w44a" => Some(142)
    case "15w43c" => Some(141)
    case "15w43b" => Some(140)
    case "15w43a" => Some(139)
    case "15w42a" => Some(138)
    case "15w41b" => Some(137)
    case "15w41a" => Some(136)
    case "15w40b" => Some(134)
    case "15w40a" => Some(133)
    case _ => None
  }

  /** The entries of `get_old_data_version` whose version starts with `15w3`. */
  function Prefix15w3(version: string): (r: Option<int>)
    ensures r.Some? ==> 100 <= r.value <= 3570
  {
    match version
    case "15w39c" => Some(132)
    case "15w39b" => Some(131)
    case "15w39a" => Some(130)
    case "15w38b" => Some(129)
    case "15w38a" => Some(128)
    case "15w37a" => Some(127)
    case "15w36d" => Some(126)
    case "15w36c" => Some(125)
    case "15w36b" => Some(124)
    case "15w36a" => Some(123)
    case "15w35e" => Some(122)
    case "15w35d" => Some(121)
    case "15w35c" => Some(120)
    case "15w35b" => Some(119)
    case "15w35a" => Some(118)
    case "15w34d" => Some(117)
    case "15w34c" => Some(116)
    case "15w34b" => Some(115)
    case "15w34a" => Some(114)
    case "15w33c" => Some(112)
    case "15w33b" => Some(111)
    case "15w33a" => Some(111)
    case "15w32c" => Some(104)
    case "15w32b" => Some(103)
    case "15w32a" => Some(100)
    case _ => None
  }
  /** The newest entry of the table and the last release before the data version moved into the jar. */
  lemma OldDataVersionNewest()
    ensures OldDataVersion("23w33a") == Some(3570)
    ensures OldDataVersion("1.19.4") == Some(3337)
  {
    assert Bucket("23w33a") == "23w3";
    assert Bucket("1.19.4") == "1.19";
  }

  /** The snapshot 18w47b and the oldest entry of the table, 15w32a. */
  lemma OldDataVersionOldest()
    ensures OldDataVersion("18w47b") == Some(1913)
    ensures OldDataVersion("15w32a") == Some(100)
  {
    assert Bucket("18w47b") == "18w4";
    assert Bucket("15w32a") == "15w3";
  }

  /** Matching is exact: the spelling of a pre-release name matters. */
  lemma OldDataVersionCaseSensitive()
    ensures OldDataVersion("1.15.2 Pre-Release 1") == Some(2228)
    ensures OldDataVersion("1.15.2 Pre-release 1") == None
  {
    assert Bucket("1.15.2 Pre-Release 1") == "1.15";
    assert Bucket("1.15.2 Pre-release 1") == "1.15";
  }

  /** Versions the table does not list, such as those before 15w32a, have no data version. */
  lemma OldDataVersionUnlisted()
    ensures OldDataVersion("15w31a") == None
    ensures OldDataVersion("") == None
  {
    assert Bucket("15w31a") == "15w3";
    assert Bucket("") == "";
  }

  /** Two snapshots share a data version, so the table cannot be inverted. */
  lemma OldDataVersionNotInjective()
    ensures OldDataVersion("15w33a") == OldDataVersion("15w33b") == Some(111)
  {
    assert Bucket("15w33a") == "15w3";
    assert Bucket("15w33b") == "15w3";
  }
}
