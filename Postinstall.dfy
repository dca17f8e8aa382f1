/**
  The npm installer's choice of release assets: the platform and
  architecture lookup tables, the ordered, de-duplicated list of archive
  names to try and their download URLs, and the package-version fallback.
  The process's platform, architecture, requested version, repository and
  package version are parameters; downloading and unpacking are left out.
*/
module Postinstall {
  import opened Wrappers

  /** `platformMap`: Node's platform name to the release's OS name. */
  function PlatformName(platform: string): Option<string> {
    if platform == "win32" then Some("windows")
    else if platform == "darwin" then Some("darwin")
    else if platform == "linux" then Some("linux")
    else None
  }

  /** `archMap`: Node's (or Go's) architecture name to the release's. */
  function ArchName(arch: string): Option<string> {
    if arch == "x64" || arch == "amd64" then Some("x86_64")
    else if arch == "arm64" then Some("arm64")
    else if arch == "arm" then Some("arm")
    else if arch == "ia32" then Some("i386")
    else None
  }

  predicate ReleasePlatform(plat: string) {
    plat == "windows" || plat == "darwin" || plat == "linux"
  }

  predicate ReleaseArch(arch: string) {
    arch == "x86_64" || arch == "arm64" || arch == "arm" || arch == "i386"
  }

  datatype Target = Target(plat: string, arch: string)

  /** The start-up lookups: the platform is checked first, then the architecture. */
  function DetectTarget(platform: string, arch: string): (r: Result<Target, string>)
    ensures r.Success? ==> ReleasePlatform(r.value.plat) && ReleaseArch(r.value.arch)
    ensures r.Failure? ==> r.error == "Unsupported platform: " + platform || r.error == "Unsupported architecture: " + arch
  {
    var plat := PlatformName(platform);
    if plat.None? then Failure("Unsupported platform: " + platform)
    else
      var a := ArchName(arch);
      if a.None? then Failure("Unsupported architecture: " + arch)
      else Success(Target(plat.value, a.value))
  }

  /** A target is found exactly when both names are in the tables, and then it comes from them. */
  lemma DetectTargetFromTables(platform: string, arch: string)
    ensures DetectTarget(platform, arch).Success? <==> PlatformName(platform).Some? && ArchName(arch).Some?
    ensures DetectTarget(platform, arch).Success? ==>
      var t := DetectTarget(platform, arch).value;
      ReleasePlatform(t.plat) && ReleaseArch(t.arch)
    ensures DetectTarget(platform, arch).Success? ==>
      DetectTarget(platform, arch).value == Target(PlatformName(platform).value, ArchName(arch).value)
    ensures PlatformName(platform).None? ==> DetectTarget(platform, arch) == Failure("Unsupported platform: " + platform)
    ensures PlatformName(platform).Some? && ArchName(arch).None? ==>
      DetectTarget(platform, arch) == Failure("Unsupported architecture: " + arch)
  {
  }

  lemma DetectTargetExamples()
    ensures DetectTarget("win32", "x64") == Success(Target("windows", "x86_64"))
    ensures DetectTarget("linux", "amd64") == Success(Target("linux", "x86_64"))
    ensures DetectTarget("freebsd", "riscv") == Failure("Unsupported platform: freebsd")
    ensures DetectTarget("darwin", "riscv") == Failure("Unsupported architecture: riscv")
    ensures DetectTarget("darwin", "arm64") == Success(Target("darwin", "arm64"))
    ensures DetectTarget("linux", "arm") == Success(Target("linux", "arm"))
    ensures DetectTarget("win32", "ia32") == Success(Target("windows", "i386"))
  {
    assert "Unsupported platform: " + "freebsd" == "Unsupported platform: freebsd";
    assert "Unsupported architecture: " + "riscv" == "Unsupported architecture: riscv";
  }

  /** ASCII upper case, enough for the table's OS names. */
  function Upper(c: char): char {
    if 'a' <= c <= 'z' then (c as int - 32) as char else c
  }

  /** The OS name with its first character upper-cased, as GoReleaser spells it. */
  function TitleCase(s: string): (r: string)
    ensures |r| == |s|
  {
    if s == [] then [] else [Upper(s[0])] + s[1..]
  }

  /** The title-case form of every table OS name is a different name. */
  lemma TitleCaseDiffers(plat: string)
    requires ReleasePlatform(plat)
    ensures TitleCase(plat) != plat
  {
    assert TitleCase(plat)[0] != plat[0];
  }

  /** The five name templates, in the order they are tried. */
  datatype Pattern = UnderscoreTarGz | DashTarGz | UnderscoreTgz | UnderscoreZip | DashZip

  const Patterns: seq<Pattern> := [UnderscoreTarGz, DashTarGz, UnderscoreTgz, UnderscoreZip, DashZip]

  predicate Dashed(p: Pattern) {
    p == DashTarGz || p == DashZip
  }

  function Extension(p: Pattern): string {
    match p
    case UnderscoreTarGz => ".tar.gz"
    case DashTarGz => ".tar.gz"
    case UnderscoreTgz => ".tgz"
    case UnderscoreZip => ".zip"
    case DashZip => ".zip"
  }

  /** What comes before the OS name; only underscore names of a concrete version carry the version. */
  function NamePrefix(p: Pattern, v: string): string {
    if Dashed(p) then "openpilot-"
    else if v == "latest" then "openpilot_"
    else "openpilot_" + v + "_"
  }

  /** What comes after the OS name. */
  function NameSuffix(p: Pattern, arch: string): string {
    (if Dashed(p) then "-" else "_") + arch + Extension(p)
  }

  /** One template applied to one spelling of the OS name. */
  function AssetName(p: Pattern, v: string, osName: string, arch: string): string {
    NamePrefix(p, v) + osName + NameSuffix(p, arch)
  }

  /** The names one template contributes: the lower-case OS name first, then the title-case one if different. */
  function Variants(lower: string, title: string): (r: seq<string>)
    ensures r == (if lower == title then [lower] else [lower, title])
  {
    SetAdd(SetAdd([], lower), title)
  }

  /** Adding to an insertion-ordered set. */
  function SetAdd(s: seq<string>, x: string): seq<string> {
    if x in s then s else s + [x]
  }

  function NamesFrom(pats: seq<Pattern>, v: string, plat: string, arch: string): seq<string> {
    if pats == [] then []
    else PatternNames(pats[0], v, plat, arch) + NamesFrom(pats[1..], v, plat, arch)
  }

  /** The names one template contributes. */
  function PatternNames(p: Pattern, v: string, plat: string, arch: string): seq<string> {
    Variants(AssetName(p, v, plat, arch), AssetName(p, v, TitleCase(plat), arch))
  }

  /** The archive names tried, in order. */
  function Names(v: string, plat: string, arch: string): seq<string> {
    NamesFrom(Patterns, v, plat, arch)
  }

  /** `baseVersionTag`. */
  function BaseVersionTag(v: string): string {
    if v == "latest" then "latest" else "v" + v
  }

  /** The download URL of one archive name. */
  function Url(repo: string, v: string, name: string): (u: string)
    ensures u == "https://github.com/" + repo + "/releases/" + ReleaseDir(v) + "/" + name
  {
    BaseTagLatest(v);
    var tag := BaseVersionTag(v);
    "https://github.com/" + repo + "/releases/" + (if tag == "latest" then "latest/download" else "download/" + tag) + "/" + name
  }

  datatype Candidate = Candidate(url: string, name: string)

  /** `candidateAssets`: every name with its URL, in name order. */
  function Candidates(repo: string, v: string, plat: string, arch: string): (cs: seq<Candidate>)
    ensures |cs| == |Names(v, plat, arch)|
    ensures forall i :: 0 <= i < |cs| ==> cs[i].name == Names(v, plat, arch)[i]
    ensures forall i :: 0 <= i < |cs| ==> cs[i].url == Url(repo, v, cs[i].name)
  {
    WithUrls(repo, v, Names(v, plat, arch))
  }

  /** The `.map` that pairs every name with its URL. */
  function WithUrls(repo: string, v: string, ns: seq<string>): (cs: seq<Candidate>)
    ensures |cs| == |ns|
    ensures forall i :: 0 <= i < |cs| ==> cs[i] == Candidate(Url(repo, v, ns[i]), ns[i])
  {
    seq(|ns|, i requires 0 <= i < |ns| => Candidate(Url(repo, v, ns[i]), ns[i]))
  }

  /** `pushPattern`: collects both spellings in a set, then appends the set's members in insertion order. */
  method PushPattern(names: seq<string>, p: Pattern, v: string, plat: string, arch: string) returns (r: seq<string>)
    ensures r == names + PatternNames(p, v, plat, arch)
  {
    var variants: seq<string> := [];
    variants := SetAdd(variants, AssetName(p, v, plat, arch));
    variants := SetAdd(variants, AssetName(p, v, TitleCase(plat), arch));
    r := names;
    for i := 0 to |variants|
      invariant r == names + variants[..i]
    {
      r := r + [variants[i]];
      assert variants[..i + 1] == variants[..i] + [variants[i]];
    }
    assert variants[..|variants|] == variants;
  }

  /** `candidateAssets`, pattern by pattern. */
  method CandidateAssets(repo: string, v: string, plat: string, arch: string) returns (cs: seq<Candidate>)
    ensures cs == Candidates(repo, v, plat, arch)
  {
    var names: seq<string> := [];
    names := PushPattern(names, UnderscoreTarGz, v, plat, arch);
    names := PushPattern(names, DashTarGz, v, plat, arch);
    names := PushPattern(names, UnderscoreTgz, v, plat, arch);
    names := PushPattern(names, UnderscoreZip, v, plat, arch);
    names := PushPattern(names, DashZip, v, plat, arch);
    NamesUnfold(v, plat, arch);
    Regroup(PatternNames(UnderscoreTarGz, v, plat, arch), PatternNames(DashTarGz, v, plat, arch),
      PatternNames(UnderscoreTgz, v, plat, arch), PatternNames(UnderscoreZip, v, plat, arch),
      PatternNames(DashZip, v, plat, arch));
    cs := WithUrls(repo, v, names);
  }

  /** Appending five groups one after the other is concatenating them. */
  lemma Regroup(a: seq<string>, b: seq<string>, c: seq<string>, d: seq<string>, e: seq<string>)
    ensures [] + a + b + c + d + e == a + (b + (c + (d + e)))
  {
  }

  lemma NamesFromCons(p: Pattern, ps: seq<Pattern>, v: string, plat: string, arch: string)
    ensures NamesFrom([p] + ps, v, plat, arch) == PatternNames(p, v, plat, arch) + NamesFrom(ps, v, plat, arch)
  {
    assert ([p] + ps)[1..] == ps;
  }

  /** The last three templates' names. */
  lemma NamesLastThree(v: string, plat: string, arch: string)
    ensures NamesFrom([UnderscoreTgz, UnderscoreZip, DashZip], v, plat, arch) ==
      PatternNames(UnderscoreTgz, v, plat, arch)
      + (PatternNames(UnderscoreZip, v, plat, arch) + PatternNames(DashZip, v, plat, arch))
  {
    NamesFromCons(DashZip, [], v, plat, arch);
    assert [DashZip] + [] == [DashZip];
    NamesFromCons(UnderscoreZip, [DashZip], v, plat, arch);
    NamesFromCons(UnderscoreTgz, [UnderscoreZip, DashZip], v, plat, arch);
  }

  /** The last four templates' names. */
  lemma NamesLastFour(v: string, plat: string, arch: string)
    ensures NamesFrom([DashTarGz, UnderscoreTgz, UnderscoreZip, DashZip], v, plat, arch) ==
      PatternNames(DashTarGz, v, plat, arch) + (PatternNames(UnderscoreTgz, v, plat, arch)
      + (PatternNames(UnderscoreZip, v, plat, arch) + PatternNames(DashZip, v, plat, arch)))
  {
    NamesLastThree(v, plat, arch);
    NamesFromCons(DashTarGz, [UnderscoreTgz, UnderscoreZip, DashZip], v, plat, arch);
    assert [DashTarGz] + [UnderscoreTgz, UnderscoreZip, DashZip] == [DashTarGz, UnderscoreTgz, UnderscoreZip, DashZip];
  }

  /** The names, template by template. */
  lemma NamesUnfold(v: string, plat: string, arch: string)
    ensures Names(v, plat, arch) ==
      PatternNames(UnderscoreTarGz, v, plat, arch) + (PatternNames(DashTarGz, v, plat, arch)
      + (PatternNames(UnderscoreTgz, v, plat, arch) + (PatternNames(UnderscoreZip, v, plat, arch)
      + PatternNames(DashZip, v, plat, arch))))
  {
    NamesLastFour(v, plat, arch);
    NamesFromCons(UnderscoreTarGz, [DashTarGz, UnderscoreTgz, UnderscoreZip, DashZip], v, plat, arch);
    assert [UnderscoreTarGz] + [DashTarGz, UnderscoreTgz, UnderscoreZip, DashZip] == Patterns;
  }

  /** Two strings that differ only in a middle part of equal length differ. */
  lemma MiddleDiffers(pre: string, a: string, b: string, post: string)
    requires |a| == |b| && a != b
    ensures pre + a + post != pre + b + post
  {
    var x, y := pre + a + post, pre + b + post;
    assert x[|pre|..|pre| + |a|] == a;
    assert y[|pre|..|pre| + |b|] == b;
  }

  /** The lower-case and the title-case spelling give two different names. */
  lemma TwoSpellings(p: Pattern, v: string, plat: string, arch: string)
    requires ReleasePlatform(plat)
    ensures AssetName(p, v, plat, arch) != AssetName(p, v, TitleCase(plat), arch)
    ensures PatternNames(p, v, plat, arch) == [AssetName(p, v, plat, arch), AssetName(p, v, TitleCase(plat), arch)]
  {
    TitleCaseDiffers(plat);
    MiddleDiffers(NamePrefix(p, v), plat, TitleCase(plat), NameSuffix(p, arch));
  }

  /** Name `k` of the ten: template `k / 2` on the lower-case OS name for even `k`, the title-case one for odd `k`. */
  function Expected(k: nat, v: string, plat: string, arch: string): string
    requires k < 10
  {
    AssetName(Patterns[k / 2], v, if k % 2 == 0 then plat else TitleCase(plat), arch)
  }

  /**
    For an OS name from the table, every template yields two names, ten in
    all: name `k` is template `k / 2` applied to the lower-case OS name when
    `k` is even and to the title-case one when `k` is odd.
  */
  lemma TenNames(v: string, plat: string, arch: string)
    requires ReleasePlatform(plat)
    ensures |Names(v, plat, arch)| == 10
    ensures forall k :: 0 <= k < 10 ==> Names(v, plat, arch)[k] == Expected(k, v, plat, arch)
  {
    TwoSpellings(UnderscoreTarGz, v, plat, arch);
    TwoSpellings(DashTarGz, v, plat, arch);
    TwoSpellings(UnderscoreTgz, v, plat, arch);
    TwoSpellings(UnderscoreZip, v, plat, arch);
    TwoSpellings(DashZip, v, plat, arch);
    NamesUnfold(v, plat, arch);
    var title := TitleCase(plat);
    Flatten(AssetName(UnderscoreTarGz, v, plat, arch), AssetName(UnderscoreTarGz, v, title, arch),
      AssetName(DashTarGz, v, plat, arch), AssetName(DashTarGz, v, title, arch),
      AssetName(UnderscoreTgz, v, plat, arch), AssetName(UnderscoreTgz, v, title, arch),
      AssetName(UnderscoreZip, v, plat, arch), AssetName(UnderscoreZip, v, title, arch),
      AssetName(DashZip, v, plat, arch), AssetName(DashZip, v, title, arch));
    var ns := Names(v, plat, arch);
    forall k | 0 <= k < 10 ensures ns[k] == Expected(k, v, plat, arch) {
      ExpectedAt(k, v, plat, arch);
    }
  }

  /** Five pairs, one after the other. */
  lemma Flatten(a0: string, b0: string, a1: string, b1: string, a2: string, b2: string,
                a3: string, b3: string, a4: string, b4: string)
    ensures [a0, b0] + ([a1, b1] + ([a2, b2] + ([a3, b3] + [a4, b4]))) == [a0, b0, a1, b1, a2, b2, a3, b3, a4, b4]
  {
  }

  /** `Expected` spelled out for the ten positions. */
  lemma ExpectedAt(k: nat, v: string, plat: string, arch: string)
    requires k < 10
    ensures Expected(k, v, plat, arch) ==
      [AssetName(UnderscoreTarGz, v, plat, arch), AssetName(UnderscoreTarGz, v, TitleCase(plat), arch),
       AssetName(DashTarGz, v, plat, arch), AssetName(DashTarGz, v, TitleCase(plat), arch),
       AssetName(UnderscoreTgz, v, plat, arch), AssetName(UnderscoreTgz, v, TitleCase(plat), arch),
       AssetName(UnderscoreZip, v, plat, arch), AssetName(UnderscoreZip, v, TitleCase(plat), arch),
       AssetName(DashZip, v, plat, arch), AssetName(DashZip, v, TitleCase(plat), arch)][k]
  {
  }

  /** The first `k` characters of `x + y`, when `x` has at least that many. */
  lemma CharOfPrefix(x: string, y: string, i: nat)
    requires i < |x|
    ensures (x + y)[i] == x[i]
  {
  }

  /** The last `k` characters of `x + y`, when `y` has at least that many. */
  lemma TailOfSuffix(x: string, y: string, k: nat)
    requires k <= |y|
    ensures (x + y)[|x + y| - k..] == y[|y| - k..]
  {
  }

  /** The separator after `openpilot` and the last four characters tell the templates apart. */
  function Signature(name: string): (char, string)
    requires |name| >= 10
  {
    (name[9], name[|name| - 4..])
  }

  function Ending(p: Pattern): string {
    if p == UnderscoreTarGz || p == DashTarGz then "r.gz" else Extension(p)
  }

  lemma SignatureOfName(p: Pattern, v: string, osName: string, arch: string)
    ensures |AssetName(p, v, osName, arch)| >= 10
    ensures Signature(AssetName(p, v, osName, arch)) == (if Dashed(p) then '-' else '_', Ending(p))
  {
    SeparatorOfName(p, v, osName, arch);
    EndingOfName(p, v, osName, arch);
  }

  lemma SeparatorOfName(p: Pattern, v: string, osName: string, arch: string)
    ensures |AssetName(p, v, osName, arch)| >= 10
    ensures AssetName(p, v, osName, arch)[9] == if Dashed(p) then '-' else '_'
  {
    var pre := NamePrefix(p, v);
    assert |pre| >= 10 && pre[9] == if Dashed(p) then '-' else '_';
    assert AssetName(p, v, osName, arch) == pre + (osName + NameSuffix(p, arch));
    CharOfPrefix(pre, osName + NameSuffix(p, arch), 9);
  }

  lemma EndingOfName(p: Pattern, v: string, osName: string, arch: string)
    ensures |AssetName(p, v, osName, arch)| >= 4
    ensures var n := AssetName(p, v, osName, arch); n[|n| - 4..] == Ending(p)
  {
    var suf := NameSuffix(p, arch);
    EndingOfSuffix(p, arch);
    TailOfSuffix(NamePrefix(p, v) + osName, suf, 4);
  }

  lemma EndingOfSuffix(p: Pattern, arch: string)
    ensures var suf := NameSuffix(p, arch); |suf| >= 4 && suf[|suf| - 4..] == Ending(p)
  {
    var sep := if Dashed(p) then "-" else "_";
    ExtensionEnding(p);
    assert NameSuffix(p, arch) == (sep + arch) + Extension(p);
    TailOfSuffix(sep + arch, Extension(p), 4);
  }

  lemma ExtensionEnding(p: Pattern)
    ensures |Extension(p)| >= 4 && Extension(p)[|Extension(p)| - 4..] == Ending(p)
  {
  }

  /** Different templates end differently or separate differently. */
  lemma SignaturesDiffer(p: Pattern, q: Pattern)
    requires p != q
    ensures (if Dashed(p) then '-' else '_', Ending(p)) != (if Dashed(q) then '-' else '_', Ending(q))
  {
  }

  /** The ten expected names are pairwise different. */
  lemma ExpectedDistinct(k: nat, l: nat, v: string, plat: string, arch: string)
    requires ReleasePlatform(plat) && k < l < 10
    ensures Expected(k, v, plat, arch) != Expected(l, v, plat, arch)
  {
    var pk, pl := Patterns[k / 2], Patterns[l / 2];
    var ok := if k % 2 == 0 then plat else TitleCase(plat);
    var ol := if l % 2 == 0 then plat else TitleCase(plat);
    if k / 2 == l / 2 {
      assert ok == plat && ol == TitleCase(plat);
      TwoSpellings(pk, v, plat, arch);
    } else {
      assert pk != pl;
      SignatureOfName(pk, v, ok, arch);
      SignatureOfName(pl, v, ol, arch);
      SignaturesDiffer(pk, pl);
    }
  }

  /** No name is tried twice. */
  lemma NamesDistinct(v: string, plat: string, arch: string)
    requires ReleasePlatform(plat)
    ensures forall k, l :: 0 <= k < l < |Names(v, plat, arch)| ==> Names(v, plat, arch)[k] != Names(v, plat, arch)[l]
  {
    TenNames(v, plat, arch);
    forall k, l | 0 <= k < l < 10
      ensures Names(v, plat, arch)[k] != Names(v, plat, arch)[l]
    {
      ExpectedDistinct(k, l, v, plat, arch);
    }
  }

  /**
    Where the version appears: underscore names of a concrete version carry
    it right after `openpilot_`; "latest" underscore names and all dash
    names do not depend on it.
  */
  lemma VersionPlacement(p: Pattern, v: string, w: string, osName: string, arch: string)
    ensures Dashed(p) ==> AssetName(p, v, osName, arch) == AssetName(p, w, osName, arch)
    ensures !Dashed(p) && v == "latest" ==> AssetName(p, v, osName, arch) == "openpilot_" + osName + NameSuffix(p, arch)
    ensures !Dashed(p) && v != "latest" ==> AssetName(p, v, osName, arch)[10..10 + |v|] == v
  {
    if !Dashed(p) && v != "latest" {
      var n := AssetName(p, v, osName, arch);
      assert n == "openpilot_" + v + ("_" + osName + NameSuffix(p, arch));
    }
  }

  /** The URL's tag is "latest" exactly when "latest" was asked for. */
  lemma BaseTagLatest(v: string)
    ensures BaseVersionTag(v) == "latest" <==> v == "latest"
  {
    if v != "latest" {
      assert BaseVersionTag(v)[0] == 'v';
    }
  }

  /** The release directory a version's assets are downloaded from. */
  function ReleaseDir(v: string): string {
    if v == "latest" then "latest/download" else "download/v" + v
  }

  /** Every URL is the release download directory for the version followed by "/" and the name. */
  lemma UrlShape(repo: string, v: string, name: string)
    ensures Url(repo, v, name) == "https://github.com/" + repo + "/releases/" + ReleaseDir(v) + "/" + name
    ensures var u := Url(repo, v, name);
      |u| > |name| && u[|u| - |name| - 1..] == "/" + name
  {
    EndsWithName("https://github.com/" + repo + "/releases/" + ReleaseDir(v), name);
  }

  lemma EndsWithName(front: string, name: string)
    ensures var u := front + "/" + name;
      |u| > |name| && u[|u| - |name| - 1..] == "/" + name
  {
    assert front + "/" + name == front + ("/" + name);
    TailOfSuffix(front, "/" + name, |name| + 1);
  }

  /** The package-version fallback's leading "v" removal: exactly one when there is one. */
  function StripV(s: string): (r: string)
    ensures |s| > 0 && s[0] == 'v' ==> s == "v" + r
    ensures (|s| == 0 || s[0] != 'v') ==> r == s
  {
    if |s| > 0 && s[0] == 'v' then s[1..] else s
  }

  /**
    The fallback's pattern is anchored and not global: one leading "v" goes,
    a second one stays, and a version without one is kept as it is.
  */
  lemma StripVOnce()
    ensures StripV("v1.2.3") == "1.2.3" && StripV("vv1") == "v1" && StripV("1.2.3") == "1.2.3"
  {
  }

  /** The version tried after every "latest" name failed: the package version without its "v", when not empty. */
  function RetryVersion(requested: string, packageVersion: string): (r: Option<string>)
    ensures r.Some? ==> requested == "latest" && r.value != ""
    ensures r.Some? ==> r.value == StripV(packageVersion)
  {
    if requested == "latest" && StripV(packageVersion) != "" then Some(StripV(packageVersion)) else None
  }

  lemma RetryOnlyAfterLatest(requested: string, packageVersion: string)
    ensures RetryVersion(requested, packageVersion).Some? <==> requested == "latest" && packageVersion != "" && packageVersion != "v"
    ensures RetryVersion(requested, packageVersion).Some? && packageVersion[0] == 'v' ==>
      packageVersion == "v" + RetryVersion(requested, packageVersion).value
    ensures RetryVersion(requested, packageVersion).Some? && packageVersion[0] != 'v' ==>
      packageVersion == RetryVersion(requested, packageVersion).value
  {
  }
}
