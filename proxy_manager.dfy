/** The launcher's proxy installer: it copies a proxy DLL into a game
    directory (backing up the DLL it replaces), writes `pick66_config.txt`,
    reads that file back, reports the installation status, and uninstalls.

    A directory is its existence flag and a map from file name to contents;
    the source DLLs are a map from DLL name to contents. Whether a file is
    one of this project's proxy DLLs (read from its version resource) is the
    parameter `ours`; the current time written into the config file is the
    parameter `installDate`. */
module ProxyManager {
  import opened Wrappers
  import opened Text
  import ProxyCommon

  const PROXY_DXGI_DLL: string := "dxgi.dll"
  const PROXY_D3D11_DLL: string := "d3d11.dll"
  const BACKUP_SUFFIX: string := ".pick66_backup"
  const CONFIG_FILE: string := "pick66_config.txt"

  /** The keys of the config file. */
  const KEY_PROXY_TYPE: string := "ProxyType"
  const KEY_OVERLAY_ENABLED: string := "OverlayEnabled"
  const KEY_INSTALL_DATE: string := "InstallDate"
  const KEY_VERSION: string := "Version"
  const VERSION: string := "1.0.0"

  /** The `ProxyType` enum; `Undefined` is any other value of its
      underlying `int`, which `Enum.TryParse` accepts in numeric form. */
  datatype ProxyType = AutoDetect | DXGI | D3D11 | Undefined(value: int)

  /** The values an `int`-backed enum variable can hold, each represented once. */
  predicate WellFormed(t: ProxyType) {
    t.Undefined? ==> IsInt32(t.value) && (t.value < 0 || t.value > 2)
  }

  function ProxyTypeOfInt(n: int): ProxyType {
    if n == 0 then AutoDetect else if n == 1 then DXGI else if n == 2 then D3D11 else Undefined(n)
  }

  /** `ProxyType.ToString()`: the member name, or the number for other values. */
  function ProxyTypeName(t: ProxyType): string {
    match t
    case AutoDetect => "AutoDetect"
    case DXGI => "DXGI"
    case D3D11 => "D3D11"
    case Undefined(n) => IntToString(n)
  }

  /** `Enum.TryParse<ProxyType>(value, out t)`: a member name (case
      sensitive) or a decimal number. */
  function ParseProxyType(value: string): (r: Option<ProxyType>)
    ensures r.Some? ==> WellFormed(r.value)
  {
    if value == "AutoDetect" then Some(AutoDetect)
    else if value == "DXGI" then Some(DXGI)
    else if value == "D3D11" then Some(D3D11)
    else
      match ParseInt32(value)
      case Some(n) => Some(ProxyTypeOfInt(n))
      case None => None
  }

  /** The number form of `Undefined` never reads as a name: it starts with
      '-' or a digit and ends with a digit. */
  lemma IntToStringIsNotAName(n: int)
    ensures var s := IntToString(n); s != [] && (s[0] == '-' || IsDigit(s[0])) && IsDigit(s[|s| - 1])
    ensures var s := IntToString(n); s != "AutoDetect" && s != "DXGI" && s != "D3D11" && '\n' !in s
  {
    var d := NatToString(if n < 0 then -n else n);
    assert IsDigit(d[0]) && IsDigit(d[|d| - 1]);
    assert '\n' !in d;
    var s := IntToString(n);
    if n < 0 {
      assert s == "-" + d;
      assert s[0] == '-' && s[|s| - 1] == d[|d| - 1];
    }
    assert "AutoDetect"[0] == 'A' && "DXGI"[0] == 'D' && "D3D11"[0] == 'D';
  }

  /** Parsing the name of a value gives the value back. */
  lemma {:induction false} ProxyTypeNameParses(t: ProxyType)
    requires WellFormed(t)
    ensures ParseProxyType(ProxyTypeName(t)) == Some(t)
  {
    if t.Undefined? {
      IntToStringIsNotAName(t.value);
      IntToStringParses(t.value);
    }
  }

  /** `bool.ToString()`. */
  function BoolText(b: bool): string {
    if b then "True" else "False"
  }

  /** `bool.TryParse`: "true" or "false" in any letter case. */
  function ParseBool(value: string): Option<bool> {
    if ToLower(value) == "true" then Some(true)
    else if ToLower(value) == "false" then Some(false)
    else None
  }

  lemma BoolTextParses(b: bool)
    ensures ParseBool(BoolText(b)) == Some(b)
  {
    if b {
      assert ToLower("True") == "true" by {
        assert LowerChar('T') == 't';
      }
    } else {
      assert ToLower("False") == "false" by {
        assert LowerChar('F') == 'f';
      }
      assert ToLower("False") != "true";
    }
  }

  /** The DLL a proxy type installs: dxgi.dll for DXGI, d3d11.dll for every other value. */
  function DllNameFor(t: ProxyType): (r: string)
    ensures r == PROXY_DXGI_DLL <==> t == DXGI
    ensures r == PROXY_DXGI_DLL || r == PROXY_D3D11_DLL
  {
    if t == DXGI then PROXY_DXGI_DLL else PROXY_D3D11_DLL
  }

  function BackupName(dll: string): string {
    dll + BACKUP_SUFFIX
  }

  /** The five names the installer touches are distinct. */
  lemma NamesDistinct()
    ensures PROXY_DXGI_DLL != PROXY_D3D11_DLL && PROXY_DXGI_DLL != CONFIG_FILE && PROXY_D3D11_DLL != CONFIG_FILE
    ensures BackupName(PROXY_DXGI_DLL) != BackupName(PROXY_D3D11_DLL)
    ensures BackupName(PROXY_DXGI_DLL) !in {PROXY_DXGI_DLL, PROXY_D3D11_DLL, CONFIG_FILE}
    ensures BackupName(PROXY_D3D11_DLL) !in {PROXY_DXGI_DLL, PROXY_D3D11_DLL, CONFIG_FILE}
  {
    assert BackupName(PROXY_DXGI_DLL)[0] == 'd' && BackupName(PROXY_D3D11_DLL)[1] == '3';
    assert |BackupName(PROXY_DXGI_DLL)| != |CONFIG_FILE| && |BackupName(PROXY_D3D11_DLL)| != |CONFIG_FILE|;
  }

  /** `DetectBestProxyType`: DXGI if dxgi.dll is present, else D3D11 if
      d3d11.dll is, else DXGI. */
  function DetectBestProxyType(files: map<string, string>): (r: ProxyType)
    ensures r == DXGI || r == D3D11
    ensures r == D3D11 <==> PROXY_DXGI_DLL !in files && PROXY_D3D11_DLL in files
  {
    if PROXY_DXGI_DLL in files then DXGI
    else if PROXY_D3D11_DLL in files then D3D11
    else DXGI
  }

  /** `Path.Combine(dir, name)` for a relative `name`. */
  function Combine(dir: string, name: string): string {
    if dir == [] then name
    else if dir[|dir| - 1] == '\\' || dir[|dir| - 1] == '/' then dir + name
    else dir + "\\" + name
  }

  // ------------------------------------------------------------ config file

  /** The launcher's private `ProxyConfig`. */
  datatype LauncherConfig = LauncherConfig(proxyType: ProxyType, overlayEnabled: bool)

  const DEFAULT_LAUNCHER_CONFIG: LauncherConfig := LauncherConfig(AutoDetect, true)

  /** A trimmed key and value; unknown keys and values that do not parse
      leave the configuration as it was. */
  function ApplyKey(c: LauncherConfig, key: string, value: string): LauncherConfig {
    if key == KEY_PROXY_TYPE then
      (match ParseProxyType(value) case Some(t) => c.(proxyType := t) case None => c)
    else if key == KEY_OVERLAY_ENABLED then
      (match ParseBool(value) case Some(b) => c.(overlayEnabled := b) case None => c)
    else c
  }

  /** One line: split at the first '=', both halves trimmed. */
  function ApplyLine(c: LauncherConfig, line: string): LauncherConfig {
    match SplitFirst(line, '=')
    case None => c
    case Some(kv) => ApplyKey(c, Trim(kv.0), Trim(kv.1))
  }

  function ParseLines(c: LauncherConfig, lines: seq<string>): LauncherConfig {
    if lines == [] then c else ApplyLine(ParseLines(c, lines[..|lines| - 1]), lines[|lines| - 1])
  }

  /** The `foreach` loop of `LoadConfig`. */
  method LoadConfigLines(lines: seq<string>) returns (config: LauncherConfig)
    ensures config == ParseLines(DEFAULT_LAUNCHER_CONFIG, lines)
  {
    config := DEFAULT_LAUNCHER_CONFIG;
    var i := 0;
    while i < |lines|
      invariant 0 <= i <= |lines|
      invariant config == ParseLines(DEFAULT_LAUNCHER_CONFIG, lines[..i])
    {
      var parts := SplitFirst(lines[i], '=');
      if parts.Some? {
        config := SetKey(config, Trim(parts.value.0), Trim(parts.value.1));
      }
      assert lines[..i + 1][..i] == lines[..i];
      i := i + 1;
    }
    assert lines[..i] == lines;
  }

  /** The key dispatch in the body of that loop. */
  method SetKey(config: LauncherConfig, key: string, value: string) returns (r: LauncherConfig)
    ensures r == ApplyKey(config, key, value)
  {
    r := config;
    if key == KEY_PROXY_TYPE {
      var t := ParseProxyType(value);
      if t.Some? {
        r := config.(proxyType := t.value);
      }
    } else if key == KEY_OVERLAY_ENABLED {
      var b := ParseBool(value);
      if b.Some? {
        r := config.(overlayEnabled := b.value);
      }
    }
  }

  /** `File.ReadAllLines` on text whose lines end with '\n'. */
  function ReadAllLines(content: string): seq<string> {
    GetlineTokens(content, '\n')
  }

  /** `LoadConfig`: None when the file is absent. */
  function LoadConfig(files: map<string, string>): (r: Option<LauncherConfig>)
    ensures r.None? <==> CONFIG_FILE !in files
  {
    if CONFIG_FILE !in files then None
    else Some(ParseLines(DEFAULT_LAUNCHER_CONFIG, ReadAllLines(files[CONFIG_FILE])))
  }

  /** The lines `CreateConfigFile` writes. */
  function ConfigLines(t: ProxyType, overlay: bool, installDate: string): seq<string> {
    [KEY_PROXY_TYPE + "=" + ProxyTypeName(t), KEY_OVERLAY_ENABLED + "=" + BoolText(overlay),
     KEY_INSTALL_DATE + "=" + installDate, KEY_VERSION + "=" + VERSION]
  }

  /** The text `CreateConfigFile` writes: each line followed by '\n'. */
  function ConfigText(t: ProxyType, overlay: bool, installDate: string): string {
    Unlines(ConfigLines(t, overlay, installDate), '\n')
  }

  lemma ConfigTextLines(t: ProxyType, overlay: bool, installDate: string)
    requires WellFormed(t) && '\n' !in installDate
    ensures ReadAllLines(ConfigText(t, overlay, installDate)) == ConfigLines(t, overlay, installDate)
  {
    var lines := ConfigLines(t, overlay, installDate);
    if t.Undefined? {
      IntToStringIsNotAName(t.value);
    }
    KeysHaveNoNewlines();
    LineHasNoNewline(KEY_PROXY_TYPE, ProxyTypeName(t));
    LineHasNoNewline(KEY_OVERLAY_ENABLED, BoolText(overlay));
    LineHasNoNewline(KEY_INSTALL_DATE, installDate);
    LineHasNoNewline(KEY_VERSION, VERSION);
    GetlineUnlines(lines, '\n');
  }

  /** A `key=value` line, split as both readers split it. */
  lemma SplitLine(key: string, value: string)
    requires '=' !in key
    ensures SplitFirst(key + "=" + value, '=') == Some((key, value))
  {
    assert key + "=" + value == key + ['='] + value;
    SplitFirstOf(key, '=', value);
  }

  /** The keys contain no '=' and no surrounding white space. Each fact is
      proved apart from the others: together with the splitting facts they
      make the solver unfold the literals at length. */
  lemma KeysHaveNoEquals()
    ensures '=' !in KEY_PROXY_TYPE && '=' !in KEY_OVERLAY_ENABLED
    ensures '=' !in KEY_INSTALL_DATE && '=' !in KEY_VERSION
  {
  }

  lemma KeysTrimmed()
    ensures Trim(KEY_PROXY_TYPE) == KEY_PROXY_TYPE && Trim(KEY_OVERLAY_ENABLED) == KEY_OVERLAY_ENABLED
    ensures Trim(KEY_INSTALL_DATE) == KEY_INSTALL_DATE && Trim(KEY_VERSION) == KEY_VERSION
  {
    ProxyTypeKeyTrimmed();
    OverlayKeyTrimmed();
    InstallDateKeyTrimmed();
    VersionKeyTrimmed();
  }

  lemma ProxyTypeKeyTrimmed()
    ensures Trim(KEY_PROXY_TYPE) == KEY_PROXY_TYPE
  {
    TrimOfUnpadded(KEY_PROXY_TYPE);
  }

  lemma OverlayKeyTrimmed()
    ensures Trim(KEY_OVERLAY_ENABLED) == KEY_OVERLAY_ENABLED
  {
    TrimOfUnpadded(KEY_OVERLAY_ENABLED);
  }

  lemma InstallDateKeyTrimmed()
    ensures Trim(KEY_INSTALL_DATE) == KEY_INSTALL_DATE
  {
    TrimOfUnpadded(KEY_INSTALL_DATE);
  }

  lemma VersionKeyTrimmed()
    ensures Trim(KEY_VERSION) == KEY_VERSION
  {
    TrimOfUnpadded(KEY_VERSION);
  }

  lemma KeysHaveNoNewlines()
    ensures '\n' !in KEY_PROXY_TYPE && '\n' !in KEY_OVERLAY_ENABLED
    ensures '\n' !in KEY_INSTALL_DATE && '\n' !in KEY_VERSION && '\n' !in VERSION
  {
  }

  lemma LineHasNoNewline(key: string, value: string)
    requires '\n' !in key && '\n' !in value
    ensures '\n' !in key + "=" + value
  {
  }

  /** A `key=value` line with a clean key is the key applied to the trimmed value. */
  lemma KeyLine(c: LauncherConfig, key: string, value: string)
    requires '=' !in key && Trim(key) == key
    ensures ApplyLine(c, key + "=" + value) == ApplyKey(c, key, Trim(value))
  {
    SplitLine(key, value);
  }

  lemma ProxyTypeLine(c: LauncherConfig, t: ProxyType)
    requires WellFormed(t)
    ensures ApplyLine(c, KEY_PROXY_TYPE + "=" + ProxyTypeName(t)) == c.(proxyType := t)
  {
    var name := ProxyTypeName(t);
    if t.Undefined? {
      IntToStringIsNotAName(t.value);
    }
    assert name != [] && !IsSpace(name[0]) && !IsSpace(name[|name| - 1]);
    TrimOfUnpadded(name);
    KeysHaveNoEquals();
    KeysTrimmed();
    KeyLine(c, KEY_PROXY_TYPE, name);
    ProxyTypeNameParses(t);
  }

  lemma OverlayLine(c: LauncherConfig, b: bool)
    ensures ApplyLine(c, KEY_OVERLAY_ENABLED + "=" + BoolText(b)) == c.(overlayEnabled := b)
  {
    TrimOfUnpadded(BoolText(b));
    KeysHaveNoEquals();
    KeysTrimmed();
    KeyLine(c, KEY_OVERLAY_ENABLED, BoolText(b));
    BoolTextParses(b);
  }

  /** The install date and version lines change nothing. */
  lemma IgnoredLines(c: LauncherConfig, installDate: string)
    ensures ApplyLine(c, KEY_INSTALL_DATE + "=" + installDate) == c
    ensures ApplyLine(c, KEY_VERSION + "=" + VERSION) == c
  {
    KeysHaveNoEquals();
    KeysTrimmed();
    KeyLine(c, KEY_INSTALL_DATE, installDate);
    KeyLine(c, KEY_VERSION, VERSION);
  }

  lemma ParseFourLines(c: LauncherConfig, lines: seq<string>)
    requires |lines| == 4
    ensures ParseLines(c, lines) == ApplyLine(ApplyLine(ApplyLine(ApplyLine(c, lines[0]), lines[1]), lines[2]), lines[3])
  {
    assert lines[..1][..0] == [];
    assert ParseLines(c, lines[..1]) == ApplyLine(c, lines[0]);
    assert lines[..2][..1] == lines[..1];
    assert ParseLines(c, lines[..2]) == ApplyLine(ParseLines(c, lines[..1]), lines[1]);
    assert lines[..3][..2] == lines[..2];
    assert ParseLines(c, lines[..3]) == ApplyLine(ParseLines(c, lines[..2]), lines[2]);
    assert lines[..3] == lines[..|lines| - 1];
  }

  /** What the launcher writes, the launcher reads back: the proxy type and
      the overlay flag it was given. */
  lemma {:induction false} ConfigRoundTrip(t: ProxyType, overlay: bool, installDate: string)
    requires WellFormed(t) && '\n' !in installDate
    ensures LoadConfig(map[CONFIG_FILE := ConfigText(t, overlay, installDate)]) == Some(LauncherConfig(t, overlay))
  {
    ConfigTextLines(t, overlay, installDate);
    var lines := ConfigLines(t, overlay, installDate);
    var c0 := DEFAULT_LAUNCHER_CONFIG;
    ParseFourLines(c0, lines);
    ProxyTypeLine(c0, t);
    var c1 := c0.(proxyType := t);
    OverlayLine(c1, overlay);
    var c2 := c1.(overlayEnabled := overlay);
    IgnoredLines(c2, installDate);
  }

  lemma NativeFourLines(c: ProxyCommon.ProxyConfig, lines: seq<string>)
    requires |lines| == 4
    ensures ProxyCommon.ParseConfig(c, lines) ==
      ProxyCommon.ApplyConfigLine(ProxyCommon.ApplyConfigLine(ProxyCommon.ApplyConfigLine(
        ProxyCommon.ApplyConfigLine(c, lines[0]), lines[1]), lines[2]), lines[3])
  {
    assert lines[..1][..0] == [];
    assert ProxyCommon.ParseConfig(c, lines[..1]) == ProxyCommon.ApplyConfigLine(c, lines[0]);
    assert lines[..2][..1] == lines[..1];
    assert ProxyCommon.ParseConfig(c, lines[..2]) == ProxyCommon.ApplyConfigLine(ProxyCommon.ParseConfig(c, lines[..1]), lines[1]);
    assert lines[..3][..2] == lines[..2];
    assert ProxyCommon.ParseConfig(c, lines[..3]) == ProxyCommon.ApplyConfigLine(ProxyCommon.ParseConfig(c, lines[..2]), lines[2]);
    assert lines[..3] == lines[..|lines| - 1];
  }

  /** The proxy DLL reads the same file: its overlay flag is the one the
      launcher wrote ("True"/"False"), and the rest of its configuration
      keeps the defaults. */
  lemma {:induction false} NativeReaderSeesOverlayFlag(t: ProxyType, overlay: bool, installDate: string)
    requires WellFormed(t) && '\n' !in installDate
    ensures ProxyCommon.ConfigFromFile(Some(ReadAllLines(ConfigText(t, overlay, installDate))))
      == ProxyCommon.DEFAULT_CONFIG.(overlayEnabled := overlay)
  {
    ConfigTextLines(t, overlay, installDate);
    var lines := ConfigLines(t, overlay, installDate);
    var d := ProxyCommon.DEFAULT_CONFIG;
    NativeFourLines(d, lines);
    KeysHaveNoEquals();
    SplitLine(KEY_PROXY_TYPE, ProxyTypeName(t));
    SplitLine(KEY_OVERLAY_ENABLED, BoolText(overlay));
    SplitLine(KEY_INSTALL_DATE, installDate);
    SplitLine(KEY_VERSION, VERSION);
    assert ProxyCommon.ApplyConfigLine(d, lines[0]) == d;
    var d1 := d.(overlayEnabled := overlay);
    assert ProxyCommon.ApplyConfigLine(d, lines[1]) == d1;
    assert ProxyCommon.ApplyConfigLine(d1, lines[2]) == d1;
    assert ProxyCommon.ApplyConfigLine(d1, lines[3]) == d1;
  }

  // ------------------------------------------------------------ operations

  /** A `ProxyInstallResult`. */
  datatype InstallResult = InstallResult(success: bool, errorMessage: Option<string>)

  const OK: InstallResult := InstallResult(true, None)
  const NO_DIRECTORY: InstallResult := InstallResult(false, Some("Target directory does not exist"))

  /** `InstallProxy` on the directory's files: (files afterwards, result). */
  function InstallFiles(present: bool, files: map<string, string>, proxyType: ProxyType, enableOverlay: bool,
                        autoBackup: bool, sourceDir: string, sources: map<string, string>,
                        installDate: string): (r: (map<string, string>, InstallResult))
    ensures !present ==> r == (files, NO_DIRECTORY)
    ensures var selected := if proxyType == AutoDetect then DetectBestProxyType(files) else proxyType;
      var dll := DllNameFor(selected);
      present ==>
        // an existing backup is never overwritten, and a new one only copies the DLL it replaces
        (BackupName(dll) in files ==> BackupName(dll) in r.0 && r.0[BackupName(dll)] == files[BackupName(dll)])
        && (BackupName(dll) !in files ==>
              (BackupName(dll) in r.0 <==> dll in files && autoBackup)
              && (BackupName(dll) in r.0 ==> r.0[BackupName(dll)] == files[dll]))
        // a missing source DLL fails without touching the target DLL
        && (dll !in sources ==> !r.1.success && (dll in r.0 <==> dll in files) && (dll in files ==> r.0[dll] == files[dll]))
        // otherwise the DLL is replaced and the config written
        && (dll in sources ==>
              (r.1 == OK && dll in r.0 && CONFIG_FILE in r.0 && r.0[dll] == sources[dll]
               && r.0[CONFIG_FILE] == ConfigText(selected, enableOverlay, installDate)))
        // no other file is touched, and a failed install leaves the config file alone too
        && (forall n :: n != dll && n != BackupName(dll) && (n != CONFIG_FILE || dll !in sources) ==>
              (n in r.0 <==> n in files) && (n in r.0 ==> r.0[n] == files[n]))
  {
    if !present then (files, NO_DIRECTORY)
    else
      var selected := if proxyType == AutoDetect then DetectBestProxyType(files) else proxyType;
      var dll := DllNameFor(selected);
      var backup := BackupName(dll);
      NamesDistinct();
      var f1 := if dll in files && autoBackup && backup !in files then files[backup := files[dll]] else files;
      if dll !in sources then (f1, InstallResult(false, Some("Proxy DLL not found: " + Combine(sourceDir, dll))))
      else (f1[dll := sources[dll]][CONFIG_FILE := ConfigText(selected, enableOverlay, installDate)], OK)
  }

  /** Deletes `dll` and moves its backup, if there is one, back in its place. */
  function RestoreBackup(files: map<string, string>, dll: string): (r: map<string, string>)
    requires dll != BackupName(dll)
    ensures BackupName(dll) !in r
    ensures (dll in r <==> BackupName(dll) in files) && (dll in r ==> r[dll] == files[BackupName(dll)])
    ensures forall n :: n != dll && n != BackupName(dll) ==> (n in r <==> n in files) && (n in r ==> r[n] == files[n])
  {
    var f1 := files - {dll};
    if BackupName(dll) in f1 then (f1 - {BackupName(dll)})[dll := f1[BackupName(dll)]] else f1
  }

  /** `RemoveProxyDllIfExists`: only a DLL of ours is removed. */
  function RemoveIfOurs(files: map<string, string>, dll: string, ours: string -> bool): (r: map<string, string>)
    requires dll != BackupName(dll)
    ensures dll in files && ours(files[dll]) ==> r == RestoreBackup(files, dll)
    ensures !(dll in files && ours(files[dll])) ==> r == files
  {
    if dll in files && ours(files[dll]) then RestoreBackup(files, dll) else files
  }

  /** `UninstallProxy` on the directory's files. */
  function UninstallFiles(present: bool, files: map<string, string>, ours: string -> bool): (r: (map<string, string>, InstallResult))
    ensures !present ==> r == (files, NO_DIRECTORY)
    ensures present ==> r.1 == OK && CONFIG_FILE !in r.0
    // with a config file, the DLL it names is gone and its backup (if any) is back in place
    ensures present && CONFIG_FILE in files ==>
      var dll := DllNameFor(LoadConfig(files).value.proxyType);
      BackupName(dll) !in r.0 && (dll in r.0 <==> BackupName(dll) in files)
      && (dll in r.0 ==> r.0[dll] == files[BackupName(dll)])
      && forall n :: n != dll && n != BackupName(dll) && n != CONFIG_FILE ==>
           (n in r.0 <==> n in files) && (n in r.0 ==> r.0[n] == files[n])
    // without one, only a DLL of ours is removed, its backup restored, dxgi.dll first
    ensures present && CONFIG_FILE !in files ==>
      r.0 == RemoveIfOurs(RemoveIfOurs(files, PROXY_DXGI_DLL, ours), PROXY_D3D11_DLL, ours)
    ensures present && CONFIG_FILE !in files ==>
      forall n :: n !in {PROXY_DXGI_DLL, BackupName(PROXY_DXGI_DLL), PROXY_D3D11_DLL, BackupName(PROXY_D3D11_DLL)} ==>
        (n in r.0 <==> n in files) && (n in r.0 ==> r.0[n] == files[n])
  {
    if !present then (files, NO_DIRECTORY)
    else
      NamesDistinct();
      match LoadConfig(files)
      case Some(config) =>
        (RestoreBackup(files, DllNameFor(config.proxyType)) - {CONFIG_FILE}, OK)
      case None =>
        (RemoveIfOurs(RemoveIfOurs(files, PROXY_DXGI_DLL, ours), PROXY_D3D11_DLL, ours), OK)
  }

  /** Installing with a backup into a directory that has none, and then
      uninstalling, gives back the directory as it was, less its config file. */
  lemma {:induction false} InstallThenUninstall(files: map<string, string>, proxyType: ProxyType, enableOverlay: bool,
                                                sourceDir: string, sources: map<string, string>, installDate: string,
                                                ours: string -> bool)
    requires WellFormed(proxyType) && '\n' !in installDate
    requires var selected := if proxyType == AutoDetect then DetectBestProxyType(files) else proxyType;
      DllNameFor(selected) in sources && BackupName(DllNameFor(selected)) !in files
    ensures var installed := InstallFiles(true, files, proxyType, enableOverlay, true, sourceDir, sources, installDate).0;
      UninstallFiles(true, installed, ours).0 == files - {CONFIG_FILE}
  {
    NamesDistinct();
    var selected := if proxyType == AutoDetect then DetectBestProxyType(files) else proxyType;
    var dll := DllNameFor(selected);
    var installed := InstallFiles(true, files, proxyType, enableOverlay, true, sourceDir, sources, installDate).0;
    ConfigRoundTrip(selected, enableOverlay, installDate);
    assert LoadConfig(installed) == Some(LauncherConfig(selected, enableOverlay)) by {
      assert installed[CONFIG_FILE] == ConfigText(selected, enableOverlay, installDate);
    }
    var r := UninstallFiles(true, installed, ours).0;
    assert forall n :: n in r <==> n in files - {CONFIG_FILE};
    assert forall n :: n in r ==> r[n] == files[n];
  }

  /** A `ProxyStatus`. */
  datatype ProxyStatus = ProxyStatus(
    isInstalled: bool,
    installedType: ProxyType,
    proxyDllPath: Option<string>,
    overlayEnabled: bool,
    hasBackup: bool,
    backupPath: Option<string>)

  const DEFAULT_STATUS: ProxyStatus := ProxyStatus(false, AutoDetect, None, false, false, None)

  /** `GetProxyStatus`. */
  function StatusOf(present: bool, path: string, files: map<string, string>, ours: string -> bool): (r: ProxyStatus)
    ensures !present ==> r == DEFAULT_STATUS
    ensures r.isInstalled ==> exists n :: n in files && ours(files[n]) && r.proxyDllPath == Some(Combine(path, n))
    ensures r.backupPath.Some? <==> r.hasBackup
    ensures present && CONFIG_FILE !in files ==> !r.hasBackup && !r.overlayEnabled
  {
    if !present then DEFAULT_STATUS
    else
      match LoadConfig(files)
      case Some(config) =>
        var dll := DllNameFor(config.proxyType);
        var dllPath := Combine(path, dll);
        var hasBackup := BackupName(dll) in files;
        ProxyStatus(dll in files && ours(files[dll]), config.proxyType, Some(dllPath), config.overlayEnabled,
                    hasBackup, if hasBackup then Some(dllPath + BACKUP_SUFFIX) else None)
      case None =>
        if PROXY_DXGI_DLL in files && ours(files[PROXY_DXGI_DLL]) then
          DEFAULT_STATUS.(isInstalled := true, installedType := DXGI, proxyDllPath := Some(Combine(path, PROXY_DXGI_DLL)))
        else if PROXY_D3D11_DLL in files && ours(files[PROXY_D3D11_DLL]) then
          DEFAULT_STATUS.(isInstalled := true, installedType := D3D11, proxyDllPath := Some(Combine(path, PROXY_D3D11_DLL)))
        else DEFAULT_STATUS
  }

  /** After a successful install of one of our DLLs, the status reports it
      installed, with the type chosen and the overlay flag given. */
  lemma {:induction false} StatusAfterInstall(path: string, files: map<string, string>, proxyType: ProxyType,
                                              enableOverlay: bool, autoBackup: bool, sourceDir: string,
                                              sources: map<string, string>, installDate: string, ours: string -> bool)
    requires WellFormed(proxyType) && '\n' !in installDate
    requires var selected := if proxyType == AutoDetect then DetectBestProxyType(files) else proxyType;
      DllNameFor(selected) in sources && ours(sources[DllNameFor(selected)])
    ensures var selected := if proxyType == AutoDetect then DetectBestProxyType(files) else proxyType;
      var installed := InstallFiles(true, files, proxyType, enableOverlay, autoBackup, sourceDir, sources, installDate).0;
      var status := StatusOf(true, path, installed, ours);
      status.isInstalled && status.installedType == selected && status.overlayEnabled == enableOverlay
      && status.proxyDllPath == Some(Combine(path, DllNameFor(selected)))
  {
    var selected := if proxyType == AutoDetect then DetectBestProxyType(files) else proxyType;
    var installed := InstallFiles(true, files, proxyType, enableOverlay, autoBackup, sourceDir, sources, installDate).0;
    ConfigRoundTrip(selected, enableOverlay, installDate);
    assert LoadConfig(installed) == Some(LauncherConfig(selected, enableOverlay)) by {
      assert installed[CONFIG_FILE] == ConfigText(selected, enableOverlay, installDate);
    }
  }

  /** A directory on disk. */
  class Directory {
    const path: string
    var present: bool
    var files: map<string, string>

    constructor (path: string, present: bool, files: map<string, string>)
      ensures this.path == path && this.present == present && this.files == files
    {
      this.path := path;
      this.present := present;
      this.files := files;
    }

    /** `CreateConfigFile`. */
    method CreateConfigFile(proxyType: ProxyType, enableOverlay: bool, installDate: string)
      modifies this
      ensures files == old(files)[CONFIG_FILE := ConfigText(proxyType, enableOverlay, installDate)]
      ensures present == old(present)
    {
      files := files[CONFIG_FILE := ConfigText(proxyType, enableOverlay, installDate)];
    }

    method InstallProxy(proxyType: ProxyType, enableOverlay: bool, autoBackup: bool,
                        sourceDir: string, sources: map<string, string>, installDate: string)
      returns (result: InstallResult)
      modifies this
      ensures (files, result) == InstallFiles(old(present), old(files), proxyType, enableOverlay, autoBackup,
                                              sourceDir, sources, installDate)
      ensures present == old(present)
    {
      if !present {
        return NO_DIRECTORY;
      }
      var selected := proxyType;
      if proxyType == AutoDetect {
        selected := DetectBestProxyType(files);
      }
      var dll := DllNameFor(selected);
      if dll in files && autoBackup {
        var backup := BackupName(dll);
        if backup !in files {
          files := files[backup := files[dll]];
        }
      }
      if dll !in sources {
        return InstallResult(false, Some("Proxy DLL not found: " + Combine(sourceDir, dll)));
      }
      files := files[dll := sources[dll]];
      CreateConfigFile(selected, enableOverlay, installDate);
      result := OK;
    }

    /** The delete-then-move-back step of both uninstall paths. */
    method DeleteAndRestore(dll: string)
      requires dll != BackupName(dll)
      modifies this
      ensures files == RestoreBackup(old(files), dll) && present == old(present)
    {
      var backup := BackupName(dll);
      if dll in files {
        files := files - {dll};
      }
      if backup in files {
        files := (files - {backup})[dll := files[backup]];
      }
    }

    /** `RemoveProxyDllIfExists`. */
    method RemoveProxyDllIfExists(dll: string, ours: string -> bool)
      requires dll != BackupName(dll)
      modifies this
      ensures files == RemoveIfOurs(old(files), dll, ours) && present == old(present)
    {
      if dll in files && ours(files[dll]) {
        DeleteAndRestore(dll);
      }
    }

    method UninstallProxy(ours: string -> bool) returns (result: InstallResult)
      modifies this
      ensures (files, result) == UninstallFiles(old(present), old(files), ours)
      ensures present == old(present)
    {
      if !present {
        return NO_DIRECTORY;
      }
      NamesDistinct();
      var config := LoadConfig(files);
      if config.Some? {
        DeleteAndRestore(DllNameFor(config.value.proxyType));
        if CONFIG_FILE in files {
          files := files - {CONFIG_FILE};
        }
      } else {
        RemoveProxyDllIfExists(PROXY_DXGI_DLL, ours);
        RemoveProxyDllIfExists(PROXY_D3D11_DLL, ours);
      }
      result := OK;
    }

    function GetProxyStatus(ours: string -> bool): (r: ProxyStatus)
      reads this
      ensures r == StatusOf(present, path, files, ours)
    {
      StatusOf(present, path, files, ours)
    }
  }
}
