/**
 * The command line of the ConnectTheDots Azure preparation tool: how `Parse`
 * turns the argument array into the tool's settings, and how `Main` turns
 * the outcome into a process exit code. Creating the cloud resources (`Run`)
 * is outside the model; its outcome is a parameter.
 */
module AzurePrep {
  import opened Wrappers

  // ---------------------------------------------------------------------------
  // Text helpers

  predicate IsUpper(c: char) { 'A' <= c <= 'Z' }

  /** Lower-cases one character (ASCII letters only). */
  function LowerChar(c: char): (r: char)
    ensures !IsUpper(r)
    ensures IsUpper(c) ==> r as int == c as int + 32
    ensures !IsUpper(c) ==> r == c
  {
    if IsUpper(c) then (c as int + 32) as char else c
  }

  /** `ToLowerInvariant` on ASCII text: same length, no upper-case letter left, nothing else changed. */
  function Lower(s: string): (r: string)
    ensures |r| == |s|
    ensures forall i :: 0 <= i < |s| ==> r[i] == LowerChar(s[i])
    ensures forall i :: 0 <= i < |r| ==> !IsUpper(r[i])
  {
    if s == [] then [] else [LowerChar(s[0])] + Lower(s[1..])
  }

  // ---------------------------------------------------------------------------
  // Switch normalisation

  /**
   * The key an argument is dispatched on: its first character with `/`
   * turned into `-` (and otherwise kept as it is, case included), followed by
   * the rest lower-cased. `Substring(0, 1)` throws on an empty argument, which
   * is why `arg` must not be empty here.
   */
  function SwitchKey(arg: string): (key: string)
    requires |arg| > 0
    ensures |key| == |arg|
    ensures key[0] != '/'
    ensures forall i :: 1 <= i < |key| ==> !IsUpper(key[i])
  {
    [if arg[0] == '/' then '-' else arg[0]] + Lower(arg[1..])
  }

  /** A key is selected exactly by the arguments that start with `-` or `/` and whose rest lower-cases to the word. */
  lemma SwitchKeyMatches(arg: string, word: string)
    requires |arg| > 0
    ensures SwitchKey(arg) == "-" + word <==> (arg[0] == '-' || arg[0] == '/') && Lower(arg[1..]) == word
  {
    var key := SwitchKey(arg);
    if key == "-" + word {
      assert key[0] == '-';
      assert key[1..] == Lower(arg[1..]);
      assert ("-" + word)[1..] == word;
    }
  }

  /**
   * Switches are matched without regard to the case of their name, and `/`
   * and `-` introduce the same switch: `/Location`, `-LOCATION` and
   * `-location` all select the same case. The first character is not
   * case-folded.
   */
  lemma SwitchKeyIgnoresCase(a: string, b: string)
    requires |a| == |b| > 0
    requires a[0] in "-/" && b[0] in "-/"
    requires forall i :: 1 <= i < |a| ==> LowerChar(a[i]) == LowerChar(b[i])
    ensures SwitchKey(a) == SwitchKey(b)
  {
    assert Lower(a[1..]) == Lower(b[1..]);
  }

  /** The keys of the switches that take a name prefix, a location and a publish-settings file. */
  predicate IsNamePrefixKey(key: string) { key == "-nameprefix" || key == "-n" }
  predicate IsLocationKey(key: string) { key == "-location" || key == "-l" }
  predicate IsPublishSettingsKey(key: string) { key == "-publishsettingsfile" || key == "-ps" }

  // ---------------------------------------------------------------------------
  // Settings and parse outcomes

  /**
   * What a publish-settings file yields: the management certificate (as the
   * base64 text of its attribute) and the subscription id.
   */
  datatype PublishProfile = PublishProfile(managementCertificate: string, subscriptionId: string)

  /**
   * Reads the publish-settings file at a path; `None` when loading, finding
   * the attributes or decoding the certificate throws.
   */
  type PublishSettingsLoader = string -> Option<PublishProfile>

  /** The tool's settings; `None` is a field still null. */
  datatype Settings = Settings(
    namePrefix: Option<string>,
    sbNamespace: Option<string>,
    location: Option<string>,
    eventHubNameDevices: Option<string>,
    eventHubNameAlerts: Option<string>,
    storageAccountName: Option<string>,
    webSiteDirectory: Option<string>,
    managementCertificate: Option<string>,
    subscriptionId: Option<string>)

  /** Every setting null, as in a freshly constructed program. */
  const Unset := Settings(None, None, None, None, None, None, None, None, None)

  datatype ParseError =
    | MissingValue(switch: string)            // a value-taking switch is the last argument
    | InvalidPublishSettings(path: string)    // the publish-settings file could not be used
    | UnrecognizedArgument(arg: string)       // no switch of that name
    | EmptyArgument                           // `Substring(0, 1)` threw on ""

  /** Where a scan of the arguments stopped: the settings reached and the first error, if any. */
  datatype ScanResult = ScanResult(settings: Settings, error: Option<ParseError>)

  // ---------------------------------------------------------------------------
  // The scan, as a specification

  /**
   * Scans `args` from the left starting from settings `s`. A value-taking
   * switch consumes the next argument; the scan stops at the first error,
   * keeping what was assigned before it. A clean scan reads switches and
   * values in pairs; a name prefix or location it sets is one of the
   * arguments; an argument it rejects is one of the arguments.
   */
  function Scan(args: seq<string>, s: Settings, load: PublishSettingsLoader): (r: ScanResult)
    ensures r.error.None? ==> |args| % 2 == 0
    ensures r.settings.namePrefix != s.namePrefix ==> r.settings.namePrefix.Some? && r.settings.namePrefix.value in args
    ensures r.settings.location != s.location ==> r.settings.location.Some? && r.settings.location.value in args
    ensures r.error == Some(EmptyArgument) ==> "" in args
    ensures r.error.Some? && r.error.value.UnrecognizedArgument? ==> r.error.value.arg in args
    decreases |args|
  {
    if args == [] then ScanResult(s, None)
    else if args[0] == "" then ScanResult(s, Some(EmptyArgument))
    else if IsNamePrefixKey(SwitchKey(args[0])) then
      if |args| < 2 then ScanResult(s, Some(MissingValue(args[0])))
      else Scan(args[2..], s.(namePrefix := Some(args[1])), load)
    else if IsLocationKey(SwitchKey(args[0])) then
      if |args| < 2 then ScanResult(s, Some(MissingValue(args[0])))
      else Scan(args[2..], s.(location := Some(args[1])), load)
    else if IsPublishSettingsKey(SwitchKey(args[0])) then
      if |args| < 2 then ScanResult(s, Some(MissingValue(args[0])))
      else match load(args[1])
        case None => ScanResult(s, Some(InvalidPublishSettings(args[1])))
        case Some(p) =>
          Scan(args[2..], s.(managementCertificate := Some(p.managementCertificate),
                             subscriptionId := Some(p.subscriptionId)), load)
    else ScanResult(s, Some(UnrecognizedArgument(args[0])))
  }

  /**
   * The prefix used when none is given: "IoTDemo" followed by the hex of a
   * fresh GUID's hash. Hex digits are lower-case, so lower-casing the default
   * prefix (as the storage account name does) only touches "IoTDemo".
   */
  function DefaultNamePrefix(guidHashHex: string): (prefix: string)
    ensures |prefix| >= 7 && Lower(prefix)[..7] == "iotdemo"
    ensures (forall i :: 0 <= i < |guidHashHex| ==> !IsUpper(guidHashHex[i])) ==>
      Lower(prefix) == "iotdemo" + guidHashHex
  {
    "IoTDemo" + guidHashHex
  }

  const DefaultLocation := "Central US"
  const DefaultEventHubNameDevices := "ehdevices"
  const DefaultEventHubNameAlerts := "ehalerts"
  const DefaultWebSiteDirectory := "..\\..\\..\\..\\WebSite\\ConnectTheDotsWebSite"

  /**
   * Fills in every setting still null after a successful scan; the namespace
   * and storage account names are derived from the (possibly defaulted)
   * name prefix.
   */
  function WithDefaults(s: Settings, guidHashHex: string): (d: Settings)
    ensures d.namePrefix.Some? && d.location.Some? && d.sbNamespace.Some?
    ensures d.storageAccountName.Some? && d.eventHubNameDevices.Some?
    ensures d.eventHubNameAlerts.Some? && d.webSiteDirectory.Some?
    ensures d.managementCertificate == s.managementCertificate && d.subscriptionId == s.subscriptionId
  {
    var prefix := s.namePrefix.GetOr(DefaultNamePrefix(guidHashHex));
    s.(namePrefix := Some(prefix),
       location := Some(s.location.GetOr(DefaultLocation)),
       sbNamespace := Some(s.sbNamespace.GetOr(prefix + "-ns")),
       storageAccountName := Some(s.storageAccountName.GetOr(Lower(prefix) + "storage")),
       eventHubNameDevices := Some(s.eventHubNameDevices.GetOr(DefaultEventHubNameDevices)),
       eventHubNameAlerts := Some(s.eventHubNameAlerts.GetOr(DefaultEventHubNameAlerts)),
       webSiteDirectory := Some(s.webSiteDirectory.GetOr(DefaultWebSiteDirectory)))
  }

  // ---------------------------------------------------------------------------
  // Properties of the scan

  /** A scan that ends without error consumed exactly its arguments: scanning more continues from where it ended. */
  lemma {:induction false} ScanAppend(a: seq<string>, b: seq<string>, s: Settings, load: PublishSettingsLoader)
    requires Scan(a, s, load).error == None
    ensures Scan(a + b, s, load) == Scan(b, Scan(a, s, load).settings, load)
    decreases |a|
  {
    if a == [] {
      assert a + b == b;
    } else {
      assert (a + b)[0] == a[0];
      assert |a| >= 2;
      assert (a + b)[1] == a[1];
      assert (a + b)[2..] == a[2..] + b;
      var s' :=
        if IsNamePrefixKey(SwitchKey(a[0])) then s.(namePrefix := Some(a[1]))
        else if IsLocationKey(SwitchKey(a[0])) then s.(location := Some(a[1]))
        else var p := load(a[1]).value;
          s.(managementCertificate := Some(p.managementCertificate), subscriptionId := Some(p.subscriptionId));
      ScanAppend(a[2..], b, s', load);
    }
  }

  /**
   * Scanning stops at the first error: once an argument is rejected (rather
   * than merely lacking its value at the end), nothing after it is looked at.
   */
  lemma {:induction false} ScanStopsAtFirstError(a: seq<string>, b: seq<string>, s: Settings, load: PublishSettingsLoader)
    requires Scan(a, s, load).error.Some? && !Scan(a, s, load).error.value.MissingValue?
    ensures Scan(a + b, s, load) == Scan(a, s, load)
    decreases |a|
  {
    assert a != [];
    assert (a + b)[0] == a[0];
    if a[0] != "" && (IsNamePrefixKey(SwitchKey(a[0])) || IsLocationKey(SwitchKey(a[0])) || IsPublishSettingsKey(SwitchKey(a[0]))) {
      assert |a| >= 2;
      assert (a + b)[1] == a[1];
      assert (a + b)[2..] == a[2..] + b;
      if IsNamePrefixKey(SwitchKey(a[0])) {
        ScanStopsAtFirstError(a[2..], b, s.(namePrefix := Some(a[1])), load);
      } else if IsLocationKey(SwitchKey(a[0])) {
        ScanStopsAtFirstError(a[2..], b, s.(location := Some(a[1])), load);
      } else if load(a[1]).Some? {
        var p := load(a[1]).value;
        ScanStopsAtFirstError(a[2..], b, s.(managementCertificate := Some(p.managementCertificate),
                                            subscriptionId := Some(p.subscriptionId)), load);
      }
    }
  }

  /**
   * A repeated name-prefix or location switch overwrites the earlier value:
   * after a clean scan of `a`, one more `switch value` pair sets that one
   * field to `value` and leaves every other setting as it was.
   */
  lemma LastValueWins(a: seq<string>, switch: string, value: string, s: Settings, load: PublishSettingsLoader)
    requires Scan(a, s, load).error == None
    requires |switch| > 0 && (IsNamePrefixKey(SwitchKey(switch)) || IsLocationKey(SwitchKey(switch)))
    ensures IsNamePrefixKey(SwitchKey(switch)) ==>
      Scan(a + [switch, value], s, load) == ScanResult(Scan(a, s, load).settings.(namePrefix := Some(value)), None)
    ensures !IsNamePrefixKey(SwitchKey(switch)) ==>
      Scan(a + [switch, value], s, load) == ScanResult(Scan(a, s, load).settings.(location := Some(value)), None)
  {
    ScanAppend(a, [switch, value], s, load);
    assert [switch, value][2..] == [];
  }

  /**
   * A publish-settings switch after a clean prefix: a file that loads sets
   * the certificate and subscription id and nothing else; one that does not
   * load ends the scan with that path as the error, keeping the settings
   * reached before it.
   */
  lemma PublishSettingsSwitch(a: seq<string>, switch: string, path: string, b: seq<string>,
                              s: Settings, load: PublishSettingsLoader)
    requires Scan(a, s, load).error == None
    requires |switch| > 0 && IsPublishSettingsKey(SwitchKey(switch))
    ensures var before := Scan(a, s, load).settings;
      match load(path)
      case Some(p) =>
        Scan(a + [switch, path] + b, s, load) ==
          Scan(b, before.(managementCertificate := Some(p.managementCertificate),
                          subscriptionId := Some(p.subscriptionId)), load)
      case None =>
        Scan(a + [switch, path] + b, s, load) == ScanResult(before, Some(InvalidPublishSettings(path)))
  {
    ScanAppend(a, [switch, path] + b, s, load);
    assert a + [switch, path] + b == a + ([switch, path] + b);
    var rest := [switch, path] + b;
    assert rest[0] == switch && rest[1] == path && rest[2..] == b;
  }

  /**
   * The usage text offers `-website <websitedir>`, but no case of the switch
   * handles it: after a clean prefix it is rejected as unrecognised, so the
   * web-site directory can only ever be its default.
   */
  lemma WebsiteSwitchRejected(a: seq<string>, arg: string, b: seq<string>, s: Settings, load: PublishSettingsLoader)
    requires Scan(a, s, load).error == None
    requires |arg| > 0 && SwitchKey(arg) == "-website"
    ensures Scan(a + [arg] + b, s, load) == ScanResult(Scan(a, s, load).settings, Some(UnrecognizedArgument(arg)))
  {
    UnrecognizedArgumentStops(a, arg, b, s, load);
  }

  /**
   * A value-taking switch given as the last argument is an error that keeps
   * every setting assigned before it.
   */
  lemma MissingValueAtEnd(a: seq<string>, switch: string, s: Settings, load: PublishSettingsLoader)
    requires Scan(a, s, load).error == None
    requires |switch| > 0
    requires IsNamePrefixKey(SwitchKey(switch)) || IsLocationKey(SwitchKey(switch)) || IsPublishSettingsKey(SwitchKey(switch))
    ensures Scan(a + [switch], s, load) == ScanResult(Scan(a, s, load).settings, Some(MissingValue(switch)))
  {
    ScanAppend(a, [switch], s, load);
  }

  /**
   * An argument that selects no switch is an error wherever it stands after
   * a clean prefix, and nothing after it is looked at.
   */
  lemma UnrecognizedArgumentStops(a: seq<string>, arg: string, b: seq<string>, s: Settings, load: PublishSettingsLoader)
    requires Scan(a, s, load).error == None
    requires |arg| > 0
    requires !IsNamePrefixKey(SwitchKey(arg)) && !IsLocationKey(SwitchKey(arg)) && !IsPublishSettingsKey(SwitchKey(arg))
    ensures Scan(a + [arg] + b, s, load) == ScanResult(Scan(a, s, load).settings, Some(UnrecognizedArgument(arg)))
  {
    ScanAppend(a, [arg] + b, s, load);
    assert a + [arg] + b == a + ([arg] + b);
    assert ([arg] + b)[0] == arg;
  }

  /**
   * An empty argument in switch position ends the scan wherever it stands
   * after a clean prefix (`Substring(0, 1)` throws on it), keeping the
   * settings reached so far; nothing after it is looked at.
   */
  lemma EmptyArgumentStops(a: seq<string>, b: seq<string>, s: Settings, load: PublishSettingsLoader)
    requires Scan(a, s, load).error == None
    ensures Scan(a + [""] + b, s, load) == ScanResult(Scan(a, s, load).settings, Some(EmptyArgument))
  {
    ScanAppend(a, [""] + b, s, load);
    assert a + [""] + b == a + ([""] + b);
    assert ([""] + b)[0] == "";
  }

  /**
   * An empty argument in value position is accepted: `-n ""` and `-l ""` set
   * the field to the empty string and the scan goes on with what follows.
   */
  lemma EmptyValueAccepted(switch: string, b: seq<string>, s: Settings, load: PublishSettingsLoader)
    requires |switch| > 0 && (IsNamePrefixKey(SwitchKey(switch)) || IsLocationKey(SwitchKey(switch)))
    ensures IsNamePrefixKey(SwitchKey(switch)) ==>
      Scan([switch, ""] + b, s, load) == Scan(b, s.(namePrefix := Some("")), load)
    ensures !IsNamePrefixKey(SwitchKey(switch)) ==>
      Scan([switch, ""] + b, s, load) == Scan(b, s.(location := Some("")), load)
  {
  }

  /**
   * No switch sets the namespace, storage account, event hub or web-site
   * directory settings: a scan leaves them as it found them.
   */
  lemma {:induction false} ScanKeepsDerivedSettings(args: seq<string>, s: Settings, load: PublishSettingsLoader)
    ensures var r := Scan(args, s, load).settings;
      r.sbNamespace == s.sbNamespace && r.storageAccountName == s.storageAccountName &&
      r.eventHubNameDevices == s.eventHubNameDevices && r.eventHubNameAlerts == s.eventHubNameAlerts &&
      r.webSiteDirectory == s.webSiteDirectory
    decreases |args|
  {
    if args != [] && args[0] != "" && |args| >= 2 {
      if IsNamePrefixKey(SwitchKey(args[0])) {
        ScanKeepsDerivedSettings(args[2..], s.(namePrefix := Some(args[1])), load);
      } else if IsLocationKey(SwitchKey(args[0])) {
        ScanKeepsDerivedSettings(args[2..], s.(location := Some(args[1])), load);
      } else if IsPublishSettingsKey(SwitchKey(args[0])) && load(args[1]).Some? {
        var p := load(args[1]).value;
        ScanKeepsDerivedSettings(args[2..], s.(managementCertificate := Some(p.managementCertificate),
                                               subscriptionId := Some(p.subscriptionId)), load);
      }
    }
  }

  /**
   * After a successful parse from a fresh program: the location is the one
   * given or "Central US"; the prefix is the one given or "IoTDemo" plus the
   * GUID hash; the Service Bus namespace is the prefix plus "-ns"; the
   * storage account is the lower-cased prefix plus "storage" (so it holds no
   * upper-case letter); the event hubs are "ehdevices" and "ehalerts".
   */
  lemma ParseFillsDefaults(args: seq<string>, load: PublishSettingsLoader, guidHashHex: string)
    requires Scan(args, Unset, load).error == None
    ensures var given := Scan(args, Unset, load).settings;
      var d := WithDefaults(given, guidHashHex);
      var prefix := d.namePrefix.value;
      && (given.namePrefix.Some? ==> prefix == given.namePrefix.value)
      && (given.namePrefix.None? ==> prefix == "IoTDemo" + guidHashHex)
      && d.location == Some(if given.location.Some? then given.location.value else "Central US")
      && d.sbNamespace == Some(prefix + "-ns")
      && d.storageAccountName == Some(Lower(prefix) + "storage")
      && (forall i :: 0 <= i < |d.storageAccountName.value| ==> !IsUpper(d.storageAccountName.value[i]))
      && d.eventHubNameDevices == Some("ehdevices")
      && d.eventHubNameAlerts == Some("ehalerts")
      && d.webSiteDirectory == Some(DefaultWebSiteDirectory)
  {
    ScanKeepsDerivedSettings(args, Unset, load);
    var prefix := WithDefaults(Scan(args, Unset, load).settings, guidHashHex).namePrefix.value;
    var name := Lower(prefix) + "storage";
    forall i | 0 <= i < |name| ensures !IsUpper(name[i]) {
      if i >= |prefix| { assert name[i] == "storage"[i - |prefix|]; }
    }
  }

  // ---------------------------------------------------------------------------
  // The program object

  /** What `Parse` reports: success, or the error that made it print the usage and return false (or throw). */
  datatype ParseOutcome = Parsed | Failed(error: ParseError)

  class Program {
    var namePrefix: Option<string>
    var sbNamespace: Option<string>
    var location: Option<string>
    var eventHubNameDevices: Option<string>
    var eventHubNameAlerts: Option<string>
    var storageAccountName: Option<string>
    var webSiteDirectory: Option<string>
    var managementCertificate: Option<string>
    var subscriptionId: Option<string>

    constructor ()
      ensures Fields() == Unset
    {
      namePrefix, sbNamespace, location := None, None, None;
      eventHubNameDevices, eventHubNameAlerts := None, None;
      storageAccountName, webSiteDirectory := None, None;
      managementCertificate, subscriptionId := None, None;
    }

    /** The current values of the settings fields. */
    function Fields(): (f: Settings)
      reads this
    {
      Settings(namePrefix, sbNamespace, location, eventHubNameDevices, eventHubNameAlerts,
               storageAccountName, webSiteDirectory, managementCertificate, subscriptionId)
    }

    /**
     * Walks the arguments, assigning fields as switches are recognised and
     * stopping at the first error. On success the remaining null fields get
     * their defaults; on error they are left as they are.
     */
    method Parse(args: seq<string>, load: PublishSettingsLoader, guidHashHex: string) returns (outcome: ParseOutcome)
      modifies this
      ensures var scan := Scan(args, old(Fields()), load);
        && (outcome == if scan.error.None? then Parsed else Failed(scan.error.value))
        && Fields() == if scan.error.None? then WithDefaults(scan.settings, guidHashHex) else scan.settings
    {
      var parseError: Option<ParseError> := None;
      var i := 0;
      while i < |args|
        invariant 0 <= i <= |args|
        invariant parseError == None
        invariant Scan(args[i..], Fields(), load) == Scan(args, old(Fields()), load)
        decreases |args| - i
      {
        var arg := args[i];
        ghost var rest := args[i..];
        ghost var before := Fields();
        assert rest[0] == arg;
        assert |rest| >= 2 ==> rest[1] == args[i + 1] && rest[2..] == args[i + 2..];
        if arg == "" {
          // `Substring(0, 1)` throws
          parseError := Some(EmptyArgument);
          break;
        }
        var key := SwitchKey(arg);
        if IsNamePrefixKey(key) {
          i := i + 1;
          if i < |args| {
            namePrefix := Some(args[i]);
          } else {
            parseError := Some(MissingValue(arg));
          }
        } else if IsLocationKey(key) {
          i := i + 1;
          if i < |args| {
            location := Some(args[i]);
          } else {
            parseError := Some(MissingValue(arg));
          }
        } else if IsPublishSettingsKey(key) {
          i := i + 1;
          if i >= |args| {
            parseError := Some(MissingValue(arg));
          } else {
            match load(args[i])
            case None =>
              parseError := Some(InvalidPublishSettings(args[i]));
            case Some(profile) =>
              managementCertificate := Some(profile.managementCertificate);
              subscriptionId := Some(profile.subscriptionId);
          }
        } else {
          parseError := Some(UnrecognizedArgument(arg));
        }
        if parseError.Some? {
          assert Scan(rest, before, load) == ScanResult(Fields(), parseError);
          break;
        }
        i := i + 1;
      }

      assert i == |args| ==> args[i..] == [];
      if parseError.Some? {
        outcome := Failed(parseError.value);
        return;
      }

      FillDefaults(guidHashHex);
      outcome := Parsed;
    }

    /**
     * The end of a successful `Parse`: each setting still null gets its
     * default, in this order, so the derived names see the defaulted prefix.
     */
    method FillDefaults(guidHashHex: string)
      modifies this
      ensures Fields() == WithDefaults(old(Fields()), guidHashHex)
    {
      namePrefix := Some(namePrefix.GetOr(DefaultNamePrefix(guidHashHex)));
      location := Some(location.GetOr(DefaultLocation));
      sbNamespace := Some(sbNamespace.GetOr(namePrefix.value + "-ns"));
      storageAccountName := Some(storageAccountName.GetOr(Lower(namePrefix.value) + "storage"));
      eventHubNameDevices := Some(eventHubNameDevices.GetOr(DefaultEventHubNameDevices));
      eventHubNameAlerts := Some(eventHubNameAlerts.GetOr(DefaultEventHubNameAlerts));
      webSiteDirectory := Some(webSiteDirectory.GetOr(DefaultWebSiteDirectory));
    }
  }

  // ---------------------------------------------------------------------------
  // Exit code

  /** How `Run` ended: it returned a boolean, or it threw. */
  datatype RunOutcome = Returned(succeeded: bool) | Threw

  /** How the process ends: `Main` returns an exit code, or an exception escapes it. */
  datatype ProcessEnd = ExitCode(code: int) | UnhandledException

  /**
   * `Main` as written. `Run` is only called after a successful parse, and an
   * exception from it is caught and reported, but the flag that decides the
   * exit code still holds the parse result then, so the process exits with 0.
   * An empty argument makes `Parse` throw, which nothing catches.
   */
  function MainExit(parse: ParseOutcome, run: RunOutcome): (end: ProcessEnd)
    ensures end == UnhandledException <==> parse == Failed(EmptyArgument)
    ensures end == ExitCode(0) <==> parse.Parsed? && run != Returned(false)
    ensures end == ExitCode(1) <==> (parse.Failed? && parse.error != EmptyArgument) || (parse.Parsed? && run == Returned(false))
  {
    if parse == Failed(EmptyArgument) then UnhandledException
    else
      var result := parse.Parsed?;
      var result' := if result then (match run case Returned(b) => b case Threw => result) else result;
      ExitCode(if result' then 0 else 1)
  }

  /** An exception while creating the Azure resources still ends `Main` with exit code 0. */
  lemma RunExceptionExitsZero()
    ensures MainExit(Parsed, Threw) == ExitCode(0)
  {
  }

  /**
   * `Main` as evidently intended: exit code 0 exactly when parsing succeeded
   * and `Run` returned true; any failure, including an exception from `Run`,
   * gives 1.
   */
  function IntendedMainExit(parse: ParseOutcome, run: RunOutcome): (end: ProcessEnd)
    ensures end == UnhandledException <==> parse == Failed(EmptyArgument)
    ensures end == ExitCode(0) <==> parse.Parsed? && run == Returned(true)
    ensures end.ExitCode? ==> end.code == 0 || end.code == 1
  {
    if parse == Failed(EmptyArgument) then UnhandledException
    else ExitCode(if parse.Parsed? && run == Returned(true) then 0 else 1)
  }

  /** The two agree except when `Run` throws after a successful parse. */
  lemma IntendedDiffersOnlyOnRunException(parse: ParseOutcome, run: RunOutcome)
    ensures IntendedMainExit(parse, run) != MainExit(parse, run) <==> parse.Parsed? && run.Threw?
  {
  }
}
