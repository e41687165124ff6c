/**
 * Resource naming, name validation, and the strings that `batch_creation.py`
 * writes to the configuration file or hands to the Azure CLI. Every CLI call is
 * replaced by the outcome it produced and every `input()` prompt by the text the
 * user typed; the configuration template is reduced to whether it exists and
 * the one value of it that is read back (`ACR PLATFORM`).
 */
module BatchCreation {
  import opened Wrappers
  import opened Strings
  import opened Seqs

  // --- azure_cli_run -------------------------------------------------------

  /** What one CLI invocation left in `cli.result`: its output when that is truthy, and the message of its error, if any. */
  datatype CliOutcome = CliOutcome(result: Option<string>, error: Option<string>)

  /** What `azure_cli_run` returns: the CLI's output, or `True`. */
  datatype CliValue = Output(output: string) | Done

  /** The argument vector the CLI is invoked with, `cmd.split()`. */
  function CliArguments(cmd: string): seq<string> {
    Words(cmd)
  }

  /** `any(msg in message for msg in all_messages)`. */
  predicate KnownError(message: string, known: seq<string>) {
    exists i :: 0 <= i < |known| && Contains(message, known[i])
  }

  /**
   * `azure_cli_run`, given the outcome of invoking the CLI on `CliArguments(cmd)`:
   * a truthy result is returned; an error whose message contains a known message
   * is only logged; any other error is raised (`Err` carries its message); in
   * every case that does not return or raise, the answer is `True`.
   */
  function AzureCliRun(known: seq<string>, outcome: CliOutcome): (r: Result<CliValue, string>)
    ensures (r.Ok? && r.value.Output?) <==> outcome.result.Some?
    ensures outcome.result.Some? ==> r == Ok(Output(outcome.result.value))
    ensures r.Err? <==> outcome.result.None? && outcome.error.Some? && !KnownError(outcome.error.value, known)
    ensures r.Err? ==> r.error == outcome.error.value
    ensures r == Ok(Done) <==> outcome.result.None? && (outcome.error.None? || KnownError(outcome.error.value, known))
  {
    if outcome.result.Some? then Ok(Output(outcome.result.value))
    else if outcome.error.Some? && !KnownError(outcome.error.value, known) then Err(outcome.error.value)
    else Ok(Done)
  }

  /** Listing more known messages never turns a call that returned into one that raises, nor changes what it returns. */
  lemma AzureCliRunMoreKnown(known: seq<string>, more: seq<string>, outcome: CliOutcome)
    requires forall m :: m in known ==> m in more
    ensures AzureCliRun(known, outcome).Ok? ==> AzureCliRun(more, outcome) == AzureCliRun(known, outcome)
  {
    if outcome.result.None? && outcome.error.Some? && KnownError(outcome.error.value, known) {
      var i :| 0 <= i < |known| && Contains(outcome.error.value, known[i]);
      assert known[i] in more;
      var j :| 0 <= j < |more| && more[j] == known[i];
      assert KnownError(outcome.error.value, more);
    }
  }

  // --- str_check and auto-conversion ---------------------------------------

  /** Only lowercase ASCII letters and digits. */
  predicate LowerAlnum(s: string) {
    forall i :: 0 <= i < |s| ==> IsLower(s[i]) || IsDigit(s[i])
  }

  /** A name `str_check` accepts. */
  predicate ValidResourceName(s: string) {
    3 <= |s| <= 24 && LowerAlnum(s)
  }

  /** `str_check(input_str)`: true (reject) unless the name is 3 to 24 lowercase letters and digits. */
  method StrCheck(inputStr: string) returns (reject: bool)
    ensures reject <==> !ValidResourceName(inputStr)
  {
    reject := false;
    if !IsAlnum(inputStr) {
      reject := true;
    }
    if HasUpper(inputStr) {
      reject := true;
    }
    if |inputStr| >= 25 || |inputStr| < 3 {
      reject := true;
    }
  }

  /** `re.sub("[\W_]+", "", s)` over ASCII: every character that is not a letter or a digit is removed. */
  function KeepAlnum(s: string): (r: string)
    ensures |r| <= |s|
    ensures forall i :: 0 <= i < |r| ==> IsAlnumChar(r[i])
    ensures forall c :: c in r <==> c in s && IsAlnumChar(c)
    ensures (forall i :: 0 <= i < |s| ==> IsAlnumChar(s[i])) ==> r == s
    decreases |s|
  {
    if s == [] then []
    else
      var rest := KeepAlnum(s[1..]);
      assert s == [s[0]] + s[1..];
      if IsAlnumChar(s[0]) then [s[0]] + rest else rest
  }

  /** The auto-conversion of a rejected resource-group name: lowercase it, then drop everything but letters and digits. */
  function AutoConvert(s: string): (r: string)
    ensures |r| <= |s|
    ensures LowerAlnum(r)
  {
    KeepAlnum(Lower(s))
  }

  /** `re.sub` works left to right: the kept characters of a concatenation are those of each part, in order. */
  lemma {:induction false} KeepAlnumAppend(a: string, b: string)
    ensures KeepAlnum(a + b) == KeepAlnum(a) + KeepAlnum(b)
    decreases |a|
  {
    if a == [] {
      assert a + b == b;
    } else {
      assert (a + b)[0] == a[0];
      assert (a + b)[1..] == a[1..] + b;
      KeepAlnumAppend(a[1..], b);
      if IsAlnumChar(a[0]) {
        AppendAssoc([a[0]], KeepAlnum(a[1..]), KeepAlnum(b));
      }
    }
  }

  /** One character is kept exactly when it is a letter or a digit. */
  lemma KeepAlnumChar(c: char)
    ensures KeepAlnum([c]) == if IsAlnumChar(c) then [c] else []
  {
    assert [c][1..] == [];
  }

  /** Lower-casing works character by character. */
  lemma LowerAppend(a: string, b: string)
    ensures Lower(a + b) == Lower(a) + Lower(b)
  {
    assert forall i :: 0 <= i < |a + b| ==> Lower(a + b)[i] == (Lower(a) + Lower(b))[i];
  }

  /** Auto-conversion of a concatenation converts each part: the letters and digits keep their order. */
  lemma AutoConvertAppend(a: string, b: string)
    ensures AutoConvert(a + b) == AutoConvert(a) + AutoConvert(b)
  {
    LowerAppend(a, b);
    KeepAlnumAppend(Lower(a), Lower(b));
  }

  /** One character converts to its lower-case form when it is a letter or a digit, and to nothing otherwise. */
  lemma AutoConvertChar(c: char)
    ensures AutoConvert([c]) == if IsAlnumChar(c) then [LowerChar(c)] else []
  {
    assert Lower([c]) == [LowerChar(c)];
    KeepAlnumChar(LowerChar(c));
  }

  lemma LowerOfLowerAlnum(s: string)
    requires LowerAlnum(s)
    ensures Lower(s) == s
  {
    assert forall i :: 0 <= i < |s| ==> Lower(s)[i] == s[i];
  }

  /** Auto-conversion leaves a name that `str_check` accepts unchanged. */
  lemma AutoConvertKeepsValidNames(s: string)
    requires ValidResourceName(s)
    ensures AutoConvert(s) == s
  {
    LowerOfLowerAlnum(s);
  }

  /** Converting twice gives what converting once gives. */
  lemma AutoConvertIdempotent(s: string)
    ensures AutoConvert(AutoConvert(s)) == AutoConvert(s)
  {
    var r := AutoConvert(s);
    LowerOfLowerAlnum(r);
  }

  /** The converted name is not checked again: a short name stays too short for `str_check`. */
  lemma AutoConvertCanStillBeRejected(s: string)
    requires |s| < 3
    ensures !ValidResourceName(AutoConvert(s))
  {
  }

  // --- resource names in create_resources ------------------------------------

  datatype ResourceNames = ResourceNames(rg: string, acr: string, store: string, batch: string, appInsights: string, rgLoc: string)

  datatype CreateError =
    | NameNotLowercaseAlnum
    | NoConfigFile(path: string)
    | EmptyDockerfile
    | UnknownPlatform(platform: string)
    | CliFailed(message: string)             // an error `azure_cli_run` raises

  /**
   * The arguments of `create_resources` that the model uses. An empty string is a
   * name that was not given (`None` or ""), as the source tests each with `not`.
   */
  datatype CreateArgs = CreateArgs(
    rg: string, acr: string, store: string, batch: string, appInsights: string,
    loc: string, rgLoc: string, confFile: string,
    createFileshare: bool, createAppInsights: bool, alwaysAsk: bool, autoConvert: bool)

  /** What the user types at the resource-group prompt and at the ACR prompt (the latter only under `always_ask`). */
  datatype Prompts = Prompts(rg: string, acr: string)

  /** The resource-group name `create_resources` settles on: the given one, else the prompted one, converted if `str_check` rejects it. */
  function ResourceGroup(args: CreateArgs, prompts: Prompts): (r: Result<string, CreateError>)
    ensures r.Err? <==> args.rg == "" && !ValidResourceName(prompts.rg) && !args.autoConvert
    ensures r.Err? ==> r.error == NameNotLowercaseAlnum
    ensures r.Ok? && args.rg != "" ==> r.value == args.rg
    ensures r.Ok? && args.rg == "" ==> LowerAlnum(r.value)
    ensures r.Ok? && args.rg == "" && ValidResourceName(prompts.rg) ==> r.value == prompts.rg
    ensures r.Ok? && args.rg == "" && !ValidResourceName(prompts.rg) ==> r.value == AutoConvert(prompts.rg)
  {
    if args.rg != "" then Ok(args.rg)
    else if ValidResourceName(prompts.rg) then Ok(prompts.rg)
    else if !args.autoConvert then Err(NameNotLowercaseAlnum)
    else Ok(AutoConvert(prompts.rg))
  }

  /** The names `create_resources` derives from the resource group: explicit ones are kept, except that `always_ask` prompts for the ACR name even when one was given. */
  function DerivedNames(args: CreateArgs, prompts: Prompts): (r: Result<ResourceNames, CreateError>)
    ensures r.Err? <==> ResourceGroup(args, prompts).Err?
    ensures r.Err? ==> r.error == NameNotLowercaseAlnum
    ensures r.Ok? ==> r.value.rg == ResourceGroup(args, prompts).value
    ensures r.Ok? && args.alwaysAsk ==> r.value.acr == prompts.acr
    ensures r.Ok? && !args.alwaysAsk && args.acr != "" ==> r.value.acr == args.acr
    ensures r.Ok? && args.store != "" ==> r.value.store == args.store
    ensures r.Ok? && args.batch != "" ==> r.value.batch == args.batch
    ensures r.Ok? && args.appInsights != "" ==> r.value.appInsights == args.appInsights
    ensures r.Ok? ==> r.value.rgLoc == if args.rgLoc != "" then args.rgLoc else args.loc
  {
    match ResourceGroup(args, prompts)
    case Err(e) => Err(e)
    case Ok(rg) =>
      Ok(ResourceNames(
        rg,
        if args.alwaysAsk then prompts.acr else if args.acr != "" then args.acr else rg + "acr",
        if args.store != "" then args.store else rg + "store",
        if args.batch != "" then args.batch else rg + "batch",
        if args.appInsights != "" then args.appInsights else rg + "insights",
        if args.rgLoc != "" then args.rgLoc else args.loc))
  }

  /** The name variables of `create_resources`, reassigned one after the other as the source does. */
  method ResolveNames(args: CreateArgs, prompts: Prompts) returns (r: Result<ResourceNames, CreateError>)
    ensures r == DerivedNames(args, prompts)
  {
    var rg := args.rg;
    if rg == "" {
      rg := prompts.rg;
      var reject := StrCheck(rg);
      if reject && !args.autoConvert {
        return Err(NameNotLowercaseAlnum);
      } else if reject && args.autoConvert {
        rg := AutoConvert(rg);
      }
    }
    var acr := args.acr;
    if acr == "" && !args.alwaysAsk {
      acr := rg + "acr";
    } else if args.alwaysAsk {
      acr := prompts.acr;
    }
    var store := if args.store == "" then rg + "store" else args.store;
    var batch := if args.batch == "" then rg + "batch" else args.batch;
    var appInsights := if args.appInsights == "" then rg + "insights" else args.appInsights;
    var rgLoc := if args.rgLoc == "" then args.loc else args.rgLoc;
    r := Ok(ResourceNames(rg, acr, store, batch, appInsights, rgLoc));
  }

  lemma LowerAlnumConcat(a: string, b: string)
    requires LowerAlnum(a) && LowerAlnum(b)
    ensures LowerAlnum(a + b)
  {
    assert forall i :: |a| <= i < |a + b| ==> (a + b)[i] == b[i - |a|];
  }

  /** The four default names made from one resource group are pairwise distinct. */
  lemma DefaultNamesDistinct(rg: string)
    ensures rg + "acr" != rg + "store" && rg + "acr" != rg + "batch" && rg + "acr" != rg + "insights"
    ensures rg + "store" != rg + "batch" && rg + "store" != rg + "insights"
    ensures rg + "batch" != rg + "insights"
  {
    assert (rg + "store")[|rg|] == 's';
    assert (rg + "batch")[|rg|] == 'b';
  }

  /** Names derived for a defaulted resource group are distinct resources, and when the group was prompted for, all of them are lowercase letters and digits. */
  lemma DerivedDefaultNames(args: CreateArgs, prompts: Prompts)
    requires DerivedNames(args, prompts).Ok?
    requires args.acr == "" && !args.alwaysAsk && args.store == "" && args.batch == "" && args.appInsights == ""
    ensures var n := DerivedNames(args, prompts).value;
      n.acr == n.rg + "acr" && n.store == n.rg + "store" && n.batch == n.rg + "batch" && n.appInsights == n.rg + "insights"
    ensures var n := DerivedNames(args, prompts).value;
      n.acr != n.store && n.acr != n.batch && n.acr != n.appInsights && n.store != n.batch && n.store != n.appInsights && n.batch != n.appInsights
    ensures var n := DerivedNames(args, prompts).value;
      args.rg == "" ==> LowerAlnum(n.acr) && LowerAlnum(n.store) && LowerAlnum(n.batch) && LowerAlnum(n.appInsights)
  {
    var n := DerivedNames(args, prompts).value;
    DefaultNamesDistinct(n.rg);
    if args.rg == "" {
      LowerAlnumConcat(n.rg, "acr");
      LowerAlnumConcat(n.rg, "store");
      LowerAlnumConcat(n.rg, "batch");
      LowerAlnumConcat(n.rg, "insights");
    }
  }

  // --- write_azure_config ----------------------------------------------------

  /** What the three credential lookups of `AzExtract` return. */
  datatype AccountKeys = AccountKeys(batchKey: string, storeKey: string, acrPassword: string)

  /** The keys `write_azure_config` sets, and the template's `ACR PLATFORM`, which it copies through. */
  datatype WrittenConfig = WrittenConfig(
    groupName: string, groupLocation: string,
    batchLocation: string, batchAccountKey: string, batchAccountName: string, batchAccountUrl: string,
    storageLocation: string, storageAccountName: string, storageAccountKey: string,
    acrLocation: string, acrServer: string, acrUserName: string, acrPassword: string,
    acrPlatform: string)

  const NoStorage := "no-storage"
  const NoStorageKey := "no-storage-key"
  const RegistryDomain := ".azurecr.io"

  function BatchAccountUrl(batch: string, loc: string): string {
    "https://" + batch + "." + loc + ".batch.azure.com"
  }

  /**
   * `write_azure_config`: an empty `store` stands for no storage account. The
   * configuration template must exist; `templatePlatform` is its `ACR PLATFORM`.
   */
  function WriteAzureConfig(
    rg: string, acr: string, store: string, batch: string, loc: string, rgLoc: string,
    configFile: string, configFound: bool, templatePlatform: string, keys: AccountKeys): (r: Result<WrittenConfig, CreateError>)
    ensures r.Err? <==> !configFound
    ensures r.Err? ==> r.error == NoConfigFile(configFile)
    ensures r.Ok? ==> r.value.groupName == rg && r.value.groupLocation == rgLoc
    ensures r.Ok? ==> r.value.batchLocation == loc && r.value.storageLocation == loc && r.value.acrLocation == loc
    ensures r.Ok? ==> r.value.batchAccountName == batch && r.value.batchAccountKey == keys.batchKey
    ensures r.Ok? ==> r.value.batchAccountUrl == BatchAccountUrl(batch, loc)
    ensures r.Ok? && store == "" ==> r.value.storageAccountName == NoStorage && r.value.storageAccountKey == NoStorageKey
    ensures r.Ok? && store != "" ==> r.value.storageAccountName == store && r.value.storageAccountKey == keys.storeKey
    ensures r.Ok? ==> r.value.acrUserName == acr && r.value.acrServer == r.value.acrUserName + RegistryDomain
    ensures r.Ok? ==> r.value.acrPassword == keys.acrPassword && r.value.acrPlatform == templatePlatform
  {
    var storeName := if store != "" then store else NoStorage;
    var storeKey := if store != "" then keys.storeKey else NoStorageKey;
    if !configFound then Err(NoConfigFile(configFile))
    else
      Ok(WrittenConfig(
        rg, rgLoc,
        loc, keys.batchKey, batch, BatchAccountUrl(batch, loc),
        loc, storeName, storeKey,
        loc, acr + RegistryDomain, acr, keys.acrPassword,
        templatePlatform))
  }

  /** The registry server determines the registry name: distinct registries get distinct servers. */
  lemma RegistryServerInjective(a: string, b: string)
    requires a + RegistryDomain == b + RegistryDomain
    ensures a == b
  {
    assert |a| == |b|;
    assert a == (a + RegistryDomain)[..|a|];
    assert b == (b + RegistryDomain)[..|b|];
  }

  // --- file share and batch insights -----------------------------------------

  const FileshareName := "azfileshare"
  const LinuxInsightsUrl := "https://github.com/Azure/batch-insights/releases/download/v1.3.0/batch-insights"

  /** The `STORAGE URL` of the share created for `account`. */
  function FileshareUrl(account: string): string {
    "https://" + account + ".file.core.windows.net/" + FileshareName
  }

  /** Distinct storage accounts get distinct share URLs. */
  lemma FileshareUrlInjective(a: string, b: string)
    requires FileshareUrl(a) == FileshareUrl(b)
    ensures a == b
  {
    var suffix := ".file.core.windows.net/" + FileshareName;
    assert FileshareUrl(a) == "https://" + (a + suffix);
    assert FileshareUrl(b) == "https://" + (b + suffix);
    CancelPrefix("https://", a + suffix, b + suffix);
    assert |a| == |b|;
    assert a == (a + suffix)[..|a|];
    assert b == (b + suffix)[..|b|];
  }

  /** `storage share create --account-name {0} --account-key {1} --name {2} --quota 1024`. */
  function ShareCreateCommand(account: string, key: string): string {
    JoinSpaced(["storage", "share", "create", "--account-name", account, "--account-key", key, "--name", FileshareName, "--quota", "1024"])
  }

  /** The download URL of batch insights for the configured platform; any platform other than "linux" or "windows" raises. */
  function InsightsUrl(platform: string): (r: Result<string, CreateError>)
    ensures r.Ok? <==> platform == "linux" || platform == "windows"
    ensures platform == "linux" ==> r == Ok(LinuxInsightsUrl)
    ensures platform == "windows" ==> r == Ok(LinuxInsightsUrl + ".exe")
    ensures r.Err? ==> r.error == UnknownPlatform(platform)
  {
    if platform == "linux" then Ok(LinuxInsightsUrl)
    else if platform == "windows" then Ok(LinuxInsightsUrl + ".exe")
    else Err(UnknownPlatform(platform))
  }

  // --- create_resources ------------------------------------------------------

  /** What `create_app_insight` returns: the component's instrumentation key and application id. */
  datatype InsightsInfo = InsightsInfo(instrumentationKey: string, appId: string)

  datatype InsightsSection = InsightsSection(instrumentationKey: string, appId: string, downloadUrl: string)

  datatype FileshareSection = FileshareSection(name: string, url: string)

  /** The configuration `create_resources` leaves behind; `None` sections keep the template's values. */
  datatype CreatedResources = CreatedResources(
    names: ResourceNames, config: WrittenConfig,
    insights: Option<InsightsSection>, fileshare: Option<FileshareSection>)

  /**
   * `create_resources` without the CLI calls that create the resources: it
   * settles the names, writes the configuration, adds the insights section when
   * asked (the platform comes from the template) and then the file share, whose
   * `storage share create` call (`ShareCreateCommand` on the written account
   * name and key) `azure_cli_run` classifies from `shareOutcome`.
   */
  method CreateResources(
    args: CreateArgs, prompts: Prompts, configFound: bool, templatePlatform: string,
    keys: AccountKeys, insightsInfo: InsightsInfo, known: seq<string>, shareOutcome: CliOutcome)
    returns (r: Result<CreatedResources, CreateError>)
    ensures r.Err? <==>
      DerivedNames(args, prompts).Err? || !configFound ||
      (args.createAppInsights && InsightsUrl(templatePlatform).Err?) ||
      (args.createFileshare && AzureCliRun(known, shareOutcome).Err?)
    ensures r.Err? && DerivedNames(args, prompts).Err? ==> r.error == NameNotLowercaseAlnum
    ensures r.Err? && DerivedNames(args, prompts).Ok? && !configFound ==> r.error == NoConfigFile(args.confFile)
    ensures r.Err? && DerivedNames(args, prompts).Ok? && configFound
            && args.createAppInsights && InsightsUrl(templatePlatform).Err? ==>
              r.error == UnknownPlatform(templatePlatform)
    ensures r.Err? && DerivedNames(args, prompts).Ok? && configFound
            && !(args.createAppInsights && InsightsUrl(templatePlatform).Err?) ==>
              r.error == CliFailed(AzureCliRun(known, shareOutcome).error)
    ensures r.Ok? ==> r.value.names == DerivedNames(args, prompts).value
    ensures r.Ok? ==> r.value.config.storageAccountName == r.value.names.store != ""
    ensures r.Ok? ==> r.value.config.storageAccountKey == keys.storeKey
    ensures r.Ok? ==> r.value.config.groupLocation == r.value.names.rgLoc
    ensures r.Ok? ==> r.value.config
                      == WriteAzureConfig(r.value.names.rg, r.value.names.acr, r.value.names.store, r.value.names.batch,
                                          args.loc, r.value.names.rgLoc, args.confFile, configFound, templatePlatform, keys).value
    ensures r.Ok? ==> (r.value.insights.Some? <==> args.createAppInsights)
    ensures r.Ok? && args.createAppInsights ==>
      r.value.insights.value == InsightsSection(insightsInfo.instrumentationKey, insightsInfo.appId, InsightsUrl(templatePlatform).value)
    ensures r.Ok? ==> (r.value.fileshare.Some? <==> args.createFileshare)
    ensures r.Ok? && args.createFileshare ==>
      r.value.fileshare.value == FileshareSection(FileshareName, FileshareUrl(r.value.names.store))
  {
    var names := ResolveNames(args, prompts);
    if names.Err? {
      return Err(names.error);
    }
    var n := names.value;
    var written := WriteAzureConfig(n.rg, n.acr, n.store, n.batch, args.loc, n.rgLoc, args.confFile, configFound, templatePlatform, keys);
    if written.Err? {
      return Err(written.error);
    }
    var insights := None;
    if args.createAppInsights {
      var url := InsightsUrl(written.value.acrPlatform);
      if url.Err? {
        return Err(url.error);
      }
      insights := Some(InsightsSection(insightsInfo.instrumentationKey, insightsInfo.appId, url.value));
    }
    var fileshare := None;
    if args.createFileshare {
      var created := AzureCliRun(known, shareOutcome);
      if created.Err? {
        return Err(CliFailed(created.error));
      }
      fileshare := Some(FileshareSection(FileshareName, FileshareUrl(written.value.storageAccountName)));
    }
    r := Ok(CreatedResources(n, written.value, insights, fileshare));
  }

  // --- AcrBuild --------------------------------------------------------------

  /** The platform `AcrBuild` builds for: the given one, else read off the Dockerfile's first line (an empty Dockerfile raises). */
  function ChoosePlatform(platform: string, dockerLines: seq<string>): (r: Result<string, CreateError>)
    ensures platform != "" ==> r == Ok(platform)
    ensures platform == "" ==> (r.Err? <==> dockerLines == [])
    ensures r.Err? ==> r.error == EmptyDockerfile
    ensures platform == "" && r.Ok? ==> (r.value == "windows" || r.value == "linux")
    ensures platform == "" && r.Ok? ==> (r.value == "windows" <==> Contains(dockerLines[0], "windows"))
  {
    if platform != "" then Ok(platform)
    else if dockerLines == [] then Err(EmptyDockerfile)
    else if Contains(dockerLines[0], "windows") then Ok("windows")
    else Ok("linux")
  }

  /** A platform read off a Dockerfile is always one the batch insights step accepts. */
  lemma DetectedPlatformHasInsights(dockerLines: seq<string>)
    requires ChoosePlatform("", dockerLines).Ok?
    ensures InsightsUrl(ChoosePlatform("", dockerLines).value).Ok?
  {
  }

  /** `extra_build_args` becomes ` --build-arg X` when given, and nothing otherwise. */
  function BuildArgs(extra: string): string {
    if extra != "" then " " + ("--build-arg" + " " + extra) else ""
  }

  /** The words of the build command before the build-args fragment. */
  function BuildHead(imageName: string, imageVersion: string, registry: string, dockerPath: string, filename: string, platform: string): seq<string> {
    ["acr", "build", "--image", imageName + ":" + imageVersion, "--registry", registry,
     "--file", dockerPath + "/" + filename, dockerPath, "--platform", platform]
  }

  /** `acr build --image {0}:{1} --registry {2} --file {3}/{4} {3} --platform {5} {6} --timeout {7}`. */
  function BuildCommand(
    imageName: string, imageVersion: string, registry: string, dockerPath: string,
    filename: string, platform: string, extra: string, timeout: int): string
  {
    JoinSpaced(BuildHead(imageName, imageVersion, registry, dockerPath, filename, platform))
      + " " + BuildArgs(extra) + " " + "--timeout" + " " + IntToString(timeout)
  }

  class AcrBuild {
    var imageName: string
    var imageVersion: string
    var registry: string
    var platform: string
    var dockerPath: string
    var timeout: int

    /** `AcrBuild.__init__` once the platform is settled (see `NewAcrBuild`). */
    constructor(imageName: string, imageVersion: string, registry: string, platform: string, dockerPath: string, timeout: int)
      ensures this.imageName == imageName && this.imageVersion == imageVersion && this.registry == registry
      ensures this.platform == platform && this.dockerPath == dockerPath && this.timeout == timeout
    {
      this.imageName := imageName;
      this.imageVersion := imageVersion;
      this.registry := registry;
      this.platform := platform;
      this.dockerPath := dockerPath;
      this.timeout := timeout;
    }

    /**
     * `build_image_acr`: a non-zero `timeout` replaces the stored one; the build
     * command is issued and an unknown CLI error propagates. The value of
     * `azure_cli_run` is discarded, so the method returns nothing else.
     */
    method BuildImageAcr(extra: string, filename: string, timeout: int, known: seq<string>, outcome: CliOutcome)
      returns (cmd: string, r: Result<(), string>)
      modifies this`timeout
      ensures this.timeout == if timeout != 0 then timeout else old(this.timeout)
      ensures cmd == BuildCommand(imageName, imageVersion, registry, dockerPath, filename, platform, extra, this.timeout)
      ensures r.Err? <==> AzureCliRun(known, outcome).Err?
      ensures r.Err? ==> r.error == AzureCliRun(known, outcome).error
    {
      if timeout != 0 {
        this.timeout := timeout;
      }
      cmd := BuildCommand(imageName, imageVersion, registry, dockerPath, filename, platform, extra, this.timeout);
      var run := AzureCliRun(known, outcome);
      r := if run.Err? then Err(run.error) else Ok(());
    }
  }

  /** `AcrBuild(...)`, whose platform detection may raise on an empty Dockerfile. */
  method NewAcrBuild(
    imageName: string, imageVersion: string, registry: string, platform: string,
    dockerPath: string, timeout: int, dockerLines: seq<string>) returns (r: Result<AcrBuild, CreateError>)
    ensures r.Err? <==> ChoosePlatform(platform, dockerLines).Err?
    ensures r.Err? ==> r.error == EmptyDockerfile
    ensures r.Ok? ==> fresh(r.value) && r.value.platform == ChoosePlatform(platform, dockerLines).value
    ensures r.Ok? ==> r.value.imageName == imageName && r.value.imageVersion == imageVersion && r.value.registry == registry
    ensures r.Ok? ==> r.value.dockerPath == dockerPath && r.value.timeout == timeout
  {
    var p := ChoosePlatform(platform, dockerLines);
    if p.Err? {
      return Err(p.error);
    }
    var b := new AcrBuild(imageName, imageVersion, registry, p.value, dockerPath, timeout);
    r := Ok(b);
  }

  // --- the argument vectors the CLI receives ----------------------------------

  /** A space, a flag and its value split into the flag followed by the words of the value. */
  lemma FlagWords(flag: string, value: string)
    requires IsToken(flag)
    ensures Words(" " + (flag + " " + value)) == [flag] + Words(value)
  {
    var t := flag + " " + value;
    WordsOfToken(flag);
    WordsSpaceConcat(flag, value);
    WordsAtSpace(" " + t);
    assert (" " + t)[1..] == t;
  }

  /** The build-args fragment adds the words `--build-arg` and those of `extra` when given, and no word otherwise. */
  lemma BuildArgsWords(extra: string)
    ensures Words(BuildArgs(extra)) == if extra != "" then ["--build-arg"] + Words(extra) else []
  {
    if extra != "" {
      FlagWords("--build-arg", extra);
    }
  }

  /** With whitespace-free fields, the head of the build command splits into exactly its words. */
  lemma BuildHeadWords(imageName: string, imageVersion: string, registry: string, dockerPath: string, filename: string, platform: string)
    requires IsToken(imageName) && IsToken(imageVersion) && IsToken(registry)
    requires IsToken(dockerPath) && IsToken(filename) && IsToken(platform)
    ensures Words(JoinSpaced(BuildHead(imageName, imageVersion, registry, dockerPath, filename, platform)))
      == BuildHead(imageName, imageVersion, registry, dockerPath, filename, platform)
  {
    TokenConcat(imageName, ":");
    TokenConcat(imageName + ":", imageVersion);
    TokenConcat(dockerPath, "/");
    TokenConcat(dockerPath + "/", filename);
    var head := BuildHead(imageName, imageVersion, registry, dockerPath, filename, platform);
    assert forall i :: 0 <= i < |head| ==> IsToken(head[i]);
    WordsJoinSpaced(head);
  }

  lemma TimeoutWords(timeout: int)
    ensures Words("--timeout" + " " + IntToString(timeout)) == ["--timeout", IntToString(timeout)]
  {
    WordsOfToken("--timeout");
    IntToStringIsToken(timeout);
    WordsOfToken(IntToString(timeout));
    WordsSpaceConcat("--timeout", IntToString(timeout));
  }

  lemma WordsOfThreeParts(a: string, b: string, c: string)
    ensures Words(a + " " + b + " " + c) == Words(a) + Words(b) + Words(c)
  {
    WordsSpaceConcat(a, b);
    WordsSpaceConcat(a + " " + b, c);
  }

  /**
   * The arguments `azure_cli_run` passes for a build: the fixed layout with each
   * field in place, and the build-args words only when given.
   */
  lemma BuildCommandArguments(
    imageName: string, imageVersion: string, registry: string, dockerPath: string,
    filename: string, platform: string, extra: string, timeout: int)
    requires IsToken(imageName) && IsToken(imageVersion) && IsToken(registry)
    requires IsToken(dockerPath) && IsToken(filename) && IsToken(platform)
    ensures CliArguments(BuildCommand(imageName, imageVersion, registry, dockerPath, filename, platform, extra, timeout))
      == BuildHead(imageName, imageVersion, registry, dockerPath, filename, platform)
         + (if extra != "" then ["--build-arg"] + Words(extra) else []) + ["--timeout", IntToString(timeout)]
  {
    var head := JoinSpaced(BuildHead(imageName, imageVersion, registry, dockerPath, filename, platform));
    var tail := "--timeout" + " " + IntToString(timeout);
    assert BuildCommand(imageName, imageVersion, registry, dockerPath, filename, platform, extra, timeout)
      == head + " " + BuildArgs(extra) + " " + tail;
    WordsOfThreeParts(head, BuildArgs(extra), tail);
    BuildHeadWords(imageName, imageVersion, registry, dockerPath, filename, platform);
    TimeoutWords(timeout);
    BuildArgsWords(extra);
  }

  /** The arguments of the share-creation command, for an account name and key without whitespace. */
  lemma ShareCreateArguments(account: string, key: string)
    requires IsToken(account) && IsToken(key)
    ensures CliArguments(ShareCreateCommand(account, key))
      == ["storage", "share", "create", "--account-name", account, "--account-key", key, "--name", FileshareName, "--quota", "1024"]
  {
    var ps := ["storage", "share", "create", "--account-name", account, "--account-key", key, "--name", FileshareName, "--quota", "1024"];
    assert forall i :: 0 <= i < |ps| ==> IsToken(ps[i]);
    WordsJoinSpaced(ps);
  }
}
