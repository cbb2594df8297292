/**
 * The decisions behind the Safe Browsing interstitial.
 *
 * `SafeBrowsingBlockingPage` is created for a list of unsafe resources of
 * one tab.  It classifies the threats, decides whether the main-frame load
 * is blocked, picks the page version from the trial condition, and then
 * reacts to the commands its page sends: quoted command strings, some of
 * them with an element index ("reportError:2").  It records the user's
 * reaction time at most once per display, and on proceed or don't-proceed
 * it tells the UI manager and handles the resources that were queued for
 * the tab while it was showing.
 *
 * The command line and the field trial, the preferences, the navigation
 * controller and the clock become parameters or fields; histograms become
 * values the page logs; notifications to the UI manager become results.
 */
module SafeBrowsingBlockingPage {
  import opened Wrappers
  import opened Strings

  datatype ThreatType =
    | Safe
    | UrlPhishing
    | UrlMalware
    | BinaryMalwareUrl
    | ClientSidePhishingUrl
    | ClientSideMalwareUrl

  /** A tab, named by its render process host id and render view id. */
  datatype Tab = Tab(renderProcessHostId: int, renderViewId: int)

  datatype UnsafeResource = UnsafeResource(url: string, isSubresource: bool, threatType: ThreatType, tab: Tab)

  predicate IsMalwareThreat(t: ThreatType)
  {
    t == UrlMalware || t == ClientSideMalwareUrl
  }

  predicate IsPhishingThreat(t: ThreatType)
  {
    t == UrlPhishing || t == ClientSidePhishingUrl
  }

  // ---------------------------------------------------------------------
  // Commands sent by the page
  // ---------------------------------------------------------------------

  const DoReportCommand := "doReport"
  const DontReportCommand := "dontReport"
  const ExpandedSeeMoreCommand := "expandedSeeMore"
  const LearnMoreCommand := "learnMore"
  const LearnMoreCommandV2 := "learnMore2"
  const ProceedCommand := "proceed"
  const ReportErrorCommand := "reportError"
  const ShowDiagnosticCommand := "showDiagnostic"
  const ShowPrivacyCommand := "showPrivacy"
  const TakeMeBackCommand := "takeMeBack"
  /** Used only for the reaction time, when the user navigated away. */
  const NavigatedAwayMetaCommand := "closed"

  const LearnMoreMalwareUrl :=
    "https://www.google.com/support/bin/answer.py?answer=45449&topic=360&sa=X&oi=malwarewarninglink&resnum=1&ct=help"
  const LearnMoreMalwareUrlV2 := "https://www.google.com/transparencyreport/safebrowsing/"
  const LearnMorePhishingUrlV2 := "https://www.google.com/transparencyreport/safebrowsing/"
  const LearnMorePhishingUrl := "https://www.google.com/support/bin/answer.py?answer=106318"

  /** The delay before the malware details are sent after "proceed anyway". */
  const MalwareDetailsProceedDelayMilliSeconds := 3000

  // ---------------------------------------------------------------------
  // Trial condition and page version
  // ---------------------------------------------------------------------

  datatype TrialCondition = CondV2 | CondV3 | CondV3Advice | CondV3Social | CondV3NotRecommend | CondV3History

  const V3StudyName := "MalwareInterstitialVersion"

  function ConditionName(c: TrialCondition): string
  {
    match c
    case CondV2 => "V2"
    case CondV3 => "V3"
    case CondV3Advice => "V3Advice"
    case CondV3Social => "V3Social"
    case CondV3NotRecommend => "V3NotRecommend"
    case CondV3History => "V3History"
  }

  /** The position of a condition in the order its switch and its group name are tried. */
  function Rank(c: TrialCondition): nat
  {
    match c
    case CondV2 => 0
    case CondV3 => 1
    case CondV3Advice => 2
    case CondV3Social => 3
    case CondV3NotRecommend => 4
    case CondV3History => 5
  }

  /**
   * The interstitial trial condition.  `switches` holds the conditions
   * whose command-line switch is present; `fieldTrial` is the group name of
   * the "MalwareInterstitialVersion" study.  A switch wins over the field
   * trial, and the first switch in order wins over later ones.
   */
  function GetTrialCondition(switches: set<TrialCondition>, fieldTrial: string): (r: TrialCondition)
    ensures forall c :: c in switches ==> r in switches && Rank(r) <= Rank(c)
    ensures switches == {} ==> r == FieldTrialCondition(fieldTrial)
  {
    if CondV2 in switches then CondV2
    else if CondV3 in switches then CondV3
    else if CondV3Advice in switches then CondV3Advice
    else if CondV3Social in switches then CondV3Social
    else if CondV3NotRecommend in switches then CondV3NotRecommend
    else if CondV3History in switches then CondV3History
    else
      NoKnownSwitch(switches);
      FieldTrialCondition(fieldTrial)
  }

  /** Every switch names one of the six conditions, so none of them present means no switch at all. */
  lemma NoKnownSwitch(switches: set<TrialCondition>)
    requires CondV2 !in switches && CondV3 !in switches && CondV3Advice !in switches
    requires CondV3Social !in switches && CondV3NotRecommend !in switches && CondV3History !in switches
    ensures switches == {}
  {
    forall c | c in switches
      ensures false
    {
      match c
      case CondV2 => assert false;
      case CondV3 => assert false;
      case CondV3Advice => assert false;
      case CondV3Social => assert false;
      case CondV3NotRecommend => assert false;
      case CondV3History => assert false;
    }
  }

  /** The field trial's group when it names a known condition, and V3 otherwise. */
  function FieldTrialCondition(fieldTrial: string): (r: TrialCondition)
    ensures forall c :: ConditionName(c) == fieldTrial ==> r == c
    ensures (forall c :: ConditionName(c) != fieldTrial) ==> r == CondV3
  {
    if fieldTrial == ConditionName(CondV2) then CondV2
    else if fieldTrial == ConditionName(CondV3) then CondV3
    else if fieldTrial == ConditionName(CondV3Advice) then CondV3Advice
    else if fieldTrial == ConditionName(CondV3Social) then CondV3Social
    else if fieldTrial == ConditionName(CondV3NotRecommend) then CondV3NotRecommend
    else if fieldTrial == ConditionName(CondV3History) then CondV3History
    else CondV3
  }

  /** The condition is always one of the known ones, so its name reads back as itself. */
  lemma ConditionNameRoundTrip(c: TrialCondition)
    ensures FieldTrialCondition(ConditionName(c)) == c
  {
  }

  /** Once a switch is present, the field trial no longer matters. */
  lemma SwitchesOverrideFieldTrial(switches: set<TrialCondition>, a: string, b: string)
    requires switches != {}
    ensures GetTrialCondition(switches, a) == GetTrialCondition(switches, b)
  {
    var ra, rb := GetTrialCondition(switches, a), GetTrialCondition(switches, b);
    assert Rank(ra) <= Rank(rb) && Rank(rb) <= Rank(ra);
  }

  datatype PageVersion = PageV1 | PageV2 | PageV3

  /**
   * The page the default factory builds: V2 or V3 only for a single
   * malware or phishing resource (V2 exactly when the trial condition is
   * V2), and the multi-threat V1 page for everything else.
   */
  function ChoosePageVersion(resources: seq<UnsafeResource>, condition: TrialCondition): (v: PageVersion)
    ensures v != PageV1 <==>
              |resources| == 1 && (IsMalwareThreat(resources[0].threatType) || IsPhishingThreat(resources[0].threatType))
    ensures v == PageV2 <==> v != PageV1 && condition == CondV2
  {
    if |resources| == 1 && (IsMalwareThreat(resources[0].threatType) || IsPhishingThreat(resources[0].threatType)) then
      if condition == CondV2 then PageV2 else PageV3
    else
      PageV1
  }

  // ---------------------------------------------------------------------
  // Classification
  // ---------------------------------------------------------------------

  datatype InterstitialType = TypeMalwareAndPhishing | TypeMalware | TypePhishing

  ghost predicate HasMalware(resources: seq<UnsafeResource>)
  {
    exists i :: 0 <= i < |resources| && IsMalwareThreat(resources[i].threatType)
  }

  /** Every threat that is not malware counts as phishing. */
  ghost predicate HasPhishing(resources: seq<UnsafeResource>)
  {
    exists i :: 0 <= i < |resources| && !IsMalwareThreat(resources[i].threatType)
  }

  /** What the interstitial type says about the threats it covers. */
  ghost predicate ClassifiedAs(resources: seq<UnsafeResource>, t: InterstitialType)
  {
    match t
    case TypeMalwareAndPhishing => HasMalware(resources) && HasPhishing(resources)
    case TypeMalware => HasMalware(resources) && !HasPhishing(resources)
    case TypePhishing => !HasMalware(resources)
  }

  /** The constructor's loop over the resources: malware and phishing together, malware alone, or phishing. */
  method ClassifyThreats(resources: seq<UnsafeResource>) returns (t: InterstitialType)
    ensures ClassifiedAs(resources, t)
  {
    var malware, phishing := false, false;
    for i := 0 to |resources|
      invariant malware <==> HasMalware(resources[..i])
      invariant phishing <==> HasPhishing(resources[..i])
    {
      assert resources[..i + 1] == resources[..i] + [resources[i]];
      if IsMalwareThreat(resources[i].threatType) {
        malware := true;
        assert resources[..i + 1][i] == resources[i];
      } else {
        phishing := true;
        assert resources[..i + 1][i] == resources[i];
      }
      assert forall j :: 0 <= j < i ==> resources[..i + 1][j] == resources[..i][j];
    }
    assert resources[..|resources|] == resources;
    if malware && phishing {
      t := TypeMalwareAndPhishing;
    } else if malware {
      t := TypeMalware;
    } else {
      t := TypePhishing;
    }
  }

  /** Exactly one interstitial type describes a list of resources. */
  lemma ClassificationUnique(resources: seq<UnsafeResource>, a: InterstitialType, b: InterstitialType)
    requires ClassifiedAs(resources, a) && ClassifiedAs(resources, b)
    ensures a == b
  {
  }

  /**
   * Whether the main-frame load is held back by the interstitial: never
   * for client-side phishing (the page has already loaded), and otherwise
   * only for a single resource that is not a subresource.
   */
  function IsMainPageLoadBlocked(resources: seq<UnsafeResource>): (blocked: bool)
    requires |resources| >= 1
    ensures resources[0].threatType == ClientSidePhishingUrl ==> !blocked
    ensures blocked ==> |resources| == 1 && !resources[0].isSubresource
    ensures |resources| == 1 && !resources[0].isSubresource && resources[0].threatType != ClientSidePhishingUrl ==> blocked
  {
    if resources[0].threatType == ClientSidePhishingUrl then false
    else |resources| == 1 && !resources[0].isSubresource
  }

  // ---------------------------------------------------------------------
  // Parsing a command
  // ---------------------------------------------------------------------

  /** Drops the quotes of a JSON-encoded command: the first and last characters when it starts with a quote. */
  function StripQuotes(cmd: string): (r: string)
    ensures |cmd| > 1 && cmd[0] == '\"' ==> |r| == |cmd| - 2 && r == cmd[1..|cmd| - 1]
    ensures !(|cmd| > 1 && cmd[0] == '\"') ==> r == cmd
  {
    if |cmd| > 1 && cmd[0] == '\"' then cmd[1..|cmd| - 1] else cmd
  }

  /** A command encoded as a JSON string loses its quotes again. */
  lemma StripQuotesOfQuoted(command: string)
    ensures StripQuotes("\"" + command + "\"") == command
  {
    var q := "\"" + command + "\"";
    assert q[1..|q| - 1] == command;
  }

  const IntMin := -0x8000_0000
  const IntMax := 0x7fff_ffff
  /** One more than the largest `size_t`. */
  const SizeTModulus := 0x1_0000_0000_0000_0000

  predicate AllDigits(s: string)
  {
    forall i :: 0 <= i < |s| ==> IsDigit(s[i])
  }

  /**
   * `base::StringToInt`'s verdict: an optional sign and at least one digit,
   * nothing else, and a value that fits an `int`.
   */
  function StringToInt(s: string): (r: Option<int>)
    ensures r.Some? ==> IntMin <= r.value <= IntMax
    ensures r.Some? ==> s != [] && AllDigits(s[1..])
  {
    if s != [] && (s[0] == '-' || s[0] == '+') then
      var digits := s[1..];
      if digits != [] && AllDigits(digits) then
        var v := if s[0] == '-' then -(ParseDecimal(digits) as int) else ParseDecimal(digits) as int;
        if IntMin <= v <= IntMax then Some(v) else None
      else
        None
    else if s != [] && AllDigits(s) && ParseDecimal(s) <= IntMax then
      assert AllDigits(s[1..]) by {
        assert forall i :: 0 <= i < |s| - 1 ==> s[1..][i] == s[i + 1];
      }
      Some(ParseDecimal(s))
    else
      None
  }

  /** `%d` of an `int` reads back as that `int`, in both signs. */
  lemma StringToIntRoundTrip(n: int)
    requires IntMin <= n <= IntMax
    ensures n >= 0 ==> StringToInt(Decimal(n)) == Some(n)
    ensures n < 0 ==> StringToInt("-" + Decimal(-n)) == Some(n)
  {
    if n >= 0 {
      DecimalRoundTrip(n);
      assert Decimal(n)[0] != '-' && Decimal(n)[0] != '+' by {
        assert IsDigit(Decimal(n)[0]);
      }
    } else {
      var s := "-" + Decimal(-n);
      assert s[1..] == Decimal(-n);
      DecimalRoundTrip(-n);
    }
  }

  /** `static_cast<size_t>` of an `int`: negative values wrap around. */
  function SizeT(n: int): (r: nat)
    ensures 0 <= n < SizeTModulus ==> r == n
    ensures IntMin <= n < 0 ==> r == n + SizeTModulus
  {
    n % SizeTModulus
  }

  datatype ParsedCommand = ParsedCommand(name: string, elementIndex: nat)

  /**
   * Splits "name:N" into the name before the first colon and the element
   * index N; the index is 0 when there is no colon or N does not parse.
   */
  function ParseElementIndex(command: string): (p: ParsedCommand)
    ensures ':' !in command ==> p == ParsedCommand(command, 0)
    ensures ':' !in p.name && p.name <= command
  {
    match FirstIndex(command, ':')
    case None => ParsedCommand(command, 0)
    case Some(k) =>
      var index := match StringToInt(command[k + 1..])
        case Some(n) => SizeT(n)
        case None => 0;
      ParsedCommand(command[..k], index)
  }

  /** "name:N" with a non-negative N gives back the name and N. */
  lemma ParseElementIndexRoundTrip(name: string, n: nat)
    requires ':' !in name && n <= IntMax
    ensures ParseElementIndex(name + ":" + Decimal(n)) == ParsedCommand(name, n)
  {
    var c := name + ":" + Decimal(n);
    FirstIndexAfter(name, ':', Decimal(n));
    assert c[..|name|] == name && c[|name| + 1..] == Decimal(n);
    StringToIntRoundTrip(n);
  }

  /** A negative index wraps around to a huge `size_t`, past any list of resources. */
  lemma NegativeIndexWraps(name: string, n: int, resourceCount: nat)
    requires ':' !in name && IntMin <= n < 0 && resourceCount <= IntMax
    ensures ParseElementIndex(name + ":" + ("-" + Decimal(-n))).elementIndex >= resourceCount
  {
    var c := name + ":" + ("-" + Decimal(-n));
    FirstIndexAfter(name, ':', "-" + Decimal(-n));
    assert c[|name| + 1..] == "-" + Decimal(-n);
    StringToIntRoundTrip(n);
  }

  /** What the page does for a command. */
  datatype CommandOutcome =
    | SetReporting(report: bool)
    | OpenUrl(url: string)
    | OpenPrivacyPolicy
    | ProceedInterstitial
    | DontProceedInterstitial
    | GoBack
    | LoadNewTab
    | OpenReportError(elementIndex: nat)
    | OpenDiagnostic(elementIndex: nat)
    | NoAction
    /** A command the page does not expect, or an element index out of range. */
    | Ignored

  /** The "learn more" link for the first resource's threat; an empty URL for any other threat. */
  function LearnMoreUrl(t: ThreatType, v2: bool): (url: string)
    ensures IsMalwareThreat(t) ==> url == (if v2 then LearnMoreMalwareUrlV2 else LearnMoreMalwareUrl)
    ensures IsPhishingThreat(t) ==> url == (if v2 then LearnMorePhishingUrlV2 else LearnMorePhishingUrl)
    ensures url == "" <==> !IsMalwareThreat(t) && !IsPhishingThreat(t)
  {
    if IsMalwareThreat(t) then (if v2 then LearnMoreMalwareUrlV2 else LearnMoreMalwareUrl)
    else if IsPhishingThreat(t) then (if v2 then LearnMorePhishingUrlV2 else LearnMorePhishingUrl)
    else ""
  }

  /**
   * The action for an unquoted command.  "proceed" is turned into
   * "take me back" when the policy disables proceeding; "take me back"
   * closes the interstitial when the main frame is blocked and otherwise
   * goes back, or to the new tab page when there is no history; the
   * indexed commands apply only to an index inside the resource list.
   */
  function Dispatch(command: string, resources: seq<UnsafeResource>, mainFrameBlocked: bool,
                    proceedAnywayDisabled: bool, canGoBack: bool): (o: CommandOutcome)
    requires |resources| >= 1
    ensures o.SetReporting? <==> command == DoReportCommand || command == DontReportCommand
    ensures o.SetReporting? ==> o.report == (command == DoReportCommand)
    ensures o.ProceedInterstitial? <==> command == ProceedCommand && !proceedAnywayDisabled
    ensures o.DontProceedInterstitial? <==>
              mainFrameBlocked && (command == TakeMeBackCommand || (command == ProceedCommand && proceedAnywayDisabled))
    ensures o.OpenReportError? ==>
              ParseElementIndex(command) == ParsedCommand(ReportErrorCommand, o.elementIndex)
              && o.elementIndex < |resources|
    ensures o.OpenDiagnostic? ==>
              ParseElementIndex(command) == ParsedCommand(ShowDiagnosticCommand, o.elementIndex)
              && o.elementIndex < |resources|
  {
    if command == DoReportCommand then SetReporting(true)
    else if command == DontReportCommand then SetReporting(false)
    else if command == LearnMoreCommand then OpenUrl(LearnMoreUrl(resources[0].threatType, false))
    else if command == LearnMoreCommandV2 then OpenUrl(LearnMoreUrl(resources[0].threatType, true))
    else if command == ShowPrivacyCommand then OpenPrivacyPolicy
    else if command == ProceedCommand && !proceedAnywayDisabled then ProceedInterstitial
    else if command == TakeMeBackCommand || command == ProceedCommand then
      if mainFrameBlocked then DontProceedInterstitial
      else if canGoBack then GoBack
      else LoadNewTab
    else
      DispatchIndexed(ParseElementIndex(command), |resources|)
  }

  /** The commands that may carry an element index, once it is split off. */
  function DispatchIndexed(p: ParsedCommand, resourceCount: nat): (o: CommandOutcome)
    ensures o.OpenReportError? || o.OpenDiagnostic? ==> o.elementIndex == p.elementIndex < resourceCount
    ensures o.OpenReportError? <==> p.name == ReportErrorCommand && p.elementIndex < resourceCount
    ensures o.OpenDiagnostic? <==> p.name == ShowDiagnosticCommand && p.elementIndex < resourceCount
    ensures p.elementIndex >= resourceCount ==> o == Ignored
  {
    if p.elementIndex >= resourceCount then Ignored
    else if p.name == ReportErrorCommand then OpenReportError(p.elementIndex)
    else if p.name == ShowDiagnosticCommand then OpenDiagnostic(p.elementIndex)
    else if p.name == ExpandedSeeMoreCommand then NoAction
    else Ignored
  }

  /** A command with a colon in it is none of the plain commands, so only its index and name decide. */
  lemma IndexedDispatch(command: string, resources: seq<UnsafeResource>, blocked: bool, disabled: bool, canGoBack: bool)
    requires |resources| >= 1 && ':' in command
    ensures Dispatch(command, resources, blocked, disabled, canGoBack)
            == DispatchIndexed(ParseElementIndex(command), |resources|)
  {
    assert ':' !in DoReportCommand && ':' !in DontReportCommand && ':' !in LearnMoreCommand;
    assert ':' !in LearnMoreCommandV2 && ':' !in ShowPrivacyCommand && ':' !in ProceedCommand;
    assert ':' !in TakeMeBackCommand;
  }

  /** "reportError:N" and "showDiagnostic:N" act on resource N when it exists. */
  lemma IndexedCommandReachesResource(resources: seq<UnsafeResource>, n: nat, blocked: bool, disabled: bool, canGoBack: bool)
    requires 1 <= |resources| <= IntMax && n < |resources|
    ensures Dispatch(ReportErrorCommand + ":" + Decimal(n), resources, blocked, disabled, canGoBack) == OpenReportError(n)
    ensures Dispatch(ShowDiagnosticCommand + ":" + Decimal(n), resources, blocked, disabled, canGoBack) == OpenDiagnostic(n)
  {
    IndexedCommandParses(ReportErrorCommand, n, resources, blocked, disabled, canGoBack);
    IndexedCommandParses(ShowDiagnosticCommand, n, resources, blocked, disabled, canGoBack);
  }

  /** "name:N" is dispatched on its name and N. */
  lemma IndexedCommandParses(name: string, n: nat, resources: seq<UnsafeResource>, blocked: bool, disabled: bool,
                             canGoBack: bool)
    requires 1 <= |resources| && ':' !in name && n <= IntMax
    ensures Dispatch(name + ":" + Decimal(n), resources, blocked, disabled, canGoBack)
            == DispatchIndexed(ParsedCommand(name, n), |resources|)
  {
    ParseElementIndexRoundTrip(name, n);
    ColonIsAt(name, Decimal(n));
    IndexedDispatch(name + ":" + Decimal(n), resources, blocked, disabled, canGoBack);
  }

  /** A negative element index is rejected, whatever the command. */
  lemma NegativeIndexIgnored(resources: seq<UnsafeResource>, name: string, n: int, blocked: bool, disabled: bool,
                             canGoBack: bool)
    requires 1 <= |resources| <= IntMax && ':' !in name && IntMin <= n < 0
    ensures Dispatch(name + ":" + ("-" + Decimal(-n)), resources, blocked, disabled, canGoBack) == Ignored
  {
    var command := name + ":" + ("-" + Decimal(-n));
    NegativeIndexWraps(name, n, |resources|);
    ColonIsAt(name, "-" + Decimal(-n));
    IndexedDispatch(command, resources, blocked, disabled, canGoBack);
  }

  /** The colon joining a name and its index is in the command. */
  lemma ColonIsAt(name: string, rest: string)
    ensures ':' in name + ":" + rest
  {
    assert (name + ":" + rest)[|name|] == ':';
  }

  // ---------------------------------------------------------------------
  // Recorded user actions
  // ---------------------------------------------------------------------

  datatype BlockingPageEvent = Show | Proceed | DontProceed | ShowAdvanced

  /** The number of values of the interstitial-action histogram. */
  const MaxAction := 15

  function KindBase(t: InterstitialType): nat
  {
    match t
    case TypeMalware => 0
    case TypeMalwareAndPhishing => 1
    case TypePhishing => 2
  }

  /**
   * The "SB2.InterstitialAction" value: malware, multiple and phishing each
   * have show, don't proceed, forced don't proceed and proceed, in that
   * order, followed by the three "show advanced" values.
   */
  function HistogramAction(event: BlockingPageEvent, t: InterstitialType, proceedAnywayDisabled: bool): (a: nat)
    ensures a < MaxAction
  {
    match event
    case Show => 4 * KindBase(t)
    case DontProceed => 4 * KindBase(t) + (if proceedAnywayDisabled then 2 else 1)
    case Proceed => 4 * KindBase(t) + 3
    case ShowAdvanced => 12 + KindBase(t)
  }

  /** Reads an interstitial-action value back: the event, the type, and whether a don't-proceed was forced. */
  function DecodeHistogramAction(a: nat): Option<(BlockingPageEvent, InterstitialType, bool)>
  {
    if a >= MaxAction then None
    else
      var t := if a >= 12 then KindOf(a - 12) else KindOf(a / 4);
      if a >= 12 then Some((ShowAdvanced, t, false))
      else if a % 4 == 0 then Some((Show, t, false))
      else if a % 4 == 3 then Some((Proceed, t, false))
      else Some((DontProceed, t, a % 4 == 2))
  }

  function KindOf(k: nat): InterstitialType
  {
    if k == 0 then TypeMalware else if k == 1 then TypeMalwareAndPhishing else TypePhishing
  }

  /** Distinct events, types and forcing give distinct histogram values. */
  lemma HistogramActionRoundTrip(event: BlockingPageEvent, t: InterstitialType, proceedAnywayDisabled: bool)
    ensures DecodeHistogramAction(HistogramAction(event, t, proceedAnywayDisabled))
            == Some((event, t, event == DontProceed && proceedAnywayDisabled))
  {
    var k := KindBase(t);
    assert KindOf(k) == t;
    var a := HistogramAction(event, t, proceedAnywayDisabled);
    if event != ShowAdvanced {
      assert a / 4 == k;
    }
  }

  datatype DetailedAction =
    | MalwareShowNewSite
    | MalwareProceedNewSite
    | PhishingShowNewSite
    | PhishingProceedNewSite
    | MalwareShowCrossSite
    | MalwareProceedCrossSite
    | PhishingShowCrossSite
    | PhishingProceedCrossSite

  predicate IsMalwareDetail(d: DetailedAction)
  {
    d in {MalwareShowNewSite, MalwareProceedNewSite, MalwareShowCrossSite, MalwareProceedCrossSite}
  }

  predicate IsProceedDetail(d: DetailedAction)
  {
    d in {MalwareProceedNewSite, PhishingProceedNewSite, MalwareProceedCrossSite, PhishingProceedCrossSite}
  }

  /**
   * The detailed actions of a proceed or don't proceed on a single-kind
   * interstitial: "new site" when the host was never visited, "cross site"
   * when the first resource is a subresource.
   */
  function DetailedActions(event: BlockingPageEvent, t: InterstitialType, numVisits: int, firstIsSubresource: bool)
    : (ds: seq<DetailedAction>)
    ensures ds != [] ==> (event == Proceed || event == DontProceed) && t != TypeMalwareAndPhishing
    ensures |ds| <= 4
    ensures forall i :: 0 <= i < |ds| ==> (IsMalwareDetail(ds[i]) <==> t == TypeMalware)
    ensures forall i :: 0 <= i < |ds| && IsProceedDetail(ds[i]) ==> event == Proceed
    ensures (event == Proceed || event == DontProceed) && t != TypeMalwareAndPhishing ==>
              ((numVisits == 0 || firstIsSubresource) <==> ds != [])
  {
    if (event == Proceed || event == DontProceed) && t != TypeMalwareAndPhishing then
      var malware := t == TypeMalware;
      var newSite :=
        if numVisits == 0 then
          [if malware then MalwareShowNewSite else PhishingShowNewSite]
          + (if event == Proceed then [if malware then MalwareProceedNewSite else PhishingProceedNewSite] else [])
        else [];
      var crossSite :=
        if firstIsSubresource then
          [if malware then MalwareShowCrossSite else PhishingShowCrossSite]
          + (if event == Proceed then [if malware then MalwareProceedCrossSite else PhishingProceedCrossSite] else [])
        else [];
      newSite + crossSite
    else
      []
  }

  function KindName(t: InterstitialType): string
  {
    match t
    case TypeMalwareAndPhishing => "Multiple"
    case TypeMalware => "Malware"
    case TypePhishing => "Phishing"
  }

  function EventName(event: BlockingPageEvent, proceedAnywayDisabled: bool): string
  {
    match event
    case Show => "Show"
    case Proceed => "Proceed"
    case DontProceed => if proceedAnywayDisabled then "ForcedDontProceed" else "DontProceed"
    case ShowAdvanced => ""
  }

  /** The computed user action: "SBInterstitial", the kind, then the event. */
  function ComputedAction(event: BlockingPageEvent, t: InterstitialType, proceedAnywayDisabled: bool): (name: string)
    ensures |name| >= 14 && name[..14] == "SBInterstitial"
    ensures event == ShowAdvanced ==> name == "SBInterstitial" + KindName(t)
  {
    "SBInterstitial" + KindName(t) + EventName(event, proceedAnywayDisabled)
  }

  /** Everything one call of RecordUserAction reports. */
  datatype UserActionRecord = UserActionRecord(histogramAction: nat, detailed: seq<DetailedAction>, computedAction: string)

  function RecordUserAction(event: BlockingPageEvent, t: InterstitialType, proceedAnywayDisabled: bool, numVisits: int,
                            firstIsSubresource: bool): (r: UserActionRecord)
    ensures r.histogramAction < MaxAction
    ensures r.detailed != [] ==> event == Proceed || event == DontProceed
  {
    UserActionRecord(HistogramAction(event, t, proceedAnywayDisabled),
                     DetailedActions(event, t, numVisits, firstIsSubresource),
                     ComputedAction(event, t, proceedAnywayDisabled))
  }

  // ---------------------------------------------------------------------
  // Reaction time
  // ---------------------------------------------------------------------

  /** Whether the show time is still set, and whether "see more" was already expanded. */
  datatype ReactionState = ReactionState(showTimeSet: bool, expandedSeeMore: bool)

  /** The new state, the reaction-time histogram recorded, and whether "show advanced" was recorded. */
  datatype ReactionOutcome = ReactionOutcome(state: ReactionState, histogram: Option<string>, showAdvanced: bool)

  /** The commands that end a malware and a phishing interstitial alike, or expand its "see more" section. */
  predicate IsReactionCommand(command: string)
  {
    || command == ProceedCommand || command == TakeMeBackCommand || command == ShowDiagnosticCommand
    || command == LearnMoreCommand || command == LearnMoreCommandV2
    || command == NavigatedAwayMetaCommand || command == ExpandedSeeMoreCommand
  }

  /** The common prefixes of the malware and the phishing reaction-time histogram names. */
  const MalwareHistogramPrefix := "SB2.MalwareInterstitial"
  const PhishingHistogramPrefix := "SB2.PhishingInterstitial"

  /** The reaction-time histogram of a command, for a malware (or mixed) or a phishing interstitial. */
  function ReactionHistogram(t: InterstitialType, command: string): (r: Option<string>)
    ensures r.Some? <==>
              IsReactionCommand(command) || ((t == TypeMalware || t == TypeMalwareAndPhishing) && command == ShowPrivacyCommand)
    ensures r.Some? && (t == TypeMalware || t == TypeMalwareAndPhishing) ==> MalwareHistogramPrefix <= r.value
    ensures r.Some? && !(t == TypeMalware || t == TypeMalwareAndPhishing) ==> PhishingHistogramPrefix <= r.value
  {
    if t == TypeMalware || t == TypeMalwareAndPhishing then MalwareReactionHistogram(command)
    else PhishingReactionHistogram(command)
  }

  function MalwareReactionHistogram(command: string): (r: Option<string>)
    ensures r.Some? <==> IsReactionCommand(command) || command == ShowPrivacyCommand
    ensures r.Some? ==> MalwareHistogramPrefix <= r.value
  {
    if command == ProceedCommand then Some(MalwareHistogramPrefix + "TimeProceed")
    else if command == TakeMeBackCommand then Some(MalwareHistogramPrefix + "TimeTakeMeBack")
    else if command == ShowDiagnosticCommand then Some(MalwareHistogramPrefix + "TimeDiagnostic")
    else if command == ShowPrivacyCommand then Some(MalwareHistogramPrefix + "TimePrivacyPolicy")
    else if command == LearnMoreCommand || command == LearnMoreCommandV2 then Some(MalwareHistogramPrefix + "LearnMore")
    else if command == NavigatedAwayMetaCommand then Some(MalwareHistogramPrefix + "TimeClosed")
    else if command == ExpandedSeeMoreCommand then Some(MalwareHistogramPrefix + "TimeExpandedSeeMore")
    else None
  }

  function PhishingReactionHistogram(command: string): (r: Option<string>)
    ensures r.Some? <==> IsReactionCommand(command)
    ensures r.Some? ==> PhishingHistogramPrefix <= r.value
  {
    if command == ProceedCommand then Some(PhishingHistogramPrefix + "TimeProceed")
    else if command == TakeMeBackCommand then Some(PhishingHistogramPrefix + "TimeTakeMeBack")
    else if command == ShowDiagnosticCommand then Some(PhishingHistogramPrefix + "TimeReportError")
    else if command == LearnMoreCommand || command == LearnMoreCommandV2 then Some(PhishingHistogramPrefix + "TimeLearnMore")
    else if command == NavigatedAwayMetaCommand then Some(PhishingHistogramPrefix + "TimeClosed")
    else if command == ExpandedSeeMoreCommand then Some(PhishingHistogramPrefix + "TimeExpandedSeeMore")
    else None
  }

  /**
   * One call of RecordUserReactionTime.  Nothing happens once the show
   * time is cleared; the first "expanded see more" records "show advanced"
   * and its histogram but keeps the show time; any other known command
   * records its histogram and clears the show time.
   */
  function ReactionStep(s: ReactionState, t: InterstitialType, command: string): (o: ReactionOutcome)
    ensures o.state.showTimeSet ==> s.showTimeSet
    ensures s.expandedSeeMore ==> o.state.expandedSeeMore
    ensures o.histogram.Some? || o.showAdvanced ==> s.showTimeSet
    ensures o.showAdvanced <==> s.showTimeSet && !s.expandedSeeMore && command == ExpandedSeeMoreCommand
    ensures o.showAdvanced ==> o.state == s.(expandedSeeMore := true) && o.histogram.Some?
    ensures o.state.showTimeSet != s.showTimeSet ==> o.histogram.Some? && command != ExpandedSeeMoreCommand
  {
    if !s.showTimeSet then
      ReactionOutcome(s, None, false)
    else if command == ExpandedSeeMoreCommand then
      if s.expandedSeeMore then ReactionOutcome(s, None, false)
      else ReactionOutcome(s.(expandedSeeMore := true), ReactionHistogram(t, command), true)
    else
      match ReactionHistogram(t, command)
      case None => ReactionOutcome(s, None, false)
      case Some(h) => ReactionOutcome(s.(showTimeSet := false), Some(h), false)
  }

  /** The state after a series of commands, with how many reaction times and "show advanced" were recorded. */
  datatype ReactionRecord = ReactionRecord(state: ReactionState, reactionTimes: nat, showAdvanced: nat)

  function ReactionRun(s: ReactionState, t: InterstitialType, commands: seq<string>): ReactionRecord
    decreases |commands|
  {
    if commands == [] then ReactionRecord(s, 0, 0)
    else
      var o := ReactionStep(s, t, commands[0]);
      var rest := ReactionRun(o.state, t, commands[1..]);
      var ended := if o.state.showTimeSet != s.showTimeSet then 1 else 0;
      ReactionRecord(rest.state, rest.reactionTimes + ended, rest.showAdvanced + (if o.showAdvanced then 1 else 0))
  }

  /**
   * Within one display, the reaction time is recorded at most once, and
   * "show advanced" at most once; neither happens again once the show
   * time is cleared or the section is expanded.
   */
  lemma {:induction false} ReactionRecordedAtMostOnce(s: ReactionState, t: InterstitialType, commands: seq<string>)
    ensures ReactionRun(s, t, commands).reactionTimes <= (if s.showTimeSet then 1 else 0)
    ensures ReactionRun(s, t, commands).showAdvanced <= (if s.showTimeSet && !s.expandedSeeMore then 1 else 0)
    ensures ReactionRun(s, t, commands).reactionTimes == 1 ==> !ReactionRun(s, t, commands).state.showTimeSet
    ensures !s.showTimeSet ==> !ReactionRun(s, t, commands).state.showTimeSet
    decreases |commands|
  {
    if commands != [] {
      ReactionRecordedAtMostOnce(ReactionStep(s, t, commands[0]).state, t, commands[1..]);
    }
  }

  // ---------------------------------------------------------------------
  // Preferences
  // ---------------------------------------------------------------------

  /**
   * The preferences the page reads and writes: extended reporting (its
   * value and whether the user ever set it) and the policy that disables
   * "proceed anyway".
   */
  datatype Prefs = Prefs(extendedReportingEnabled: bool, extendedReportingSet: bool, proceedAnywayDisabled: bool)

  /**
   * UpdateReportingPref: a reporting box left checked turns extended
   * reporting on, but only while the user never set that preference.
   */
  function UpdatedReportingPrefs(checked: bool, p: Prefs): (r: Prefs)
    ensures p.extendedReportingEnabled ==> r == p
    ensures r != p <==> checked && !p.extendedReportingEnabled && !p.extendedReportingSet
    ensures r != p ==> r == p.(extendedReportingEnabled := true, extendedReportingSet := true)
  {
    if !checked || p.extendedReportingEnabled || p.extendedReportingSet then p
    else p.(extendedReportingEnabled := true, extendedReportingSet := true)
  }

  /** The page's report of its verdict to the UI manager for a list of resources. */
  datatype Notification = Notification(resources: seq<UnsafeResource>, proceed: bool)

  // ---------------------------------------------------------------------
  // The per-tab queue
  // ---------------------------------------------------------------------

  /** The global map from a tab to the unsafe resources waiting behind its interstitial. */
  class UnsafeResourceQueue {
    var pending: map<Tab, seq<UnsafeResource>>

    constructor ()
      ensures pending == map[]
    {
      pending := map[];
    }

    /** The resources queued for a tab. */
    function Queued(tab: Tab): (q: seq<UnsafeResource>)
      reads this
      ensures tab !in pending ==> q == []
    {
      if tab in pending then pending[tab] else []
    }

    /** `(*map)[tab].push_back(resource)`. */
    method Enqueue(tab: Tab, resource: UnsafeResource)
      modifies this
      ensures pending == old(pending)[tab := old(Queued(tab)) + [resource]]
      ensures Queued(tab) == old(Queued(tab)) + [resource]
      ensures forall other :: other != tab ==> Queued(other) == old(Queued(other))
    {
      pending := pending[tab := Queued(tab) + [resource]];
    }

    /** Takes the tab's queued resources away, when there are any. */
    method TakeQueued(tab: Tab) returns (taken: seq<UnsafeResource>)
      modifies this
      ensures taken == old(Queued(tab))
      ensures taken != [] ==> pending == old(pending) - {tab}
      ensures taken == [] ==> pending == old(pending)
      ensures Queued(tab) == []
      ensures forall other :: other != tab ==> Queued(other) == old(Queued(other))
    {
      taken := Queued(tab);
      if taken != [] {
        pending := pending - {tab};
      }
    }
  }

  /** What ShowBlockingPage does with a new unsafe resource. */
  datatype ShowOutcome =
    /** Show a new page for the resource, after hiding the current interstitial when `hideCurrent`. */
    | ShowNew(hideCurrent: bool, version: PageVersion)
    | Queued

  /**
   * A new unsafe resource for a tab: a main-frame resource replaces any
   * interstitial that is showing; a subresource behind a showing
   * interstitial is queued; otherwise a new page is shown.
   */
  method ShowBlockingPage(queue: UnsafeResourceQueue, resource: UnsafeResource, interstitialShowing: bool,
                          condition: TrialCondition) returns (outcome: ShowOutcome)
    modifies queue
    ensures outcome.Queued? <==> interstitialShowing && resource.isSubresource
    ensures outcome.Queued? ==> queue.pending == old(queue.pending)[resource.tab := old(queue.Queued(resource.tab)) + [resource]]
    ensures outcome.ShowNew? ==> queue.pending == old(queue.pending)
    ensures outcome.ShowNew? ==>
              outcome == ShowNew(interstitialShowing, ChoosePageVersion([resource], condition))
  {
    if interstitialShowing && resource.isSubresource {
      queue.Enqueue(resource.tab, resource);
      outcome := Queued;
    } else {
      outcome := ShowNew(interstitialShowing, ChoosePageVersion([resource], condition));
    }
  }

  // ---------------------------------------------------------------------
  // The page
  // ---------------------------------------------------------------------

  class BlockingPage {
    const version: PageVersion
    const tab: Tab
    const unsafeResources: seq<UnsafeResource>
    const interstitialType: InterstitialType
    const isMainFrameLoadBlocked: bool
    var proceeded: bool
    /** Whether `interstitial_show_time_` is set. */
    var showTimeSet: bool
    var hasExpandedSeeMoreSection: bool
    var reportingCheckboxChecked: bool
    var numVisits: int
    var navigationEntryIndexToRemove: int
    var prefs: Prefs
    /** The user actions recorded so far. */
    var actions: seq<UserActionRecord>
    /** The reaction-time histograms recorded so far. */
    var reactionTimes: seq<string>

    /** What is fixed at construction: a non-empty resource list, and the type and blocking that follow from it. */
    ghost predicate Valid()
    {
      && |unsafeResources| >= 1
      && ClassifiedAs(unsafeResources, interstitialType)
      && isMainFrameLoadBlocked == IsMainPageLoadBlocked(unsafeResources)
    }

    function ReactionStateOf(): ReactionState
      reads this`showTimeSet, this`hasExpandedSeeMoreSection
    {
      ReactionState(showTimeSet, hasExpandedSeeMoreSection)
    }

    function ActionRecord(event: BlockingPageEvent): UserActionRecord
      reads this`prefs, this`numVisits
      requires |unsafeResources| >= 1
    {
      RecordUserAction(event, interstitialType, prefs.proceedAnywayDisabled, numVisits, unsafeResources[0].isSubresource)
    }

    /**
     * The constructor: classifies the threats, records the "show" action,
     * and remembers the committed entry to remove later when the main
     * frame was not blocked.
     */
    constructor (version: PageVersion, tab: Tab, resources: seq<UnsafeResource>, lastCommittedEntryIndex: int,
                 prefs: Prefs)
      requires |resources| >= 1
      ensures Valid()
      ensures this.version == version && this.tab == tab && unsafeResources == resources
      ensures !proceeded && !showTimeSet && !hasExpandedSeeMoreSection && !reportingCheckboxChecked
      ensures numVisits == -1 && this.prefs == prefs
      ensures navigationEntryIndexToRemove == (if isMainFrameLoadBlocked then -1 else lastCommittedEntryIndex)
      ensures actions == [RecordUserAction(Show, interstitialType, prefs.proceedAnywayDisabled, -1,
                                           resources[0].isSubresource)]
      ensures reactionTimes == []
    {
      this.version := version;
      this.tab := tab;
      unsafeResources := resources;
      var blocked := IsMainPageLoadBlocked(resources);
      isMainFrameLoadBlocked := blocked;
      var t := ClassifyThreats(resources);
      interstitialType := t;
      proceeded := false;
      showTimeSet := false;
      hasExpandedSeeMoreSection := false;
      reportingCheckboxChecked := false;
      numVisits := -1;
      this.prefs := prefs;
      actions := [RecordUserAction(Show, t, prefs.proceedAnywayDisabled, -1, resources[0].isSubresource)];
      reactionTimes := [];
      navigationEntryIndexToRemove := if blocked then -1 else lastCommittedEntryIndex;
    }

    /** The page's HTML was produced: the reaction-time clock starts. */
    method MarkShown()
      modifies this
      ensures showTimeSet
      ensures hasExpandedSeeMoreSection == old(hasExpandedSeeMoreSection) && actions == old(actions)
      ensures proceeded == old(proceeded) && prefs == old(prefs) && reactionTimes == old(reactionTimes)
      ensures numVisits == old(numVisits) && navigationEntryIndexToRemove == old(navigationEntryIndexToRemove)
      ensures reportingCheckboxChecked == old(reportingCheckboxChecked)
    {
      showTimeSet := true;
    }

    method OnGotHistoryCount(success: bool, visits: int)
      modifies this
      ensures numVisits == (if success then visits else old(numVisits))
      ensures unchanged(this`proceeded, this`showTimeSet, this`hasExpandedSeeMoreSection, this`prefs, this`actions)
      ensures unchanged(this`reactionTimes, this`navigationEntryIndexToRemove, this`reportingCheckboxChecked)
    {
      if success {
        numVisits := visits;
      }
    }

    method RecordUserReactionTime(command: string)
      requires Valid()
      modifies this`showTimeSet, this`hasExpandedSeeMoreSection, this`actions, this`reactionTimes
      ensures ReactionStateOf() == ReactionStep(old(ReactionStateOf()), interstitialType, command).state
      ensures reactionTimes == old(reactionTimes) + ReactionStep(old(ReactionStateOf()), interstitialType, command).histogram.ToSeq()
      ensures actions == old(actions) + (if ReactionStep(old(ReactionStateOf()), interstitialType, command).showAdvanced
                                        then [old(ActionRecord(ShowAdvanced))] else [])
    {
      var o := ReactionStep(ReactionStateOf(), interstitialType, command);
      if o.showAdvanced {
        actions := actions + [ActionRecord(ShowAdvanced)];
      }
      reactionTimes := reactionTimes + o.histogram.ToSeq();
      showTimeSet := o.state.showTimeSet;
      hasExpandedSeeMoreSection := o.state.expandedSeeMore;
    }

    /** SetReportingPreference: the preference is set to the user's choice and the box follows it. */
    method SetReportingPreference(report: bool)
      modifies this`prefs, this`reportingCheckboxChecked
      ensures prefs == old(prefs).(extendedReportingEnabled := report, extendedReportingSet := true)
      ensures reportingCheckboxChecked == report
    {
      prefs := prefs.(extendedReportingEnabled := report, extendedReportingSet := true);
      reportingCheckboxChecked := report;
    }

    /**
     * A command from the page, possibly JSON-quoted: records the reaction
     * time, stores a reporting choice, and returns what the interstitial
     * is to do.
     */
    method CommandReceived(cmd: string, canGoBack: bool) returns (outcome: CommandOutcome)
      requires Valid()
      modifies this
      ensures outcome == Dispatch(StripQuotes(cmd), unsafeResources, isMainFrameLoadBlocked,
                                  old(prefs).proceedAnywayDisabled, canGoBack)
      ensures ReactionStateOf() == ReactionStep(old(ReactionStateOf()), interstitialType, StripQuotes(cmd)).state
      ensures reactionTimes == old(reactionTimes)
                               + ReactionStep(old(ReactionStateOf()), interstitialType, StripQuotes(cmd)).histogram.ToSeq()
      ensures actions == old(actions) + (if ReactionStep(old(ReactionStateOf()), interstitialType, StripQuotes(cmd)).showAdvanced
                                        then [old(ActionRecord(ShowAdvanced))] else [])
      ensures outcome.SetReporting? ==> prefs == old(prefs).(extendedReportingEnabled := outcome.report,
                                                             extendedReportingSet := true)
                                        && reportingCheckboxChecked == outcome.report
      ensures !outcome.SetReporting? ==> prefs == old(prefs) && reportingCheckboxChecked == old(reportingCheckboxChecked)
      ensures proceeded == old(proceeded) && numVisits == old(numVisits)
      ensures navigationEntryIndexToRemove == old(navigationEntryIndexToRemove)
    {
      var command := StripQuotes(cmd);
      RecordUserReactionTime(command);
      outcome := Dispatch(command, unsafeResources, isMainFrameLoadBlocked, prefs.proceedAnywayDisabled, canGoBack);
      if outcome.SetReporting? {
        SetReportingPreference(outcome.report);
      }
    }

    /**
     * The user proceeded: record it, tell the UI manager, and build the
     * next page for the resources queued for this tab, if any, to be shown
     * now that this one is gone.
     */
    method OnProceed(queue: UnsafeResourceQueue, condition: TrialCondition, lastCommittedEntryIndex: int)
      returns (notified: seq<Notification>, next: BlockingPage?)
      requires Valid()
      modifies this`proceeded, this`actions, this`prefs, this`reportingCheckboxChecked, queue
      ensures proceeded
      ensures actions == old(actions) + [old(ActionRecord(Proceed))]
      ensures prefs == UpdatedReportingPrefs(old(reportingCheckboxChecked), old(prefs))
      ensures notified == [Notification(unsafeResources, true)]
      ensures queue.Queued(tab) == []
      ensures forall other :: other != tab ==> queue.Queued(other) == old(queue.Queued(other))
      ensures next == null <==> old(queue.Queued(tab)) == []
      ensures next != null ==> fresh(next) && next.Valid() && next.unsafeResources == old(queue.Queued(tab))
                               && next.version == ChoosePageVersion(next.unsafeResources, condition)
                               && next.tab == tab
    {
      proceeded := true;
      actions := actions + [ActionRecord(Proceed)];
      UpdateReportingPref();
      notified := [Notification(unsafeResources, true)];
      var queued := queue.TakeQueued(tab);
      next := null;
      if queued != [] {
        next := new BlockingPage(ChoosePageVersion(queued, condition), tab, queued, lastCommittedEntryIndex, prefs);
      }
    }

    /**
     * The interstitial goes away without proceeding.  After a proceed only
     * the reaction time is handled; otherwise the refusal is recorded and
     * reported, the tab's queued resources are refused too, and the
     * offending navigation entry is removed unless it is the committed one
     * or the tab is being destroyed.
     */
    method OnDontProceed(queue: UnsafeResourceQueue, lastCommittedEntryIndex: int, beingDestroyed: bool)
      returns (notified: seq<Notification>, removedEntry: Option<int>)
      requires Valid()
      modifies this`showTimeSet, this`hasExpandedSeeMoreSection, this`actions, this`reactionTimes
      modifies this`prefs, this`reportingCheckboxChecked, this`navigationEntryIndexToRemove, queue
      ensures ReactionStateOf() == ReactionStep(old(ReactionStateOf()), interstitialType, NavigatedAwayMetaCommand).state
      ensures reactionTimes == old(reactionTimes)
                               + ReactionStep(old(ReactionStateOf()), interstitialType, NavigatedAwayMetaCommand).histogram.ToSeq()
      ensures actions == old(actions) + (if old(proceeded) then [] else [old(ActionRecord(DontProceed))])
      ensures old(proceeded) ==> notified == [] && removedEntry == None && queue.pending == old(queue.pending)
                                 && prefs == old(prefs)
                                 && navigationEntryIndexToRemove == old(navigationEntryIndexToRemove)
      ensures !old(proceeded) ==>
                && notified == [Notification(unsafeResources, false)]
                               + (if old(queue.Queued(tab)) == [] then [] else [Notification(old(queue.Queued(tab)), false)])
                && queue.Queued(tab) == []
                && (forall other :: other != tab ==> queue.Queued(other) == old(queue.Queued(other)))
                && prefs == UpdatedReportingPrefs(old(reportingCheckboxChecked), old(prefs))
      ensures !old(proceeded) && old(navigationEntryIndexToRemove) != -1
              && old(navigationEntryIndexToRemove) != lastCommittedEntryIndex && !beingDestroyed ==>
                removedEntry == Some(old(navigationEntryIndexToRemove)) && navigationEntryIndexToRemove == -1
      ensures removedEntry.None? ==> navigationEntryIndexToRemove == old(navigationEntryIndexToRemove)
      ensures proceeded == old(proceeded)
    {
      RecordUserReactionTime(NavigatedAwayMetaCommand);
      if proceeded {
        return [], None;
      }
      notified, removedEntry := RefuseResources(queue, lastCommittedEntryIndex, beingDestroyed);
    }

    /** The part of `OnDontProceed` after a page that was not proceeded through. */
    method RefuseResources(queue: UnsafeResourceQueue, lastCommittedEntryIndex: int, beingDestroyed: bool)
      returns (notified: seq<Notification>, removedEntry: Option<int>)
      requires Valid()
      modifies this`actions, this`prefs, this`reportingCheckboxChecked, this`navigationEntryIndexToRemove, queue
      ensures actions == old(actions) + [old(ActionRecord(DontProceed))]
      ensures notified == [Notification(unsafeResources, false)]
                          + (if old(queue.Queued(tab)) == [] then [] else [Notification(old(queue.Queued(tab)), false)])
      ensures queue.Queued(tab) == []
      ensures forall other :: other != tab ==> queue.Queued(other) == old(queue.Queued(other))
      ensures prefs == UpdatedReportingPrefs(old(reportingCheckboxChecked), old(prefs))
      ensures old(navigationEntryIndexToRemove) != -1
              && old(navigationEntryIndexToRemove) != lastCommittedEntryIndex && !beingDestroyed ==>
                removedEntry == Some(old(navigationEntryIndexToRemove)) && navigationEntryIndexToRemove == -1
      ensures removedEntry.None? ==> navigationEntryIndexToRemove == old(navigationEntryIndexToRemove)
    {
      actions := actions + [ActionRecord(DontProceed)];
      UpdateReportingPref();
      notified := [Notification(unsafeResources, false)];
      var queued := queue.TakeQueued(tab);
      if queued != [] {
        notified := notified + [Notification(queued, false)];
      }
      removedEntry := None;
      if navigationEntryIndexToRemove != -1 && navigationEntryIndexToRemove != lastCommittedEntryIndex
         && !beingDestroyed {
        removedEntry := Some(navigationEntryIndexToRemove);
        navigationEntryIndexToRemove := -1;
      }
    }

    method UpdateReportingPref()
      modifies this`prefs, this`reportingCheckboxChecked
      ensures prefs == UpdatedReportingPrefs(old(reportingCheckboxChecked), old(prefs))
      ensures reportingCheckboxChecked == old(reportingCheckboxChecked)
    {
      if reportingCheckboxChecked && !prefs.extendedReportingEnabled && !prefs.extendedReportingSet {
        SetReportingPreference(true);
      }
    }
  }

  /** The default factory: the page version follows from the resources and the trial condition. */
  method CreateSafeBrowsingPage(tab: Tab, resources: seq<UnsafeResource>, condition: TrialCondition,
                                lastCommittedEntryIndex: int, prefs: Prefs) returns (page: BlockingPage)
    requires |resources| >= 1
    ensures fresh(page) && page.Valid() && page.unsafeResources == resources && page.tab == tab
    ensures page.version == ChoosePageVersion(resources, condition)
  {
    page := new BlockingPage(ChoosePageVersion(resources, condition), tab, resources, lastCommittedEntryIndex, prefs);
  }
}
