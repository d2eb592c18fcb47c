/**
 * The page component (page.js): the step counter, the stored payloads of every
 * step, the website normaliser and the open/pinned rules of the info panel.
 */
module Home {
  import opened Wrappers
  import opened Text
  import opened Payloads

  const FirstStep := 1
  const LastStep := 5

  /** handleNextStep: one step forward while below the last step. */
  function NextStep(step: int): (r: int)
    ensures r == step || r == step + 1
    ensures r == step + 1 <==> step < LastStep
    ensures FirstStep <= step <= LastStep ==> FirstStep <= r <= LastStep
  {
    if step < LastStep then step + 1 else step
  }

  /** handleBackStep: one step back while above the first step. */
  function BackStep(step: int): (r: int)
    ensures r == step || r == step - 1
    ensures r == step - 1 <==> step > FirstStep
    ensures FirstStep <= step <= LastStep ==> FirstStep <= r <= LastStep
  {
    if step > FirstStep then step - 1 else step
  }

  datatype Move = Next | Back

  /** The step reached from `step` by a sequence of next/back requests. */
  function StepAfter(step: int, moves: seq<Move>): int
    decreases |moves|
  {
    if moves == [] then step
    else StepAfter(if moves[0] == Next then NextStep(step) else BackStep(step), moves[1..])
  }

  /** Whatever the user clicks, the step counter stays within 1..5. */
  lemma {:induction false} StepStaysInRange(step: int, moves: seq<Move>)
    requires FirstStep <= step <= LastStep
    ensures FirstStep <= StepAfter(step, moves) <= LastStep
    decreases |moves|
  {
    if moves != [] {
      StepStaysInRange(if moves[0] == Next then NextStep(step) else BackStep(step), moves[1..]);
    }
  }

  /** Next then back returns to where it started below step 5; back then next above step 1. */
  lemma NextBackInverse(step: int)
    requires FirstStep <= step <= LastStep
    ensures step < LastStep ==> StepAfter(step, [Next, Back]) == step
    ensures step > FirstStep ==> StepAfter(step, [Back, Next]) == step
  {
    assert [Next, Back][1..] == [Back] && [Back][1..] == [];
    assert [Back, Next][1..] == [Next] && [Next][1..] == [];
  }

  /** Four nexts from the first step reach the last; any further next stays there. */
  lemma {:induction false} NextsSaturate(k: nat)
    ensures StepAfter(FirstStep, seq(k, _ => Next)) == if k < 4 then FirstStep + k else LastStep
  {
    NextsFrom(FirstStep, k);
  }

  lemma {:induction false} NextsFrom(step: int, k: nat)
    requires FirstStep <= step <= LastStep
    ensures StepAfter(step, seq(k, _ => Next)) == if step + k <= LastStep then step + k else LastStep
    decreases k
  {
    if k > 0 {
      assert seq(k, _ => Next)[1..] == seq(k - 1, _ => Next);
      NextsFrom(NextStep(step), k - 1);
    }
  }

  /** The views `renderCurrentStep` chooses between. */
  datatype StepView = WebsiteView | BusinessView | LanguageLocationView | KeywordView | CompetitorView

  /** renderCurrentStep: steps 2..5 have their own view, every other value shows step 1's. */
  function ViewFor(step: int): (v: StepView)
    ensures v == WebsiteView <==> !(2 <= step <= 5)
    ensures v == BusinessView <==> step == 2
    ensures v == LanguageLocationView <==> step == 3
    ensures v == KeywordView <==> step == 4
    ensures v == CompetitorView <==> step == 5
  {
    match step
    case 2 => BusinessView
    case 3 => LanguageLocationView
    case 4 => KeywordView
    case 5 => CompetitorView
    case _ => WebsiteView
  }

  /** `if (s.startsWith(p)) s = s.replace(p, "")` */
  function StripPrefix(s: string, prefix: string): (r: string)
    ensures prefix <= s ==> s == prefix + r
    ensures !(prefix <= s) ==> r == s
  {
    if prefix <= s then ReplaceFirst(s, prefix) else s
  }

  /** `r` is a suffix of `s`. */
  predicate IsSuffix(r: string, s: string) {
    |r| <= |s| && s[|s| - |r|..] == r
  }

  /**
   * The three guarded replacements of handleWebsiteSubmit: strip a leading
   * "http://", then a leading "https://", then a leading "www.", each at most once.
   */
  function StripSchemeAndWww(s: string): (r: string)
    ensures IsSuffix(r, s)
    ensures Unprefixed(s) ==> r == s
  {
    var noHttp := StripPrefix(s, "http://");
    var noHttps := StripPrefix(noHttp, "https://");
    var r := StripPrefix(noHttps, "www.");
    assert IsSuffix(r, s) by {
      assert IsSuffix(noHttp, s) && IsSuffix(noHttps, noHttp) && IsSuffix(r, noHttps);
      SuffixTransitive(r, noHttps, noHttp);
      SuffixTransitive(r, noHttp, s);
    }
    r
  }

  /** handleWebsiteSubmit's normalisation: lowercase, then strip the prefixes. */
  function NormalizeWebsite(website: string): (r: string)
    ensures IsSuffix(r, ToLower(website))
    ensures Unprefixed(ToLower(website)) ==> r == ToLower(website)
  {
    StripSchemeAndWww(ToLower(website))
  }

  lemma SuffixTransitive(a: string, b: string, c: string)
    requires IsSuffix(a, b) && IsSuffix(b, c)
    ensures IsSuffix(a, c)
  {
    assert c[|c| - |a|..] == c[|c| - |b|..][|b| - |a|..];
  }

  /** None of the three prefixes the normaliser strips begins `s`. */
  predicate Unprefixed(s: string) {
    !("http://" <= s) && !("https://" <= s) && !("www." <= s)
  }

  /**
   * A host behind one of the schemes "", "http://", "https://" and an optional
   * "www." comes back out of the stripping, as long as it does not itself start
   * with one of the stripped prefixes.
   */
  lemma StripRecoversHost(scheme: string, www: string, host: string)
    requires scheme == "" || scheme == "http://" || scheme == "https://"
    requires www == "" || www == "www."
    requires Unprefixed(host)
    ensures StripSchemeAndWww(scheme + www + host) == host
  {
    var rest := www + host;
    assert scheme + www + host == scheme + rest;
    WwwHostUnschemed(www, host);
    SchemeStripped(scheme, rest);
    var stripped := StripPrefix(StripPrefix(scheme + rest, "http://"), "https://");
    assert stripped == rest;
    assert StripSchemeAndWww(scheme + rest) == StripPrefix(stripped, "www.");
  }

  lemma WwwHostUnschemed(www: string, host: string)
    requires www == "" || www == "www."
    requires Unprefixed(host)
    ensures !("http://" <= www + host) && !("https://" <= www + host)
    ensures StripPrefix(www + host, "www.") == host
  {
    if www != "" {
      assert (www + host)[0] == 'w';
    } else {
      assert www + host == host;
    }
  }

  lemma SchemeStripped(scheme: string, rest: string)
    requires scheme == "" || scheme == "http://" || scheme == "https://"
    requires !("http://" <= rest) && !("https://" <= rest)
    ensures StripPrefix(StripPrefix(scheme + rest, "http://"), "https://") == rest
  {
    if scheme == "http://" {
      assert StripPrefix(scheme + rest, "http://") == rest;
    } else if scheme == "https://" {
      assert (scheme + rest)[4] == 's';
      assert StripPrefix(scheme + rest, "http://") == scheme + rest;
    } else {
      assert scheme + rest == rest;
    }
  }

  /**
   * So the normaliser gives back the lowercased host whatever the letter case of
   * the scheme and of "www.".
   */
  lemma NormalizeRecoversHost(scheme: string, www: string, host: string)
    requires ToLower(scheme) == "" || ToLower(scheme) == "http://" || ToLower(scheme) == "https://"
    requires www == "" || ToLower(www) == "www."
    requires Unprefixed(ToLower(host))
    ensures NormalizeWebsite(scheme + www + host) == ToLower(host)
  {
    ToLowerAppend(scheme + www, host);
    ToLowerAppend(scheme, www);
    assert ToLower(scheme + www + host) == ToLower(scheme) + ToLower(www) + ToLower(host);
    assert www == "" ==> ToLower(www) == "";
    StripRecoversHost(ToLower(scheme), ToLower(www), ToLower(host));
  }

  /** "https://www.Hola.com" is stored as "hola.com". */
  lemma NormalizeHolaExample(site: string)
    requires site == "https://www.Hola.com"
    ensures NormalizeWebsite(site) == "hola.com"
  {
    var scheme, www, host := "https://", "www.", "Hola.com";
    HolaLowercase(scheme, www, host);
    NormalizeRecoversHost(scheme, www, host);
  }

  lemma HolaLowercase(scheme: string, www: string, host: string)
    requires scheme == "https://" && www == "www." && host == "Hola.com"
    ensures scheme + www + host == "https://www.Hola.com"
    ensures ToLower(scheme) == "https://" && ToLower(www) == "www."
    ensures ToLower(host) == "hola.com" && Unprefixed("hola.com")
  {
    assert "hola.com"[1] == 'o';
  }

  /** "HTTP://Example.org" is stored as "example.org". */
  lemma NormalizeExampleOrg(site: string)
    requires site == "HTTP://Example.org"
    ensures NormalizeWebsite(site) == "example.org"
  {
    var scheme, www, host := "HTTP://", "", "Example.org";
    ExampleOrgLowercase(scheme, www, host);
    NormalizeRecoversHost(scheme, www, host);
  }

  lemma ExampleOrgLowercase(scheme: string, www: string, host: string)
    requires scheme == "HTTP://" && www == "" && host == "Example.org"
    ensures scheme + www + host == "HTTP://Example.org"
    ensures ToLower(scheme) == "http://"
    ensures ToLower(host) == "example.org" && Unprefixed("example.org")
  {
    assert "example.org"[0] == 'e';
  }

  /** The sidebar's info button: flips the panel unless it is pinned. */
  function InfoOpenAfterButton(open: bool, pinned: bool): (r: bool)
    ensures pinned ==> r == open
    ensures !pinned ==> r != open
  {
    if pinned then open else !open
  }

  /**
   * The document-level mousedown: closes the panel only when the panel is
   * mounted, the target is outside it, the target is not inside the sidebar's
   * info button, and the panel is not pinned; otherwise nothing changes.
   */
  function InfoOpenAfterMouseDown(open: bool, pinned: bool, panelMounted: bool, inPanel: bool, onInfoButton: bool)
    : (r: bool)
    ensures r ==> open
    ensures r != open <==> open && panelMounted && !inPanel && !onInfoButton && !pinned
  {
    if panelMounted && !inPanel && !onInfoButton && !pinned then false else open
  }

  /** The two ways of closing the panel that pinning suppresses. */
  datatype PanelEvent = InfoButtonClick | MouseDown(panelMounted: bool, inPanel: bool, onInfoButton: bool)

  function OpenAfter(open: bool, pinned: bool, events: seq<PanelEvent>): bool
    decreases |events|
  {
    if events == [] then open
    else
      var next := match events[0]
        case InfoButtonClick => InfoOpenAfterButton(open, pinned)
        case MouseDown(m, i, b) => InfoOpenAfterMouseDown(open, pinned, m, i, b);
      OpenAfter(next, pinned, events[1..])
  }

  /** A pinned panel stays as it is through any sequence of button clicks and mousedowns. */
  lemma {:induction false} PinnedPanelUnaffected(open: bool, events: seq<PanelEvent>)
    ensures OpenAfter(open, true, events) == open
    decreases |events|
  {
    if events != [] {
      PinnedPanelUnaffected(open, events[1..]);
    }
  }

  /** An unpinned panel is never opened by a mousedown: a closed panel stays closed through mousedowns alone. */
  lemma {:induction false} MouseDownNeverOpens(pinned: bool, events: seq<PanelEvent>)
    requires forall i :: 0 <= i < |events| ==> events[i].MouseDown?
    ensures !OpenAfter(false, pinned, events)
    decreases |events|
  {
    if events != [] {
      MouseDownNeverOpens(pinned, events[1..]);
    }
  }

  /** handleCompetitorSubmit's fallback: a missing payload is stored as the all-empty one. */
  function StoredCompetitors(data: Option<CompetitorPayload>): (r: CompetitorPayload)
    ensures data.Some? ==> r == data.value
    ensures data.None? ==> r.businessCompetitors == [] && r.searchCompetitors == [] && r.totalCompetitors == []
  {
    data.GetOr(NoCompetitors)
  }

  /** The page's state. */
  class Wizard {
    var isInfoOpen: bool
    var isPinned: bool
    var currentStep: int
    var websiteData: Option<WebsitePayload>
    var businessData: Option<BusinessData>
    var languageLocationData: Option<LanguageLocationData>
    var selectedKeywords: seq<string>
    var competitorData: Option<CompetitorPayload>

    /** The step counter stays within 1..5. */
    ghost predicate Valid()
      reads this
    {
      FirstStep <= currentStep <= LastStep
    }

    constructor ()
      ensures Valid()
      ensures currentStep == FirstStep && !isInfoOpen && !isPinned
      ensures websiteData == None && businessData == None && languageLocationData == None
      ensures selectedKeywords == [] && competitorData == None
    {
      isInfoOpen, isPinned := false, false;
      currentStep := 1;
      websiteData, businessData, languageLocationData := None, None, None;
      selectedKeywords := [];
      competitorData := None;
    }

    /** The view shown for the current step; in a valid state step 1's view means step 1. */
    function CurrentView(): (v: StepView)
      reads this
      ensures Valid() ==> (v == WebsiteView <==> currentStep == FirstStep)
    {
      ViewFor(currentStep)
    }

    method HandleNextStep()
      requires Valid()
      modifies this`currentStep
      ensures Valid()
      ensures currentStep == NextStep(old(currentStep))
    {
      if currentStep < 5 {
        currentStep := currentStep + 1;
      }
    }

    method HandleBackStep()
      requires Valid()
      modifies this`currentStep
      ensures Valid()
      ensures currentStep == BackStep(old(currentStep))
    {
      if currentStep > 1 {
        currentStep := currentStep - 1;
      }
    }

    /** handleWebsiteSubmit: stores the normalised website (the timestamp is not modelled). */
    method HandleWebsiteSubmit(website: string)
      modifies this`websiteData
      ensures websiteData == Some(WebsitePayload(NormalizeWebsite(website)))
    {
      var cleanWebsite := ToLower(website);
      if "http://" <= cleanWebsite {
        cleanWebsite := ReplaceFirst(cleanWebsite, "http://");
      }
      if "https://" <= cleanWebsite {
        cleanWebsite := ReplaceFirst(cleanWebsite, "https://");
      }
      if "www." <= cleanWebsite {
        cleanWebsite := ReplaceFirst(cleanWebsite, "www.");
      }
      websiteData := Some(WebsitePayload(cleanWebsite));
    }

    /** handleBusinessDataSubmit: stores what step 2 delivers. */
    method HandleBusinessDataSubmit(business: Option<BusinessData>)
      modifies this`businessData
      ensures businessData == business
    {
      businessData := business;
    }

    /** handleLanguageLocationSubmit: stores what step 3 delivers. */
    method HandleLanguageLocationSubmit(data: Option<LanguageLocationData>)
      modifies this`languageLocationData
      ensures languageLocationData == data
    {
      languageLocationData := data;
    }

    /** handleKeywordSubmit: stores the delivered keywords unchanged. */
    method HandleKeywordSubmit(data: KeywordPayload)
      modifies this`selectedKeywords
      ensures selectedKeywords == data.keywords
    {
      selectedKeywords := data.keywords;
    }

    /** handleCompetitorSubmit: stores the payload, or the all-empty one for a missing payload. */
    method HandleCompetitorSubmit(data: Option<CompetitorPayload>)
      modifies this`competitorData
      ensures competitorData == Some(StoredCompetitors(data))
    {
      competitorData := Some(if data.Some? then data.value else CompetitorPayload([], [], []));
    }

    /** The sidebar's onInfoClick. */
    method InfoClick()
      modifies this`isInfoOpen
      ensures isInfoOpen == InfoOpenAfterButton(old(isInfoOpen), isPinned)
    {
      if isPinned {
        return;
      }
      isInfoOpen := !isInfoOpen;
    }

    /** handleClickOutside; DOM containment is given as booleans. */
    method MouseDown(panelMounted: bool, inPanel: bool, onInfoButton: bool)
      modifies this`isInfoOpen
      ensures isInfoOpen == InfoOpenAfterMouseDown(old(isInfoOpen), isPinned, panelMounted, inPanel, onInfoButton)
    {
      if panelMounted && !inPanel && !onInfoButton && !isPinned {
        isInfoOpen := false;
      }
    }

    /** The panel's setIsPinned. */
    method SetPinned(pinned: bool)
      modifies this`isPinned
      ensures isPinned == pinned
    {
      isPinned := pinned;
    }

    /** The panel's onClose: closes it whether or not it is pinned. */
    method CloseInfo()
      modifies this`isInfoOpen
      ensures !isInfoOpen
    {
      isInfoOpen := false;
    }
  }
}
