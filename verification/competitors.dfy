/**
 * Step 5 of the wizard (component StepSlide5): two independent selections,
 * business competitors and search-engine competitors, each with its own
 * "More -> add custom" box, and the effect that hands the competitor payload to
 * the page.
 */
module Competitors {
  import opened Wrappers
  import opened Text
  import opened Selection
  import opened Payloads

  /**
   * The submission effect as written. With something selected, the payload is
   * delivered unless it equals the last delivered one, recorded, and the summary
   * shown. With both lists empty, the all-empty payload is delivered every time,
   * the summary hidden, and the record left as it was.
   */
  function CompetitorEffect(business: seq<string>, search: seq<string>, last: Option<CompetitorPayload>)
    : (e: Effect<CompetitorPayload>)
    ensures e.showSummary <==> business != [] || search != []
    ensures e.delivered.Some? ==> e.delivered.value == CompetitorsOf(business, search) && WellFormed(e.delivered.value)
    ensures business == [] && search == [] ==> e.delivered == Some(NoCompetitors) && e.last == last
    ensures business != [] || search != [] ==>
              && (e.delivered.Some? <==> last != Some(CompetitorsOf(business, search)))
              && (e.delivered.Some? ==> e.last == e.delivered)
              && (e.delivered.None? ==> e.last == last)
  {
    if |business| + |search| > 0 then
      var payload := CompetitorsOf(business, search);
      if Some(payload) != last then Effect(Some(payload), Some(payload), true)
      else Effect(None, last, true)
    else
      Effect(Some(NoCompetitors), last, false)
  }

  /** The page's copy after the effect (handleCompetitorSubmit): a delivery overwrites it. */
  function ReceivedCompetitors(parent: Option<CompetitorPayload>, delivered: Option<CompetitorPayload>)
    : Option<CompetitorPayload>
  {
    if delivered.Some? then delivered else parent
  }

  /** With something selected, running the effect again on the same lists delivers nothing and changes nothing. */
  lemma CompetitorEffectSettles(business: seq<string>, search: seq<string>, last: Option<CompetitorPayload>)
    requires business != [] || search != []
    ensures var e := CompetitorEffect(business, search, last);
            CompetitorEffect(business, search, e.last) == Effect(None, e.last, true)
  {
  }

  /**
   * The recorded payload always satisfies totalCompetitors == business ++ search
   * and is never the all-empty payload.
   */
  lemma CompetitorRecordWellFormed(business: seq<string>, search: seq<string>, last: Option<CompetitorPayload>)
    requires last.Some? ==> WellFormed(last.value) && last.value.totalCompetitors != []
    ensures var e := CompetitorEffect(business, search, last);
            e.last.Some? ==> WellFormed(e.last.value) && e.last.value.totalCompetitors != []
  {
  }

  /**
   * As written, re-selecting what was last delivered after clearing both lists is
   * suppressed: the page keeps the all-empty payload while "Comp-1" is selected.
   */
  lemma ReselectAfterClearIsSuppressed()
    ensures var selected := CompetitorsOf(["Comp-1"], []);
            var first := CompetitorEffect(["Comp-1"], [], None);
            var cleared := CompetitorEffect([], [], first.last);
            var again := CompetitorEffect(["Comp-1"], [], cleared.last);
            var page := ReceivedCompetitors(ReceivedCompetitors(ReceivedCompetitors(None, first.delivered), cleared.delivered), again.delivered);
            first.delivered == Some(selected) && cleared.delivered == Some(NoCompetitors) &&
            again.delivered == None && page == Some(NoCompetitors) && page != Some(selected)
  {
  }

  /** The corrected effect: the all-empty delivery is recorded as the last one too. */
  function CompetitorEffectFixed(business: seq<string>, search: seq<string>, last: Option<CompetitorPayload>)
    : (e: Effect<CompetitorPayload>)
    ensures e.showSummary <==> business != [] || search != []
    ensures e.last == Some(CompetitorsOf(business, search))
    ensures business == [] && search == [] ==> e.delivered == Some(NoCompetitors)
    ensures business != [] || search != [] ==> (e.delivered.Some? <==> last != Some(CompetitorsOf(business, search)))
    ensures e.delivered.Some? ==> e.delivered == e.last
  {
    if |business| + |search| > 0 then
      var payload := CompetitorsOf(business, search);
      if Some(payload) != last then Effect(Some(payload), Some(payload), true)
      else Effect(None, last, true)
    else
      Effect(Some(NoCompetitors), Some(NoCompetitors), false)
  }

  /**
   * With the corrected effect the page's copy is the payload of the current
   * selections after every run, provided it was the last delivered payload before.
   */
  lemma FixedCompetitorEffectSyncsPage(
    business: seq<string>, search: seq<string>, last: Option<CompetitorPayload>, page: Option<CompetitorPayload>)
    requires last.Some? ==> page == last
    ensures var e := CompetitorEffectFixed(business, search, last);
            ReceivedCompetitors(page, e.delivered) == Some(CompetitorsOf(business, search)) &&
            ReceivedCompetitors(page, e.delivered) == e.last
  {
  }

  /** The component's state. */
  class CompetitorStep {
    var selectedBusiness: seq<string>
    var selectedSearch: seq<string>
    var addingBusiness: bool
    var addingSearch: bool
    var bizInput: string
    var searchInput: string
    var showSummary: bool
    var lastSubmitted: Option<CompetitorPayload>

    /**
     * Both selections are duplicate-free, and the last delivered payload is
     * well formed and not all-empty.
     */
    ghost predicate Valid()
      reads this
    {
      && NoDuplicates(selectedBusiness)
      && NoDuplicates(selectedSearch)
      && (lastSubmitted.Some? ==> WellFormed(lastSubmitted.value) && lastSubmitted.value.totalCompetitors != [])
    }

    constructor ()
      ensures Valid()
      ensures selectedBusiness == [] && selectedSearch == []
      ensures !addingBusiness && !addingSearch && bizInput == "" && searchInput == ""
      ensures !showSummary && lastSubmitted == None
    {
      selectedBusiness, selectedSearch := [], [];
      addingBusiness, addingSearch := false, false;
      bizInput, searchInput := "", "";
      showSummary := false;
      lastSubmitted := None;
    }

    /** The inputs, flags and record, none of which a toggle or a remove touches. */
    ghost predicate SameExceptSelections(biz: string, srch: string, addB: bool, addS: bool, shown: bool, last: Option<CompetitorPayload>)
      reads this
    {
      bizInput == biz && searchInput == srch && addingBusiness == addB && addingSearch == addS &&
      showSummary == shown && lastSubmitted == last
    }

    /** toggleBusiness; the search list is left alone. */
    method ToggleBusiness(competitor: string)
      requires Valid()
      modifies this
      ensures Valid()
      ensures selectedBusiness == Toggle(old(selectedBusiness), competitor) && selectedSearch == old(selectedSearch)
      ensures SameExceptSelections(old(bizInput), old(searchInput), old(addingBusiness), old(addingSearch), old(showSummary), old(lastSubmitted))
    {
      ToggleKeepsNoDuplicates(selectedBusiness, competitor);
      selectedBusiness := Toggle(selectedBusiness, competitor);
    }

    /** toggleSearch; the business list is left alone. */
    method ToggleSearch(competitor: string)
      requires Valid()
      modifies this
      ensures Valid()
      ensures selectedSearch == Toggle(old(selectedSearch), competitor) && selectedBusiness == old(selectedBusiness)
      ensures SameExceptSelections(old(bizInput), old(searchInput), old(addingBusiness), old(addingSearch), old(showSummary), old(lastSubmitted))
    {
      ToggleKeepsNoDuplicates(selectedSearch, competitor);
      selectedSearch := Toggle(selectedSearch, competitor);
    }

    /** removeBusiness: the competitor goes, the other business labels keep their order. */
    method RemoveBusiness(competitor: string)
      requires Valid()
      modifies this
      ensures Valid()
      ensures selectedBusiness == Without(old(selectedBusiness), competitor) && selectedSearch == old(selectedSearch)
      ensures SameExceptSelections(old(bizInput), old(searchInput), old(addingBusiness), old(addingSearch), old(showSummary), old(lastSubmitted))
    {
      WithoutKeepsNoDuplicates(selectedBusiness, competitor);
      selectedBusiness := Without(selectedBusiness, competitor);
    }

    /** removeSearch: the competitor goes, the other search labels keep their order. */
    method RemoveSearch(competitor: string)
      requires Valid()
      modifies this
      ensures Valid()
      ensures selectedSearch == Without(old(selectedSearch), competitor) && selectedBusiness == old(selectedBusiness)
      ensures SameExceptSelections(old(bizInput), old(searchInput), old(addingBusiness), old(addingSearch), old(showSummary), old(lastSubmitted))
    {
      WithoutKeepsNoDuplicates(selectedSearch, competitor);
      selectedSearch := Without(selectedSearch, competitor);
    }

    /** The business "More" button opens the custom box. */
    method OpenBusinessInput()
      modifies this`addingBusiness
      ensures addingBusiness
    {
      addingBusiness := true;
    }

    /** The search "More" button opens the custom box. */
    method OpenSearchInput()
      modifies this`addingSearch
      ensures addingSearch
    {
      addingSearch := true;
    }

    /** onChange of the business custom box. */
    method EditBizInput(text: string)
      modifies this`bizInput
      ensures bizInput == text
    {
      bizInput := text;
    }

    /** onChange of the search custom box. */
    method EditSearchInput(text: string)
      modifies this`searchInput
      ensures searchInput == text
    {
      searchInput := text;
    }

    /** Escape or the cancel button on the business box: clear it and close it. */
    method CancelBusinessInput()
      modifies this`bizInput, this`addingBusiness
      ensures bizInput == "" && !addingBusiness
    {
      bizInput := "";
      addingBusiness := false;
    }

    /** Escape or the cancel button on the search box: clear it and close it. */
    method CancelSearchInput()
      modifies this`searchInput, this`addingSearch
      ensures searchInput == "" && !addingSearch
    {
      searchInput := "";
      addingSearch := false;
    }

    /**
     * addCustomBusiness: an all-whitespace box changes nothing; otherwise the
     * trimmed text is appended unless already selected, and in both cases the box
     * is cleared and closed.
     */
    method AddCustomBusiness()
      requires Valid()
      modifies this`selectedBusiness, this`bizInput, this`addingBusiness
      ensures Valid()
      ensures var v := Trim(old(bizInput));
              if v == [] then
                selectedBusiness == old(selectedBusiness) && bizInput == old(bizInput) && addingBusiness == old(addingBusiness)
              else
                selectedBusiness == AppendIfAbsent(old(selectedBusiness), v) && bizInput == "" && !addingBusiness
    {
      var v := Trim(bizInput);
      if v == [] {
        return;
      }
      if v !in selectedBusiness {
        selectedBusiness := selectedBusiness + [v];
      }
      bizInput := "";
      addingBusiness := false;
    }

    /**
     * addCustomSearch: an all-whitespace box changes nothing; otherwise the
     * trimmed text is appended unless already selected, and in both cases the box
     * is cleared and closed.
     */
    method AddCustomSearch()
      requires Valid()
      modifies this`selectedSearch, this`searchInput, this`addingSearch
      ensures Valid()
      ensures var v := Trim(old(searchInput));
              if v == [] then
                selectedSearch == old(selectedSearch) && searchInput == old(searchInput) && addingSearch == old(addingSearch)
              else
                selectedSearch == AppendIfAbsent(old(selectedSearch), v) && searchInput == "" && !addingSearch
    {
      var v := Trim(searchInput);
      if v == [] {
        return;
      }
      if v !in selectedSearch {
        selectedSearch := selectedSearch + [v];
      }
      searchInput := "";
      addingSearch := false;
    }

    /** Enter in the business box adds; Escape cancels; other keys do nothing. */
    method BusinessKeyDown(key: string)
      requires Valid()
      modifies this`selectedBusiness, this`bizInput, this`addingBusiness
      ensures Valid()
      ensures key == "Escape" ==> bizInput == "" && !addingBusiness && selectedBusiness == old(selectedBusiness)
      ensures key != "Enter" && key != "Escape" ==>
                selectedBusiness == old(selectedBusiness) && bizInput == old(bizInput) && addingBusiness == old(addingBusiness)
      ensures key == "Enter" ==>
                var v := Trim(old(bizInput));
                if v == [] then
                  selectedBusiness == old(selectedBusiness) && bizInput == old(bizInput) && addingBusiness == old(addingBusiness)
                else
                  selectedBusiness == AppendIfAbsent(old(selectedBusiness), v) && bizInput == "" && !addingBusiness
    {
      if key == "Enter" {
        AddCustomBusiness();
      }
      if key == "Escape" {
        CancelBusinessInput();
      }
    }

    /** Enter in the search box adds; Escape cancels; other keys do nothing. */
    method SearchKeyDown(key: string)
      requires Valid()
      modifies this`selectedSearch, this`searchInput, this`addingSearch
      ensures Valid()
      ensures key == "Escape" ==> searchInput == "" && !addingSearch && selectedSearch == old(selectedSearch)
      ensures key != "Enter" && key != "Escape" ==>
                selectedSearch == old(selectedSearch) && searchInput == old(searchInput) && addingSearch == old(addingSearch)
      ensures key == "Enter" ==>
                var v := Trim(old(searchInput));
                if v == [] then
                  selectedSearch == old(selectedSearch) && searchInput == old(searchInput) && addingSearch == old(addingSearch)
                else
                  selectedSearch == AppendIfAbsent(old(selectedSearch), v) && searchInput == "" && !addingSearch
    {
      if key == "Enter" {
        AddCustomSearch();
      }
      if key == "Escape" {
        CancelSearchInput();
      }
    }

    /** The submission effect, run after either selection changes; returns what the page receives. */
    method SubmitEffect() returns (delivered: Option<CompetitorPayload>)
      requires Valid()
      modifies this`showSummary, this`lastSubmitted
      ensures Valid()
      ensures var e := CompetitorEffect(old(selectedBusiness), old(selectedSearch), old(lastSubmitted));
              delivered == e.delivered && lastSubmitted == e.last && showSummary == e.showSummary
    {
      var totalSelected := |selectedBusiness| + |selectedSearch|;
      if totalSelected > 0 {
        var payload := CompetitorPayload(selectedBusiness, selectedSearch, selectedBusiness + selectedSearch);
        delivered := None;
        if Some(payload) != lastSubmitted {
          lastSubmitted := Some(payload);
          delivered := Some(payload);
        }
        showSummary := true;
      } else {
        showSummary := false;
        delivered := Some(CompetitorPayload([], [], []));
      }
    }
  }

  /**
   * Selecting one business and one search competitor and then removing both, with
   * the effect run after each change: the payload grows to both groups, shrinks to
   * the search group, and ends with the all-empty payload.
   */
  method SelectThenRemoveAll(biz: string, srch: string) returns (deliveries: seq<Option<CompetitorPayload>>)
    ensures deliveries == [Some(CompetitorsOf([biz], [])), Some(CompetitorsOf([biz], [srch])),
                           Some(CompetitorsOf([], [srch])), Some(NoCompetitors)]
  {
    var step := new CompetitorStep();
    step.ToggleBusiness(biz);
    assert step.selectedBusiness == [biz] && step.selectedSearch == [];
    var first := step.SubmitEffect();
    assert first == Some(CompetitorsOf([biz], []));
    step.ToggleSearch(srch);
    assert step.selectedSearch == [srch];
    var second := step.SubmitEffect();
    assert second == Some(CompetitorsOf([biz], [srch]));
    step.RemoveBusiness(biz);
    assert step.selectedBusiness == [] by {
      assert [biz][1..] == [];
    }
    var third := step.SubmitEffect();
    assert third == Some(CompetitorsOf([], [srch]));
    step.RemoveSearch(srch);
    assert step.selectedSearch == [] by {
      assert [srch][1..] == [];
    }
    var fourth := step.SubmitEffect();
    deliveries := [first, second, third, fourth];
  }
}
