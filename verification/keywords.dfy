/**
 * Step 4 of the wizard (component StepSlide4): the keyword selection, the
 * "add your own keyword" box and the effect that hands `{ keywords }` to the page.
 */
module Keywords {
  import opened Wrappers
  import opened Text
  import opened Selection
  import opened Payloads

  /**
   * The submission effect as written: with a non-empty selection, deliver
   * `{ keywords }` unless it equals the last delivered payload, record it and show
   * the summary; with an empty selection deliver nothing and hide the summary.
   */
  function KeywordEffect(selected: seq<string>, last: Option<KeywordPayload>): (e: Effect<KeywordPayload>)
    ensures e.showSummary <==> selected != []
    ensures e.delivered.Some? <==> selected != [] && last != Some(KeywordPayload(selected))
    ensures e.delivered.Some? ==> e.delivered == Some(KeywordPayload(selected)) && e.last == e.delivered
    ensures e.delivered.None? ==> e.last == last
  {
    if selected != [] then
      var payload := KeywordPayload(selected);
      if Some(payload) != last then Effect(Some(payload), Some(payload), true)
      else Effect(None, last, true)
    else
      Effect(None, last, false)
  }

  /** The page's copy of the keywords after the effect: a delivery overwrites it. */
  function Received(parent: seq<string>, delivered: Option<KeywordPayload>): seq<string> {
    match delivered
    case Some(p) => p.keywords
    case None => parent
  }

  /** Running the effect again on an unchanged selection delivers nothing and changes nothing. */
  lemma KeywordEffectSettles(selected: seq<string>, last: Option<KeywordPayload>)
    ensures var e := KeywordEffect(selected, last);
            KeywordEffect(selected, e.last) == Effect(None, e.last, e.showSummary)
  {
  }

  /** The effect as written never delivers and never records an empty keyword list. */
  lemma KeywordEffectNeverEmpty(selected: seq<string>, last: Option<KeywordPayload>)
    requires last.Some? ==> last.value.keywords != []
    ensures var e := KeywordEffect(selected, last);
            (e.delivered.Some? ==> e.delivered.value.keywords != []) &&
            (e.last.Some? ==> e.last.value.keywords != [])
  {
  }

  /**
   * As written, clearing the selection is never reported: after "Keyword A" was
   * delivered and then toggled off, the page still holds ["Keyword A"].
   */
  lemma ClearedKeywordsStayWithPage()
    ensures var first := KeywordEffect(["Keyword A"], None);
            var parent := Received([], first.delivered);
            var cleared := Toggle(["Keyword A"], "Keyword A");
            var second := KeywordEffect(cleared, first.last);
            parent == ["Keyword A"] && cleared == [] &&
            Received(parent, second.delivered) == ["Keyword A"]
  {
    assert Without(["Keyword A"], "Keyword A") == [] by {
      assert ["Keyword A"][1..] == [];
    }
  }

  /**
   * The corrected effect: the payload is the whole selection, empty or not; it is
   * delivered whenever it differs from the last delivered one, and recorded.
   */
  function KeywordEffectFixed(selected: seq<string>, last: Option<KeywordPayload>): (e: Effect<KeywordPayload>)
    ensures e.showSummary <==> selected != []
    ensures e.last == Some(KeywordPayload(selected))
    ensures e.delivered.Some? <==> last != Some(KeywordPayload(selected))
    ensures e.delivered.Some? ==> e.delivered == e.last
  {
    var payload := KeywordPayload(selected);
    Effect(if Some(payload) != last then Some(payload) else None, Some(payload), selected != [])
  }

  /**
   * With the corrected effect the page's copy equals the selection after every run,
   * provided it equalled the last delivered payload before.
   */
  lemma FixedKeywordEffectSyncsPage(selected: seq<string>, last: Option<KeywordPayload>, parent: seq<string>)
    requires last.Some? ==> parent == last.value.keywords
    ensures var e := KeywordEffectFixed(selected, last);
            Received(parent, e.delivered) == selected &&
            (e.last.Some? ==> Received(parent, e.delivered) == e.last.value.keywords)
  {
  }

  /** The component's state. */
  class KeywordStep {
    var selectedKeywords: seq<string>
    var customKeyword: string
    var showSummary: bool
    var lastSubmitted: Option<KeywordPayload>

    /** The selection has no duplicates and the last delivered payload is never empty. */
    ghost predicate Valid()
      reads this
    {
      && NoDuplicates(selectedKeywords)
      && (lastSubmitted.Some? ==> lastSubmitted.value.keywords != [])
    }

    constructor ()
      ensures Valid()
      ensures selectedKeywords == [] && customKeyword == "" && !showSummary && lastSubmitted == None
    {
      selectedKeywords := [];
      customKeyword := "";
      showSummary := false;
      lastSubmitted := None;
    }

    /** handleKeywordToggle */
    method ToggleKeyword(keyword: string)
      requires Valid()
      modifies this
      ensures Valid()
      ensures selectedKeywords == Toggle(old(selectedKeywords), keyword)
      ensures customKeyword == old(customKeyword) && showSummary == old(showSummary)
      ensures lastSubmitted == old(lastSubmitted)
    {
      ToggleKeepsNoDuplicates(selectedKeywords, keyword);
      selectedKeywords := Toggle(selectedKeywords, keyword);
    }

    /** The input box's onChange. */
    method EditCustom(text: string)
      modifies this
      ensures customKeyword == text
      ensures selectedKeywords == old(selectedKeywords) && showSummary == old(showSummary)
      ensures lastSubmitted == old(lastSubmitted)
    {
      customKeyword := text;
    }

    /**
     * handleAddCustom: a non-empty trimmed value that is not yet selected is
     * appended and the box is cleared; otherwise nothing changes.
     */
    method AddCustom()
      requires Valid()
      modifies this
      ensures Valid()
      ensures var v := Trim(old(customKeyword));
              if v != [] && v !in old(selectedKeywords) then
                selectedKeywords == old(selectedKeywords) + [v] && customKeyword == ""
              else
                selectedKeywords == old(selectedKeywords) && customKeyword == old(customKeyword)
      ensures showSummary == old(showSummary) && lastSubmitted == old(lastSubmitted)
    {
      var trimmed := Trim(customKeyword);
      if trimmed != [] && trimmed !in selectedKeywords {
        selectedKeywords := AppendIfAbsent(selectedKeywords, trimmed);
        customKeyword := "";
      }
    }

    /** handleKeyPress: Enter adds the custom keyword, any other key does nothing. */
    method KeyPress(key: string)
      requires Valid()
      modifies this
      ensures Valid()
      ensures key != "Enter" ==> selectedKeywords == old(selectedKeywords) && customKeyword == old(customKeyword)
      ensures key == "Enter" && Trim(old(customKeyword)) != [] && Trim(old(customKeyword)) !in old(selectedKeywords) ==>
                selectedKeywords == old(selectedKeywords) + [Trim(old(customKeyword))] && customKeyword == ""
      ensures key == "Enter" && (Trim(old(customKeyword)) == [] || Trim(old(customKeyword)) in old(selectedKeywords)) ==>
                selectedKeywords == old(selectedKeywords) && customKeyword == old(customKeyword)
      ensures showSummary == old(showSummary) && lastSubmitted == old(lastSubmitted)
    {
      if key == "Enter" {
        AddCustom();
      }
    }

    /** The submission effect, run after the selection changes; returns what the page receives. */
    method SubmitEffect() returns (delivered: Option<KeywordPayload>)
      requires Valid()
      modifies this
      ensures Valid()
      ensures var e := KeywordEffect(old(selectedKeywords), old(lastSubmitted));
              delivered == e.delivered && lastSubmitted == e.last && showSummary == e.showSummary
      ensures selectedKeywords == old(selectedKeywords) && customKeyword == old(customKeyword)
    {
      delivered := None;
      if |selectedKeywords| > 0 {
        var payload := KeywordPayload(selectedKeywords);
        if Some(payload) != lastSubmitted {
          lastSubmitted := Some(payload);
          delivered := Some(payload);
        }
        showSummary := true;
      } else {
        showSummary := false;
      }
    }
  }

  /**
   * Selecting two different keywords and then adding a custom one whose trimmed
   * text is new: the effect, run after each change of the selection, delivers
   * [a], then [a, c], then the three keywords in that order.
   */
  method SelectTwoThenAdd(a: string, c: string, custom: string) returns (deliveries: seq<Option<KeywordPayload>>)
    requires a != c && Trim(custom) != [] && Trim(custom) != a && Trim(custom) != c
    ensures deliveries == [Some(KeywordPayload([a])), Some(KeywordPayload([a, c])),
                           Some(KeywordPayload([a, c, Trim(custom)]))]
  {
    var step := new KeywordStep();
    step.ToggleKeyword(a);
    assert step.selectedKeywords == [a];
    var first := step.SubmitEffect();
    step.ToggleKeyword(c);
    assert step.selectedKeywords == [a, c];
    var second := step.SubmitEffect();
    step.EditCustom(custom);
    assert Trim(custom) !in step.selectedKeywords;
    step.AddCustom();
    assert step.selectedKeywords == [a, c, Trim(custom)];
    var third := step.SubmitEffect();
    deliveries := [first, second, third];
  }

  /**
   * Adding a keyword that is already selected leaves the selection and the box
   * alone, and the next effect delivers nothing.
   */
  method AddDuplicate(custom: string) returns (delivered: Option<KeywordPayload>, kept: seq<string>, box: string)
    requires Trim(custom) != []
    ensures delivered == None && kept == [Trim(custom)] && box == custom
  {
    var step := new KeywordStep();
    step.EditCustom(custom);
    step.AddCustom();
    var first := step.SubmitEffect();
    step.EditCustom(custom);
    step.AddCustom();
    delivered := step.SubmitEffect();
    kept, box := step.selectedKeywords, step.customKeyword;
  }
}
